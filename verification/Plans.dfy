/** Import plans and the check made before anything moves
    (`crates/delune-library/src/import.rs`). */
module Plans {
  import opened Text
  import opened Paths
  import opened Relocation
  import opened Trash
  import opened Rollback

  /** A rename within the library; both are texts that `Resolve` reads. */
  datatype Renumber = Renumber(from: string, to: string)

  datatype PlannedFile = PlannedFile(source: string, destination: string, replaced: Option<string>, skip: bool)

  datatype Plan = Plan(tracks: seq<PlannedFile>, renumber: seq<Renumber>, cover: Option<(string, string)>)

  datatype ImportError = Conflicts(paths: seq<Parts>) | UnsafeDestination(name: string) | Io

  /** The place a safe name stands for. */
  function PlaceOf(name: string): Place {
    var parts := Resolve(name);
    Library(if parts.Some? then parts.value else [])
  }

  /** Names as plans write them: plain, outside the trash, with no empty parts. */
  predicate IsProper(name: string) {
    Resolve(name).Some? && IsLibrary(Resolve(name).value) && name == Join(Resolve(name).value, "/")
  }

  // ---- the conflict check ----

  /** Something is there: a file, or a folder with files in it. */
  predicate Occupied<C>(files: map<Place, C>, parts: Parts) {
    exists p :: p in files && p.Library? && parts <= p.parts
  }

  /** Names whose files are renamed or trashed before any track arrives. */
  function Vacated(plan: Plan): set<string> {
    (set r | r in plan.renumber :: r.from) +
    (set t | t in plan.tracks && t.replaced.Some? :: t.replaced.value)
  }

  function RenameTargets(plan: Plan): set<string> {
    set r | r in plan.renumber :: r.to
  }

  predicate SomeLower(names: set<string>, lower: string -> string, key: string) {
    exists name :: name in names && lower(name) == key
  }

  /** The destination is taken: by a file the plan doesn't move away, or, for an arriving
      track, by a name a rename takes. */
  predicate Blocked<C>(plan: Plan, files: map<Place, C>, lower: string -> string, name: string, renaming: bool)
    requires Resolve(name).Some?
  {
    var key := lower(name);
    var taken := SomeLower(RenameTargets(plan), lower, key);
    var freed := SomeLower(Vacated(plan), lower, key) && (renaming || !taken);
    (Occupied(files, Resolve(name).value) && !freed) || (!renaming && taken)
  }

  /** The names the plan moves files to: arriving tracks first, then renames. */
  function Destinations(plan: Plan): seq<(string, bool)> {
    Arriving(plan.tracks) + seq(|plan.renumber|, i requires 0 <= i < |plan.renumber| => (plan.renumber[i].to, true))
  }

  function Arriving(tracks: seq<PlannedFile>): seq<(string, bool)> {
    if tracks == [] then []
    else (if tracks[0].skip then [] else [(tracks[0].destination, false)]) + Arriving(tracks[1..])
  }

  /** Every destination is a plain relative path, and nothing is in its way. */
  ghost predicate NoConflicts<C>(plan: Plan, files: map<Place, C>, lower: string -> string) {
    forall d :: d in Destinations(plan) ==> Resolve(d.0).Some? && !Blocked(plan, files, lower, d.0, d.1)
  }

  /** Which destinations are occupied and not vacated; fails at a name that doesn't resolve. */
  method FindConflicts<C>(plan: Plan, disk: Disk<C>, lower: string -> string) returns (r: Result<seq<Parts>, ImportError>)
    ensures r == Ok([]) <==> NoConflicts(plan, disk.files, lower)
    ensures r.Err? ==> r.error.UnsafeDestination? && Resolve(r.error.name).None?
  {
    var existing: seq<Parts> := [];
    var destinations := Destinations(plan);
    for i := 0 to |destinations|
      invariant forall k :: 0 <= k < i ==> Resolve(destinations[k].0).Some?
      invariant existing == [] <==>
        forall k :: 0 <= k < i ==> !Blocked(plan, disk.files, lower, destinations[k].0, destinations[k].1)
    {
      var (name, renaming) := destinations[i];
      assert destinations[i] in destinations;
      var path := Resolve(name);
      if path.None? {
        return Err(UnsafeDestination(name));
      }
      if Blocked(plan, disk.files, lower, name, renaming) {
        existing := existing + [path.value];
      }
    }
    return Ok(existing);
  }

  // ---- bringing files back ----

  /** Move files straight back, in order; what fails is only logged. */
  method BringHome<C>(disk: Disk<C>, trips: Trips)
    modifies disk`files, disk`stuck
    ensures old(disk.stuck) <= disk.stuck
    ensures disk.stuck == old(disk.stuck) ==> disk.files == BroughtHome(old(disk.files), trips)
  {
    ghost var before, stuck := disk.files, disk.stuck;
    var k := 0;
    while k < |trips|
      invariant 0 <= k <= |trips| && stuck <= disk.stuck
      invariant disk.stuck == stuck ==> BroughtHome(before, trips) == BroughtHome(disk.files, trips[k..])
    {
      var _ := disk.RenameBack(trips[k].1, trips[k].0);
      assert trips[k..][1..] == trips[k + 1..];
      k := k + 1;
    }
  }
}
