/** The renames of an import (`crates/delune-library/src/import.rs`): every file is parked under a name
    of its own before any takes its new one, which makes permutations of names possible. */
module Renumbering {
  import opened Text
  import opened Paths
  import opened Relocation
  import opened Trash
  import opened Rollback
  import opened Renaming
  import opened Overwriting
  import opened Plans

  /** The temporary name: the extension grows by `.delune-renumber`. */
  function Temporary(parts: Parts): Parts {
    var name := FileName(parts);
    Folder(parts) + [if Extension(name).Some? then name + ".delune-renumber" else name + ".audio.delune-renumber"]
  }

  function TemporaryOf(r: Renumber): Place {
    Library(Temporary(PlaceOf(r.from).parts))
  }

  /** The renames the plan's names stand for. */
  function LegOf(r: Renumber): Leg {
    Leg(PlaceOf(r.from), TemporaryOf(r), PlaceOf(r.to))
  }

  function LegsOf(renames: seq<Renumber>): seq<Leg> {
    seq(|renames|, i requires 0 <= i < |renames| => LegOf(renames[i]))
  }

  predicate LegsFor(legs: seq<Leg>, renames: seq<Renumber>) {
    |legs| == |renames| && forall i :: 0 <= i < |legs| ==> legs[i] == LegOf(renames[i])
  }

  /** A step that couldn't be done, or a name of `names` that is unsafe. */
  predicate FailsOn(error: ImportError, names: set<string>) {
    error == Io || (error.UnsafeDestination? && error.name in names && Resolve(error.name).None?)
  }

  /** Why a step that needs `name` can't be done. */
  function ErrorFor(name: string): ImportError {
    if Resolve(name).None? then UnsafeDestination(name) else Io
  }

  function NamesOf(renames: seq<Renumber>): set<string> {
    (set r | r in renames :: r.from) + (set r | r in renames :: r.to)
  }

  lemma FailsOnOne(renames: seq<Renumber>, k: nat, error: ImportError)
    requires k < |renames|
    requires error == ErrorFor(renames[k].from) || error == ErrorFor(renames[k].to)
    ensures FailsOn(error, NamesOf(renames))
  {
    assert renames[k] in renames;
  }

  // ---- the renumbering ----

  /** One file is renamed to its temporary name. */
  method ParkOne<C>(disk: Disk<C>, r: Renumber) returns (from: Option<Parts>, moved: bool)
    modifies disk`files
    ensures from == Resolve(r.from)
    ensures moved ==> from.Some? && (Library(from.value), Library(Temporary(from.value))) == (LegOf(r).from, LegOf(r).via)
    ensures moved ==> LegOf(r).from in old(disk.files) && disk.files == Move(old(disk.files), LegOf(r).from, LegOf(r).via)
    ensures !moved ==> disk.files == old(disk.files)
  {
    from := Resolve(r.from);
    moved := false;
    if from.Some? {
      moved := disk.Rename(Library(from.value), Library(Temporary(from.value)));
    }
  }

  /** The first `k` files are parked. */
  ghost predicate Parking<C>(legs: seq<Leg>, before: map<Place, C>, j: Journey, k: nat, parked: Trips, now: map<Place, C>) {
    && k <= |legs| && parked == Parked(legs[..k]) && now == MoveAll(before, parked)
    && (ParkSafe(legs, before) ==> Away(before, j, parked, now))
  }

  lemma ParkingMore<C>(legs: seq<Leg>, before: map<Place, C>, start: Journey, k: nat, parked: Trips, now: map<Place, C>)
      returns (j: Journey)
    requires k < |legs| && Parking(legs, before, start, k, parked, now) && legs[k].from in now
    ensures Parking(legs, before, j, k + 1, parked + [(legs[k].from, legs[k].via)], Move(now, legs[k].from, legs[k].via))
  {
    j := start;
    if ParkSafe(legs, before) {
      ParkNext(before, start, legs, k, now);
      j := start.Onward(legs[k].from, legs[k].via);
    }
    MoveOneMore(before, parked, (legs[k].from, legs[k].via));
    assert parked + [(legs[k].from, legs[k].via)] == Parked(legs[..k + 1]);
  }

  /** The next file is parked; if it can't be, the others are put back. */
  method ParkNextFile<C>(disk: Disk<C>, r: Renumber, parked: Trips, ghost legs: seq<Leg>, ghost k: nat, ghost before: map<Place, C>,
                         ghost start: Journey)
      returns (more: Trips, error: Option<ImportError>, ghost j: Journey)
    requires k < |legs| && legs[k] == LegOf(r) && Parking(legs, before, start, k, parked, disk.files)
    modifies disk`files, disk`stuck
    ensures old(disk.stuck) <= disk.stuck
    ensures error.None? ==> disk.stuck == old(disk.stuck) && Parking(legs, before, j, k + 1, more, disk.files)
    ensures error.Some? ==> error.value == ErrorFor(r.from)
    ensures error.Some? && ParkSafe(legs, before) && disk.stuck == old(disk.stuck) ==> disk.files == before
  {
    ghost var now := disk.files;
    j, more := start, parked;
    var from, moved := ParkOne(disk, r);
    if !moved {
      if ParkSafe(legs, before) {
        ParkedUnwinds(before, j, legs, k, now);
      }
      BringHome(disk, parked);
      return parked, Some(if from.None? then UnsafeDestination(r.from) else Io), j;
    }
    j := ParkingMore(legs, before, start, k, parked, now);
    more := parked + [(Library(from.value), Library(Temporary(from.value)))];
    error := None;
  }

  /** The first step: each file, in order, gets its temporary name. */
  method ParkFiles<C>(disk: Disk<C>, renames: seq<Renumber>, ghost legs: seq<Leg>)
      returns (parked: Trips, error: Option<ImportError>, ghost j: Journey)
    requires LegsFor(legs, renames)
    modifies disk`files, disk`stuck
    ensures old(disk.stuck) <= disk.stuck
    ensures error.None? ==> parked == PartWay(legs, |legs|) && disk.stuck == old(disk.stuck)
    ensures error.None? ==> disk.files == MoveAll(old(disk.files), Parked(legs))
    ensures error.None? && ParkSafe(legs, old(disk.files)) ==> Away(old(disk.files), j, parked, disk.files)
    ensures error.Some? ==> FailsOn(error.value, NamesOf(renames))
    ensures error.Some? && ParkSafe(legs, old(disk.files)) && disk.stuck == old(disk.stuck) ==> disk.files == old(disk.files)
  {
    ghost var before, stuck := disk.files, disk.stuck;
    j := Nowhere(before);
    NobodyAway(before);
    parked := [];
    for k := 0 to |renames|
      invariant disk.stuck == stuck && Parking(legs, before, j, k, parked, disk.files)
    {
      assert legs[k] == LegOf(renames[k]);
      parked, error, j := ParkNextFile(disk, renames[k], parked, legs, k, before, j);
      if error.Some? {
        FailsOnOne(renames, k, error.value);
        return;
      }
    }
    assert legs[..|legs|] == legs && PartWay(legs, |legs|) == parked == Parked(legs);
    error := None;
  }

  /** Rename existing tracks through temporary names. A failure puts back what was renamed. */
  method RenumberFiles<C>(disk: Disk<C>, renames: seq<Renumber>, ghost legs: seq<Leg>)
      returns (r: Result<Trips, ImportError>, ghost j: Journey)
    requires LegsFor(legs, renames)
    modifies disk`files, disk`stuck
    ensures old(disk.stuck) <= disk.stuck
    ensures r.Ok? ==> r.value == Renamed(legs) && disk.stuck == old(disk.stuck)
    ensures r.Ok? ==> disk.files == RenamedAll(old(disk.files), legs)
    ensures r.Ok? && LegsSafe(legs, old(disk.files)) ==> Away(old(disk.files), j, Renamed(legs), disk.files)
    ensures r.Err? ==> FailsOn(r.error, NamesOf(renames))
    ensures r.Err? && LegsSafe(legs, old(disk.files)) && UndoSafe(legs) && disk.stuck == old(disk.stuck) ==>
      disk.files == old(disk.files)
  {
    ghost var before := disk.files;
    var parked, error, start := ParkFiles(disk, renames, legs);
    if error.Some? {
      return Err(error.value), start;
    }
    r, j := SettleFiles(disk, renames, parked, legs, before, start);
  }

  /** One parked file gets its new name. */
  method SettleOne<C>(disk: Disk<C>, r: Renumber, temporary: Place) returns (to: Option<Parts>, moved: bool)
    modifies disk`files
    ensures to == Resolve(r.to)
    ensures moved ==> to.Some? && Library(to.value) == LegOf(r).to
    ensures moved ==> disk.files == Move(old(disk.files), temporary, LegOf(r).to)
    ensures !moved ==> disk.files == old(disk.files)
  {
    to := Resolve(r.to);
    moved := false;
    if to.Some? {
      moved := disk.Rename(temporary, Library(to.value));
    }
  }

  /** The tree with the first `m` files still under temporary names. */
  function SettledTo<C>(before: map<Place, C>, legs: seq<Leg>, m: nat): map<Place, C>
    requires m <= |legs|
  {
    MoveAll(MoveAll(before, Parked(legs)), Settles(legs, m))
  }

  lemma SettledOneMore<C>(before: map<Place, C>, legs: seq<Leg>, m: nat)
    requires 0 < m <= |legs|
    ensures SettledTo(before, legs, m - 1) == Move(SettledTo(before, legs, m), legs[m - 1].via, legs[m - 1].to)
  {
    MoveOneMore(MoveAll(before, Parked(legs)), Settles(legs, m), (legs[m - 1].via, legs[m - 1].to));
  }

  /** The last `|parked|` names of the order are still to settle. */
  ghost predicate Settling<C>(legs: seq<Leg>, before: map<Place, C>, j: Journey, renamed: Trips, parked: Trips, now: map<Place, C>) {
    && |parked| <= |legs| && |renamed| == |legs| - |parked|
    && renamed + parked == PartWay(legs, |parked|) && now == SettledTo(before, legs, |parked|)
    && (LegsSafe(legs, before) ==> Away(before, j, PartWay(legs, |parked|), now))
  }

  lemma NoneSettled<C>(legs: seq<Leg>, before: map<Place, C>, j: Journey, parked: Trips, now: map<Place, C>)
    requires parked == PartWay(legs, |legs|) && now == SettledTo(before, legs, |legs|)
    requires LegsSafe(legs, before) ==> Away(before, j, parked, now)
    ensures Settling(legs, before, j, [], parked, now)
  {
    assert [] + parked == parked;
  }

  lemma AllSettled<C>(legs: seq<Leg>, before: map<Place, C>, j: Journey, renamed: Trips, now: map<Place, C>)
    requires Settling(legs, before, j, renamed, [], now)
    ensures renamed == Renamed(legs) && now == SettledTo(before, legs, 0) && (LegsSafe(legs, before) ==> Away(before, j, Renamed(legs), now))
  {
    assert renamed + [] == renamed && PartWay(legs, 0) == Renamed(legs);
  }

  /** The last parked file gets its new name; if it can't, everything is put back. */
  method SettleLast<C>(disk: Disk<C>, r: Renumber, renamed: Trips, parked: Trips, ghost legs: seq<Leg>, ghost before: map<Place, C>,
                       ghost start: Journey)
      returns (more: Trips, error: Option<ImportError>, ghost j: Journey)
    requires parked != [] && Settling(legs, before, start, renamed, parked, disk.files) && legs[|parked| - 1] == LegOf(r)
    modifies disk`files, disk`stuck
    ensures old(disk.stuck) <= disk.stuck
    ensures error.None? ==> disk.stuck == old(disk.stuck) && Settling(legs, before, j, more, parked[..|parked| - 1], disk.files)
    ensures error.Some? ==> error.value == ErrorFor(r.to)
    ensures error.Some? && LegsSafe(legs, before) && UndoSafe(legs) && disk.stuck == old(disk.stuck) ==> disk.files == before
  {
    var m := |parked|;
    ghost var now := disk.files;
    j, more := start, renamed;
    NextOrder(legs, m, renamed, parked);
    var to, moved := SettleOne(disk, r, parked[m - 1].1);
    if !moved {
      if LegsSafe(legs, before) && UndoSafe(legs) {
        PartWayUnwinds(before, j, legs, m, now);
      }
      BringHome(disk, renamed + parked);
      return more, Some(if to.None? then UnsafeDestination(r.to) else Io), j;
    }
    SettledOneMore(before, legs, m);
    if LegsSafe(legs, before) {
      SettleNext(before, start, legs, m, now);
      j := start.Onward(legs[m - 1].from, legs[m - 1].to);
    }
    more := renamed + [(parked[m - 1].0, Library(to.value))];
    error := None;
  }

  lemma LastRename(legs: seq<Leg>, renames: seq<Renumber>, m: nat)
    requires LegsFor(legs, renames) && 0 < m <= |legs|
    ensures legs[m - 1] == LegOf(renames[m - 1]) && FailsOn(ErrorFor(renames[m - 1].to), NamesOf(renames))
  {
    FailsOnOne(renames, m - 1, ErrorFor(renames[m - 1].to));
  }

  /** Each parked file, the last first, gets its new name; if one can't, everything is put back. */
  method SettleEach<C>(disk: Disk<C>, renames: seq<Renumber>, allParked: Trips, ghost legs: seq<Leg>, ghost before: map<Place, C>,
                       ghost start: Journey)
      returns (renamed: Trips, error: Option<ImportError>, ghost j: Journey)
    requires LegsFor(legs, renames) && Settling(legs, before, start, [], allParked, disk.files)
    modifies disk`files, disk`stuck
    ensures old(disk.stuck) <= disk.stuck
    ensures error.None? ==> disk.stuck == old(disk.stuck) && Settling(legs, before, j, renamed, [], disk.files)
    ensures error.Some? ==> FailsOn(error.value, NamesOf(renames))
    ensures error.Some? && LegsSafe(legs, before) && UndoSafe(legs) && disk.stuck == old(disk.stuck) ==> disk.files == before
  {
    ghost var stuck := disk.stuck;
    var parked := allParked;
    j, renamed, error := start, [], None;
    while parked != []
      invariant disk.stuck == stuck && Settling(legs, before, j, renamed, parked, disk.files)
      decreases |parked|
    {
      LastRename(legs, renames, |parked|);
      renamed, error, j := SettleLast(disk, renames[|parked| - 1], renamed, parked, legs, before, j);
      if error.Some? {
        return;
      }
      parked := parked[..|parked| - 1];
    }
    error := None;
  }

  /** The second step of the renumbering. */
  method SettleFiles<C>(disk: Disk<C>, renames: seq<Renumber>, parked: Trips, ghost legs: seq<Leg>, ghost before: map<Place, C>,
                        ghost start: Journey)
      returns (r: Result<Trips, ImportError>, ghost j: Journey)
    requires LegsFor(legs, renames) && parked == PartWay(legs, |legs|) && disk.files == SettledTo(before, legs, |legs|)
    requires LegsSafe(legs, before) ==> Away(before, start, parked, disk.files)
    modifies disk`files, disk`stuck
    ensures old(disk.stuck) <= disk.stuck
    ensures r.Ok? ==> r.value == Renamed(legs) && disk.stuck == old(disk.stuck)
    ensures r.Ok? ==> disk.files == SettledTo(before, legs, 0)
    ensures r.Ok? && LegsSafe(legs, before) ==> Away(before, j, Renamed(legs), disk.files)
    ensures r.Err? ==> FailsOn(r.error, NamesOf(renames))
    ensures r.Err? && LegsSafe(legs, before) && UndoSafe(legs) && disk.stuck == old(disk.stuck) ==> disk.files == before
  {
    NoneSettled(legs, before, start, parked, disk.files);
    var renamed, error;
    renamed, error, j := SettleEach(disk, renames, parked, legs, before, start);
    if error.Some? {
      return Err(error.value), j;
    }
    AllSettled(legs, before, j, renamed, disk.files);
    return Ok(renamed), j;
  }

  /** Taking the last parked file and adding it to the renamed ones. */
  lemma NextOrder(legs: seq<Leg>, m: nat, renamed: Trips, parked: Trips)
    requires 0 < m <= |legs| && |parked| == m && |renamed| == |legs| - m
    requires renamed + parked == PartWay(legs, m)
    ensures parked[m - 1] == (legs[m - 1].from, legs[m - 1].via)
    ensures (renamed + [TripOf(legs[m - 1], false)]) + parked[..m - 1] == PartWay(legs, m - 1)
  {
    var n, all := |legs|, (renamed + [TripOf(legs[m - 1], false)]) + parked[..m - 1];
    assert parked[m - 1] == (renamed + parked)[n - 1];
    forall k | 0 <= k < n ensures all[k] == PartWay(legs, m - 1)[k] {
      if k < n - m {
        assert all[k] == (renamed + parked)[k];
      } else if k > n - m {
        assert all[k] == (renamed + parked)[k - 1];
      }
    }
  }
}
