/** What the conflict check lets through (`crates/delune-library/src/import.rs`): three families
    of plans it accepts and that lose a file, so that a plan has to be well made by itself. */
module Unchecked {
  import opened Text
  import opened Paths
  import opened Relocation
  import opened Rollback
  import opened Renaming
  import opened Overwriting
  import opened Plans
  import opened Renumbering

  /** Carrying out the renames of the plan, though the check finds nothing, loses a file. */
  ghost predicate AcceptedButLoses<C>(plan: Plan, files: map<Place, C>, lower: string -> string) {
    NoConflicts(plan, files, lower) && |RenamedAll(files, LegsOf(plan.renumber))| < |files|
  }

  lemma UnsafeLoses<C>(files: map<Place, C>, legs: seq<Leg>)
    requires CanPark(files, legs) && !LegsSafe(legs, files)
    ensures |RenamedAll(files, legs)| < |files|
  {
    RenamingKeepsFilesIff(files, legs);
    NeverGrows(files, Parked(legs));
    NeverGrows(MoveAll(files, Parked(legs)), Settles(legs, 0));
  }

  /** A rename that ends where a file is and stays. */
  lemma OverwritingLoses<C>(files: map<Place, C>, legs: seq<Leg>, a: nat)
    requires CanPark(files, legs) && a < |legs| && legs[a].to in files
    requires forall b :: 0 <= b < |legs| ==> legs[b].from != legs[a].to
    ensures |RenamedAll(files, legs)| < |files|
  {
    assert !StartsAt(legs, legs[a].to);
    UnsafeLoses(files, legs);
  }

  lemma IsVacated(plan: Plan, lower: string -> string, r: Renumber)
    requires r in plan.renumber
    ensures SomeLower(Vacated(plan), lower, lower(r.from))
  {
    assert r.from in Vacated(plan);
  }

  /** Renames alone pass when each target is free or, but for case, renamed away. */
  lemma RenamesPass<C>(plan: Plan, files: map<Place, C>, lower: string -> string)
    requires plan.tracks == [] && forall r :: r in plan.renumber ==> Resolve(r.to).Some?
    requires forall r :: r in plan.renumber ==>
      !Occupied(files, Resolve(r.to).value) || exists s :: s in plan.renumber && lower(s.from) == lower(r.to)
    ensures NoConflicts(plan, files, lower)
  {
    forall d | d in Destinations(plan) ensures Resolve(d.0).Some? && !Blocked(plan, files, lower, d.0, d.1) {
      var r :| r in plan.renumber && d == (r.to, true);
      if Occupied(files, Resolve(r.to).value) {
        var s :| s in plan.renumber && lower(s.from) == lower(r.to);
        IsVacated(plan, lower, s);
      }
    }
  }

  /** Two renames to one free name. */
  lemma SharedTargetIsMissed<C>(files: map<Place, C>, lower: string -> string, x: string, y: string, to: string)
    requires Resolve(to).Some? && !Occupied(files, Resolve(to).value)
    requires CanPark(files, LegsOf([Renumber(x, to), Renumber(y, to)]))
    ensures AcceptedButLoses(Plan([], [Renumber(x, to), Renumber(y, to)], None), files, lower)
  {
    var plan := Plan([], [Renumber(x, to), Renumber(y, to)], None);
    RenamesPass(plan, files, lower);
    var legs := LegsOf(plan.renumber);
    assert legs[0].to == legs[1].to;
    UnsafeLoses(files, legs);
  }

  lemma OneArriving(track: PlannedFile)
    requires !track.skip
    ensures Arriving([track]) == [(track.destination, false)]
  {
    assert [track][1..] == [];
  }

  /** The one track is nowhere in the way, and the one rename takes the name of its old copy. */
  lemma ReplacingPasses<C>(plan: Plan, files: map<Place, C>, lower: string -> string, track: PlannedFile, r: Renumber)
    requires plan.tracks == [track] && plan.renumber == [r] && track.replaced == Some(r.to) && !track.skip
    requires Resolve(track.destination).Some? && !Occupied(files, Resolve(track.destination).value)
    requires Resolve(r.to).Some? && lower(track.destination) != lower(r.to)
    ensures NoConflicts(plan, files, lower)
  {
    OneArriving(track);
    assert forall d :: d in Destinations(plan) ==> d == (track.destination, false) || d == (r.to, true);
    assert track in plan.tracks && r.to in Vacated(plan);
    assert forall name :: name in RenameTargets(plan) ==> name == r.to;
  }

  /** A rename to the name of a copy that is to be replaced: the check counts the name as
      freed, but renames come first. */
  lemma ReplacedTargetIsMissed<C>(files: map<Place, C>, lower: string -> string, x: string, copy: string, track: PlannedFile)
    requires track.replaced == Some(copy) && !track.skip && lower(track.destination) != lower(copy)
    requires Resolve(track.destination).Some? && !Occupied(files, Resolve(track.destination).value)
    requires Resolve(copy).Some? && PlaceOf(copy) in files && PlaceOf(x) != PlaceOf(copy)
    requires CanPark(files, LegsOf([Renumber(x, copy)]))
    ensures AcceptedButLoses(Plan([track], [Renumber(x, copy)], None), files, lower)
  {
    ReplacingPasses(Plan([track], [Renumber(x, copy)], None), files, lower, track, Renumber(x, copy));
    OverwritingLoses(files, LegsOf([Renumber(x, copy)]), 0);
  }

  /** A rename to a file's name, when another file is renamed away whose name differs only in
      case. */
  lemma CaseIsMissed<C>(files: map<Place, C>, lower: string -> string, x: string, taken: string, alike: string, free: string)
    requires lower(alike) == lower(taken) && PlaceOf(alike) != PlaceOf(taken) && PlaceOf(x) != PlaceOf(taken)
    requires Resolve(taken).Some? && PlaceOf(taken) in files && Resolve(free).Some? && !Occupied(files, Resolve(free).value)
    requires CanPark(files, LegsOf([Renumber(x, taken), Renumber(alike, free)]))
    ensures AcceptedButLoses(Plan([], [Renumber(x, taken), Renumber(alike, free)], None), files, lower)
  {
    var renames := [Renumber(x, taken), Renumber(alike, free)];
    assert renames[1] in renames && lower(renames[1].from) == lower(renames[0].to);
    RenamesPass(Plan([], renames, None), files, lower);
    OverwritingLoses(files, LegsOf(renames), 0);
  }
}
