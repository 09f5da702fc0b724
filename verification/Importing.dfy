/** Carrying out an import plan (`crates/delune-library/src/import.rs`). */
module Importing {
  // Nothing moves when a name is taken, a success does what the plan says and touches nothing else,
  // and a failure puts everything back, but for what an unsafe name or a failing cover leaves.

  import opened Text
  import opened Paths
  import opened Relocation
  import opened Batches
  import opened Trash
  import opened Rollback
  import opened Renaming
  import opened Plans
  import opened Renumbering
  import opened Replacing
  import opened Arrivals

  // ---- what the conflict check leaves to the plan ----

  /** A destination that exists and whose lower-case form is vacated is itself vacated: no two
      library files differ only in case there. */
  ghost predicate CaseAgrees<C>(plan: Plan, files: map<Place, C>, lower: string -> string) {
    forall d, v :: d in Destinations(plan) && v in Vacated(plan) && PlaceOf(d.0) in files && lower(v) == lower(d.0) ==> v == d.0
  }

  /** What the plan's author makes sure of and the conflict check doesn't look at. */
  ghost predicate WellMade<C>(plan: Plan, files: map<Place, C>, batch: string, lower: string -> string) {
    && FreshBatch(files, batch)
    && CaseAgrees(plan, files, lower)
    && (forall d :: d in Destinations(plan) ==> IsProper(d.0))
    && (forall r :: r in plan.renumber ==> IsProper(r.from))
    && AreReplaceable(ReplacedFiles(plan.tracks))
    && (forall t :: t in plan.tracks && t.skip ==> t.replaced.None?)
    && RenamesApart(plan, files)
    && DistinctDestinations(ArrivingTracks(plan.tracks))
  }

  /** Renames have files, targets and temporary names of their own, temporary names nobody
      uses, and targets that aren't replaced files. */
  ghost predicate RenamesApart<C>(plan: Plan, files: map<Place, C>) {
    var legs := LegsOf(plan.renumber);
    && DistinctFroms(legs)
    && (forall a, b :: 0 <= a < b < |legs| ==> legs[a].to != legs[b].to && legs[a].via != legs[b].via)
    && (forall a :: 0 <= a < |legs| ==> legs[a].via !in files)
    && (forall a, b :: 0 <= a < |legs| && 0 <= b < |legs| ==> legs[a].via != legs[b].to && legs[a].via != legs[b].from)
    && (forall r, name :: r in plan.renumber && name in ReplacedFiles(plan.tracks) ==> PlaceOf(r.to) != PlaceOf(name))
  }

  ghost predicate DistinctDestinations(arriving: seq<PlannedFile>) {
    forall a, b :: 0 <= a < b < |arriving| ==> PlaceOf(arriving[a].destination) != PlaceOf(arriving[b].destination)
  }

  // ---- what the check gives the steps ----

  lemma {:induction false} ReplacedAre(tracks: seq<PlannedFile>)
    ensures forall name :: name in ReplacedFiles(tracks) <==>
      exists t :: t in tracks && !t.skip && t.replaced == Some(name)
  {
    if tracks != [] {
      ReplacedAre(tracks[1..]);
      assert tracks == [tracks[0]] + tracks[1..];
    }
  }

  lemma {:induction false} ArrivingAre(tracks: seq<PlannedFile>)
    ensures forall t :: t in ArrivingTracks(tracks) <==> t in tracks && !t.skip
    ensures forall t :: t in tracks && !t.skip ==> (t.destination, false) in Arriving(tracks)
    ensures forall d :: d in Arriving(tracks) ==> !d.1 && exists t :: t in tracks && !t.skip && t.destination == d.0
  {
    if tracks != [] {
      ArrivingAre(tracks[1..]);
      assert tracks == [tracks[0]] + tracks[1..];
    }
  }

  lemma DestinationsAre(plan: Plan)
    ensures forall r :: r in plan.renumber ==> (r.to, true) in Destinations(plan)
    ensures forall t :: t in plan.tracks && !t.skip ==> (t.destination, false) in Destinations(plan)
  {
    ArrivingAre(plan.tracks);
    var renames := seq(|plan.renumber|, i requires 0 <= i < |plan.renumber| => (plan.renumber[i].to, true));
    forall r | r in plan.renumber ensures (r.to, true) in Destinations(plan) {
      var i :| 0 <= i < |plan.renumber| && plan.renumber[i] == r;
      assert renames[i] == (r.to, true);
    }
  }

  /** A taken destination is vacated by the plan: by a rename, or by a copy being replaced. */
  lemma TakenIsVacated<C>(plan: Plan, files: map<Place, C>, batch: string, lower: string -> string, d: (string, bool))
    requires WellMade(plan, files, batch, lower) && NoConflicts(plan, files, lower)
    requires d in Destinations(plan) && PlaceOf(d.0) in files
    ensures (exists r :: r in plan.renumber && r.from == d.0) || d.0 in ReplacedFiles(plan.tracks)
  {
    ReplacedAre(plan.tracks);
    assert Occupied(files, Resolve(d.0).value);
    var v :| v in Vacated(plan) && lower(v) == lower(d.0);
    assert v == d.0;
  }

  /** The renames are safe. */
  lemma RenamesAreSafe<C>(plan: Plan, files: map<Place, C>, batch: string, lower: string -> string)
    requires WellMade(plan, files, batch, lower) && NoConflicts(plan, files, lower)
    ensures LegsSafe(LegsOf(plan.renumber), files)
  {
    var legs := LegsOf(plan.renumber);
    DestinationsAre(plan);
    forall a | 0 <= a < |legs| && legs[a].to in files ensures StartsAt(legs, legs[a].to) {
      TakenTargetStarts(plan, files, batch, lower, a);
    }
  }

  /** A rename goes only onto a file that is renamed itself. */
  lemma TakenTargetStarts<C>(plan: Plan, files: map<Place, C>, batch: string, lower: string -> string, a: nat)
    requires WellMade(plan, files, batch, lower) && NoConflicts(plan, files, lower)
    requires a < |plan.renumber| && LegsOf(plan.renumber)[a].to in files
    ensures StartsAt(LegsOf(plan.renumber), LegsOf(plan.renumber)[a].to)
  {
    var r := plan.renumber[a];
    DestinationsAre(plan);
    assert r in plan.renumber;
    TakenIsVacated(plan, files, batch, lower, (r.to, true));
    TargetIsKept(plan, files, a);
    var s :| s in plan.renumber && s.from == r.to;
    StartsAtFrom(plan.renumber, s);
  }

  lemma TargetIsKept<C>(plan: Plan, files: map<Place, C>, a: nat)
    requires RenamesApart(plan, files) && a < |plan.renumber|
    ensures plan.renumber[a].to !in ReplacedFiles(plan.tracks)
  {
    assert plan.renumber[a] in plan.renumber;
  }

  lemma StartsAtFrom(renumber: seq<Renumber>, r: Renumber)
    requires r in renumber
    ensures StartsAt(LegsOf(renumber), PlaceOf(r.from))
  {
    var i :| 0 <= i < |renumber| && renumber[i] == r;
    assert LegsOf(renumber)[i].from == PlaceOf(r.from);
  }

  // ---- the stages ----

  /** After the renames: each target holds its file, everything else is where it was. */
  lemma RenamedStage<C>(legs: seq<Leg>, before: map<Place, C>, j: Journey, after: map<Place, C>)
    requires DistinctFroms(legs) && Away(before, j, Renamed(legs), after)
    ensures forall a :: 0 <= a < |legs| ==>
      legs[a].from in before && legs[a].to in after && after[legs[a].to] == before[legs[a].from]
    ensures forall p :: p in before && !StartsAt(legs, p) ==> p in after && after[p] == before[p]
    ensures forall p :: p in after ==> EndsAt(legs, p) || (p in before && !StartsAt(legs, p))
  {
    forall a | 0 <= a < |legs| ensures (legs[a].from, legs[a].to) in Renamed(legs) {
      InRenamed(legs, a);
    }
    forall p ensures IsHome(Renamed(legs), p) ==> StartsAt(legs, p) {
      HomeStarts(legs, p);
    }
    forall p | p in after ensures EndsAt(legs, p) || (p in before && !StartsAt(legs, p)) {
      CameFrom(legs, before, j, after, p);
    }
  }

  lemma InRenamed(legs: seq<Leg>, a: nat)
    requires a < |legs|
    ensures (legs[a].from, legs[a].to) in Renamed(legs)
  {
    assert Renamed(legs)[|legs| - 1 - a] == (legs[a].from, legs[a].to);
  }

  lemma HomeStarts(legs: seq<Leg>, p: Place)
    ensures IsHome(Renamed(legs), p) ==> StartsAt(legs, p)
  {
    var trips := Renamed(legs);
    if t :| t in trips && t.0 == p {
      var k :| 0 <= k < |trips| && trips[k] == t;
      assert legs[|legs| - 1 - k].from == p;
    }
  }

  /** A file is where a rename took it, or where it was. */
  lemma CameFrom<C>(legs: seq<Leg>, before: map<Place, C>, j: Journey, after: map<Place, C>, p: Place)
    requires Away(before, j, Renamed(legs), after) && p in after
    ensures EndsAt(legs, p) || (p in before && !StartsAt(legs, p))
  {
    var home := j.home[p];
    if StartsAt(legs, home) {
      var a :| 0 <= a < |legs| && legs[a].from == home;
      InRenamed(legs, a);
    } else {
      HomeStarts(legs, home);
    }
  }

  /** After the arrivals: each destination holds its track, everything else is where it was. */
  lemma ArrivedStage<C>(arriving: seq<PlannedFile>, before: map<Place, C>, j: Journey, after: map<Place, C>)
    requires Away(before, j, ArrivalTrips(arriving), after)
    ensures forall t :: t in arriving ==>
      Staged(t.source) in before && PlaceOf(t.destination) in after && after[PlaceOf(t.destination)] == before[Staged(t.source)]
    ensures forall t :: t in arriving ==> Staged(t.source) !in after
    ensures forall p :: p in before && (forall t :: t in arriving ==> Staged(t.source) != p) ==> p in after && after[p] == before[p]
  {
    var trips := ArrivalTrips(arriving);
    forall t | t in arriving ensures (Staged(t.source), PlaceOf(t.destination)) in trips {
      var i :| 0 <= i < |arriving| && arriving[i] == t;
      assert trips[i] == (Staged(t.source), PlaceOf(t.destination));
    }
    forall t | t in trips ensures t.1.Library? && exists track :: track in arriving && t.0 == Staged(track.source) {
      var i :| 0 <= i < |trips| && trips[i] == t;
      assert arriving[i] in arriving;
    }
    forall t | t in arriving ensures Staged(t.source) !in after {
      assert IsHome(trips, Staged(t.source));
      FreeSpot(before, j, trips, after, Staged(t.source));
    }
    forall p | p in before && (forall t :: t in arriving ==> Staged(t.source) != p) ensures !IsHome(trips, p) {}
  }

  lemma StagesStayFresh<C>(plan: Plan, files: map<Place, C>, batch: string, lower: string -> string, j: Journey, renamed: map<Place, C>)
    requires WellMade(plan, files, batch, lower)
    requires Away(files, j, Renamed(LegsOf(plan.renumber)), renamed)
    ensures FreshBatch(renamed, batch)
  {
    var legs := LegsOf(plan.renumber);
    RenamedStage(legs, files, j, renamed);
    DestinationsAre(plan);
    forall p | p in renamed ensures !InBatch(p, batch) {
      if EndsAt(legs, p) {
        var a :| 0 <= a < |legs| && legs[a].to == p;
        assert plan.renumber[a] in plan.renumber;
        assert IsProper(plan.renumber[a].to);
      }
    }
  }

  /** No rename ends at an arriving track's destination. */
  lemma DestinationIsNoTarget<C>(plan: Plan, files: map<Place, C>, batch: string, lower: string -> string, t: PlannedFile)
    requires WellMade(plan, files, batch, lower) && NoConflicts(plan, files, lower) && t in plan.tracks && !t.skip
    ensures !EndsAt(LegsOf(plan.renumber), PlaceOf(t.destination))
  {
    DestinationsAre(plan);
    forall a | 0 <= a < |plan.renumber| ensures PlaceOf(plan.renumber[a].to) != PlaceOf(t.destination) {
      var r := plan.renumber[a];
      assert r in plan.renumber && (t.destination, false) in Destinations(plan) && (r.to, true) in Destinations(plan);
      assert r.to in RenameTargets(plan);
      assert r.to != t.destination by {
        assert !Blocked(plan, files, lower, t.destination, false);
      }
      if PlaceOf(r.to) == PlaceOf(t.destination) {
        ProperNames(r.to, t.destination);
      }
    }
  }

  /** A destination that is taken is a file being renamed or replaced. */
  lemma TakenDestination<C>(plan: Plan, files: map<Place, C>, batch: string, lower: string -> string, t: PlannedFile)
    requires WellMade(plan, files, batch, lower) && NoConflicts(plan, files, lower) && t in plan.tracks && !t.skip
    requires PlaceOf(t.destination) in files
    ensures StartsAt(LegsOf(plan.renumber), PlaceOf(t.destination)) || t.destination in ReplacedFiles(plan.tracks)
  {
    DestinationsAre(plan);
    TakenIsVacated(plan, files, batch, lower, (t.destination, false));
    if r :| r in plan.renumber && r.from == t.destination {
      StartsAtFrom(plan.renumber, r);
    }
  }

  /** Once the renames and the trashing are done, every destination is free. */
  lemma DestinationIsFree<C>(plan: Plan, files: map<Place, C>, batch: string, lower: string -> string,
                             j: Journey, renamed: map<Place, C>, ops: seq<Op>, trashed: map<Place, C>, t: PlannedFile)
    requires WellMade(plan, files, batch, lower) && NoConflicts(plan, files, lower)
    requires Away(files, j, Renamed(LegsOf(plan.renumber)), renamed)
    requires PutAside(renamed, batch, ops, trashed)
    requires forall name :: name in ReplacedFiles(plan.tracks) ==> PlaceOf(name) !in trashed
    requires t in plan.tracks && !t.skip
    ensures PlaceOf(t.destination) !in trashed
  {
    DestinationsAre(plan);
    assert (t.destination, false) in Destinations(plan) && IsProper(t.destination);
    if t.destination !in ReplacedFiles(plan.tracks) {
      NotRenamedThere(plan, files, batch, lower, j, renamed, t);
      PutsBringNone(renamed, batch, ops, trashed, PlaceOf(t.destination));
    }
  }

  /** What is at the destination, if anything, is due to be replaced. */
  lemma NotRenamedThere<C>(plan: Plan, files: map<Place, C>, batch: string, lower: string -> string,
                           j: Journey, renamed: map<Place, C>, t: PlannedFile)
    requires WellMade(plan, files, batch, lower) && NoConflicts(plan, files, lower)
    requires Away(files, j, Renamed(LegsOf(plan.renumber)), renamed)
    requires t in plan.tracks && !t.skip && t.destination !in ReplacedFiles(plan.tracks)
    ensures PlaceOf(t.destination) !in renamed
  {
    RenamedStage(LegsOf(plan.renumber), files, j, renamed);
    DestinationIsNoTarget(plan, files, batch, lower, t);
    if PlaceOf(t.destination) in files {
      TakenDestination(plan, files, batch, lower, t);
    }
  }

  lemma PutsBringNone<C>(files: map<Place, C>, batch: string, ops: seq<Op>, now: map<Place, C>, p: Place)
    requires PutAside(files, batch, ops, now) && p !in files && p.Library? && IsLibrary(p.parts)
    ensures p !in now
  {
  }

  /** Two proper names of one place are the same name. */
  lemma ProperNames(a: string, b: string)
    requires IsProper(a) && IsProper(b) && PlaceOf(a) == PlaceOf(b)
    ensures a == b
  {
  }

  lemma DestinationsAreFree<C>(plan: Plan, files: map<Place, C>, batch: string, lower: string -> string,
                               j: Journey, renamed: map<Place, C>, ops: seq<Op>, trashed: map<Place, C>)
    requires WellMade(plan, files, batch, lower) && NoConflicts(plan, files, lower)
    requires Away(files, j, Renamed(LegsOf(plan.renumber)), renamed)
    requires PutAside(renamed, batch, ops, trashed)
    requires forall name :: name in ReplacedFiles(plan.tracks) ==> PlaceOf(name) !in trashed
    ensures ArrivalsSafe(ArrivingTracks(plan.tracks), trashed)
  {
    var arriving := ArrivingTracks(plan.tracks);
    ArrivingAre(plan.tracks);
    forall a | 0 <= a < |arriving| ensures PlaceOf(arriving[a].destination) !in trashed {
      assert arriving[a] in arriving;
      DestinationIsFree(plan, files, batch, lower, j, renamed, ops, trashed, arriving[a]);
    }
  }

  // ---- what a success does ----

  /** A file the plan has nothing to do with. */
  ghost predicate Bystander(plan: Plan, p: Place) {
    && !StartsAt(LegsOf(plan.renumber), p)
    && (forall t :: t in plan.tracks && !t.skip ==> Staged(t.source) != p)
    && (p.Library? ==> !GoesWithReplaced(ReplacedFiles(plan.tracks), p.parts))
    && (plan.cover.Some? ==> p != Staged(plan.cover.value.0))
  }

  predicate Holds<C(==)>(files: map<Place, C>, p: Place, content: C) {
    p in files && files[p] == content
  }

  /** A rename's file is at its target, or was trashed from there as a companion of a replaced
      copy. */
  ghost predicate RenameDone<C>(plan: Plan, batch: string, before: map<Place, C>, after: map<Place, C>, r: Renumber) {
    && PlaceOf(r.from) in before
    && (Holds(after, PlaceOf(r.to), before[PlaceOf(r.from)]) ||
        (GoesWithReplaced(ReplacedFiles(plan.tracks), PlaceOf(r.to).parts)
         && Holds(after, Kept(batch, PlaceOf(r.to).parts), before[PlaceOf(r.from)])))
  }

  ghost predicate RenamesDone<C>(plan: Plan, batch: string, before: map<Place, C>, after: map<Place, C>) {
    forall r :: r in plan.renumber ==> RenameDone(plan, batch, before, after, r)
  }

  ghost predicate TracksDone<C>(plan: Plan, before: map<Place, C>, after: map<Place, C>) {
    forall t :: t in plan.tracks && !t.skip ==>
      Staged(t.source) in before && Staged(t.source) !in after
      && PlaceOf(t.destination) in after && after[PlaceOf(t.destination)] == before[Staged(t.source)]
  }

  /** A file of that name is there, and no rename takes it away first. */
  ghost predicate Standing<C>(plan: Plan, before: map<Place, C>, name: string) {
    PlaceOf(name) in before && !StartsAt(LegsOf(plan.renumber), PlaceOf(name))
  }

  ghost predicate ReplacedKept<C>(plan: Plan, batch: string, before: map<Place, C>, after: map<Place, C>) {
    forall name :: name in ReplacedFiles(plan.tracks) && Standing(plan, before, name) ==>
      Kept(batch, PlaceOf(name).parts) in after && after[Kept(batch, PlaceOf(name).parts)] == before[PlaceOf(name)]
  }

  ghost predicate BystandersUntouched<C>(plan: Plan, before: map<Place, C>, after: map<Place, C>) {
    forall p :: p in before && Bystander(plan, p) ==> p in after && after[p] == before[p]
  }

  /** The plan has been carried out: each rename's target holds what its file held, each
      destination holds its staged track, each replaced copy is in the trash, every other file
      is untouched, and every file there was is still there, once. */
  ghost predicate Realised<C>(plan: Plan, batch: string, before: map<Place, C>, after: map<Place, C>) {
    && RenamesDone(plan, batch, before, after)
    && TracksDone(plan, before, after)
    && ReplacedKept(plan, batch, before, after)
    && BystandersUntouched(plan, before, after)
    && EveryFileKept(before, after)
  }

  /** The three stages a successful import goes through. */
  ghost predicate Stages<C>(plan: Plan, batch: string, before: map<Place, C>, first: Journey, renamed: map<Place, C>,
                            ops: seq<Op>, trashed: map<Place, C>, last: Journey, after: map<Place, C>) {
    && FreshBatch(renamed, batch)
    && Away(before, first, Renamed(LegsOf(plan.renumber)), renamed)
    && LegalRun(renamed, batch, ops) && trashed == Run(renamed, batch, ops) && PutsFor(ops, ReplacedFiles(plan.tracks))
    && PutAside(renamed, batch, ops, trashed)
    && (forall name :: name in ReplacedFiles(plan.tracks) ==> PlaceOf(name) !in trashed)
    && Away(trashed, last, ArrivalTrips(ArrivingTracks(plan.tracks)), after)
  }

  /** Files of the renamed tree the trashing left alone are still there in the end. */
  lemma LeftAlone<C>(plan: Plan, batch: string, before: map<Place, C>, first: Journey, renamed: map<Place, C>,
                     ops: seq<Op>, trashed: map<Place, C>, last: Journey, after: map<Place, C>, p: Place)
    requires Stages(plan, batch, before, first, renamed, ops, trashed, last, after)
    requires p in renamed && p.Library? && !GoesWithReplaced(ReplacedFiles(plan.tracks), p.parts)
    ensures p in after && after[p] == renamed[p]
  {
    ArrivedStage(ArrivingTracks(plan.tracks), trashed, last, after);
    assert !WasPut(ops, p) && p in trashed && !InBatch(p, batch);
  }

  /** A file of the renamed tree is still at its place in the end, or went to the trash. */
  lemma LeftOrTrashed<C>(plan: Plan, batch: string, before: map<Place, C>, first: Journey, renamed: map<Place, C>,
                         ops: seq<Op>, trashed: map<Place, C>, last: Journey, after: map<Place, C>, p: Place)
    requires Stages(plan, batch, before, first, renamed, ops, trashed, last, after) && p in renamed && p.Library?
    ensures Holds(after, p, renamed[p]) ||
      (GoesWithReplaced(ReplacedFiles(plan.tracks), p.parts) && Holds(after, Kept(batch, p.parts), renamed[p]))
  {
    ArrivedStage(ArrivingTracks(plan.tracks), trashed, last, after);
    if WasPut(ops, p) {
      assert PutAway(p.parts) in ops;
      KeptInside({}, batch);
      assert IsKept(ops, batch, Kept(batch, p.parts));
    } else {
      assert p in trashed && !InBatch(p, batch);
    }
  }

  lemma RenamesRealised<C>(plan: Plan, batch: string, before: map<Place, C>, first: Journey, renamed: map<Place, C>,
                           ops: seq<Op>, trashed: map<Place, C>, last: Journey, after: map<Place, C>, r: Renumber)
    requires Stages(plan, batch, before, first, renamed, ops, trashed, last, after) && DistinctFroms(LegsOf(plan.renumber))
    requires r in plan.renumber
    ensures RenameDone(plan, batch, before, after, r)
  {
    var legs := LegsOf(plan.renumber);
    RenamedStage(legs, before, first, renamed);
    var a :| 0 <= a < |legs| && plan.renumber[a] == r;
    assert legs[a] == LegOf(r);
    LeftOrTrashed(plan, batch, before, first, renamed, ops, trashed, last, after, PlaceOf(r.to));
  }

  /** An audio file is nobody's companion: it is at its target. */
  lemma AudioRenamesHold<C>(plan: Plan, batch: string, before: map<Place, C>, after: map<Place, C>, r: Renumber)
    requires RenamesDone(plan, batch, before, after) && RenamesApart(plan, before)
    requires r in plan.renumber && IsAudio(FileName(PlaceOf(r.to).parts))
    ensures PlaceOf(r.from) in before && Holds(after, PlaceOf(r.to), before[PlaceOf(r.from)])
  {
    assert RenameDone(plan, batch, before, after, r);
    forall name | name in ReplacedFiles(plan.tracks) ensures !GoesWith(PlaceOf(name).parts, PlaceOf(r.to).parts) {
      assert PlaceOf(r.to) != PlaceOf(name);
    }
  }

  lemma ReplacementsRealised<C>(plan: Plan, batch: string, before: map<Place, C>, first: Journey, renamed: map<Place, C>,
                                ops: seq<Op>, trashed: map<Place, C>, last: Journey, after: map<Place, C>, name: string)
    requires Stages(plan, batch, before, first, renamed, ops, trashed, last, after) && DistinctFroms(LegsOf(plan.renumber))
    requires name in ReplacedFiles(plan.tracks) && Standing(plan, before, name)
    ensures Kept(batch, PlaceOf(name).parts) in after && after[Kept(batch, PlaceOf(name).parts)] == before[PlaceOf(name)]
  {
    var parts := PlaceOf(name).parts;
    RenamedStage(LegsOf(plan.renumber), before, first, renamed);
    ArrivedStage(ArrivingTracks(plan.tracks), trashed, last, after);
    assert PlaceOf(name) in renamed && WasPut(ops, PlaceOf(name));
    assert PutAway(parts) in ops;
    KeptInside({}, batch);
    assert IsKept(ops, batch, Kept(batch, parts));
    assert trashed[Kept(batch, parts)] == renamed[Library(parts)];
  }

  lemma BystandersKept<C>(plan: Plan, batch: string, before: map<Place, C>, first: Journey, renamed: map<Place, C>,
                          ops: seq<Op>, trashed: map<Place, C>, last: Journey, after: map<Place, C>, p: Place)
    requires Stages(plan, batch, before, first, renamed, ops, trashed, last, after) && DistinctFroms(LegsOf(plan.renumber))
    requires p in before && Bystander(plan, p)
    ensures p in after && after[p] == before[p]
  {
    RenamedStage(LegsOf(plan.renumber), before, first, renamed);
    if p.Library? {
      LeftAlone(plan, batch, before, first, renamed, ops, trashed, last, after, p);
    } else {
      ArrivingAre(plan.tracks);
      ArrivedStage(ArrivingTracks(plan.tracks), trashed, last, after);
      assert !WasPut(ops, p) && p in trashed;
    }
  }

  lemma FilesKept<C>(plan: Plan, batch: string, before: map<Place, C>, first: Journey, renamed: map<Place, C>,
                     ops: seq<Op>, trashed: map<Place, C>, last: Journey, after: map<Place, C>) returns (j: Journey)
    requires Stages(plan, batch, before, first, renamed, ops, trashed, last, after)
    ensures Relocated(before, j, after)
  {
    PutOnlyOnce(renamed, batch, ops);
    var put := NothingDeleted(renamed, batch, ops);
    Compose(before, first, renamed, put, trashed);
    Compose(before, After(first, put), trashed, last, after);
    j := After(After(first, put), last);
  }

  /** The stages realise the plan. */
  lemma PlanRealised<C>(plan: Plan, batch: string, before: map<Place, C>, first: Journey, renamed: map<Place, C>,
                        ops: seq<Op>, trashed: map<Place, C>, last: Journey, after: map<Place, C>)
    requires Stages(plan, batch, before, first, renamed, ops, trashed, last, after) && RenamesApart(plan, before)
    ensures Realised(plan, batch, before, after)
  {
    assert RenamesDone(plan, batch, before, after) by {
      forall r | r in plan.renumber ensures RenameDone(plan, batch, before, after, r) {
        RenamesRealised(plan, batch, before, first, renamed, ops, trashed, last, after, r);
      }
    }
    assert TracksDone(plan, before, after) by {
      TracksRealised(plan, batch, before, first, renamed, ops, trashed, last, after);
    }
    assert ReplacedKept(plan, batch, before, after) by {
      forall name | name in ReplacedFiles(plan.tracks) && Standing(plan, before, name)
        ensures Kept(batch, PlaceOf(name).parts) in after && after[Kept(batch, PlaceOf(name).parts)] == before[PlaceOf(name)]
      {
        ReplacementsRealised(plan, batch, before, first, renamed, ops, trashed, last, after, name);
      }
    }
    assert BystandersUntouched(plan, before, after) by {
      forall p | p in before && Bystander(plan, p) ensures p in after && after[p] == before[p] {
        BystandersKept(plan, batch, before, first, renamed, ops, trashed, last, after, p);
      }
    }
    var j := FilesKept(plan, batch, before, first, renamed, ops, trashed, last, after);
  }

  /** The renames and the trashing don't touch staging. */
  lemma StagingUntouched<C>(legs: seq<Leg>, batch: string, before: map<Place, C>, first: Journey, renamed: map<Place, C>,
                            ops: seq<Op>, trashed: map<Place, C>, source: Place)
    requires DistinctFroms(legs) && (forall a :: 0 <= a < |legs| ==> legs[a].to.Library?)
    requires Away(before, first, Renamed(legs), renamed) && PutAside(renamed, batch, ops, trashed)
    requires source.Staged? && source in trashed
    ensures source in before && trashed[source] == before[source]
  {
    RenamedStage(legs, before, first, renamed);
    assert !InBatch(source, batch) && source in renamed;
    assert !EndsAt(legs, source);
  }

  lemma ArrivalRealised<C>(legs: seq<Leg>, batch: string, before: map<Place, C>, first: Journey, renamed: map<Place, C>,
                           ops: seq<Op>, trashed: map<Place, C>, arriving: seq<PlannedFile>, last: Journey, after: map<Place, C>,
                           t: PlannedFile)
    requires DistinctFroms(legs) && (forall a :: 0 <= a < |legs| ==> legs[a].to.Library?)
    requires Away(before, first, Renamed(legs), renamed) && PutAside(renamed, batch, ops, trashed)
    requires Away(trashed, last, ArrivalTrips(arriving), after) && t in arriving
    ensures Staged(t.source) in before && PlaceOf(t.destination) in after && after[PlaceOf(t.destination)] == before[Staged(t.source)]
    ensures Staged(t.source) !in after
  {
    ArrivedStage(arriving, trashed, last, after);
    StagingUntouched(legs, batch, before, first, renamed, ops, trashed, Staged(t.source));
  }

  lemma TracksRealised<C>(plan: Plan, batch: string, before: map<Place, C>, first: Journey, renamed: map<Place, C>,
                          ops: seq<Op>, trashed: map<Place, C>, last: Journey, after: map<Place, C>)
    requires Stages(plan, batch, before, first, renamed, ops, trashed, last, after) && DistinctFroms(LegsOf(plan.renumber))
    ensures TracksDone(plan, before, after)
  {
    ArrivingAre(plan.tracks);
    forall t | t in plan.tracks && !t.skip
      ensures Staged(t.source) in before && Staged(t.source) !in after && PlaceOf(t.destination) in after &&
        after[PlaceOf(t.destination)] == before[Staged(t.source)]
    {
      ArrivalRealised(LegsOf(plan.renumber), batch, before, first, renamed, ops, trashed, ArrivingTracks(plan.tracks), last, after, t);
    }
  }

  /** `now` has everything of `after` but one staged image, and nothing else staged. */
  ghost predicate AllBut<C>(after: map<Place, C>, image: string, now: map<Place, C>) {
    && (forall p :: p in after && p != Staged(image) ==> p in now && now[p] == after[p])
    && (forall p :: p in now && p.Staged? ==> p in after)
  }

  lemma RenamesStayDone<C>(plan: Plan, batch: string, before: map<Place, C>, after: map<Place, C>, image: string, now: map<Place, C>)
    requires RenamesDone(plan, batch, before, after) && AllBut(after, image, now)
    ensures RenamesDone(plan, batch, before, now)
  {
  }

  lemma TracksStayDone<C>(plan: Plan, before: map<Place, C>, after: map<Place, C>, image: string, now: map<Place, C>)
    requires TracksDone(plan, before, after) && AllBut(after, image, now)
    ensures TracksDone(plan, before, now)
  {
  }

  lemma ReplacedStayKept<C>(plan: Plan, batch: string, before: map<Place, C>, after: map<Place, C>, image: string, now: map<Place, C>)
    requires ReplacedKept(plan, batch, before, after) && AllBut(after, image, now)
    ensures ReplacedKept(plan, batch, before, now)
  {
  }

  lemma BystandersStayUntouched<C>(plan: Plan, before: map<Place, C>, after: map<Place, C>, now: map<Place, C>)
    requires plan.cover.Some? && BystandersUntouched(plan, before, after) && AllBut(after, plan.cover.value.0, now)
    ensures BystandersUntouched(plan, before, now)
  {
  }

  /** The cover, when it moves, moves to a free place and spoils nothing. */
  lemma CoverRealised<C>(plan: Plan, batch: string, before: map<Place, C>, after: map<Place, C>, to: Place)
    requires Realised(plan, batch, before, after) && plan.cover.Some?
    requires Staged(plan.cover.value.0) in after && to !in after && to.Library?
    ensures Realised(plan, batch, before, Move(after, Staged(plan.cover.value.0), to))
  {
    var image := plan.cover.value.0;
    var now := Move(after, Staged(image), to);
    assert AllBut(after, image, now);
    RenamesStayDone(plan, batch, before, after, image, now);
    TracksStayDone(plan, before, after, image, now);
    ReplacedStayKept(plan, batch, before, after, image, now);
    BystandersStayUntouched(plan, before, after, now);
    FilesStayKept(before, after, Staged(image), to);
  }

  // ---- carrying out the plan ----

  /** The cover goes beside the tracks unless one is there. */
  method MoveCover<C>(disk: Disk<C>, cover: (string, string)) returns (error: Option<ImportError>)
    modifies disk`files
    ensures disk.files == old(disk.files) || disk.files == Move(old(disk.files), Staged(cover.0), PlaceOf(cover.1))
    ensures disk.files != old(disk.files) ==> PlaceOf(cover.1) !in old(disk.files)
    ensures error.None? ==> Resolve(cover.1).Some?
    ensures error.Some? ==> disk.files == old(disk.files)
    ensures error.Some? ==> error.value == if Resolve(cover.1).None? then UnsafeDestination(cover.1) else Io
  {
    var to := Resolve(cover.1);
    if to.None? {
      return Some(UnsafeDestination(cover.1));
    }
    if !Occupied(disk.files, to.value) {
      NotThere(disk.files, cover.1);
      var moved := disk.Rename(Staged(cover.0), Library(to.value));
      if !moved {
        return Some(Io);
      }
    }
    return None;
  }

  /** The renames are undone exactly. */
  lemma RenamesUndone<C>(plan: Plan, before: map<Place, C>, batch: string, lower: string -> string, first: Journey, renamed: map<Place, C>)
    requires WellMade(plan, before, batch, lower) && NoConflicts(plan, before, lower) && UndoSafe(LegsOf(plan.renumber))
    requires Away(before, first, Renamed(LegsOf(plan.renumber)), renamed)
    ensures BroughtHome(renamed, Renamed(LegsOf(plan.renumber))) == before
  {
    RenamesAreSafe(plan, before, batch, lower);
    UnrenamingIff(before, first, LegsOf(plan.renumber), renamed);
  }

  /** The trashing went through: what the arrivals need. */
  lemma TrashedStage<C>(plan: Plan, batch: string, lower: string -> string, before: map<Place, C>, first: Journey,
                        renamed: map<Place, C>, ops: seq<Op>, trashed: map<Place, C>)
    requires WellMade(plan, before, batch, lower) && NoConflicts(plan, before, lower) && FreshBatch(renamed, batch)
    requires Away(before, first, Renamed(LegsOf(plan.renumber)), renamed)
    requires Trashed(renamed, batch, ReplacedFiles(plan.tracks), |ReplacedFiles(plan.tracks)|, ops, trashed)
    ensures PutAside(renamed, batch, ops, trashed)
    ensures forall name :: name in ReplacedFiles(plan.tracks) ==> PlaceOf(name) !in trashed
    ensures ArrivalsSafe(ArrivingTracks(plan.tracks), trashed)
  {
    PutsUndone(renamed, batch, ops, ReplacedFiles(plan.tracks));
    DestinationsAreFree(plan, before, batch, lower, first, renamed, ops, trashed);
  }

  // ---- what a failure leaves ----

  /** The import stopped when it came to replaced name `k`: the copies it had trashed stay in
      the trash, and nothing is lost. Everything is as it was if and only if there were none. */
  ghost predicate StoppedImport<C>(plan: Plan, batch: string, before: map<Place, C>, k: nat, after: map<Place, C>)
    requires k <= |ReplacedFiles(plan.tracks)|
  {
    var names := ReplacedFiles(plan.tracks);
    && EveryFileKept(before, after)
    && (after == before <==> forall i :: 0 <= i < k ==> !Standing(plan, before, names[i]))
    && CopiesStay(plan, batch, before, k, after)
  }

  ghost predicate CopiesStay<C>(plan: Plan, batch: string, before: map<Place, C>, k: nat, after: map<Place, C>)
    requires k <= |ReplacedFiles(plan.tracks)|
  {
    forall i :: 0 <= i < k && Standing(plan, before, ReplacedFiles(plan.tracks)[i]) ==>
      CopyStays(batch, before, PlaceOf(ReplacedFiles(plan.tracks)[i]), after)
  }

  /** The file of `place` is in the batch, and not at its place. */
  ghost predicate CopyStays<C>(batch: string, before: map<Place, C>, place: Place, after: map<Place, C>) {
    place in before && place.Library? && place !in after && Holds(after, Kept(batch, place.parts), before[place])
  }

  /** What a failed import comes to, before it gets to the cover. */
  ghost predicate TracksFailed<C>(plan: Plan, batch: string, before: map<Place, C>, error: ImportError, after: map<Place, C>) {
    var unsafe := FirstUnsafe(ReplacedFiles(plan.tracks));
    if error == Io then after == before
    else
      unsafe.Some? && error == UnsafeDestination(ReplacedFiles(plan.tracks)[unsafe.value])
      && StoppedImport(plan, batch, before, unsafe.value, after)
  }

  /** A failed import puts everything back, but when it meets an unsafe name: at a replaced
      file's it leaves the copies trashed before, at the cover's it leaves the plan carried out,
      as it does when the cover can't be moved. */
  ghost predicate Failed<C>(plan: Plan, batch: string, before: map<Place, C>, error: ImportError, after: map<Place, C>) {
    TracksFailed(plan, batch, before, error, after) || CoverFailed(plan, batch, before, error, after)
  }

  ghost predicate CoverFailed<C>(plan: Plan, batch: string, before: map<Place, C>, error: ImportError, after: map<Place, C>) {
    && plan.cover.Some? && FirstUnsafe(ReplacedFiles(plan.tracks)).None?
    && error == (if Resolve(plan.cover.value.1).None? then UnsafeDestination(plan.cover.value.1) else Io)
    && Realised(plan, batch, before, after)
  }

  /** With an unsafe cover name, and safe names otherwise, an import fails, and how it fails tells what
      it leaves: told of the cover's name, the plan is carried out, its tracks gone from staging;
      told anything else, everything is as it was. */
  lemma CoverFailureKeepsTracks<C>(plan: Plan, batch: string, before: map<Place, C>, error: ImportError, after: map<Place, C>)
    requires Failed(plan, batch, before, error, after) && FirstUnsafe(ReplacedFiles(plan.tracks)).None?
    requires plan.cover.Some? && Resolve(plan.cover.value.1).None?
    ensures if error == UnsafeDestination(plan.cover.value.1) then Realised(plan, batch, before, after) else after == before
    ensures error == UnsafeDestination(plan.cover.value.1) ==>
      forall t :: t in plan.tracks && !t.skip ==> Staged(t.source) in before && Staged(t.source) !in after
    ensures error == UnsafeDestination(plan.cover.value.1) && (exists t :: t in plan.tracks && !t.skip) ==> after != before
  {
  }

  lemma RenamedTrips(legs: seq<Leg>, p: Place)
    ensures IsHome(Renamed(legs), p) <==> StartsAt(legs, p)
    ensures IsSpot(Renamed(legs), p) <==> EndsAt(legs, p)
  {
    var trips := Renamed(legs);
    forall a | 0 <= a < |legs| ensures (legs[a].from, legs[a].to) in trips {
      assert trips[|legs| - 1 - a] == (legs[a].from, legs[a].to);
    }
    forall t | t in trips ensures StartsAt(legs, t.0) && EndsAt(legs, t.1) {
      var k :| 0 <= k < |trips| && trips[k] == t;
      assert legs[|legs| - 1 - k].from == t.0 && legs[|legs| - 1 - k].to == t.1;
    }
  }

  /** No rename begins or ends in the trash. */
  lemma TrashIsNoTrip<C>(plan: Plan, files: map<Place, C>, batch: string, lower: string -> string, p: Place)
    requires WellMade(plan, files, batch, lower) && InBatch(p, batch)
    ensures !IsHome(Renamed(LegsOf(plan.renumber)), p) && !IsSpot(Renamed(LegsOf(plan.renumber)), p)
  {
    var legs := LegsOf(plan.renumber);
    DestinationsAre(plan);
    RenamedTrips(legs, p);
    forall a | 0 <= a < |legs| ensures legs[a].from != p && legs[a].to != p {
      assert plan.renumber[a] in plan.renumber;
      assert IsProper(plan.renumber[a].to);
    }
  }

  /** The renames leave a replaced copy where it is, or take it away. */
  lemma StandsIff<C>(plan: Plan, files: map<Place, C>, batch: string, lower: string -> string, j: Journey, renamed: map<Place, C>,
                     name: string)
    requires WellMade(plan, files, batch, lower) && name in ReplacedFiles(plan.tracks)
    requires Away(files, j, Renamed(LegsOf(plan.renumber)), renamed)
    ensures !IsSpot(Renamed(LegsOf(plan.renumber)), PlaceOf(name))
    ensures PlaceOf(name) in renamed <==> Standing(plan, files, name)
    ensures PlaceOf(name) in renamed ==> renamed[PlaceOf(name)] == files[PlaceOf(name)]
  {
    var legs := LegsOf(plan.renumber);
    RenamedStage(legs, files, j, renamed);
    RenamedTrips(legs, PlaceOf(name));
    forall a | 0 <= a < |legs| ensures legs[a].to != PlaceOf(name) {
      assert plan.renumber[a] in plan.renumber;
    }
  }

  /** Where the trashing stopped, bringing the renamed files home loses none. */
  lemma HomeFromTrashing<C>(before: map<Place, C>, first: Journey, legs: seq<Leg>, start: map<Place, C>, now: map<Place, C>)
    requires DistinctFroms(legs) && UndoSafe(legs) && Away(before, first, Renamed(legs), start)
    requires forall p :: IsHome(Renamed(legs), p) && p in now ==> p in start
    ensures EveryFileKept(now, BroughtHome(now, Renamed(legs)))
  {
    var trips := Renamed(legs);
    AllRenamedComesHomeIff(legs);
    assert DistinctHomes(trips) by {
      forall a, b | 0 <= a < b < |trips| ensures trips[a].0 != trips[b].0 {
        assert legs[|legs| - 1 - b].from != legs[|legs| - 1 - a].from;
      }
    }
    forall b | 0 <= b < |trips| && trips[b].0 in now ensures exists a :: 0 <= a <= b && trips[a].1 == trips[b].0 {
      assert trips[b] in trips && IsHome(trips, trips[b].0);
      if !IsSpot(trips, trips[b].0) {
        FreeSpot(before, first, trips, start, trips[b].0);
        assert false;
      }
      var t :| t in trips && t.1 == trips[b].0;
      var a :| 0 <= a < |trips| && trips[a] == t;
      assert !(b < a);
    }
    var j := HomeKeepsFiles(now, trips);
  }

  /** After the trashing stopped at name `k` of the renamed tree. */
  ghost predicate StoppedTrashing<C>(plan: Plan, batch: string, lower: string -> string, before: map<Place, C>, first: Journey,
                                     start: map<Place, C>, k: nat, ops: seq<Op>, now: map<Place, C>) {
    && WellMade(plan, before, batch, lower) && NoConflicts(plan, before, lower) && UndoSafe(LegsOf(plan.renumber))
    && Away(before, first, Renamed(LegsOf(plan.renumber)), start) && FreshBatch(start, batch)
    && k <= |ReplacedFiles(plan.tracks)| && Trashed(start, batch, ReplacedFiles(plan.tracks), k, ops, now)
  }

  lemma TrashedNoHome<C>(plan: Plan, batch: string, lower: string -> string, before: map<Place, C>, first: Journey,
                         start: map<Place, C>, k: nat, ops: seq<Op>, now: map<Place, C>, p: Place)
    requires StoppedTrashing(plan, batch, lower, before, first, start, k, ops, now)
    requires IsHome(Renamed(LegsOf(plan.renumber)), p) && p in now
    ensures p in start
  {
    PutsUndone(start, batch, ops, ReplacedFiles(plan.tracks));
    if InBatch(p, batch) {
      TrashIsNoTrip(plan, before, batch, lower, p);
    }
  }

  lemma HomeKeepsAll<C>(before: map<Place, C>, first: Journey, legs: seq<Leg>, start: map<Place, C>, now: map<Place, C>)
    requires DistinctFroms(legs) && UndoSafe(legs) && Away(before, first, Renamed(legs), start)
    requires EveryFileKept(start, now) && forall p :: IsHome(Renamed(legs), p) && p in now ==> p in start
    ensures EveryFileKept(before, BroughtHome(now, Renamed(legs)))
  {
    HomeFromTrashing(before, first, legs, start, now);
    JourneyKeeps(before, first, start);
    KeptAgain(before, start, now);
    KeptAgain(before, now, BroughtHome(now, Renamed(legs)));
  }

  lemma StoppedKeepsFiles<C>(plan: Plan, batch: string, lower: string -> string, before: map<Place, C>, first: Journey,
                             start: map<Place, C>, k: nat, ops: seq<Op>, now: map<Place, C>)
    requires StoppedTrashing(plan, batch, lower, before, first, start, k, ops, now)
    ensures EveryFileKept(before, BroughtHome(now, Renamed(LegsOf(plan.renumber))))
  {
    RenamesOfStopped(plan, batch, lower, before, first, start, k, ops, now);
    HomeKeepsAll(before, first, LegsOf(plan.renumber), start, now);
  }

  lemma RenamesOfStopped<C>(plan: Plan, batch: string, lower: string -> string, before: map<Place, C>, first: Journey,
                            start: map<Place, C>, k: nat, ops: seq<Op>, now: map<Place, C>)
    requires StoppedTrashing(plan, batch, lower, before, first, start, k, ops, now)
    ensures DistinctFroms(LegsOf(plan.renumber)) && UndoSafe(LegsOf(plan.renumber))
    ensures Away(before, first, Renamed(LegsOf(plan.renumber)), start) && EveryFileKept(start, now)
    ensures forall p :: IsHome(Renamed(LegsOf(plan.renumber)), p) && p in now ==> p in start
  {
    RenamesAreSafe(plan, before, batch, lower);
    forall p | IsHome(Renamed(LegsOf(plan.renumber)), p) && p in now ensures p in start {
      TrashedNoHome(plan, batch, lower, before, first, start, k, ops, now, p);
    }
    StoppedIff(start, batch, ReplacedFiles(plan.tracks), k, ops, now);
  }

  /** A copy in the trash stays there, and away from its place, while files are brought home. */
  lemma CopyStaysHome<C>(plan: Plan, batch: string, lower: string -> string, before: map<Place, C>, now: map<Place, C>, name: string)
    requires WellMade(plan, before, batch, lower) && name in ReplacedFiles(plan.tracks)
    requires Standing(plan, before, name) && !IsSpot(Renamed(LegsOf(plan.renumber)), PlaceOf(name))
    requires CopyStays(batch, before, PlaceOf(name), now) && PlaceOf(name).parts != []
    ensures CopyStays(batch, before, PlaceOf(name), BroughtHome(now, Renamed(LegsOf(plan.renumber))))
  {
    var trips, place := Renamed(LegsOf(plan.renumber)), PlaceOf(name);
    RenamedTrips(LegsOf(plan.renumber), place);
    HomeLeaves(now, trips, place);
    TrashIsNoTrip(plan, before, batch, lower, Kept(batch, place.parts));
    HomeLeaves(now, trips, Kept(batch, place.parts));
  }

  lemma CopyIsTrashed<C>(plan: Plan, batch: string, lower: string -> string, before: map<Place, C>, first: Journey,
                         start: map<Place, C>, k: nat, ops: seq<Op>, now: map<Place, C>, i: nat)
    requires StoppedTrashing(plan, batch, lower, before, first, start, k, ops, now)
    requires i < k && Standing(plan, before, ReplacedFiles(plan.tracks)[i])
    ensures CopyStays(batch, before, PlaceOf(ReplacedFiles(plan.tracks)[i]), now)
    ensures !IsSpot(Renamed(LegsOf(plan.renumber)), PlaceOf(ReplacedFiles(plan.tracks)[i]))
  {
    var name := ReplacedFiles(plan.tracks)[i];
    assert name in ReplacedFiles(plan.tracks);
    StandsIff(plan, before, batch, lower, first, start, name);
    StoppedIff(start, batch, ReplacedFiles(plan.tracks), k, ops, now);
  }

  lemma StoppedKeepsCopy<C>(plan: Plan, batch: string, lower: string -> string, before: map<Place, C>, first: Journey,
                            start: map<Place, C>, k: nat, ops: seq<Op>, now: map<Place, C>, i: nat)
    requires StoppedTrashing(plan, batch, lower, before, first, start, k, ops, now)
    requires i < k && Standing(plan, before, ReplacedFiles(plan.tracks)[i])
    ensures CopyStays(batch, before, PlaceOf(ReplacedFiles(plan.tracks)[i]), BroughtHome(now, Renamed(LegsOf(plan.renumber))))
  {
    var name := ReplacedFiles(plan.tracks)[i];
    assert name in ReplacedFiles(plan.tracks) && Resolve(name).Some?;
    CopyIsTrashed(plan, batch, lower, before, first, start, k, ops, now, i);
    CopyStaysHome(plan, batch, lower, before, now, name);
  }

  lemma NoneToTrash<C>(plan: Plan, batch: string, lower: string -> string, before: map<Place, C>, first: Journey,
                       start: map<Place, C>, k: nat)
    requires WellMade(plan, before, batch, lower) && Away(before, first, Renamed(LegsOf(plan.renumber)), start)
    requires k <= |ReplacedFiles(plan.tracks)|
    requires forall i :: 0 <= i < k ==> !Standing(plan, before, ReplacedFiles(plan.tracks)[i])
    ensures NoneThere(ReplacedFiles(plan.tracks), k, start)
  {
    var names := ReplacedFiles(plan.tracks);
    forall i | 0 <= i < k ensures PlaceOf(names[i]) !in start {
      assert names[i] in names;
      StandsIff(plan, before, batch, lower, first, start, names[i]);
    }
  }

  lemma NothingStopped<C>(plan: Plan, batch: string, lower: string -> string, before: map<Place, C>, first: Journey,
                          start: map<Place, C>, k: nat, ops: seq<Op>, now: map<Place, C>)
    requires StoppedTrashing(plan, batch, lower, before, first, start, k, ops, now)
    requires forall i :: 0 <= i < k ==> !Standing(plan, before, ReplacedFiles(plan.tracks)[i])
    ensures BroughtHome(now, Renamed(LegsOf(plan.renumber))) == before
  {
    NoneToTrash(plan, batch, lower, before, first, start, k);
    StoppedIff(start, batch, ReplacedFiles(plan.tracks), k, ops, now);
    RenamesUndone(plan, before, batch, lower, first, start);
  }

  lemma CopiesStayStopped<C>(plan: Plan, batch: string, lower: string -> string, before: map<Place, C>, first: Journey,
                             start: map<Place, C>, k: nat, ops: seq<Op>, now: map<Place, C>)
    requires StoppedTrashing(plan, batch, lower, before, first, start, k, ops, now)
    ensures CopiesStay(plan, batch, before, k, BroughtHome(now, Renamed(LegsOf(plan.renumber))))
  {
    var after := BroughtHome(now, Renamed(LegsOf(plan.renumber)));
    forall i | 0 <= i < k && Standing(plan, before, ReplacedFiles(plan.tracks)[i])
      ensures CopyStays(batch, before, PlaceOf(ReplacedFiles(plan.tracks)[i]), after)
    {
      StoppedKeepsCopy(plan, batch, lower, before, first, start, k, ops, now, i);
    }
  }

  lemma StoppedWith<C>(plan: Plan, batch: string, before: map<Place, C>, k: nat, after: map<Place, C>)
    requires k <= |ReplacedFiles(plan.tracks)| && EveryFileKept(before, after) && CopiesStay(plan, batch, before, k, after)
    requires (forall i :: 0 <= i < k ==> !Standing(plan, before, ReplacedFiles(plan.tracks)[i])) ==> after == before
    ensures StoppedImport(plan, batch, before, k, after)
  {
    if i :| 0 <= i < k && Standing(plan, before, ReplacedFiles(plan.tracks)[i]) {
      assert CopyStays(batch, before, PlaceOf(ReplacedFiles(plan.tracks)[i]), after);
    }
  }

  lemma WithoutCopiesNothing<C>(plan: Plan, batch: string, lower: string -> string, before: map<Place, C>, first: Journey,
                                start: map<Place, C>, k: nat, ops: seq<Op>, now: map<Place, C>)
    requires StoppedTrashing(plan, batch, lower, before, first, start, k, ops, now)
    ensures (forall i :: 0 <= i < k ==> !Standing(plan, before, ReplacedFiles(plan.tracks)[i])) ==>
      BroughtHome(now, Renamed(LegsOf(plan.renumber))) == before
  {
    if forall i :: 0 <= i < k ==> !Standing(plan, before, ReplacedFiles(plan.tracks)[i]) {
      NothingStopped(plan, batch, lower, before, first, start, k, ops, now);
    }
  }

  lemma StoppedImportIs<C>(plan: Plan, batch: string, lower: string -> string, before: map<Place, C>, first: Journey,
                           start: map<Place, C>, k: nat, ops: seq<Op>, now: map<Place, C>)
    requires StoppedTrashing(plan, batch, lower, before, first, start, k, ops, now)
    ensures StoppedImport(plan, batch, before, k, BroughtHome(now, Renamed(LegsOf(plan.renumber))))
  {
    StoppedKeepsFiles(plan, batch, lower, before, first, start, k, ops, now);
    CopiesStayStopped(plan, batch, lower, before, first, start, k, ops, now);
    WithoutCopiesNothing(plan, batch, lower, before, first, start, k, ops, now);
    StoppedWith(plan, batch, before, k, BroughtHome(now, Renamed(LegsOf(plan.renumber))));
  }

  // ---- the steps ----

  lemma TrashingFailed<C>(plan: Plan, batch: string, lower: string -> string, before: map<Place, C>, first: Journey,
                          start: map<Place, C>, error: ImportError, ops: seq<Op>, now: map<Place, C>)
    requires WellMade(plan, before, batch, lower) && NoConflicts(plan, before, lower) && UndoSafe(LegsOf(plan.renumber))
    requires Away(before, first, Renamed(LegsOf(plan.renumber)), start) && FreshBatch(start, batch)
    requires if error == Io then now == start else StoppedAtUnsafe(start, batch, ReplacedFiles(plan.tracks), error, ops, now)
    ensures TracksFailed(plan, batch, before, error, BroughtHome(now, Renamed(LegsOf(plan.renumber))))
  {
    if error == Io {
      RenamesUndone(plan, before, batch, lower, first, start);
    } else {
      StoppedImportIs(plan, batch, lower, before, first, start, FirstUnsafe(ReplacedFiles(plan.tracks)).value, ops, now);
    }
  }

  /** Trash what is replaced; when that fails the old names return. */
  method TrashCopies<C>(disk: Disk<C>, plan: Plan, batch: string, ghost lower: string -> string, renamed: Trips,
                        ghost before: map<Place, C>, ghost first: Journey, ghost made: bool)
      returns (r: Result<bool, ImportError>, ghost ops: seq<Op>)
    requires NoConflicts(plan, before, lower) && renamed == Renamed(LegsOf(plan.renumber))
    requires made ==> WellMade(plan, before, batch, lower) && Away(before, first, renamed, disk.files) && FreshBatch(disk.files, batch)
    modifies disk
    ensures old(disk.stuck) <= disk.stuck
    ensures r.Ok? ==> disk.stuck == old(disk.stuck) && disk.log == old(disk.log) && (!r.value ==> ops == [])
    ensures r.Ok? ==> FirstUnsafe(ReplacedFiles(plan.tracks)).None?
    ensures r.Ok? ==> Trashed(old(disk.files), batch, ReplacedFiles(plan.tracks), |ReplacedFiles(plan.tracks)|, ops, disk.files)
    ensures r.Err? && made && UndoSafe(LegsOf(plan.renumber)) && old(disk.MovesOf(batch)) == [] && disk.stuck == old(disk.stuck) ==>
      TracksFailed(plan, batch, before, r.error, disk.files)
  {
    ghost var start, stuck, fit := disk.files, disk.stuck, disk.MovesOf(batch) == [];
    r, ops := TrashReplaced(disk, plan.tracks, batch);
    if r.Err? {
      ghost var now := disk.files;
      BringHome(disk, renamed);
      if made && UndoSafe(LegsOf(plan.renumber)) && fit && disk.stuck == stuck {
        TrashingFailed(plan, batch, lower, before, first, start, r.error, ops, now);
      }
    }
  }

  lemma ArrivalsResolve<C>(plan: Plan, files: map<Place, C>, lower: string -> string)
    requires NoConflicts(plan, files, lower)
    ensures forall t :: t in ArrivingTracks(plan.tracks) ==> Resolve(t.destination).Some?
  {
    ArrivingAre(plan.tracks);
    DestinationsAre(plan);
    forall t | t in ArrivingTracks(plan.tracks) ensures Resolve(t.destination).Some? {
      assert (t.destination, false) in Destinations(plan);
    }
  }

  /** Trash what is replaced, then move the tracks in; a failure undoes both, and the renames,
      but for what was trashed when a name is unsafe. */
  method MoveTracks<C>(disk: Disk<C>, plan: Plan, batch: string, ghost lower: string -> string, renamed: Trips,
                       ghost before: map<Place, C>, ghost first: Journey, ghost made: bool)
      returns (r: Result<seq<Place>, ImportError>)
    requires NoConflicts(plan, before, lower) && renamed == Renamed(LegsOf(plan.renumber))
    requires made ==> WellMade(plan, before, batch, lower) && Away(before, first, renamed, disk.files) && FreshBatch(disk.files, batch)
    modifies disk
    ensures old(disk.stuck) <= disk.stuck
    ensures r.Ok? ==> disk.stuck == old(disk.stuck) && r.value == DestinationPlaces(ArrivingTracks(plan.tracks))
    ensures r.Ok? ==> FirstUnsafe(ReplacedFiles(plan.tracks)).None?
    ensures r.Ok? && made ==> Realised(plan, batch, before, disk.files)
    ensures r.Err? && made && UndoSafe(LegsOf(plan.renumber)) && old(disk.MovesOf(batch)) == [] && disk.stuck == old(disk.stuck) ==>
      TracksFailed(plan, batch, before, r.error, disk.files)
  {
    ghost var start := disk.files;
    var trash, ops := TrashCopies(disk, plan, batch, lower, renamed, before, first, made);
    if trash.Err? {
      return Err(trash.error);
    }
    r := ArriveTracks(disk, plan, batch, lower, trash.value, renamed, before, first, start, ops, made);
  }

  /** What is left to undo after the arrivals: the puts, then the renames. */
  lemma ArrivalsUndone<C>(plan: Plan, batch: string, lower: string -> string, before: map<Place, C>, first: Journey,
                          start: map<Place, C>, ops: seq<Op>, trashed: map<Place, C>)
    requires WellMade(plan, before, batch, lower) && NoConflicts(plan, before, lower)
    requires Away(before, first, Renamed(LegsOf(plan.renumber)), start) && UndoSafe(LegsOf(plan.renumber)) && FreshBatch(start, batch)
    requires Trashed(start, batch, ReplacedFiles(plan.tracks), |ReplacedFiles(plan.tracks)|, ops, trashed)
    ensures InGoodOrder(trashed, batch, []) && Restored(trashed, batch, []) == Outcome(start, {})
    ensures ops == [] ==> trashed == start
    ensures BroughtHome(start, Renamed(LegsOf(plan.renumber))) == before
  {
    RenamesUndone(plan, before, batch, lower, first, start);
    PutsUndone(start, batch, ops, ReplacedFiles(plan.tracks));
  }

  /** The tracks move in; when one can't, everything is put back. */
  method ArriveTracks<C>(disk: Disk<C>, plan: Plan, batch: string, ghost lower: string -> string, trash: bool, renamed: Trips,
                         ghost before: map<Place, C>, ghost first: Journey, ghost start: map<Place, C>, ghost ops: seq<Op>,
                         ghost made: bool)
      returns (r: Result<seq<Place>, ImportError>)
    requires NoConflicts(plan, before, lower) && renamed == Renamed(LegsOf(plan.renumber))
    requires made ==> WellMade(plan, before, batch, lower) && Away(before, first, renamed, start) && FreshBatch(start, batch)
    requires Trashed(start, batch, ReplacedFiles(plan.tracks), |ReplacedFiles(plan.tracks)|, ops, disk.files)
    requires !trash ==> ops == []
    modifies disk
    ensures old(disk.stuck) <= disk.stuck
    ensures r.Ok? ==> disk.stuck == old(disk.stuck) && r.value == DestinationPlaces(ArrivingTracks(plan.tracks))
    ensures r.Ok? && made ==> Realised(plan, batch, before, disk.files)
    ensures r.Err? ==> r.error == Io
    ensures r.Err? && made && UndoSafe(LegsOf(plan.renumber)) && old(disk.MovesOf(batch)) == [] && disk.stuck == old(disk.stuck) ==>
      disk.files == before
  {
    ghost var trashed, stuck, moves := disk.files, disk.stuck, disk.MovesOf(batch);
    ghost var undo := made && UndoSafe(LegsOf(plan.renumber)) && moves == [];
    if made {
      TrashedStage(plan, batch, lower, before, first, start, ops, trashed);
    }
    if undo {
      ArrivalsUndone(plan, batch, lower, before, first, start, ops, trashed);
    }
    ArrivalsResolve(plan, before, lower);
    var moved, _, last := Arrive(disk, ArrivingTracks(plan.tracks));
    r := moved;
    assert disk.MovesOf(batch) == moves;
    if moved.Err? {
      UnwindTracks(disk, batch, trash, renamed, before, start, trashed, undo && disk.stuck == stuck);
    } else if made {
      PlanRealised(plan, batch, before, first, start, ops, trashed, last, disk.files);
    }
  }

  /** After the arrivals were moved back: the trashed copies return, then the old names. */
  method UnwindTracks<C>(disk: Disk<C>, batch: string, trash: bool, renamed: Trips, ghost before: map<Place, C>,
                         ghost start: map<Place, C>, ghost trashed: map<Place, C>, ghost exact: bool)
    requires exact ==> disk.files == trashed && disk.MovesOf(batch) == [] && (!trash ==> trashed == start)
    requires exact ==> InGoodOrder(trashed, batch, []) && Restored(trashed, batch, []) == Outcome(start, {})
    requires exact ==> BroughtHome(start, renamed) == before
    modifies disk
    ensures old(disk.stuck) <= disk.stuck
    ensures exact && disk.stuck == old(disk.stuck) ==> disk.files == before
  {
    if trash {
      var _, _ := Restore(disk, batch);
    }
    BringHome(disk, renamed);
  }

  /** Where the plan's names are plain, only the disk can stop the renames. */
  lemma RenamesResolve<C>(plan: Plan, files: map<Place, C>, batch: string, lower: string -> string, error: ImportError)
    requires WellMade(plan, files, batch, lower) && NoConflicts(plan, files, lower)
    requires FailsOn(error, NamesOf(plan.renumber))
    ensures error == Io
  {
    DestinationsAre(plan);
    forall r | r in plan.renumber ensures Resolve(r.from).Some? && Resolve(r.to).Some? {
      assert (r.to, true) in Destinations(plan) && IsProper(r.from);
    }
  }

  /** One import, from the check for conflicts to the cover. */
  method Execute<C>(disk: Disk<C>, plan: Plan, batch: string, lower: string -> string) returns (r: Result<seq<Place>, ImportError>)
    modifies disk
    ensures old(disk.stuck) <= disk.stuck
    // With a conflict it has no effect.
    ensures !NoConflicts(plan, old(disk.files), lower) ==> r.Err? && disk.files == old(disk.files)
    // An unsafe name, of a replaced file or of the cover, is a failure.
    ensures r.Ok? ==> FirstUnsafe(ReplacedFiles(plan.tracks)).None?
    ensures r.Ok? && plan.cover.Some? ==> Resolve(plan.cover.value.1).Some?
    // A success realises the plan.
    ensures r.Ok? ==> r.value == DestinationPlaces(ArrivingTracks(plan.tracks))
    ensures r.Ok? && WellMade(plan, old(disk.files), batch, lower) ==> Realised(plan, batch, old(disk.files), disk.files)
    // A failure puts everything back, unless it comes from an unsafe name or the cover.
    ensures r.Err? && NoConflicts(plan, old(disk.files), lower) && WellMade(plan, old(disk.files), batch, lower) ==>
      UndoSafe(LegsOf(plan.renumber)) && old(disk.MovesOf(batch)) == [] && disk.stuck == old(disk.stuck) ==>
        Failed(plan, batch, old(disk.files), r.error, disk.files)
  {
    ghost var before, stuck, noted := disk.files, disk.stuck, disk.MovesOf(batch);
    var existing := FindConflicts(plan, disk, lower);
    if existing.Err? {
      return Err(existing.error);
    }
    if existing.value != [] {
      return Err(Conflicts(existing.value));
    }
    ghost var made := WellMade(plan, before, batch, lower);
    ghost var legs := LegsOf(plan.renumber);
    if made {
      RenamesAreSafe(plan, before, batch, lower);
    }
    var renames, first := RenumberFiles(disk, plan.renumber, legs);
    if renames.Err? {
      if made {
        RenamesResolve(plan, before, batch, lower, renames.error);
      }
      return Err(renames.error);
    }
    if made {
      StagesStayFresh(plan, before, batch, lower, first, disk.files);
    }
    var tracks: Result<seq<Place>, ImportError> := MoveTracks(disk, plan, batch, lower, renames.value, before, first, made);
    if tracks.Err? {
      return tracks;
    }
    if plan.cover.Some? {
      ghost var after := disk.files;
      var error := MoveCover(disk, plan.cover.value);
      if made && disk.files != after {
        CoverRealised(plan, batch, before, after, PlaceOf(plan.cover.value.1));
      }
      if error.Some? {
        return Err(error.value);
      }
    }
    return tracks;
  }
}
