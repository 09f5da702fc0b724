/** Fixing what a scan of the library found, as one batch that can be undone, and that is
    undone when a step of it fails (`crates/delune-library/src/health.rs`,
    `crates/delune-library/src/tidy.rs`). */
module Fixing {
  import opened Text
  import opened Paths
  import opened Relocation
  import opened Batches
  import opened Trash
  import opened Unnoted
  import opened Health
  import opened Copies
  import opened Merging
  import opened Albums
  import opened Tags
  import opened Tracks
  import opened Retags
  import opened Tidying

  // ---- undoing ----

  lemma BodiesRelocated<B>(files: map<Place, Track<B>>, j: Journey, after: map<Place, Track<B>>)
    requires Relocated(files, j, after)
    ensures EveryFileKept(Bodies(files), Bodies(after))
  {
    JourneyKeeps(Bodies(files), j, Bodies(after));
  }

  /** Write the noted identities again, from the last note to the first. */
  method UndoTags<B>(disk: Disk<Track<B>>, notes: TagNotes, batch: string)
    modifies disk`files, disk`stuck
    ensures old(disk.stuck) <= disk.stuck && disk.files.Keys == old(disk.files).Keys
    ensures Bodies(disk.files) == Bodies(old(disk.files))
    ensures disk.stuck == old(disk.stuck) ==> disk.files == TagsBack(old(disk.files), notes.Of(batch))
  {
    var records := notes.Of(batch);
    var i := |records|;
    ghost var files, stuck := disk.files, disk.stuck;
    assert records[..i] == records;
    while 0 < i
      invariant 0 <= i <= |records| && stuck <= disk.stuck && disk.files.Keys == files.Keys
      invariant Bodies(disk.files) == Bodies(files)
      invariant disk.stuck == stuck ==> TagsBack(files, records) == TagsBack(disk.files, records[..i])
    {
      i := i - 1;
      assert records[..i + 1][..i] == records[..i];
      var before := records[i];
      WriteKeepsBodies(disk.files, before.parts, before.id, before.withYear);
      if Library(before.parts) in disk.files {
        var written := WriteTags(disk, before.parts, before.id, before.withYear);
        if !written && Readable(disk.files, before.parts) {
          disk.stuck := disk.stuck + 1;
        }
      }
    }
  }

  lemma GoodOrderKeys<C, D>(files: map<Place, C>, others: map<Place, D>, batch: string, log: seq<(Parts, Parts)>)
    requires files.Keys == others.Keys && InGoodOrder(files, batch, log)
    ensures InGoodOrder(others, batch, log)
  {
    forall p | p in others ensures p in files {
      assert p in others.Keys;
    }
  }

  /** A batch in good order has been undone: no file is lost whatever was in the way, and if the
      disk refused nothing the tags are back, then the files. */
  ghost predicate Undid<B>(before: map<Place, Track<B>>, batch: string, log: seq<(Parts, Parts)>, records: seq<Before>,
                           after: map<Place, Track<B>>, exact: bool) {
    InGoodOrder(before, batch, log) ==>
      && EveryFileKept(Bodies(before), Bodies(after))
      && (exact ==> after == Restored(TagsBack(before, records), batch, log).files)
  }

  /** Take a batch back, identities while the files are still where it left them, then places. */
  method Undo<B>(disk: Disk<Track<B>>, notes: TagNotes, batch: string) returns (r: Result<set<Parts>, ()>)
    modifies disk
    ensures old(disk.stuck) <= disk.stuck
    ensures Undid(old(disk.files), batch, old(disk.MovesOf(batch)), old(notes.Of(batch)), disk.files, disk.stuck == old(disk.stuck))
    ensures InGoodOrder(old(disk.files), batch, old(disk.MovesOf(batch))) && disk.stuck == old(disk.stuck) ==>
      r == Ok(Restored(TagsBack(old(disk.files), old(notes.Of(batch))), batch, old(disk.MovesOf(batch))).left)
  {
    ghost var before, good := disk.files, InGoodOrder(disk.files, batch, disk.MovesOf(batch));
    UndoTags(disk, notes, batch);
    ghost var tagged := disk.files;
    if good {
      GoodOrderKeys(before, tagged, batch, disk.MovesOf(batch));
    }
    ghost var j;
    r, j := Restore(disk, batch);
    if good {
      BodiesRelocated(tagged, j, disk.files);
    }
  }

  // ---- batches that can be undone ----

  /** A batch, and what it left. */
  ghost predicate BatchRan<B>(before: map<Place, Track<B>>, batch: string, ops: seq<Op>, moved: map<Place, Track<B>>,
                              changes: seq<Change>, now: map<Place, Track<B>>, log: seq<(Parts, Parts)>, records: seq<Before>) {
    Ran(before, [], batch, ops, moved, log) && RetaggedSoFar(moved, [], changes, now, records)
  }

  /** Undoing the batch gives every file back its place, its identity and its body, with
      nothing reported left. */
  ghost predicate Reversible<B>(before: map<Place, Track<B>>, batch: string, now: map<Place, Track<B>>,
                                log: seq<(Parts, Parts)>, records: seq<Before>) {
    var undone := Restored(TagsBack(now, records), batch, log);
    InGoodOrder(now, batch, log) && SeenAll(undone.files, Seen) == SeenAll(before, Seen) && undone.left == {}
  }

  lemma SettledBatchIsReversible<B>(before: map<Place, Track<B>>, batch: string, ops: seq<Op>, moved: map<Place, Track<B>>,
                                    changes: seq<Change>, now: map<Place, Track<B>>, log: seq<(Parts, Parts)>, records: seq<Before>)
    requires FreshBatch(before, batch) && BatchRan(before, batch, ops, moved, changes, now, log, records)
    requires NoRecords(ops) && PutsOnlySettled(ops)
    ensures Reversible(before, batch, now, log, records)
  {
    assert [] + Log(ops) == Log(ops) && [] + Records(moved, changes) == Records(moved, changes);
    RunIsClean(before, batch, ops);
    GoodOrderKeys(moved, now, batch, log);
    BatchUndone(before, batch, ops, changes);
  }

  // ---- batches cut short ----

  /** Everything as before, but for one file in a place that was free. */
  ghost predicate ButForOne<C>(before: map<Place, C>, after: map<Place, C>) {
    exists from, to :: OneMoved(before, from, to, after)
  }

  predicate OneMoved<C(==)>(before: map<Place, C>, from: Parts, to: Parts, after: map<Place, C>) {
    Legal(before, MoveTo(from, to)) && after == Move(before, Library(from), Library(to))
  }

  lemma ButForOneShows<B>(before: map<Place, Track<B>>, after: map<Place, Track<B>>)
    requires ButForOne(before, after)
    ensures SeenAll(after, Seen) != SeenAll(before, Seen) && EveryFileKept(Bodies(before), Bodies(after))
  {
    var from, to :| OneMoved(before, from, to, after);
    assert Library(to) in SeenAll(after, Seen).Keys && Library(to) !in SeenAll(before, Seen).Keys;
    NothingMoved(before);
    MoveToFree(before, Nowhere(before), before, Library(from), Library(to));
    BodiesRelocated(before, Nowhere(before).Onward(Library(from), Library(to)), after);
  }

  /** A tidying cut short comes apart but for its last move. */
  lemma TidyCutShort<B>(before: map<Place, Track<B>>, batch: string, dir: Parts, ops: seq<Op>, now: map<Place, Track<B>>,
                        log: seq<(Parts, Parts)>)
    requires FreshBatch(before, batch) && CutShort(before, [], batch, dir, ops, now, log)
    ensures InGoodOrder(now, batch, log) && ButForOne(before, Restored(now, batch, log).files)
  {
    var rest, last := ops[..|ops| - 1], ops[|ops| - 1];
    MovesAreSettled(ops);
    CutAtLast(before, batch, ops, now, log);
    MovesOutLast(ops, dir);
    CleanUnnoted(before, batch, rest, last.from, last.to);
    BackButForOne(before, batch, rest, last.from, last.to);
    MovesLeave(before, batch, rest, last.to);
    assert OneMoved(before, last.from, last.to, Restored(now, batch, log).files);
  }

  // ---- fixes ----

  /** How a tidying ended: it can be undone, but for a move that went unnoted. */
  ghost predicate TidyEnded<B>(before: map<Place, Track<B>>, batch: string, r: Progress, now: map<Place, Track<B>>,
                               log: seq<(Parts, Parts)>, records: seq<Before>) {
    && InGoodOrder(now, batch, log) && EveryFileKept(Bodies(before), Bodies(now))
    && (r.Unrecorded? ==> ButForOne(before, Restored(TagsBack(now, records), batch, log).files))
    && (!r.Unrecorded? ==> Reversible(before, batch, now, log, records))
  }

  lemma TidyEnds<B>(before: map<Place, Track<B>>, batch: string, dir: Parts, r: Progress, ops: seq<Op>, moved: map<Place, Track<B>>,
                    changes: seq<Change>, now: map<Place, Track<B>>, log: seq<(Parts, Parts)>, records: seq<Before>)
    requires FreshBatch(before, batch)
    requires r.Unrecorded? ==> CutShort(before, [], batch, dir, ops, now, log) && records == []
    requires !r.Unrecorded? ==> TidyRan(before, [], [], batch, ops, moved, changes, now, log, records)
    ensures TidyEnded(before, batch, r, now, log, records)
  {
    MovesAreSettled(ops);
    if r.Unrecorded? {
      TidyCutShort(before, batch, dir, ops, now, log);
    } else {
      SettledBatchIsReversible(before, batch, ops, moved, changes, now, log, records);
    }
    TidyKeepsFiles(before, [], [], batch, dir, ops, moved, changes, now, log, records);
  }

  /** What a failed fix comes to: every file has its place, its identity and its body again,
      unless a move went unnoted. Then that one file stays where it was moved. */
  ghost predicate MixedFailed<B>(before: map<Place, Track<B>>, r: Progress, after: map<Place, Track<B>>) {
    && (SeenAll(after, Seen) == SeenAll(before, Seen) <==> !r.Unrecorded?)
    && (r.Unrecorded? ==> ButForOne(before, after))
  }

  lemma TidyUndone<B>(before: map<Place, Track<B>>, batch: string, r: Progress, now: map<Place, Track<B>>,
                      log: seq<(Parts, Parts)>, records: seq<Before>, after: map<Place, Track<B>>)
    requires TidyEnded(before, batch, r, now, log, records) && Undid(now, batch, log, records, after, true)
    ensures MixedFailed(before, r, after)
  {
    if r.Unrecorded? {
      ButForOneShows(before, after);
    }
  }

  lemma UndoKeepsAll<B>(before: map<Place, B>, batch: string, now: map<Place, Track<B>>, log: seq<(Parts, Parts)>,
                        records: seq<Before>, after: map<Place, Track<B>>, exact: bool)
    requires EveryFileKept(before, Bodies(now)) && InGoodOrder(now, batch, log) && Undid(now, batch, log, records, after, exact)
    ensures EveryFileKept(before, Bodies(after))
  {
    KeptAgain(before, Bodies(now), Bodies(after));
  }

  /** Make a mixed folder one album; a failed fix is undone. */
  method FixMixed<B>(disk: Disk<Track<B>>, notes: TagNotes, dir: Parts, key: Keying, shelves: Shelves, batch: string)
      returns (r: Progress)
    requires IsLibrary(dir) && ShelvesInLibrary(shelves)
    requires FreshBatch(disk.files, batch) && disk.MovesOf(batch) == [] && notes.Of(batch) == []
    modifies disk, notes
    ensures r.Done? ==> Reversible(old(disk.files), batch, disk.files, disk.MovesOf(batch), notes.Of(batch))
    ensures !r.Done? && disk.stuck == old(disk.stuck) ==> MixedFailed(old(disk.files), r, disk.files)
    ensures EveryFileKept(Bodies(old(disk.files)), Bodies(disk.files))
  {
    ghost var before := disk.files;
    var left;
    ghost var tracks, members, ops, moved, changes;
    r, left, tracks, members, ops, moved, changes := Tidy(disk, notes, dir, key, shelves, batch);
    ghost var now, log, records, stuck := disk.files, disk.MovesOf(batch), notes.Of(batch), disk.stuck;
    TidyEnds(before, batch, dir, r, ops, moved, changes, now, log, records);
    if !r.Done? {
      var undone := Undo(disk, notes, batch);
      UndoKeepsAll(Bodies(before), batch, now, log, records, disk.files, disk.stuck == stuck);
      if disk.stuck == stuck {
        TidyUndone(before, batch, r, now, log, records, disk.files);
      }
    }
  }

  lemma MovesAreSettled(ops: seq<Op>)
    requires forall op :: op in ops ==> op.MoveTo?
    ensures NoRecords(ops) && PutsOnlySettled(ops)
  {
    MovesChangeNeither([], ops);
    assert [] + ops == ops;
  }

  // ---- a merge, then a tidying ----

  /** Undoing the batch gives every file back its place and its body, with nothing reported
      left. */
  ghost predicate PlacesReversible<B>(before: map<Place, Track<B>>, batch: string, now: map<Place, Track<B>>,
                                      log: seq<(Parts, Parts)>, records: seq<Before>) {
    var undone := Restored(TagsBack(now, records), batch, log);
    InGoodOrder(now, batch, log) && Bodies(undone.files) == Bodies(before) && undone.left == {}
  }

  lemma SeenShowsBodies<B>(files: map<Place, Track<B>>, others: map<Place, Track<B>>)
    requires SeenAll(files, Seen) == SeenAll(others, Seen)
    ensures Bodies(files) == Bodies(others)
  {
    assert SeenAll(files, Seen).Keys == SeenAll(others, Seen).Keys;
    forall p | p in files ensures files[p].body == others[p].body {
      assert SeenAll(files, Seen)[p] == SeenAll(others, Seen)[p];
    }
  }

  lemma BodiesReversible<B>(before: map<Place, Track<B>>, batch: string, ops: seq<Op>, moved: map<Place, Track<B>>,
                            changes: seq<Change>, now: map<Place, Track<B>>, log: seq<(Parts, Parts)>, records: seq<Before>)
    requires FreshBatch(Bodies(before), batch) && Ran(Bodies(before), [], batch, ops, Bodies(moved), log)
    requires RetaggedSoFar(moved, [], changes, now, records) && NoRecords(ops)
    ensures PlacesReversible(before, batch, now, log, records) <==> PutsOnlySettled(ops)
    ensures InGoodOrder(now, batch, log)
  {
    assert [] + Log(ops) == Log(ops) && [] + Records(moved, changes) == Records(moved, changes);
    RunIsClean(Bodies(before), batch, ops);
    GoodOrderKeys(Bodies(moved), now, batch, log);
    TagsUndone(moved, changes);
    SeenShowsBodies(TagsBack(now, records), moved);
    RestoredSees(TagsBack(now, records), batch, log, Body);
    UndoIsExactIff(Bodies(before), batch, ops);
  }

  /** What a merge did and then a tidying. */
  lemma MergeThenTidy<B>(before: map<Place, Track<B>>, batch: string, target: Parts, sources: seq<Parts>, trackKey: string -> string,
                         seen: set<Parts>, ops: seq<Op>, merged: map<Place, Track<B>>, log: seq<(Parts, Parts)>, more: seq<Op>,
                         moved: map<Place, Track<B>>, changes: seq<Change>, now: map<Place, Track<B>>, log': seq<(Parts, Parts)>,
                         records: seq<Before>)
    requires FreshBatch(Bodies(before), batch)
    requires SoFar(Bodies(before), [], batch, target, sources, trackKey, seen, ops, Bodies(merged), log)
    requires TidyRan(merged, log, [], batch, more, moved, changes, now, log', records)
    ensures PlacesReversible(before, batch, now, log', records) <==> PutsOnlySettled(ops)
    ensures InGoodOrder(now, batch, log') && (EveryFileKept(Bodies(before), Bodies(now)) <==> PutsOnce(ops))
  {
    RunSees(merged, batch, more, Body);
    RanMore(Bodies(before), [], batch, ops, Bodies(merged), log, more, Bodies(moved), log');
    MovesChangeNeither(ops, more);
    BodiesReversible(before, batch, ops + more, moved, changes, now, log', records);
    RetagsKeepBodies(moved, changes);
    RunKeepsFilesIff(Bodies(before), batch, ops + more);
  }

  // ---- a merge and a tidying, cut short ----

  /** The merge's moves, the tidying's, and the move that went unnoted. */
  ghost predicate LostTrack<C>(before: map<Place, C>, batch: string, merged: seq<Op>, later: seq<Op>, lost: Op) {
    && lost.MoveTo? && MovedUnnoted(before, batch, merged + later, lost.from, lost.to)
    && Unchained(merged) && OnlyMoves(later) && !IsTarget(later, lost.from) && !IsSource(later, lost.to)
  }

  /** What putting the batch back comes to when its last move isn't noted. */
  function WithoutNote<C>(before: map<Place, C>, batch: string, ops: seq<Op>, lost: Op): map<Place, C>
    requires lost.MoveTo?
  {
    Restored(AfterMove(before, batch, ops, lost.from, lost.to), batch, Log(ops)).files
  }

  /** How fixing a split album ended. */
  ghost predicate SplitEnded<B>(before: map<Place, Track<B>>, batch: string, r: Progress, merged: seq<Op>, later: seq<Op>, lost: Op,
                                now: map<Place, Track<B>>, log: seq<(Parts, Parts)>, records: seq<Before>) {
    && InGoodOrder(now, batch, log) && (EveryFileKept(Bodies(before), Bodies(now)) <==> PutsOnce(merged))
    && (r.Unrecorded? && PutsOnlySettled(merged) ==>
          && LostTrack(Bodies(before), batch, merged, later, lost) && records == [] && log == Log(merged + later)
          && Bodies(now) == AfterMove(Bodies(before), batch, merged + later, lost.from, lost.to))
    && (!r.Unrecorded? ==> (PlacesReversible(before, batch, now, log, records) <==> PutsOnlySettled(merged)))
  }

  /** A run of a merge, then moves, the last of them not noted. */
  ghost predicate LostLast<C>(before: map<Place, C>, batch: string, merged: seq<Op>, later: seq<Op>, lost: Op, now: map<Place, C>,
                              log: seq<(Parts, Parts)>) {
    && FreshBatch(before, batch) && NoRecords(merged) && Unchained(merged)
    && OnlyMoves(later) && lost.MoveTo? && !IsTarget(later, lost.from) && !IsSource(later, lost.to)
    && Cut(before, [], batch, (merged + later) + [lost], now, log)
  }

  lemma LostSplit<C>(before: map<Place, C>, batch: string, merged: seq<Op>, later: seq<Op>, lost: Op, now: map<Place, C>,
                     log: seq<(Parts, Parts)>)
    requires LostLast(before, batch, merged, later, lost, now, log)
    ensures LegalRun(before, batch, merged + later) && Legal(Run(before, batch, merged + later), lost)
    ensures now == AfterMove(before, batch, merged + later, lost.from, lost.to) && log == Log(merged + later)
    ensures NoRecords(merged + later)
    ensures PutsOnlySettled(merged + later) <==> PutsOnlySettled(merged)
    ensures PutsOnce((merged + later) + [lost]) <==> PutsOnce(merged)
  {
    var ops := merged + later;
    assert (ops + [lost])[..|ops + [lost]| - 1] == ops && [] + Log(ops) == Log(ops);
    MovesChangeNeither(merged, later);
    MovesChangeNeither(ops, [lost]);
  }

  lemma LostEnds<B>(before: map<Place, Track<B>>, batch: string, merged: seq<Op>, later: seq<Op>, lost: Op,
                    now: map<Place, Track<B>>, log: seq<(Parts, Parts)>)
    requires LostLast(Bodies(before), batch, merged, later, lost, Bodies(now), log)
    ensures SplitEnded(before, batch, Unrecorded, merged, later, lost, now, log, [])
  {
    var ops := merged + later;
    LostSplit(Bodies(before), batch, merged, later, lost, Bodies(now), log);
    LostInOrder(Bodies(before), batch, ops, lost, now);
    RunKeepsFilesIff(Bodies(before), batch, ops + [lost]);
  }

  lemma LostInOrder<B>(before: map<Place, B>, batch: string, ops: seq<Op>, lost: Op, now: map<Place, Track<B>>)
    requires FreshBatch(before, batch) && LegalRun(before, batch, ops + [lost]) && NoRecords(ops) && lost.MoveTo?
    requires Bodies(now) == Run(before, batch, ops + [lost])
    ensures InGoodOrder(now, batch, Log(ops))
  {
    RunMore(before, batch, ops, lost);
    RunIsClean(before, batch, ops);
    RunIsClean(before, batch, ops + [lost]);
    GoodOrderKeys(Bodies(now), now, batch, Log(ops));
  }

  lemma CutIsLost<C>(before: map<Place, C>, batch: string, ops: seq<Op>, now: map<Place, C>, log: seq<(Parts, Parts)>)
    requires FreshBatch(before, batch) && NoRecords(ops) && Unchained(ops) && Cut(before, [], batch, ops, now, log)
    ensures LostLast(before, batch, ops[..|ops| - 1], [], ops[|ops| - 1], now, log)
  {
    var rest, last := ops[..|ops| - 1], ops[|ops| - 1];
    assert rest + [] == rest && ops == rest + [last] && forall op :: op in rest ==> op in ops;
  }

  lemma MergeLost<B>(before: map<Place, Track<B>>, batch: string, target: Parts, sources: seq<Parts>, key: string -> string,
                     seen: set<Parts>, ops: seq<Op>, now: map<Place, Track<B>>, log: seq<(Parts, Parts)>)
    requires FreshBatch(Bodies(before), batch)
    requires CutOff(Bodies(before), [], batch, target, sources, key, seen, ops, Bodies(now), log)
    ensures SplitEnded(before, batch, Unrecorded, ops[..|ops| - 1], [], ops[|ops| - 1], now, log, [])
  {
    MergeDoesntChain(Bodies(before), batch, target, sources, key, seen, ops);
    CutIsLost(Bodies(before), batch, ops, Bodies(now), log);
    LostEnds(before, batch, ops[..|ops| - 1], [], ops[|ops| - 1], now, log);
  }

  lemma TidyLost<B>(before: map<Place, Track<B>>, batch: string, target: Parts, sources: seq<Parts>, key: string -> string,
                    seen: set<Parts>, merged: seq<Op>, middle: map<Place, Track<B>>, log: seq<(Parts, Parts)>, more: seq<Op>,
                    now: map<Place, Track<B>>, log': seq<(Parts, Parts)>)
    requires FreshBatch(Bodies(before), batch)
    requires SoFar(Bodies(before), [], batch, target, sources, key, seen, merged, Bodies(middle), log)
    requires CutShort(middle, log, batch, target, more, now, log')
    ensures SplitEnded(before, batch, Unrecorded, merged, more[..|more| - 1], more[|more| - 1], now, log', [])
  {
    var later, lost := more[..|more| - 1], more[|more| - 1];
    MovesOutLast(more, target);
    RunSees(middle, batch, more, Body);
    RanThenCut(Bodies(before), [], batch, merged, Bodies(middle), log, more, Bodies(now), log');
    LastApart(merged, more);
    MergeDoesntChain(Bodies(before), batch, target, sources, key, seen, merged);
    LostEnds(before, batch, merged, later, lost, now, log');
  }

  lemma LastApart(ops: seq<Op>, more: seq<Op>)
    requires more != []
    ensures ops + more == (ops + more[..|more| - 1]) + [more[|more| - 1]]
  {
  }

  lemma MovesOutLast(ops: seq<Op>, dir: Parts)
    requires ops != [] && MovesOut(ops, dir)
    ensures var rest, last := ops[..|ops| - 1], ops[|ops| - 1];
      last.MoveTo? && OnlyMoves(rest) && !IsTarget(rest, last.from) && !IsSource(rest, last.to)
  {
    var rest, last := ops[..|ops| - 1], ops[|ops| - 1];
    assert ops == rest + [last] && last in ops && forall op :: op in rest ==> op in ops;
  }

  /** What a failed fix comes to: everything has its place and body again, unless a move went
      unnoted. Then the rest is undone around that move, and everything is back if and only if it
      took its file back to where the merge had found it. */
  ghost predicate SplitFailed<C>(before: map<Place, C>, batch: string, r: Progress, merged: seq<Op>, later: seq<Op>, lost: Op,
                                 after: map<Place, C>) {
    if r.Unrecorded?
    then LostTrack(before, batch, merged, later, lost) && after == WithoutNote(before, batch, merged + later, lost)
      && (after == before <==> Origin(merged, lost.from) == lost.to)
    else after == before
  }

  lemma SplitUndone<B>(before: map<Place, Track<B>>, batch: string, r: Progress, merged: seq<Op>, later: seq<Op>, lost: Op,
                       now: map<Place, Track<B>>, log: seq<(Parts, Parts)>, records: seq<Before>, after: map<Place, Track<B>>,
                       exact: bool)
    requires SplitEnded(before, batch, r, merged, later, lost, now, log, records) && Undid(now, batch, log, records, after, exact)
    ensures EveryFileKept(Bodies(before), Bodies(after)) <==> PutsOnce(merged)
    ensures exact && PutsOnlySettled(merged) ==> SplitFailed(Bodies(before), batch, r, merged, later, lost, Bodies(after))
  {
    KeptLaterIff(Bodies(before), Bodies(now), Bodies(after));
    if exact && PutsOnlySettled(merged) {
      SplitBack(before, batch, r, merged, later, lost, now, log, records, after);
    }
  }

  lemma SplitBack<B>(before: map<Place, Track<B>>, batch: string, r: Progress, merged: seq<Op>, later: seq<Op>, lost: Op,
                     now: map<Place, Track<B>>, log: seq<(Parts, Parts)>, records: seq<Before>, after: map<Place, Track<B>>)
    requires SplitEnded(before, batch, r, merged, later, lost, now, log, records) && PutsOnlySettled(merged)
    requires after == Restored(TagsBack(now, records), batch, log).files
    ensures SplitFailed(Bodies(before), batch, r, merged, later, lost, Bodies(after))
  {
    if r.Unrecorded? {
      LostUndone(Bodies(before), batch, merged, later, lost, now, log, after);
    }
  }

  lemma LostUndone<B>(before: map<Place, B>, batch: string, merged: seq<Op>, later: seq<Op>, lost: Op, now: map<Place, Track<B>>,
                      log: seq<(Parts, Parts)>, after: map<Place, Track<B>>)
    requires LostTrack(before, batch, merged, later, lost) && log == Log(merged + later)
    requires Bodies(now) == AfterMove(before, batch, merged + later, lost.from, lost.to)
    requires after == Restored(now, batch, log).files
    ensures Bodies(after) == WithoutNote(before, batch, merged + later, lost)
    ensures Bodies(after) == before <==> Origin(merged, lost.from) == lost.to
  {
    RestoredSees(now, batch, log, Body);
    BackAfterLaterIff(before, batch, merged, later, lost.from, lost.to);
  }

  /** What the folders allow doesn't depend on a merge's last move. */
  lemma AllowedWithoutLast<B>(before: map<Place, B>, target: Parts, sources: seq<Parts>, key: string -> string,
                              rank: Ranking<Track<B>>, ops: seq<Op>)
    requires AsFoldersAllow(before, target, sources, key, rank, ops, false) && ops != [] && ops[|ops| - 1].MoveTo?
    ensures AsFoldersAllow(before, target, sources, key, rank, ops[..|ops| - 1], false)
  {
    MovesChangeNeither(ops[..|ops| - 1], [ops[|ops| - 1]]);
    assert ops == ops[..|ops| - 1] + [ops[|ops| - 1]];
  }

  /** Make the folder a merge ended in one album. */
  method TidyMerged<B>(disk: Disk<Track<B>>, notes: TagNotes, dir: Parts, key: Keying, shelves: Shelves, batch: string,
                       ghost before: map<Place, Track<B>>, ghost sources: seq<Parts>, ghost trackKey: string -> string,
                       ghost seen: set<Parts>, ghost merged: seq<Op>)
      returns (r: Progress, ghost later: seq<Op>, ghost lost: Op)
    requires IsLibrary(dir) && ShelvesInLibrary(shelves) && FreshBatch(Bodies(before), batch) && notes.Of(batch) == []
    requires SoFar(Bodies(before), [], batch, dir, sources, trackKey, seen, merged, Bodies(disk.files), disk.MovesOf(batch))
    modifies disk`files, disk`log, notes
    ensures SplitEnded(before, batch, r, merged, later, lost, disk.files, disk.MovesOf(batch), notes.Of(batch))
  {
    ghost var middle, log := disk.files, disk.MovesOf(batch);
    var left;
    ghost var tracks, members, moved, changes;
    r, left, tracks, members, later, moved, changes := Tidy(disk, notes, dir, key, shelves, batch);
    lost := PutAway([]);
    if r.Unrecorded? {
      TidyLost(before, batch, dir, sources, trackKey, seen, merged, middle, log, later, disk.files, disk.MovesOf(batch));
      later, lost := later[..|later| - 1], later[|later| - 1];
    } else {
      MergeThenTidy(before, batch, dir, sources, trackKey, seen, merged, middle, log, later, moved, changes,
                    disk.files, disk.MovesOf(batch), notes.Of(batch));
    }
  }

  /** A merge that the disk refused to go on with. */
  lemma MergeRefused<B>(before: map<Place, Track<B>>, batch: string, target: Parts, sources: seq<Parts>, trackKey: string -> string,
                        seen: set<Parts>, ops: seq<Op>, now: map<Place, Track<B>>, log: seq<(Parts, Parts)>)
    requires FreshBatch(Bodies(before), batch)
    requires SoFar(Bodies(before), [], batch, target, sources, trackKey, seen, ops, Bodies(now), log)
    ensures SplitEnded(before, batch, Refused, ops, [], PutAway([]), now, log, [])
  {
    NoTidy(now, log, batch);
    MergeThenTidy(before, batch, target, sources, trackKey, seen, ops, now, log, [], now, [], now, log, []);
  }

  /** Merge the folders of a split album, then make the folder they end in one album. */
  method MergeAndTidy<B>(disk: Disk<Track<B>>, notes: TagNotes, folders: seq<Parts>, trackKey: string -> string,
                         rank: Ranking<Track<B>>, inspect: Inspecting<B>, key: Keying, shelves: Shelves, batch: string)
      returns (r: Progress, ghost merged: seq<Op>, ghost later: seq<Op>, ghost lost: Op)
    requires folders != [] && folders[0] !in folders[1..] && forall folder :: folder in folders ==> IsLibrary(folder)
    requires ShelvesInLibrary(shelves)
    requires FreshBatch(Bodies(disk.files), batch) && disk.MovesOf(batch) == [] && notes.Of(batch) == []
    modifies disk`files, disk`log, notes
    ensures SplitEnded(old(disk.files), batch, r, merged, later, lost, disk.files, disk.MovesOf(batch), notes.Of(batch))
    ensures AsFoldersAllow(Bodies(old(disk.files)), folders[0], folders[1..], trackKey, rank, merged, r.Done?)
  {
    ghost var before := disk.files;
    ghost var seen;
    r, seen, merged := MergeInto(disk, folders, trackKey, rank, inspect, batch);
    later, lost := [], PutAway([]);
    match r
    case Unrecorded =>
      MergeLost(before, batch, folders[0], folders[1..], trackKey, seen, merged, disk.files, disk.MovesOf(batch));
      AllowedWithoutLast(Bodies(before), folders[0], folders[1..], trackKey, rank, merged);
      merged, lost := merged[..|merged| - 1], merged[|merged| - 1];
    case Refused =>
      MergeRefused(before, batch, folders[0], folders[1..], trackKey, seen, merged, disk.files, disk.MovesOf(batch));
    case Done =>
      r, later, lost := TidyMerged(disk, notes, folders[0], key, shelves, batch, before, folders[1..], trackKey, seen, merged);
  }

  /** Fix a split album; a failed fix is undone. Whether the fix can be undone, and whether it keeps
      all files, is a matter of the merge, and so of the folders. */
  method FixSplit<B>(disk: Disk<Track<B>>, notes: TagNotes, folders: seq<Parts>, trackKey: string -> string,
                     rank: Ranking<Track<B>>, inspect: Inspecting<B>, key: Keying, shelves: Shelves, batch: string)
      returns (r: Progress, ghost merged: seq<Op>, ghost later: seq<Op>, ghost lost: Op)
    requires folders != [] && folders[0] !in folders[1..] && forall folder :: folder in folders ==> IsLibrary(folder)
    requires ShelvesInLibrary(shelves)
    requires FreshBatch(Bodies(disk.files), batch) && disk.MovesOf(batch) == [] && notes.Of(batch) == []
    modifies disk, notes
    ensures r.Done? ==>
      (PlacesReversible(old(disk.files), batch, disk.files, disk.MovesOf(batch), notes.Of(batch)) <==> PutsOnlySettled(merged))
    ensures !r.Done? && PutsOnlySettled(merged) && disk.stuck == old(disk.stuck) ==>
      SplitFailed(Bodies(old(disk.files)), batch, r, merged, later, lost, Bodies(disk.files))
    ensures EveryFileKept(Bodies(old(disk.files)), Bodies(disk.files)) <==> PutsOnce(merged)
    ensures AsFoldersAllow(Bodies(old(disk.files)), folders[0], folders[1..], trackKey, rank, merged, r.Done?)
  {
    ghost var before := disk.files;
    r, merged, later, lost := MergeAndTidy(disk, notes, folders, trackKey, rank, inspect, key, shelves, batch);
    ghost var now, log, records, stuck := disk.files, disk.MovesOf(batch), notes.Of(batch), disk.stuck;
    if !r.Done? {
      var undone := Undo(disk, notes, batch);
      SplitUndone(before, batch, r, merged, later, lost, now, log, records, disk.files, disk.stuck == stuck);
    }
  }

  lemma NoTidy<B>(files: map<Place, Track<B>>, log: seq<(Parts, Parts)>, batch: string)
    ensures TidyRan(files, log, [], batch, [], files, [], files, log, [])
  {
    RanNothing(files, log, batch);
    NoneRetagged(files, []);
  }
}
