/** Thinning out a folder that has tracks more than once (`crates/delune-library/src/health.rs`). */
module Duplicates {
  import opened Text
  import opened Paths
  import opened Relocation
  import opened Batches
  import opened Trash
  import opened Health
  import opened Listings
  import opened Copies
  import opened Merging
  import opened Tracks
  import opened Retags
  import opened Tidying
  import opened Fixing

  // ---- the best copy ----

  /** Two tracks of the folder are copies of one. */
  predicate AreCopies(key: string -> string, a: Parts, b: Parts) {
    Telling(TrackKey(key, a)) && TrackKey(key, a) == TrackKey(key, b)
  }

  /** Ranked higher, or as high and earlier by name. */
  predicate Better<C>(files: map<Place, C>, rank: Ranking<C>, a: Parts, b: Parts) {
    var r, s := RankOf(rank, files, a), RankOf(rank, files, b);
    Outranks(r, s) || (r == s && NamedBefore(a, b))
  }

  /** The track is no copy of a better one. */
  ghost predicate IsKept<C>(files: map<Place, C>, dir: Parts, key: string -> string, rank: Ranking<C>, track: Parts) {
    track in TracksOf(files, dir) && forall t :: t in TracksOf(files, dir) && AreCopies(key, t, track) ==> Better(files, rank, track, t)
  }

  /** What keeping the best copies may put away: the other copies, and files named like
      those but like no track that is kept. */
  ghost predicate MayGo<C>(files: map<Place, C>, dir: Parts, key: string -> string, rank: Ranking<C>, q: Parts) {
    && q != [] && Folder(q) == dir && Library(q) in files
    && (q in TracksOf(files, dir) || !IsAudio(FileName(q)))
    && forall f :: IsKept(files, dir, key, rank, f) ==> f != q && (IsAudio(FileName(q)) || Stem(FileName(f)) != Stem(FileName(q)))
  }

  lemma BetterIsOrder<C>(files: map<Place, C>, rank: Ranking<C>, a: Parts, b: Parts, c: Parts, folder: Parts)
    requires a != [] && b != [] && Folder(a) == folder && Folder(b) == folder
    ensures Better(files, rank, a, b) || Better(files, rank, b, a)
    ensures Better(files, rank, a, b) && Better(files, rank, b, c) ==> Better(files, rank, a, c)
  {
    NamedBeforeIsOrder(a, b, c, folder);
  }

  method BestOf<C>(files: map<Place, C>, rank: Ranking<C>, copies: set<Parts>, ghost dir: Parts) returns (best: Parts)
    requires copies != {} && forall t :: t in copies ==> t != [] && Folder(t) == dir
    ensures best in copies && forall t :: t in copies ==> Better(files, rank, best, t)
  {
    best :| best in copies;
    BetterIsOrder(files, rank, best, best, best, dir);
    var rest := copies - {best};
    while rest != {}
      invariant best in copies && rest <= copies
      invariant forall t :: t in copies && t !in rest ==> Better(files, rank, best, t)
    {
      var next :| next in rest;
      rest := rest - {next};
      BetterIsOrder(files, rank, next, best, best, dir);
      if !Better(files, rank, best, next) {
        forall t | t in copies && t !in rest ensures Better(files, rank, next, t) {
          BetterIsOrder(files, rank, next, best, t, dir);
          BetterIsOrder(files, rank, next, next, t, dir);
        }
        best := next;
      }
    }
  }

  // ---- putting the others away ----

  /** Only files that may go have gone. */
  ghost predicate Spared<C>(before: map<Place, C>, dir: Parts, key: string -> string, rank: Ranking<C>, ops: seq<Op>) {
    forall op :: op in ops ==> op.PutAway? && MayGo(before, dir, key, rank, op.parts)
  }

  /** The run so far. */
  ghost predicate Keeping<C>(before: map<Place, C>, dir: Parts, key: string -> string, rank: Ranking<C>, batch: string, ops: seq<Op>,
                             now: map<Place, C>) {
    Stepped(before, batch, ops, now) && Spared(before, dir, key, rank, ops)
  }

  /** A kept track is still there. */
  lemma KeptStays<C>(before: map<Place, C>, dir: Parts, key: string -> string, rank: Ranking<C>, batch: string, ops: seq<Op>,
                     now: map<Place, C>, track: Parts)
    requires Keeping(before, dir, key, rank, batch, ops, now) && IsKept(before, dir, key, rank, track) && IsLibrary(dir)
    ensures Library(track) in now
  {
    InFolderInLibrary(track, dir);
    AfterPuts(before, batch, ops, track);
  }

  lemma StillNeeded<C>(files: map<Place, C>, extra: Parts, track: Parts)
    requires extra != [] && track != [] && track != extra && Library(track) in files && IsAudio(FileName(track))
    requires Folder(track) == Folder(extra) && Stem(FileName(track)) == Stem(FileName(extra))
    ensures Companions(files, extra) == {}
  {
    assert track in Namesakes(files, extra);
  }

  /** Putting another copy away takes nothing a kept track needs. */
  lemma ExtraMayGo<C>(before: map<Place, C>, dir: Parts, key: string -> string, rank: Ranking<C>, batch: string, ops: seq<Op>,
                      now: map<Place, C>, extra: Parts, q: Parts)
    requires Keeping(before, dir, key, rank, batch, ops, now)
    requires extra in TracksOf(before, dir) && !IsKept(before, dir, key, rank, extra) && q in PutSet(now, extra)
    requires Library(q) in now && IsLibrary(dir)
    ensures MayGo(before, dir, key, rank, q)
  {
    AfterPuts(before, batch, ops, q);
    if q != extra {
      forall f | IsKept(before, dir, key, rank, f) ensures Stem(FileName(f)) != Stem(FileName(q)) {
        KeptStays(before, dir, key, rank, batch, ops, now, f);
        if Stem(FileName(f)) == Stem(FileName(q)) {
          StillNeeded(now, extra, f);
        }
      }
    }
  }

  /** One more copy has gone. */
  lemma ExtraGone<C>(before: map<Place, C>, dir: Parts, key: string -> string, rank: Ranking<C>, batch: string, ops: seq<Op>,
                     now: map<Place, C>, extra: Parts, more: seq<Op>)
    requires Keeping(before, dir, key, rank, batch, ops, now) && IsLibrary(dir)
    requires extra in TracksOf(before, dir) && !IsKept(before, dir, key, rank, extra)
    requires LegalRun(now, batch, more) && PutsOf(more, PutSet(now, extra))
    ensures Keeping(before, dir, key, rank, batch, ops + more, Run(now, batch, more))
    ensures forall op :: op in more ==> op == PutAway(extra) || !IsAudio(FileName(op.parts))
  {
    RunInTwo(before, batch, ops, more);
    forall op | op in more ensures MayGo(before, dir, key, rank, op.parts) {
      WentWithExtra(now, batch, extra, more, op, dir);
      ExtraMayGo(before, dir, key, rank, batch, ops, now, extra, op.parts);
    }
  }

  lemma WentWithExtra<C>(now: map<Place, C>, batch: string, extra: Parts, more: seq<Op>, op: Op, dir: Parts)
    requires IsTrackOf(extra, dir) && IsLibrary(dir) && op in more
    requires LegalRun(now, batch, more) && PutsOf(more, PutSet(now, extra))
    ensures op.PutAway? && op.parts in PutSet(now, extra) && Library(op.parts) in now
  {
    assert op == PutAway(op.parts) && op.parts in PutSet(now, extra);
    PutWasThere(now, batch, more, op.parts);
  }

  /** Put away the copies that are not the best. */
  method PutExtras<C>(disk: Disk<C>, dir: Parts, key: string -> string, ghost rank: Ranking<C>, extras: set<Parts>, batch: string,
                      ghost before: map<Place, C>, ghost ops: seq<Op>) returns (ok: bool, ghost after: seq<Op>)
    requires Keeping(before, dir, key, rank, batch, ops, disk.files) && IsLibrary(dir)
    requires forall t :: t in extras ==> t in TracksOf(before, dir) && !IsKept(before, dir, key, rank, t)
    modifies disk`files
    ensures Keeping(before, dir, key, rank, batch, after, disk.files)
    ensures forall op :: op in ops ==> op in after
    ensures forall op :: op in after ==> op in ops || op.parts in extras || !IsAudio(FileName(op.parts))
    ensures ok ==> forall t :: t in extras ==> PutAway(t) in after
  {
    after := ops;
    var rest := extras;
    while rest != {}
      invariant rest <= extras && Keeping(before, dir, key, rank, batch, after, disk.files)
      invariant forall op :: op in ops ==> op in after
      invariant forall op :: op in after ==> op in ops || op.parts in extras || !IsAudio(FileName(op.parts))
      invariant forall t :: t in extras && t !in rest ==> PutAway(t) in after
    {
      var extra :| extra in rest;
      rest := rest - {extra};
      ghost var now := disk.files;
      ghost var more;
      ok, more := Put(disk, extra, batch);
      ExtraGone(before, dir, key, rank, batch, after, now, extra, more);
      after := after + more;
      if !ok {
        return;
      }
      assert extra in PutSet(now, extra);
    }
    ok := true;
  }

  /** The best of all copies of a track is kept, and no other. */
  lemma BestIsKept<C>(before: map<Place, C>, dir: Parts, key: string -> string, rank: Ranking<C>, copies: set<Parts>, best: Parts)
    requires best in copies && forall t :: t in copies ==> Better(before, rank, best, t)
    requires forall t :: t in copies <==> t in TracksOf(before, dir) && AreCopies(key, t, best)
    ensures IsKept(before, dir, key, rank, best)
    ensures forall t :: t in copies && t != best ==> !IsKept(before, dir, key, rank, t)
  {
    forall t | t in copies && IsKept(before, dir, key, rank, t) ensures t == best {
      assert AreCopies(key, best, t);
      OneBest(before, rank, t, best, dir);
    }
  }

  lemma OneBest<C>(files: map<Place, C>, rank: Ranking<C>, a: Parts, b: Parts, folder: Parts)
    requires Better(files, rank, a, b) && Better(files, rank, b, a)
    ensures a == b
  {
    LessIsStrict(FileName(a), FileName(b));
  }

  lemma SameRanks<C>(before: map<Place, C>, batch: string, ops: seq<Op>, now: map<Place, C>, rank: Ranking<C>, t: Parts)
    requires IsLibrary(t) && Stepped(before, batch, ops, now) && (forall op :: op in ops ==> op.PutAway?)
    requires Library(t) in before && PutAway(t) !in ops
    ensures RankOf(rank, now, t) == RankOf(rank, before, t)
  {
    AfterPuts(before, batch, ops, t);
  }

  // ---- a whole folder ----

  /** All copies there are of one track. */
  ghost predicate AllCopies<C>(files: map<Place, C>, dir: Parts, key: string -> string, copies: set<Parts>, some: Parts) {
    some in copies && forall t :: t in copies <==> t in TracksOf(files, dir) && AreCopies(key, t, some)
  }

  lemma BestOfThose<C>(before: map<Place, C>, dir: Parts, key: string -> string, rank: Ranking<C>, batch: string, ops: seq<Op>,
                       now: map<Place, C>, copies: set<Parts>, some: Parts, best: Parts)
    requires Keeping(before, dir, key, rank, batch, ops, now) && IsLibrary(dir) && AllCopies(before, dir, key, copies, some)
    requires forall t :: t in copies ==> PutAway(t) !in ops
    requires best in copies && forall t :: t in copies ==> Better(now, rank, best, t)
    ensures IsKept(before, dir, key, rank, best)
    ensures forall t :: t in copies && t != best ==> !IsKept(before, dir, key, rank, t)
  {
    forall t | t in copies ensures Better(before, rank, best, t) {
      SameRanks(before, batch, ops, now, rank, t);
      SameRanks(before, batch, ops, now, rank, best);
    }
    BestIsKept(before, dir, key, rank, copies, best);
  }

  /** Keep the best of all copies of one track. */
  method KeepBestOf<C>(disk: Disk<C>, dir: Parts, key: string -> string, rank: Ranking<C>, copies: set<Parts>, batch: string,
                       ghost some: Parts, ghost before: map<Place, C>, ghost ops: seq<Op>) returns (ok: bool, ghost after: seq<Op>)
    requires Keeping(before, dir, key, rank, batch, ops, disk.files) && IsLibrary(dir) && AllCopies(before, dir, key, copies, some)
    requires forall t :: t in copies ==> PutAway(t) !in ops
    modifies disk`files
    ensures Keeping(before, dir, key, rank, batch, after, disk.files)
    ensures forall op :: op in ops ==> op in after
    ensures forall op :: op in after ==> op in ops || op.parts in copies || !IsAudio(FileName(op.parts))
    ensures ok ==> forall t :: t in copies && !IsKept(before, dir, key, rank, t) ==> PutAway(t) in after
  {
    var best := BestOf(disk.files, rank, copies, dir);
    BestOfThose(before, dir, key, rank, batch, ops, disk.files, copies, some, best);
    ok, after := PutExtras(disk, dir, key, rank, copies - {best}, batch, before, ops);
  }

  /** Tracks not yet looked at: with a track, all its copies. */
  ghost predicate StillWhole<C>(files: map<Place, C>, dir: Parts, key: string -> string, rest: set<Parts>) {
    && rest <= TracksOf(files, dir)
    && forall t, u :: t in TracksOf(files, dir) && u in rest && AreCopies(key, t, u) ==> t in rest
  }

  /** Tracks not looked at are where they were; of the others, those to go have gone. */
  ghost predicate LookedThrough<C>(before: map<Place, C>, dir: Parts, key: string -> string, rank: Ranking<C>, ops: seq<Op>, rest: set<Parts>) {
    && (forall op :: op in ops ==> op.PutAway? && (IsAudio(FileName(op.parts)) ==> op.parts !in rest))
    && (forall t :: t in TracksOf(before, dir) && t !in rest && !IsKept(before, dir, key, rank, t) ==> PutAway(t) in ops)
  }

  lemma AllAreKept<C>(before: map<Place, C>, dir: Parts, key: string -> string, rank: Ranking<C>)
    ensures forall t :: t in TracksOf(before, dir) && !Telling(TrackKey(key, t)) ==> IsKept(before, dir, key, rank, t)
  {
  }

  lemma LookedThroughMeansKept<C>(before: map<Place, C>, dir: Parts, key: string -> string, rank: Ranking<C>, batch: string, ops: seq<Op>,
                           now: map<Place, C>, t: Parts)
    requires Keeping(before, dir, key, rank, batch, ops, now) && LookedThrough(before, dir, key, rank, ops, {}) && IsLibrary(dir)
    requires t in TracksOf(before, dir)
    ensures Library(t) in now <==> IsKept(before, dir, key, rank, t)
  {
    AfterPuts(before, batch, ops, t);
    if IsKept(before, dir, key, rank, t) {
      KeptStays(before, dir, key, rank, batch, ops, now, t);
    }
  }

  /** Of each group of copies in `dir`, all but one into the batch. */
  method KeepBest<C>(disk: Disk<C>, dir: Parts, key: string -> string, rank: Ranking<C>, batch: string)
      returns (ok: bool, ghost ops: seq<Op>)
    requires IsLibrary(dir)
    modifies disk`files
    ensures Keeping(old(disk.files), dir, key, rank, batch, ops, disk.files)
    ensures ok ==> forall t :: t in TracksOf(old(disk.files), dir) ==>
      (Library(t) in disk.files <==> IsKept(old(disk.files), dir, key, rank, t))
  {
    ghost var before := disk.files;
    ops := [];
    var rest := set t | t in TracksOf(disk.files, dir) && Telling(TrackKey(key, t));
    AllAreKept(before, dir, key, rank);
    while rest != {}
      invariant StillWhole(before, dir, key, rest) && LookedThrough(before, dir, key, rank, ops, rest)
      invariant forall t :: t in rest ==> Telling(TrackKey(key, t))
      invariant Keeping(before, dir, key, rank, batch, ops, disk.files)
    {
      var some :| some in rest;
      var copies := set t | t in rest && AreCopies(key, t, some);
      assert some in copies;
      ok, ops := KeepBestOf(disk, dir, key, rank, copies, batch, some, before, ops);
      if !ok {
        return;
      }
      rest := rest - copies;
    }
    ok := true;
    forall t | t in TracksOf(before, dir) ensures Library(t) in disk.files <==> IsKept(before, dir, key, rank, t) {
      LookedThroughMeansKept(before, dir, key, rank, batch, ops, disk.files, t);
    }
  }

  // ---- as a batch that can be undone ----

  lemma SparedIsSettled<C>(before: map<Place, C>, dir: Parts, key: string -> string, rank: Ranking<C>, ops: seq<Op>)
    requires Spared(before, dir, key, rank, ops) && IsLibrary(dir)
    ensures NoRecords(ops) && PutsOnlySettled(ops) && Log(ops) == []
  {
    NoMoves(ops);
  }

  /** Thin out a folder as a batch of its own, taken back when a put fails. */
  method FixDuplicates<B>(disk: Disk<Track<B>>, notes: TagNotes, dir: Parts, key: string -> string, rank: Ranking<Track<B>>,
                          batch: string) returns (ok: bool)
    requires IsLibrary(dir)
    requires FreshBatch(disk.files, batch) && disk.MovesOf(batch) == [] && notes.Of(batch) == []
    modifies disk, notes
    ensures ok ==> Reversible(old(disk.files), batch, disk.files, disk.MovesOf(batch), notes.Of(batch))
    ensures ok ==> forall t :: t in TracksOf(old(disk.files), dir) ==>
      (Library(t) in disk.files <==> IsKept(old(disk.files), dir, key, rank, t))
    ensures !ok && disk.stuck == old(disk.stuck) ==> SeenAll(disk.files, Seen) == SeenAll(old(disk.files), Seen)
  {
    ghost var before := disk.files;
    ghost var ops;
    ok, ops := KeepBest(disk, dir, key, rank, batch);
    SparedIsSettled(before, dir, key, rank, ops);
    NoneRetagged(disk.files, []);
    SettledBatchIsReversible(before, batch, ops, disk.files, [], disk.files, [], []);
    if !ok {
      var undone := Undo(disk, notes, batch);
    }
  }
}
