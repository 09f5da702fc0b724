/** Merging the folders of a split album into the first, step by step
    (`crates/delune-library/src/health.rs`). Every method takes the merge so far as ghost state and
    hands on the merge with its own steps added, so that however far a merge gets, what it leaves
    is known to be a run of puts and moves that restoring its batch inverts, but for a last move
    that went unnoted. */
module Merging {
  import opened Text
  import opened Paths
  import opened Relocation
  import opened Batches
  import opened Trash
  import opened Unnoted
  import opened Health
  import opened Copies
  import opened Tracing
  import opened Listings
  import opened Tags
  import opened Tracks

  /** The tracks of a folder. */
  function TracksOf<C>(files: map<Place, C>, folder: Parts): (r: set<Parts>)
    ensures forall q :: q in r <==> Library(q) in files && IsTrackOf(q, folder)
  {
    set p | p in files && p.Library? && IsTrackOf(p.parts, folder) :: p.parts
  }

  function FilesIn<C>(files: map<Place, C>, folder: Parts): (r: set<Parts>)
    ensures forall q :: q in r <==> Library(q) in files && q != [] && Folder(q) == folder
  {
    set p | p in files && p.Library? && p.parts != [] && Folder(p.parts) == folder :: p.parts
  }

  method FindTwin<C>(files: map<Place, C>, target: Parts, key: string -> string, file: Parts) returns (r: Option<Parts>)
    ensures r.Some? ==> IsFirstTwin(files, target, key, file, r.value)
    ensures r.None? ==> forall t :: !IsTwin(files, target, key, file, t)
  {
    var twins := set t | t in TracksOf(files, target) && IsTwin(files, target, key, file, t);
    if twins == {} {
      assert forall t :: IsTwin(files, target, key, file, t) ==> t in twins;
      return None;
    }
    var first := Earliest(twins, target);
    assert forall t :: IsTwin(files, target, key, file, t) ==> t in twins;
    return Some(first);
  }

  /** The merge so far, and what the disk and the log show of it. */
  ghost predicate SoFar<C>(before: map<Place, C>, noted: seq<(Parts, Parts)>, batch: string, target: Parts, sources: seq<Parts>,
                           key: string -> string, seen: set<Parts>, ops: seq<Op>, now: map<Place, C>, log: seq<(Parts, Parts)>) {
    Merging(before, batch, target, sources, key, seen, ops) && Ran(before, noted, batch, ops, now, log)
  }

  /** The merge so far, its last move not in the log. */
  ghost predicate CutOff<C>(before: map<Place, C>, noted: seq<(Parts, Parts)>, batch: string, target: Parts, sources: seq<Parts>,
                            key: string -> string, seen: set<Parts>, ops: seq<Op>, now: map<Place, C>, log: seq<(Parts, Parts)>) {
    Merging(before, batch, target, sources, key, seen, ops) && Cut(before, noted, batch, ops, now, log)
  }

  /** The merge so far, however its last step ended. */
  ghost predicate Stands<C>(r: Progress, before: map<Place, C>, noted: seq<(Parts, Parts)>, batch: string, target: Parts, sources: seq<Parts>,
                            key: string -> string, seen: set<Parts>, ops: seq<Op>, now: map<Place, C>, log: seq<(Parts, Parts)>) {
    match r
    case Unrecorded => CutOff(before, noted, batch, target, sources, key, seen, ops, now, log)
    case Done => SoFar(before, noted, batch, target, sources, key, seen, ops, now, log)
    case Refused => SoFar(before, noted, batch, target, sources, key, seen, ops, now, log)
  }

  /** No file that would go along with `parts` was brought where it is. */
  ghost predicate Settled(ops: seq<Op>, parts: Parts) {
    forall q :: q != [] && Folder(q) == Folder(parts) && Stem(FileName(q)) == Stem(FileName(parts)) ==> !IsTarget(ops, q)
  }

  lemma SourcesAreSettled<C>(before: map<Place, C>, batch: string, target: Parts, sources: seq<Parts>, key: string -> string,
                             seen: set<Parts>, ops: seq<Op>, parts: Parts)
    requires Merging(before, batch, target, sources, key, seen, ops)
    requires InSources(parts, sources) && IsLibrary(Folder(parts))
    ensures Settled(ops, parts)
  {
    forall q | q != [] && Folder(q) == Folder(parts) ensures !IsTarget(ops, q) {
      InFolderInLibrary(q, Folder(parts));
      SourceFileIsOld(before, batch, target, sources, key, seen, ops, q);
    }
  }

  lemma TwinsAreSettled<C>(before: map<Place, C>, batch: string, target: Parts, sources: seq<Parts>, key: string -> string,
                           seen: set<Parts>, ops: seq<Op>, file: Parts, twin: Parts)
    requires Merging(before, batch, target, sources, key, seen, ops) && Mergeable(before, target, sources, key)
    requires IsMergedTrack(before, sources, key, file) && file !in seen && TrackKey(key, twin) == TrackKey(key, file)
    ensures Settled(ops, twin)
  {
    forall q | q != [] && Folder(q) == Folder(twin) && Stem(FileName(q)) == Stem(FileName(twin)) ensures !IsTarget(ops, q) {
      KeptNamesakeIsSettled(before, batch, target, sources, key, seen, ops, file, twin, q);
    }
  }

  lemma PutsKeepTrack<C>(before: map<Place, C>, noted: seq<(Parts, Parts)>, batch: string, target: Parts, sources: seq<Parts>,
                         key: string -> string, seen: set<Parts>, ops: seq<Op>, now: map<Place, C>, log: seq<(Parts, Parts)>,
                         parts: Parts, more: seq<Op>)
    requires SoFar(before, noted, batch, target, sources, key, seen, ops, now, log)
    requires LegalRun(now, batch, more) && parts != [] && IsLibrary(Folder(parts)) && PutsOf(more, PutSet(now, parts))
    requires Mergeable(before, target, sources, key) ==> Settled(ops, parts)
    ensures SoFar(before, noted, batch, target, sources, key, seen, ops + more, Run(now, batch, more), log)
  {
    forall op | op in more
      ensures op.PutAway? && !IsRecord(op.parts) && (Mergeable(before, target, sources, key) ==> !IsTarget(ops, op.parts))
    {
      assert op.parts != [] && Folder(op.parts) == Folder(parts) && Stem(FileName(op.parts)) == Stem(FileName(parts));
    }
    MergePuts(before, batch, target, sources, key, seen, ops, more);
    RunInTwo(before, batch, ops, more);
    LogInTwo(ops, more);
    NoMoves(more);
    assert Log(ops) + [] == Log(ops);
  }

  ghost predicate Stepped<C>(before: map<Place, C>, batch: string, ops: seq<Op>, now: map<Place, C>) {
    LegalRun(before, batch, ops) && now == Run(before, batch, ops)
  }

  lemma SamePutSet<B>(files: map<Place, Track<B>>, parts: Parts)
    requires parts != []
    ensures PutSet(Bodies(files), parts) == PutSet(files, parts)
  {
    assert Namesakes(Bodies(files), parts) == Namesakes(files, parts);
  }

  /** What goes with a file goes by names, not by what the files hold. */
  lemma PutsSeen<B>(files: map<Place, Track<B>>, batch: string, parts: Parts, puts: seq<Op>)
    requires parts != [] && LegalRun(files, batch, puts) && PutsOf(puts, PutSet(files, parts))
    ensures Stepped(Bodies(files), batch, puts, Bodies(Run(files, batch, puts)))
    ensures PutsOf(puts, PutSet(Bodies(files), parts)) && PutsFrom(puts, Folder(parts))
    ensures parts in PutSet(files, parts) && PutSet(Bodies(files), parts) == PutSet(files, parts)
  {
    RunSees(files, batch, puts, Body);
    SamePutSet(files, parts);
  }

  // ---- one track ----

  /** What a step did to the disk, and that the log has it, but for a last move that went unnoted. */
  ghost predicate Went<C>(r: Progress, files: map<Place, C>, noted: seq<(Parts, Parts)>, batch: string, ops: seq<Op>, now: map<Place, C>,
                          log: seq<(Parts, Parts)>) {
    match r
    case Unrecorded => Cut(files, noted, batch, ops, now, log)
    case Done => Ran(files, noted, batch, ops, now, log)
    case Refused => Ran(files, noted, batch, ops, now, log)
  }

  /** A file and what goes with it into the batch, as seen without tags. */
  method PutMerged<B>(disk: Disk<Track<B>>, parts: Parts, batch: string) returns (ok: bool, ghost puts: seq<Op>)
    requires parts != []
    modifies disk`files
    ensures Ran(Bodies(old(disk.files)), disk.MovesOf(batch), batch, puts, Bodies(disk.files), disk.MovesOf(batch))
    ensures MakesWay(Bodies(old(disk.files)), parts, puts, ok)
  {
    ghost var now := disk.files;
    ok, puts := Put(disk, parts, batch);
    PutsSeen(now, batch, parts, puts);
    NoMoves(puts);
    assert disk.MovesOf(batch) + [] == disk.MovesOf(batch);
  }

  lemma SameMoveSet<B>(files: map<Place, Track<B>>, file: Parts)
    ensures MoveSet(Bodies(files), file) == MoveSet(files, file)
  {
  }

  /** A track and what goes with it into `target`, as seen without tags. */
  method MoveMerged<B>(disk: Disk<Track<B>>, file: Parts, batch: string, target: Parts, tags: Option<AlbumTags>)
      returns (r: Progress, ghost moves: seq<Op>)
    requires IsLibrary(Folder(file)) && IsLibrary(target)
    modifies disk`files, disk`log
    ensures Went(r, Bodies(old(disk.files)), old(disk.MovesOf(batch)), batch, moves, Bodies(disk.files), disk.MovesOf(batch))
    ensures ComesIn(Bodies(old(disk.files)), batch, file, target, moves, r.Done?)
  {
    SameMoveSet(disk.files, file);
    r, moves := MoveIn(disk, file, target, batch, tags);
  }

  lemma WentOn<C>(r: Progress, files: map<Place, C>, noted: seq<(Parts, Parts)>, batch: string, puts: seq<Op>, middle: map<Place, C>,
                  log: seq<(Parts, Parts)>, moves: seq<Op>, now: map<Place, C>, log': seq<(Parts, Parts)>)
    requires Ran(files, noted, batch, puts, middle, log) && Went(r, middle, log, batch, moves, now, log')
    ensures Went(r, files, noted, batch, puts + moves, now, log')
  {
    if r.Unrecorded? {
      RanThenCut(files, noted, batch, puts, middle, log, moves, now, log');
    } else {
      RanMore(files, noted, batch, puts, middle, log, moves, now, log');
    }
  }

  /** A better copy takes the place of the kept folder's. */
  method TakeOver<B>(disk: Disk<Track<B>>, file: Parts, twin: Parts, target: Parts, tags: Option<AlbumTags>, batch: string)
      returns (r: Progress, ghost puts: seq<Op>, ghost moves: seq<Op>)
    requires IsLibrary(Folder(file)) && IsLibrary(target) && twin != []
    modifies disk`files, disk`log
    ensures Went(r, Bodies(old(disk.files)), old(disk.MovesOf(batch)), batch, puts + moves, Bodies(disk.files), disk.MovesOf(batch))
    ensures TakesOver(Bodies(old(disk.files)), batch, file, twin, target, puts, moves, r.Done?)
  {
    ghost var now, log := Bodies(disk.files), disk.MovesOf(batch);
    var put;
    put, puts := PutMerged(disk, twin, batch);
    moves := [];
    assert puts + [] == puts;
    if !put {
      return Refused, puts, moves;
    }
    ghost var middle := Bodies(disk.files);
    r, moves := MoveMerged(disk, file, batch, target, tags);
    WentOn(r, now, log, batch, puts, middle, log, moves, Bodies(disk.files), disk.MovesOf(batch));
  }

  lemma SameTwins<B>(files: map<Place, Track<B>>, target: Parts, key: string -> string, file: Parts)
    ensures forall t :: IsTwin(Bodies(files), target, key, file, t) <==> IsTwin(files, target, key, file, t)
    ensures forall t :: IsFirstTwin(Bodies(files), target, key, file, t) <==> IsFirstTwin(files, target, key, file, t)
  {
    assert forall p :: p in Bodies(files) <==> p in files.Keys;
  }

  /** One track of another folder. */
  method MergeFile<B>(disk: Disk<Track<B>>, file: Parts, target: Parts, key: string -> string, rank: Ranking<Track<B>>,
                      tags: Option<AlbumTags>, batch: string)
      returns (r: Progress, ghost twin: Option<Parts>, ghost puts: seq<Op>, ghost moves: seq<Op>)
    requires file != [] && IsLibrary(Folder(file)) && IsLibrary(target)
    modifies disk`files, disk`log
    ensures Went(r, Bodies(old(disk.files)), old(disk.MovesOf(batch)), batch, puts + moves, Bodies(disk.files), disk.MovesOf(batch))
    ensures MergesOne(Bodies(old(disk.files)), batch, target, key, file, twin, IsBetter(rank, old(disk.files), file, twin),
                      puts, moves, r.Done?)
  {
    SameTwins(disk.files, target, key, file);
    puts, moves := [], [];
    var found := FindTwin(disk.files, target, key, file);
    twin := found;
    if found.None? {
      r, moves := MoveMerged(disk, file, batch, target, tags);
      assert [] + moves == moves;
    } else if Outranks(RankOf(rank, disk.files, file), RankOf(rank, disk.files, found.value)) {
      r, puts, moves := TakeOver(disk, file, found.value, target, tags, batch);
    } else {
      var put;
      put, puts := PutMerged(disk, file, batch);
      assert puts + [] == puts;
      r := if put then Done else Refused;
    }
  }

  // ---- as a step of a merge ----

  /** Only the kept folder gets files. */
  lemma StepFills<C>(files: map<Place, C>, batch: string, target: Parts, key: string -> string, file: Parts, twin: Option<Parts>,
                     better: bool, puts: seq<Op>, moves: seq<Op>, done: bool)
    requires MergesOne(files, batch, target, key, file, twin, better, puts, moves, done)
    ensures OnlyFills(puts + moves, target)
  {
    forall op | op in puts + moves && op.MoveTo? ensures op.to != [] && Folder(op.to) == target {
      assert op in puts || op in moves;
    }
  }

  lemma BothSettled<C>(before: map<Place, C>, batch: string, target: Parts, sources: seq<Parts>, key: string -> string,
                       seen: set<Parts>, ops: seq<Op>, file: Parts, twin: Parts)
    requires Merging(before, batch, target, sources, key, seen, ops) && IsSourceTrack(file, sources) && IsLibrary(Folder(file))
    requires Library(file) in before && Telling(TrackKey(key, file)) && TrackKey(key, twin) == TrackKey(key, file)
    requires Mergeable(before, target, sources, key) ==> file !in seen
    ensures Mergeable(before, target, sources, key) ==> Settled(ops, file) && Settled(ops, twin)
  {
    SourcesAreSettled(before, batch, target, sources, key, seen, ops, file);
    if Mergeable(before, target, sources, key) {
      TwinsAreSettled(before, batch, target, sources, key, seen, ops, file, twin);
    }
  }

  lemma PutsOfStep<C>(files: map<Place, C>, batch: string, target: Parts, key: string -> string, file: Parts, twin: Option<Parts>,
                      better: bool, puts: seq<Op>, moves: seq<Op>, done: bool) returns (parts: Parts)
    requires MergesOne(files, batch, target, key, file, twin, better, puts, moves, done) && file != []
    ensures parts != [] && PutsOf(puts, PutSet(files, parts))
    ensures parts == file || (Folder(parts) == target && Telling(TrackKey(key, file)) && TrackKey(key, parts) == TrackKey(key, file))
  {
    parts := if twin.Some? && better then twin.value else file;
  }

  lemma MovesOfStep<C>(files: map<Place, C>, batch: string, target: Parts, key: string -> string, file: Parts, twin: Option<Parts>,
                       better: bool, puts: seq<Op>, moves: seq<Op>, done: bool)
    requires MergesOne(files, batch, target, key, file, twin, better, puts, moves, done)
    ensures MovesIn(moves, file, target) && NumberedIfTaken(Run(files, batch, puts), batch, moves, target)
  {
  }

  lemma PutsOfStepSettled<C>(before: map<Place, C>, batch: string, target: Parts, sources: seq<Parts>, key: string -> string,
                             seen: set<Parts>, ops: seq<Op>, file: Parts, parts: Parts)
    requires Merging(before, batch, target, sources, key, seen, ops)
    requires IsLibrary(Folder(file)) && IsSourceTrack(file, sources) && Library(file) in before
    requires parts == file || (Telling(TrackKey(key, file)) && TrackKey(key, parts) == TrackKey(key, file))
    requires Mergeable(before, target, sources, key) ==> file !in seen
    ensures Mergeable(before, target, sources, key) ==> Settled(ops, parts)
  {
    if parts == file {
      SourcesAreSettled(before, batch, target, sources, key, seen, ops, file);
    } else {
      BothSettled(before, batch, target, sources, key, seen, ops, file, parts);
    }
  }

  lemma MergeStepPuts<C>(before: map<Place, C>, noted: seq<(Parts, Parts)>, batch: string, target: Parts, sources: seq<Parts>,
                         key: string -> string, seen: set<Parts>, ops: seq<Op>, files: map<Place, C>, log: seq<(Parts, Parts)>,
                         file: Parts, parts: Parts, puts: seq<Op>)
    requires SoFar(before, noted, batch, target, sources, key, seen, ops, files, log) && LegalRun(files, batch, puts)
    requires IsLibrary(Folder(file)) && IsLibrary(target) && IsSourceTrack(file, sources) && Library(file) in before
    requires parts == file || (Folder(parts) == target && Telling(TrackKey(key, file)) && TrackKey(key, parts) == TrackKey(key, file))
    requires parts != [] && PutsOf(puts, PutSet(files, parts))
    requires Mergeable(before, target, sources, key) ==> file !in seen
    ensures Merging(before, batch, target, sources, key, seen + {file}, ops + puts)
    ensures Run(before, batch, ops + puts) == Run(files, batch, puts)
  {
    PutsOfStepSettled(before, batch, target, sources, key, seen, ops, file, parts);
    PutsKeepTrack(before, noted, batch, target, sources, key, seen, ops, files, log, parts, puts);
    SeeTrack(before, batch, target, sources, key, seen, ops + puts, file);
  }

  lemma MergeStepWhole<C>(before: map<Place, C>, noted: seq<(Parts, Parts)>, batch: string, target: Parts, sources: seq<Parts>,
                          key: string -> string, seen: set<Parts>, ops: seq<Op>, files: map<Place, C>, log: seq<(Parts, Parts)>,
                          file: Parts, parts: Parts, puts: seq<Op>, moves: seq<Op>)
    requires SoFar(before, noted, batch, target, sources, key, seen, ops, files, log) && LegalRun(files, batch, puts)
    requires IsLibrary(Folder(file)) && IsLibrary(target) && IsSourceTrack(file, sources) && Library(file) in before
    requires parts == file || (Folder(parts) == target && Telling(TrackKey(key, file)) && TrackKey(key, parts) == TrackKey(key, file))
    requires parts != [] && PutsOf(puts, PutSet(files, parts)) && LegalRun(Run(files, batch, puts), batch, moves)
    requires MovesIn(moves, file, target) && NumberedIfTaken(Run(files, batch, puts), batch, moves, target)
    requires Mergeable(before, target, sources, key) ==> file !in seen
    ensures Merging(before, batch, target, sources, key, seen + {file}, (ops + puts) + moves)
  {
    MergeStepPuts(before, noted, batch, target, sources, key, seen, ops, files, log, file, parts, puts);
    MergeMoves(before, batch, target, sources, key, seen + {file}, ops + puts, file, moves);
  }

  lemma InOneGo(ops: seq<Op>, puts: seq<Op>, moves: seq<Op>)
    ensures (ops + puts) + moves == ops + (puts + moves)
  {
  }

  /** One more track merged, or part of it. */
  lemma MergeStep<C>(before: map<Place, C>, noted: seq<(Parts, Parts)>, batch: string, target: Parts, sources: seq<Parts>, key: string -> string,
                     seen: set<Parts>, ops: seq<Op>, files: map<Place, C>, log: seq<(Parts, Parts)>, file: Parts, twin: Option<Parts>,
                     better: bool, puts: seq<Op>, moves: seq<Op>, done: bool)
    requires SoFar(before, noted, batch, target, sources, key, seen, ops, files, log) && LegalRun(files, batch, puts + moves)
    requires MergesOne(files, batch, target, key, file, twin, better, puts, moves, done)
    requires IsLibrary(Folder(file)) && IsLibrary(target) && IsSourceTrack(file, sources) && Library(file) in before
    requires Mergeable(before, target, sources, key) ==> file !in seen
    ensures Merging(before, batch, target, sources, key, seen + {file}, ops + (puts + moves))
  {
    InOneGo(ops, puts, moves);
    RunInTwo(files, batch, puts, moves);
    var parts := PutsOfStep(files, batch, target, key, file, twin, better, puts, moves, done);
    MovesOfStep(files, batch, target, key, file, twin, better, puts, moves, done);
    MergeStepWhole(before, noted, batch, target, sources, key, seen, ops, files, log, file, parts, puts, moves);
  }

  lemma MergeWent<C>(r: Progress, before: map<Place, C>, noted: seq<(Parts, Parts)>, batch: string, target: Parts, sources: seq<Parts>,
                     key: string -> string, seen: set<Parts>, ops: seq<Op>, files: map<Place, C>, log: seq<(Parts, Parts)>,
                     more: seq<Op>, now: map<Place, C>, log': seq<(Parts, Parts)>)
    requires Ran(before, noted, batch, ops, files, log) && Went(r, files, log, batch, more, now, log')
    requires Merging(before, batch, target, sources, key, seen, ops + more)
    ensures Stands(r, before, noted, batch, target, sources, key, seen, ops + more, now, log') && Stepped(files, batch, more, now)
  {
    WentOn(r, before, noted, batch, ops, files, log, more, now, log');
  }

  // ---- a whole folder ----

  ghost predicate Emptied<C>(files: map<Place, C>, folder: Parts) {
    forall q :: q != [] && Folder(q) == folder ==> Library(q) !in files
  }

  ghost predicate AllEmptied<C>(files: map<Place, C>, folders: seq<Parts>, n: nat) {
    forall i :: 0 <= i < n && i < |folders| ==> Emptied(files, folders[i])
  }

  lemma EmptiedStays<C>(files: map<Place, C>, batch: string, more: seq<Op>, target: Parts, folder: Parts)
    requires LegalRun(files, batch, more) && OnlyFills(more, target) && folder != target && IsLibrary(folder)
    requires Emptied(files, folder)
    ensures Emptied(Run(files, batch, more), folder)
  {
    forall q | q != [] && Folder(q) == folder ensures Library(q) !in Run(files, batch, more) {
      InFolderInLibrary(q, folder);
      if Library(q) in Run(files, batch, more) {
        ThereFromTheStart(files, batch, more, q);
        assert false;
      }
    }
  }

  lemma AllEmptiedStays<C>(files: map<Place, C>, batch: string, more: seq<Op>, target: Parts, folders: seq<Parts>, n: nat)
    requires LegalRun(files, batch, more) && OnlyFills(more, target) && target !in folders
    requires (forall folder :: folder in folders ==> IsLibrary(folder)) && AllEmptied(files, folders, n)
    ensures AllEmptied(Run(files, batch, more), folders, n)
  {
    forall i | 0 <= i < n && i < |folders| ensures Emptied(Run(files, batch, more), folders[i]) {
      EmptiedStays(files, batch, more, target, folders[i]);
    }
  }

  /** The tracks listed are files of the library as it was, none of them dealt with yet. */
  ghost predicate Listed<C>(before: map<Place, C>, target: Parts, sources: seq<Parts>, key: string -> string, seen: set<Parts>, source: Parts,
                            todo: set<Parts>) {
    && (forall q :: q in todo ==> Library(q) in before && IsTrackOf(q, source))
    && (Mergeable(before, target, sources, key) ==> todo !! seen)
  }

  ghost predicate SeenIn(seen: set<Parts>, folders: seq<Parts>, n: nat) {
    forall g :: g in seen ==> exists i :: 0 <= i < n && i < |folders| && Folder(g) == folders[i]
  }

  lemma NewlyListed<C>(before: map<Place, C>, batch: string, target: Parts, sources: seq<Parts>, key: string -> string,
                       seen: set<Parts>, ops: seq<Op>, now: map<Place, C>, i: nat)
    requires Merging(before, batch, target, sources, key, seen, ops) && now == Run(before, batch, ops)
    requires i < |sources| && IsLibrary(sources[i]) && SeenIn(seen, sources, i)
    ensures Listed(before, target, sources, key, seen, sources[i], TracksOf(now, sources[i]))
  {
    forall q | q in TracksOf(now, sources[i])
      ensures Library(q) in before && (Mergeable(before, target, sources, key) ==> q !in seen)
    {
      InFolderInLibrary(q, sources[i]);
      SourceFileIsOld(before, batch, target, sources, key, seen, ops, q);
    }
  }

  // ---- ranks ----

  /** Of the files there, the tags don't count in the rank. */
  ghost predicate TagsDontCount<B>(rank: Ranking<Track<B>>, files: map<Place, B>) {
    forall p, tags :: p in files ==> rank(Track(files[p], tags)) == BodyRank(rank)(files[p])
  }

  /** The rank of a file without tags. */
  function BodyRank<B>(rank: Ranking<Track<B>>): Ranking<B> {
    body => rank(Track(body, None))
  }

  lemma {:induction false} NothingNew<C>(files: map<Place, C>, batch: string, ops: seq<Op>, p: Place)
    requires LegalRun(files, batch, ops) && p in Run(files, batch, ops)
    ensures exists q :: q in files && files[q] == Run(files, batch, ops)[p]
  {
    if ops != [] {
      var rest, last := ops[..|ops| - 1], ops[|ops| - 1];
      var from := if last.PutAway? then Library(last.parts) else Library(last.from);
      NothingNew(files, batch, rest, from);
      if p in Run(files, batch, rest) {
        NothingNew(files, batch, rest, p);
      }
    }
  }

  lemma SameRank<B>(before: map<Place, B>, batch: string, ops: seq<Op>, files: map<Place, Track<B>>, rank: Ranking<Track<B>>, parts: Parts)
    requires LegalRun(before, batch, ops) && Bodies(files) == Run(before, batch, ops) && TagsDontCount(rank, before)
    ensures RankOf(BodyRank(rank), Bodies(files), parts) == RankOf(rank, files, parts)
  {
    var p := Library(parts);
    if p in files {
      NothingNew(before, batch, ops, p);
      var q :| q in before && before[q] == Bodies(files)[p];
      assert files[p] == Track(before[q], files[p].tags);
    }
  }

  lemma SameBetter<B>(before: map<Place, B>, batch: string, ops: seq<Op>, files: map<Place, Track<B>>, rank: Ranking<Track<B>>,
                      file: Parts, twin: Option<Parts>)
    requires LegalRun(before, batch, ops) && Bodies(files) == Run(before, batch, ops) && TagsDontCount(rank, before)
    ensures IsBetter(BodyRank(rank), Bodies(files), file, twin) <==> IsBetter(rank, files, file, twin)
  {
    SameRank(before, batch, ops, files, rank, file);
    if twin.Some? {
      SameRank(before, batch, ops, files, rank, twin.value);
    }
  }

  // ---- which copies are kept ----

  /** The folders before the merge, without tags. */
  function Before<B>(before: map<Place, B>, target: Parts, sources: seq<Parts>, key: string -> string, rank: Ranking<Track<B>>): Folders<B> {
    Folders(before, target, sources, key, BodyRank(rank))
  }

  /** The copies of each track can be followed. */
  ghost predicate Followable<B>(before: map<Place, B>, target: Parts, sources: seq<Parts>, key: string -> string,
                                rank: Ranking<Track<B>>) {
    TagsDontCount(rank, before) && Before(before, target, sources, key, rank).Orderly()
  }

  /** They are, up to the tracks in `left` of a folder. */
  ghost predicate Traced<B>(before: map<Place, B>, batch: string, target: Parts, sources: seq<Parts>, key: string -> string,
                            rank: Ranking<Track<B>>, seen: set<Parts>, ops: seq<Op>, now: map<Place, B>, n: nat, left: set<Parts>) {
    Followable(before, target, sources, key, rank) && n <= |sources| ==>
      var m := Before(before, target, sources, key, rank);
      Following(m, seen, batch, ops, now) && UpToFolder(m, seen, n, left)
  }

  /** They are, up to a folder. */
  ghost predicate TracedTo<B>(before: map<Place, B>, batch: string, target: Parts, sources: seq<Parts>, key: string -> string,
                              rank: Ranking<Track<B>>, seen: set<Parts>, ops: seq<Op>, now: map<Place, B>, n: nat) {
    Followable(before, target, sources, key, rank) && n <= |sources| ==>
      var m := Before(before, target, sources, key, rank);
      Following(m, seen, batch, ops, now) && AtFolder(m, seen, n)
  }

  /** However far it got, the merge can be undone and keeps all files if the folders allow it. */
  ghost predicate AsAllowed<B>(before: map<Place, B>, target: Parts, sources: seq<Parts>, key: string -> string,
                               rank: Ranking<Track<B>>, ops: seq<Op>) {
    Followable(before, target, sources, key, rank) ==> Before(before, target, sources, key, rank).Allowed(ops)
  }

  lemma TraceBegins<B>(before: map<Place, B>, batch: string, target: Parts, sources: seq<Parts>, key: string -> string,
                       rank: Ranking<Track<B>>)
    ensures TracedTo(before, batch, target, sources, key, rank, {}, [], before, 0)
    ensures AsAllowed(before, target, sources, key, rank, [])
  {
    if Followable(before, target, sources, key, rank) {
      FollowNothing(Before(before, target, sources, key, rank), batch);
    }
  }

  lemma TraceFolder<B>(before: map<Place, B>, batch: string, target: Parts, sources: seq<Parts>, key: string -> string,
                       rank: Ranking<Track<B>>, seen: set<Parts>, ops: seq<Op>, now: map<Place, B>, n: nat)
    requires Merging(before, batch, target, sources, key, seen, ops) && n < |sources| && IsLibrary(sources[n])
    requires TracedTo(before, batch, target, sources, key, rank, seen, ops, now, n) && now == Run(before, batch, ops)
    ensures Traced(before, batch, target, sources, key, rank, seen, ops, now, n, TracksOf(now, sources[n]))
    ensures AsAllowed(before, target, sources, key, rank, ops)
  {
    if Followable(before, target, sources, key, rank) {
      var m := Before(before, target, sources, key, rank);
      NotFromItself(m, n, sources[n]);
      forall g ensures g in TracksOf(now, sources[n]) <==> m.IsOther(g) && Folder(g) == sources[n] {
        if g in TracksOf(now, sources[n]) {
          InFolderInLibrary(g, sources[n]);
          SourceFileIsOld(before, batch, target, sources, key, seen, ops, g);
        }
      }
      FolderBegun(m, seen, n, TracksOf(now, sources[n]));
      OneTakenSoFar(m, seen, ops);
    }
  }

  lemma TraceFile<B>(before: map<Place, B>, batch: string, target: Parts, sources: seq<Parts>, key: string -> string,
                     rank: Ranking<Track<B>>, seen: set<Parts>, ops: seq<Op>, now: map<Place, B>, n: nat, left: set<Parts>,
                     file: Parts, twin: Option<Parts>, puts: seq<Op>, moves: seq<Op>, done: bool, after: map<Place, B>)
    requires n < |sources| && Traced(before, batch, target, sources, key, rank, seen, ops, now, n, left)
    requires file in left && forall g :: g in left ==> NamedBefore(file, g)
    requires TagsDontCount(rank, before) ==>
      MergesOne(now, batch, target, key, file, twin, IsBetter(BodyRank(rank), now, file, twin), puts, moves, done)
    requires Stepped(now, batch, puts + moves, after)
    ensures done ==>
      Traced(before, batch, target, sources, key, rank, seen + {file}, ops + (puts + moves), after, n, left - {file})
    ensures AsAllowed(before, target, sources, key, rank, ops + (puts + moves))
  {
    if Followable(before, target, sources, key, rank) {
      var m := Before(before, target, sources, key, rank);
      NextUp(m, seen, n, left, file);
      UpToIsNext(m, seen, file);
      FollowPart(m, seen, file, batch, ops, now, twin, puts, moves, done);
      if done {
        FollowOne(m, seen, file, batch, ops, now, twin, puts, moves);
        TurnTaken(m, seen, n, left, file);
      }
    }
  }

  lemma TraceSweep<B>(before: map<Place, B>, batch: string, target: Parts, sources: seq<Parts>, key: string -> string,
                      rank: Ranking<Track<B>>, seen: set<Parts>, ops: seq<Op>, now: map<Place, B>, n: nat, puts: seq<Op>,
                      after: map<Place, B>)
    requires n < |sources| && Traced(before, batch, target, sources, key, rank, seen, ops, now, n, {})
    requires Stepped(now, batch, puts, after) && PutsFrom(puts, sources[n])
    ensures Traced(before, batch, target, sources, key, rank, seen, ops + puts, after, n, {})
  {
    if Followable(before, target, sources, key, rank) {
      FollowSweep(Before(before, target, sources, key, rank), seen, batch, ops, now, sources[n], puts);
    }
  }

  lemma TracedFolder<B>(before: map<Place, B>, batch: string, target: Parts, sources: seq<Parts>, key: string -> string,
                        rank: Ranking<Track<B>>, seen: set<Parts>, ops: seq<Op>, now: map<Place, B>, n: nat)
    requires n < |sources| && Traced(before, batch, target, sources, key, rank, seen, ops, now, n, {})
    ensures TracedTo(before, batch, target, sources, key, rank, seen, ops, now, n + 1)
    ensures AsAllowed(before, target, sources, key, rank, ops)
  {
    if Followable(before, target, sources, key, rank) {
      var m := Before(before, target, sources, key, rank);
      FolderDone(m, seen, n);
      OneTakenSoFar(m, seen, ops);
    }
  }

  lemma TraceEnds<B>(before: map<Place, B>, batch: string, target: Parts, sources: seq<Parts>, key: string -> string,
                     rank: Ranking<Track<B>>, seen: set<Parts>, ops: seq<Op>, now: map<Place, B>)
    requires TracedTo(before, batch, target, sources, key, rank, seen, ops, now, |sources|)
    requires Followable(before, target, sources, key, rank)
    ensures PutsOnlySettled(ops) <==> Before(before, target, sources, key, rank).OneTakenIn()
    ensures PutsOnce(ops) <==> Before(before, target, sources, key, rank).DisplacedApart()
  {
    var m := Before(before, target, sources, key, rank);
    AllFoldersDone(m, seen);
    FollowedToTheEnd(m, seen, ops);
  }

  // ---- how far a merge is ----

  /** A merge: what there was before, and what is to be merged. */
  datatype Job<!B> = Job(before: map<Place, B>, noted: seq<(Parts, Parts)>, batch: string, target: Parts, sources: seq<Parts>,
                         key: string -> string, rank: Ranking<Track<B>>) {
    predicate Proper() {
      IsLibrary(target) && target !in sources && forall folder :: folder in sources ==> IsLibrary(folder)
    }

    ghost predicate HasRun(seen: set<Parts>, ops: seq<Op>, now: map<Place, B>, log: seq<(Parts, Parts)>) {
      && SoFar(before, noted, batch, target, sources, key, seen, ops, now, log)
      && AsAllowed(before, target, sources, key, rank, ops)
    }

    ghost predicate WasCut(seen: set<Parts>, ops: seq<Op>, now: map<Place, B>, log: seq<(Parts, Parts)>) {
      && CutOff(before, noted, batch, target, sources, key, seen, ops, now, log)
      && AsAllowed(before, target, sources, key, rank, ops)
    }

    /** The first `n` folders are done. */
    ghost predicate AtFolder(r: Progress, seen: set<Parts>, ops: seq<Op>, now: map<Place, B>, log: seq<(Parts, Parts)>, n: nat) {
      match r
      case Unrecorded => WasCut(seen, ops, now, log)
      case Refused => HasRun(seen, ops, now, log)
      case Done =>
        && HasRun(seen, ops, now, log) && n <= |sources| && AllEmptied(now, sources, n) && SeenIn(seen, sources, n)
        && TracedTo(before, batch, target, sources, key, rank, seen, ops, now, n)
    }

    /** The first `n` folders are done, and of the next all tracks but those left. */
    ghost predicate InFolder(r: Progress, seen: set<Parts>, ops: seq<Op>, now: map<Place, B>, log: seq<(Parts, Parts)>, n: nat,
                             left: set<Parts>) {
      match r
      case Unrecorded => WasCut(seen, ops, now, log)
      case Refused => HasRun(seen, ops, now, log)
      case Done =>
        && HasRun(seen, ops, now, log) && n < |sources| && AllEmptied(now, sources, n) && SeenIn(seen, sources, n + 1)
        && Listed(before, target, sources, key, seen, sources[n], left)
        && Traced(before, batch, target, sources, key, rank, seen, ops, now, n, left)
    }
  }

  lemma JobBegins<B>(job: Job<B>)
    requires job.Proper()
    ensures job.AtFolder(Done, {}, [], job.before, job.noted, 0)
  {
    RanNothing(job.before, job.noted, job.batch);
    TraceBegins(job.before, job.batch, job.target, job.sources, job.key, job.rank);
  }

  lemma FolderBegins<B>(job: Job<B>, seen: set<Parts>, ops: seq<Op>, now: map<Place, B>, log: seq<(Parts, Parts)>, n: nat)
    requires job.Proper() && n < |job.sources| && job.AtFolder(Done, seen, ops, now, log, n)
    ensures job.InFolder(Done, seen, ops, now, log, n, TracksOf(now, job.sources[n]))
  {
    assert job.sources[n] in job.sources;
    NewlyListed(job.before, job.batch, job.target, job.sources, job.key, seen, ops, now, n);
    TraceFolder(job.before, job.batch, job.target, job.sources, job.key, job.rank, seen, ops, now, n);
  }

  lemma NextIsListed<C>(before: map<Place, C>, target: Parts, sources: seq<Parts>, key: string -> string, seen: set<Parts>,
                        n: nat, left: set<Parts>, file: Parts)
    requires n < |sources| && Listed(before, target, sources, key, seen, sources[n], left) && file in left && SeenIn(seen, sources, n + 1)
    ensures Library(file) in before && IsSourceTrack(file, sources) && Folder(file) == sources[n]
    ensures Mergeable(before, target, sources, key) ==> file !in seen
    ensures Listed(before, target, sources, key, seen + {file}, sources[n], left - {file}) && SeenIn(seen + {file}, sources, n + 1)
  {
    assert sources[n] in sources;
  }

  lemma StepIsLegal<C>(r: Progress, files: map<Place, C>, noted: seq<(Parts, Parts)>, batch: string, ops: seq<Op>, now: map<Place, C>,
                       log: seq<(Parts, Parts)>)
    requires Went(r, files, noted, batch, ops, now, log)
    ensures Stepped(files, batch, ops, now)
  {
  }

  /** One more track merged. */
  lemma FileMerged<B>(job: Job<B>, seen: set<Parts>, ops: seq<Op>, files: map<Place, B>, log: seq<(Parts, Parts)>, n: nat, left: set<Parts>,
                      file: Parts, twin: Option<Parts>, better: bool, puts: seq<Op>, moves: seq<Op>, r: Progress, now: map<Place, B>,
                      log': seq<(Parts, Parts)>)
    requires job.Proper() && job.InFolder(Done, seen, ops, files, log, n, left)
    requires file in left && forall g :: g in left ==> NamedBefore(file, g)
    requires MergesOne(files, job.batch, job.target, job.key, file, twin, better, puts, moves, r.Done?)
    requires TagsDontCount(job.rank, job.before) ==> (better <==> IsBetter(BodyRank(job.rank), files, file, twin))
    requires Went(r, files, log, job.batch, puts + moves, now, log')
    ensures job.InFolder(r, seen + {file}, ops + (puts + moves), now, log', n, left - {file})
  {
    NextIsListed(job.before, job.target, job.sources, job.key, seen, n, left, file);
    StepIsLegal(r, files, log, job.batch, puts + moves, now, log');
    MergeStep(job.before, job.noted, job.batch, job.target, job.sources, job.key, seen, ops, files, log, file, twin, better, puts, moves,
              r.Done?);
    MergeWent(r, job.before, job.noted, job.batch, job.target, job.sources, job.key, seen + {file}, ops, files, log, puts + moves, now, log');
    StepFills(files, job.batch, job.target, job.key, file, twin, better, puts, moves, r.Done?);
    AllEmptiedStays(files, job.batch, puts + moves, job.target, job.sources, n);
    TraceFile(job.before, job.batch, job.target, job.sources, job.key, job.rank, seen, ops, files, n, left, file, twin, puts, moves, r.Done?,
              now);
  }

  /** A file left in a folder, and what goes with it, put away. */
  lemma OneSwept<B>(job: Job<B>, seen: set<Parts>, ops: seq<Op>, files: map<Place, B>, log: seq<(Parts, Parts)>, n: nat, parts: Parts,
                    puts: seq<Op>, ok: bool, now: map<Place, B>)
    requires job.Proper() && job.InFolder(Done, seen, ops, files, log, n, {})
    requires Folder(parts) == job.sources[n] && MakesWay(files, parts, puts, ok) && Ran(files, log, job.batch, puts, now, log)
    ensures job.InFolder(Done, seen, ops + puts, now, log, n, {})
  {
    assert job.sources[n] in job.sources;
    SourcesAreSettled(job.before, job.batch, job.target, job.sources, job.key, seen, ops, parts);
    PutsKeepTrack(job.before, job.noted, job.batch, job.target, job.sources, job.key, seen, ops, files, log, parts, puts);
    PutsOfFile(files, parts, puts, ok);
    AllEmptiedStays(files, job.batch, puts, job.target, job.sources, n);
    TraceSweep(job.before, job.batch, job.target, job.sources, job.key, job.rank, seen, ops, files, n, puts, now);
    TracedFolder(job.before, job.batch, job.target, job.sources, job.key, job.rank, seen, ops + puts, now, n);
  }

  lemma FolderEnds<B>(job: Job<B>, seen: set<Parts>, ops: seq<Op>, now: map<Place, B>, log: seq<(Parts, Parts)>, n: nat)
    requires job.InFolder(Done, seen, ops, now, log, n, {}) && Emptied(now, job.sources[n])
    ensures job.AtFolder(Done, seen, ops, now, log, n + 1)
  {
    TracedFolder(job.before, job.batch, job.target, job.sources, job.key, job.rank, seen, ops, now, n);
  }

  // ---- one of the other folders ----

  /** Every track of a folder, first by name first. */
  method MergeTracks<B>(disk: Disk<Track<B>>, source: Parts, target: Parts, key: string -> string, rank: Ranking<Track<B>>,
                        tags: Option<AlbumTags>, batch: string, todo: set<Parts>, ghost job: Job<B>, ghost seen: set<Parts>,
                        ghost ops: seq<Op>, ghost n: nat) returns (r: Progress, ghost seen': set<Parts>, ghost after: seq<Op>)
    requires job.Proper() && job.InFolder(Done, seen, ops, Bodies(disk.files), disk.MovesOf(batch), n, todo)
    requires job.batch == batch && job.target == target && job.key == key && job.rank == rank && job.sources[n] == source
    modifies disk`files, disk`log
    ensures job.InFolder(r, seen', after, Bodies(disk.files), disk.MovesOf(batch), n, {})
  {
    var left := todo;
    seen', after, r := seen, ops, Done;
    while left != {}
      invariant r.Done? && job.InFolder(Done, seen', after, Bodies(disk.files), disk.MovesOf(batch), n, left)
    {
      var file := Earliest(left, source);
      ghost var files, log := disk.files, disk.MovesOf(batch);
      ghost var twin, puts, moves;
      NextIsListed(job.before, target, job.sources, key, seen', n, left, file);
      r, twin, puts, moves := MergeFile(disk, file, target, key, rank, tags, batch);
      RankedAlike(job, seen', after, files, log, file, twin);
      FileMerged(job, seen', after, Bodies(files), log, n, left, file, twin, IsBetter(rank, files, file, twin), puts, moves, r,
                 Bodies(disk.files), disk.MovesOf(batch));
      seen', left, after := seen' + {file}, left - {file}, after + (puts + moves);
      if !r.Done? {
        return;
      }
    }
  }

  lemma RankedAlike<B>(job: Job<B>, seen: set<Parts>, ops: seq<Op>, files: map<Place, Track<B>>, log: seq<(Parts, Parts)>,
                       file: Parts, twin: Option<Parts>)
    requires job.HasRun(seen, ops, Bodies(files), log)
    ensures TagsDontCount(job.rank, job.before) ==>
      (IsBetter(job.rank, files, file, twin) <==> IsBetter(BodyRank(job.rank), Bodies(files), file, twin))
  {
    if TagsDontCount(job.rank, job.before) {
      SameBetter(job.before, job.batch, ops, files, job.rank, file, twin);
    }
  }

  /** What is still in `folder` is among `todo`. */
  ghost predicate OnlyLeft<C>(files: map<Place, C>, folder: Parts, todo: set<Parts>) {
    forall q :: q in FilesIn(files, folder) ==> q in todo
  }

  lemma OneLess<C>(files: map<Place, C>, batch: string, folder: Parts, todo: set<Parts>, parts: Parts, more: seq<Op>)
    requires LegalRun(files, batch, more) && PutsFrom(more, folder) && IsLibrary(folder) && OnlyLeft(files, folder, todo)
    requires Folder(parts) == folder && parts != [] && (PutAway(parts) in more || Library(parts) !in files)
    ensures OnlyLeft(Run(files, batch, more), folder, todo - {parts})
  {
    forall q | q in FilesIn(Run(files, batch, more), folder) ensures q in todo - {parts} {
      InFolderInLibrary(q, folder);
      ThereFromTheStart(files, batch, more, q);
      if PutAway(q) in more {
        PutIsGone(files, batch, more, q);
      }
    }
  }

  lemma NoneLeft<C>(files: map<Place, C>, folder: Parts)
    requires OnlyLeft(files, folder, {})
    ensures Emptied(files, folder)
  {
    assert FilesIn(files, folder) == {};
  }

  /** All files a merged folder still has are put away. */
  method Sweep<B>(disk: Disk<Track<B>>, source: Parts, batch: string, ghost job: Job<B>, ghost seen: set<Parts>, ghost ops: seq<Op>,
                  ghost n: nat) returns (r: Progress, ghost after: seq<Op>)
    requires job.Proper() && job.InFolder(Done, seen, ops, Bodies(disk.files), disk.MovesOf(batch), n, {})
    requires job.batch == batch && job.sources[n] == source
    modifies disk`files
    ensures !r.Unrecorded? && job.InFolder(Done, seen, after, Bodies(disk.files), disk.MovesOf(batch), n, {})
    ensures r.Done? ==> Emptied(Bodies(disk.files), source)
  {
    var todo := FilesIn(disk.files, source);
    assert todo == FilesIn(Bodies(disk.files), source) && source in job.sources;
    after := ops;
    while todo != {}
      invariant forall q :: q in todo ==> q != [] && Folder(q) == source
      invariant OnlyLeft(Bodies(disk.files), source, todo)
      invariant job.InFolder(Done, seen, after, Bodies(disk.files), disk.MovesOf(batch), n, {})
    {
      var parts :| parts in todo;
      ghost var files := Bodies(disk.files);
      ghost var puts := [];
      if Library(parts) in disk.files {
        var ok;
        ok, puts := PutMerged(disk, parts, batch);
        OneSwept(job, seen, after, files, disk.MovesOf(batch), n, parts, puts, ok, Bodies(disk.files));
        PutsOfFile(files, parts, puts, ok);
        after := after + puts;
        if !ok {
          return Refused, after;
        }
      }
      OneLess(files, batch, source, todo, parts, puts);
      todo := todo - {parts};
    }
    NoneLeft(Bodies(disk.files), source);
    r := Done;
  }

  /** One of the other folders: its tracks, then what is left beside them. */
  method MergeFolder<B>(disk: Disk<Track<B>>, source: Parts, target: Parts, key: string -> string, rank: Ranking<Track<B>>,
                        tags: Option<AlbumTags>, batch: string, ghost job: Job<B>, ghost seen: set<Parts>, ghost ops: seq<Op>, ghost n: nat)
      returns (r: Progress, ghost seen': set<Parts>, ghost after: seq<Op>)
    requires job.Proper() && n < |job.sources| && job.AtFolder(Done, seen, ops, Bodies(disk.files), disk.MovesOf(batch), n)
    requires job.batch == batch && job.target == target && job.key == key && job.rank == rank && job.sources[n] == source
    modifies disk`files, disk`log
    ensures job.AtFolder(r, seen', after, Bodies(disk.files), disk.MovesOf(batch), n + 1)
  {
    FolderBegins(job, seen, ops, Bodies(disk.files), disk.MovesOf(batch), n);
    var todo := TracksOf(disk.files, source);
    assert todo == TracksOf(Bodies(disk.files), source);
    r, seen', after := MergeTracks(disk, source, target, key, rank, tags, batch, todo, job, seen, ops, n);
    if r.Done? {
      r, after := Sweep(disk, source, batch, job, seen', after, n);
      if r.Done? {
        FolderEnds(job, seen', after, Bodies(disk.files), disk.MovesOf(batch), n);
      }
    }
  }

  // ---- the whole merge ----

  /** Putting the batch back would undo it exactly. */
  ghost predicate Undoable<C>(before: map<Place, C>, batch: string, now: map<Place, C>, log: seq<(Parts, Parts)>) {
    Restored(now, batch, log) == Outcome(before, {})
  }

  lemma CutAtLast<C>(before: map<Place, C>, batch: string, ops: seq<Op>, now: map<Place, C>, log: seq<(Parts, Parts)>)
    requires FreshBatch(before, batch) && Cut(before, [], batch, ops, now, log) && NoRecords(ops) && PutsOnlySettled(ops)
    ensures var rest, last := ops[..|ops| - 1], ops[|ops| - 1];
      && ops == rest + [last] && MovedUnnoted(before, batch, rest, last.from, last.to)
      && now == AfterMove(before, batch, rest, last.from, last.to) && log == Log(rest)
  {
    var rest, last := ops[..|ops| - 1], ops[|ops| - 1];
    assert ops == rest + [last];
    assert [] + Log(rest) == Log(rest);
  }

  /** A merge moves files from the other folders to the kept one, and none on. */
  lemma MergeDoesntChain<C>(before: map<Place, C>, batch: string, target: Parts, sources: seq<Parts>, key: string -> string,
                            seen: set<Parts>, ops: seq<Op>)
    requires Merging(before, batch, target, sources, key, seen, ops)
    ensures Unchained(ops)
  {
    forall a, b | a in ops && b in ops && a.MoveTo? && b.MoveTo? ensures a.to != b.from {
      assert IsTracked(before, target, sources, seen, a.from, a.to) && IsTracked(before, target, sources, seen, b.from, b.to);
    }
  }

  /** A merge whose last move went unnoted: the rest of it, and that move. */
  lemma MergeCutAtLast<C>(before: map<Place, C>, batch: string, target: Parts, sources: seq<Parts>, key: string -> string,
                          seen: set<Parts>, ops: seq<Op>, now: map<Place, C>, log: seq<(Parts, Parts)>)
    requires CutOff(before, [], batch, target, sources, key, seen, ops, now, log)
    requires FreshBatch(before, batch) && PutsOnlySettled(ops)
    ensures var rest, last := ops[..|ops| - 1], ops[|ops| - 1];
      && MovedUnnoted(before, batch, rest, last.from, last.to) && Unchained(rest)
      && !IsTarget(rest, last.from) && !IsSource(rest, last.to)
      && now == AfterMove(before, batch, rest, last.from, last.to) && log == Log(rest)
  {
    CutAtLast(before, batch, ops, now, log);
    MergeDoesntChain(before, batch, target, sources, key, seen, ops);
    UnchainedLast(ops);
  }

  /** Putting the batch back would undo it but for one move. */
  ghost predicate UndoableButForOne<C>(before: map<Place, C>, batch: string, now: map<Place, C>, log: seq<(Parts, Parts)>) {
    exists from, to :: BackBut(before, batch, from, to, Restored(now, batch, log))
  }

  /** A merge with an unnoted move comes apart but for that move. */
  lemma MergeCutShort<C>(before: map<Place, C>, batch: string, target: Parts, sources: seq<Parts>, key: string -> string,
                         seen: set<Parts>, ops: seq<Op>, now: map<Place, C>, log: seq<(Parts, Parts)>)
    requires CutOff(before, [], batch, target, sources, key, seen, ops, now, log) && FreshBatch(before, batch) && PutsOnlySettled(ops)
    ensures UndoableButForOne(before, batch, now, log)
  {
    MergeCutAtLast(before, batch, target, sources, key, seen, ops, now, log);
    BackButForOne(before, batch, ops[..|ops| - 1], ops[|ops| - 1].from, ops[|ops| - 1].to);
  }

  /** What a merge comes to, however far it got. */
  ghost predicate ComesTo<C>(r: Progress, before: map<Place, C>, noted: seq<(Parts, Parts)>, batch: string, ops: seq<Op>,
                             now: map<Place, C>, log: seq<(Parts, Parts)>) {
    && (EveryFileKept(before, now) <==> PutsOnce(ops))
    && (noted == [] && r.Unrecorded? && PutsOnlySettled(ops) ==> UndoableButForOne(before, batch, now, log))
    && (noted == [] && !r.Unrecorded? ==> (Undoable(before, batch, now, log) <==> PutsOnlySettled(ops)))
  }

  lemma MergeComesTo<C>(r: Progress, before: map<Place, C>, noted: seq<(Parts, Parts)>, batch: string, target: Parts, sources: seq<Parts>,
                        key: string -> string, seen: set<Parts>, ops: seq<Op>, now: map<Place, C>, log: seq<(Parts, Parts)>)
    requires Stands(r, before, noted, batch, target, sources, key, seen, ops, now, log) && FreshBatch(before, batch)
    ensures ComesTo(r, before, noted, batch, ops, now, log)
  {
    RunKeepsFilesIff(before, batch, ops);
    if noted == [] {
      if r.Unrecorded? {
        if PutsOnlySettled(ops) {
          MergeCutShort(before, batch, target, sources, key, seen, ops, now, log);
        }
      } else {
        MergeUndone(before, batch, target, sources, key, seen, ops, now, log);
      }
    }
  }

  /** What the folders allow. What can be undone keeps all files. With keys that never meet, that is so
      however far the merge gets.
      When the copies of each track can be followed, it can be undone when one of the other folders'
      copies gets in at most, and keeps all files when the copies that make way were never in one
      place; a whole merge, only then. */
  ghost predicate AsFoldersAllow<B>(before: map<Place, B>, target: Parts, sources: seq<Parts>, key: string -> string,
                                    rank: Ranking<Track<B>>, ops: seq<Op>, done: bool) {
    && (PutsOnlySettled(ops) ==> PutsOnce(ops))
    && (Mergeable(before, target, sources, key) ==> PutsOnlySettled(ops))
    && AsAllowed(before, target, sources, key, rank, ops)
    && (done && Followable(before, target, sources, key, rank) ==>
          && (PutsOnlySettled(ops) <==> Before(before, target, sources, key, rank).OneTakenIn())
          && (PutsOnce(ops) <==> Before(before, target, sources, key, rank).DisplacedApart()))
  }

  lemma JobEnds<B>(job: Job<B>, r: Progress, seen: set<Parts>, ops: seq<Op>, now: map<Place, B>, log: seq<(Parts, Parts)>)
    requires job.AtFolder(r, seen, ops, now, log, |job.sources|)
    ensures Stands(r, job.before, job.noted, job.batch, job.target, job.sources, job.key, seen, ops, now, log)
    ensures AsFoldersAllow(job.before, job.target, job.sources, job.key, job.rank, ops, r.Done?)
    ensures r.Done? ==> AllEmptied(now, job.sources, |job.sources|)
  {
    if PutsOnlySettled(ops) {
      SettledPutsOnce(job.before, job.batch, ops);
    }
    if r.Done? && Followable(job.before, job.target, job.sources, job.key, job.rank) {
      TraceEnds(job.before, job.batch, job.target, job.sources, job.key, job.rank, seen, ops, now);
    }
  }

  /** The tags of the kept folder's first track. */
  type Inspecting<!B> = Track<B> -> Option<AlbumTags>

  method TagsOf<B>(disk: Disk<Track<B>>, target: Parts, inspect: Inspecting<B>) returns (tags: Option<AlbumTags>) {
    var kept := TracksOf(disk.files, target);
    if kept == {} {
      return None;
    }
    var first := Earliest(kept, target);
    return inspect(disk.files[Library(first)]);
  }

  /** Merge the other folders into the first. Whether putting the batch back undoes it, and whether it
      keeps every file, is decided by the run and so by the folders; what is undone is undone exactly,
      but for the album tags of the tracks moved in and for a last move that couldn't be noted. */
  method MergeInto<B>(disk: Disk<Track<B>>, folders: seq<Parts>, key: string -> string, rank: Ranking<Track<B>>,
                      inspect: Inspecting<B>, batch: string)
      returns (r: Progress, ghost seen: set<Parts>, ghost ops: seq<Op>)
    requires folders != [] && folders[0] !in folders[1..] && forall folder :: folder in folders ==> IsLibrary(folder)
    modifies disk`files, disk`log
    ensures Stands(r, Bodies(old(disk.files)), old(disk.MovesOf(batch)), batch, folders[0], folders[1..], key, seen, ops,
                   Bodies(disk.files), disk.MovesOf(batch))
    ensures r.Done? ==> AllEmptied(Bodies(disk.files), folders[1..], |folders| - 1)
    ensures FreshBatch(Bodies(old(disk.files)), batch) ==>
      ComesTo(r, Bodies(old(disk.files)), old(disk.MovesOf(batch)), batch, ops, Bodies(disk.files), disk.MovesOf(batch))
    ensures AsFoldersAllow(Bodies(old(disk.files)), folders[0], folders[1..], key, rank, ops, r.Done?)
  {
    var target, sources := folders[0], folders[1..];
    ghost var job := Job(Bodies(disk.files), disk.MovesOf(batch), batch, target, sources, key, rank);
    var tags := TagsOf(disk, target, inspect);
    seen, ops := {}, [];
    JobBegins(job);
    var i := 0;
    r := Done;
    while i < |sources|
      invariant 0 <= i <= |sources| && r.Done? && job.AtFolder(r, seen, ops, Bodies(disk.files), disk.MovesOf(batch), i)
    {
      r, seen, ops := MergeFolder(disk, sources[i], target, key, rank, tags, batch, job, seen, ops, i);
      i := i + 1;
      if !r.Done? {
        break;
      }
    }
    JobEnds(job, r, seen, ops, Bodies(disk.files), disk.MovesOf(batch));
    if FreshBatch(job.before, batch) {
      MergeComesTo(r, job.before, job.noted, batch, target, sources, key, seen, ops, Bodies(disk.files), disk.MovesOf(batch));
    }
  }
}
