/** What merging folders is made of (`crates/delune-library/src/health.rs`): moving a track in under a
    free name with a note of it, and a condition on the folders under which the puts and moves of a
    merge never meet, so that its batch can be undone. `Copies` has another such condition, and when
    a merge loses a file. */
module Health {
  import opened Text
  import opened Paths
  import opened Relocation
  import opened Batches
  import opened Trash
  import opened Unnoted
  import opened FreeNames
  import opened Tags
  import opened Tracks

  // ---- moving a track in ----

  /** `to` is a new place in `target` for `from`: its own name, or its name with a number. */
  ghost predicate ArrivesAs(from: Parts, to: Parts, target: Parts) {
    && to != [] && Folder(to) == target
    && (FileName(to) == FileName(from) || exists n :: HasNumber(from, to, n))
  }

  predicate HasNumber(from: Parts, to: Parts, n: nat) {
    FileName(to) == Numbered(Stem(FileName(from)), n, Extended(FileName(from)))
  }

  lemma Regroup(stem: string, number: string, extension: string)
    ensures stem + " (" + number + ")." + extension == (stem + " (" + number + ")") + "." + extension
  {
  }

  lemma StemOfNumbered(stem: string, n: nat, extension: string)
    requires '.' !in extension
    ensures Stem(Numbered(stem, n, extension)) == stem + " (" + Decimal(n) + ")"
  {
    Regroup(stem, Decimal(n), extension);
    NameParts(stem + " (" + Decimal(n) + ")", extension);
  }

  lemma NumberedStemIs(from: Parts, to: Parts, n: nat)
    requires HasNumber(from, to, n)
    ensures Stem(FileName(to)) == NumberedStem(from, n)
  {
    StemOfNumbered(Stem(FileName(from)), n, Extended(FileName(from)));
  }

  function NumberedStem(parts: Parts, n: nat): string {
    Stem(FileName(parts)) + " (" + Decimal(n) + ")"
  }

  function Extended(name: string): string {
    if Extension(name).Some? then Extension(name).value else ""
  }

  /** The name in `target` with number `n`. */
  function Tried(target: Parts, name: string, n: nat): Parts {
    target + [Numbered(Stem(name), n, Extended(name))]
  }

  lemma TriedApart(target: Parts, name: string, a: nat, b: nat)
    requires 2 <= a < b
    ensures Tried(target, name, a) != Tried(target, name, b)
  {
    if Tried(target, name, a) == Tried(target, name, b) {
      assert Tried(target, name, a)[|target|] == Tried(target, name, b)[|target|];
      NumberedIsInjective(Stem(name), a, b, Extended(name));
    }
  }

  lemma TriedArrives(from: Parts, target: Parts, n: nat)
    requires from != []
    ensures ArrivesAs(from, Tried(target, FileName(from), n), target)
  {
    assert HasNumber(from, Tried(target, FileName(from), n), n);
  }

  /** The first free name in `target` for a file. */
  method FreeName<C>(disk: Disk<C>, from: Parts, target: Parts) returns (to: Parts)
    requires from != []
    ensures Library(to) !in disk.files && ArrivesAs(from, to, target)
    ensures FileName(to) != FileName(from) ==> Library(target + [FileName(from)]) in disk.files
  {
    var name := FileName(from);
    to := target + [name];
    var n := 2;
    ghost var tried := (k: nat) => Library(Tried(target, name, k));
    while Library(to) in disk.files
      invariant 2 <= n && to == if n == 2 then target + [name] else Tried(target, name, n - 1)
      invariant forall k :: 2 <= k < n - 1 ==> tried(k) in disk.files.Keys
      invariant 2 < n ==> Library(target + [name]) in disk.files
      decreases |disk.files| + 3 - n
    {
      to := Tried(target, name, n);
      forall a, b | 2 <= a < b < n ensures tried(a) != tried(b) {
        TriedApart(target, name, a, b);
      }
      TakenAreFew(disk.files.Keys, tried, 2, n);
      n := n + 1;
    }
    if 2 < n {
      TriedArrives(from, target, n - 1);
    }
  }

  /** What moves along with a file: itself, and the files sharing its name that aren't audio. */
  function MoveSet<C>(files: map<Place, C>, file: Parts): (r: set<Parts>)
    ensures forall q :: q in r <==> Library(q) in files && Accompanies(file, q)
  {
    set p | p in files && p.Library? && Accompanies(file, p.parts) :: p.parts
  }

  predicate Accompanies(file: Parts, q: Parts) {
    q != [] && Folder(q) == Folder(file) && Stem(FileName(q)) == Stem(FileName(file)) && (q == file || !IsAudio(FileName(q)))
  }

  /** The end of a step that moves files: done, refused by the disk with nothing of it done,
      or done without a note of it. */
  datatype Progress = Done | Refused | Unrecorded

  /** Each op moves a file that accompanies `file` to a new place in `target`. */
  ghost predicate MovesIn(ops: seq<Op>, file: Parts, target: Parts) {
    forall op :: op in ops ==> BringsIn(op, file, target)
  }

  ghost predicate BringsIn(op: Op, file: Parts, target: Parts) {
    op.MoveTo? && Accompanies(file, op.from) && ArrivesAs(op.from, op.to, target)
  }

  /** A file gets a number only when something has its name. */
  ghost predicate NumberedIfTaken<C>(files: map<Place, C>, batch: string, ops: seq<Op>, target: Parts) {
    ops == [] ||
    (NumberedIfTaken(files, batch, ops[..|ops| - 1], target) &&
     IfTaken(Run(files, batch, ops[..|ops| - 1]), ops[|ops| - 1], target))
  }

  predicate IfTaken<C>(files: map<Place, C>, op: Op, target: Parts) {
    op.MoveTo? && FileName(op.to) != FileName(op.from) ==> Library(target + [FileName(op.from)]) in files
  }

  lemma NumberedMore<C>(files: map<Place, C>, batch: string, ops: seq<Op>, now: map<Place, C>, more: seq<Op>, target: Parts)
    requires NumberedIfTaken(files, batch, ops, target) && now == Run(files, batch, ops)
    requires |more| <= 1 && forall op :: op in more ==> IfTaken(now, op, target)
    ensures NumberedIfTaken(files, batch, ops + more, target)
  {
    if more == [] {
      assert ops + more == ops;
    } else {
      assert (ops + more)[..|ops + more| - 1] == ops && more[0] in more;
    }
  }

  predicate WasMoved(ops: seq<Op>, q: Parts) {
    exists op :: op in ops && op.MoveTo? && op.from == q
  }

  /** What a run did to the disk, and that the log has it. */
  ghost predicate Ran<C>(before: map<Place, C>, noted: seq<(Parts, Parts)>, batch: string, ops: seq<Op>, now: map<Place, C>,
                         log: seq<(Parts, Parts)>) {
    LegalRun(before, batch, ops) && now == Run(before, batch, ops) && log == noted + Log(ops)
  }

  lemma RanMore<C>(before: map<Place, C>, noted: seq<(Parts, Parts)>, batch: string, ops: seq<Op>, now: map<Place, C>,
                   log: seq<(Parts, Parts)>, more: seq<Op>, after: map<Place, C>, log': seq<(Parts, Parts)>)
    requires Ran(before, noted, batch, ops, now, log) && Ran(now, log, batch, more, after, log')
    ensures Ran(before, noted, batch, ops + more, after, log')
  {
    RunInTwo(before, batch, ops, more);
    LogInTwo(ops, more);
    assert (noted + Log(ops)) + Log(more) == noted + (Log(ops) + Log(more));
  }

  /** A run whose last move isn't in the log. */
  ghost predicate Cut<C>(before: map<Place, C>, noted: seq<(Parts, Parts)>, batch: string, ops: seq<Op>, now: map<Place, C>,
                         log: seq<(Parts, Parts)>) {
    && ops != [] && ops[|ops| - 1].MoveTo? && LegalRun(before, batch, ops) && now == Run(before, batch, ops)
    && log == noted + Log(ops[..|ops| - 1])
  }

  lemma RanThenCut<C>(before: map<Place, C>, noted: seq<(Parts, Parts)>, batch: string, ops: seq<Op>, now: map<Place, C>,
                      log: seq<(Parts, Parts)>, more: seq<Op>, after: map<Place, C>, log': seq<(Parts, Parts)>)
    requires Ran(before, noted, batch, ops, now, log) && Cut(now, log, batch, more, after, log')
    ensures Cut(before, noted, batch, ops + more, after, log')
  {
    RunInTwo(before, batch, ops, more);
    var rest := more[..|more| - 1];
    assert (ops + more)[..|ops + more| - 1] == ops + rest;
    LogInTwo(ops, rest);
    assert (noted + Log(ops)) + Log(rest) == noted + (Log(ops) + Log(rest));
  }

  lemma CutOneMove<C>(before: map<Place, C>, noted: seq<(Parts, Parts)>, batch: string, from: Parts, to: Parts)
    requires Legal(before, MoveTo(from, to))
    ensures Cut(before, noted, batch, [MoveTo(from, to)], Move(before, Library(from), Library(to)), noted)
  {
    RanOneMove(before, noted, batch, from, to);
    assert [MoveTo(from, to)][..0] == [] && noted + [] == noted;
  }

  lemma RanNothing<C>(before: map<Place, C>, noted: seq<(Parts, Parts)>, batch: string)
    ensures Ran(before, noted, batch, [], before, noted)
  {
    assert noted + [] == noted;
  }

  lemma RanOneMove<C>(before: map<Place, C>, noted: seq<(Parts, Parts)>, batch: string, from: Parts, to: Parts)
    requires Legal(before, MoveTo(from, to))
    ensures Ran(before, noted, batch, [MoveTo(from, to)], Move(before, Library(from), Library(to)), noted + [(from, to)])
  {
    RunMore(before, batch, [], MoveTo(from, to));
    Unsnoc([], MoveTo(from, to));
    assert [] + [MoveTo(from, to)] == [MoveTo(from, to)];
  }

  lemma InFolderInLibrary(parts: Parts, folder: Parts)
    requires IsLibrary(folder) && parts != [] && Folder(parts) == folder
    ensures IsLibrary(parts)
  {
    assert Folder(parts)[0] == parts[0];
  }

  /** A run on files, and the same run on their bodies alone. */
  ghost predicate RanOn<B>(before: map<Place, Track<B>>, noted: seq<(Parts, Parts)>, batch: string, ops: seq<Op>,
                           now: map<Place, Track<B>>, log: seq<(Parts, Parts)>, tagging: bool) {
    && Ran(Bodies(before), noted, batch, ops, Bodies(now), log)
    && (!tagging ==> Ran(before, noted, batch, ops, now, log))
  }

  lemma RanOnMore<B>(before: map<Place, Track<B>>, noted: seq<(Parts, Parts)>, batch: string, ops: seq<Op>, now: map<Place, Track<B>>,
                     log: seq<(Parts, Parts)>, more: seq<Op>, after: map<Place, Track<B>>, log': seq<(Parts, Parts)>, tagging: bool)
    requires RanOn(before, noted, batch, ops, now, log, tagging) && RanOn(now, log, batch, more, after, log', tagging)
    ensures RanOn(before, noted, batch, ops + more, after, log', tagging)
  {
    RanMore(Bodies(before), noted, batch, ops, Bodies(now), log, more, Bodies(after), log');
    if !tagging {
      RanMore(before, noted, batch, ops, now, log, more, after, log');
    }
  }

  /** Likewise for a run whose last move isn't in the log. */
  ghost predicate CutOn<B>(before: map<Place, Track<B>>, noted: seq<(Parts, Parts)>, batch: string, ops: seq<Op>,
                           now: map<Place, Track<B>>, log: seq<(Parts, Parts)>, tagging: bool) {
    && Cut(Bodies(before), noted, batch, ops, Bodies(now), log)
    && (!tagging ==> Cut(before, noted, batch, ops, now, log))
  }

  lemma RanThenCutOn<B>(before: map<Place, Track<B>>, noted: seq<(Parts, Parts)>, batch: string, ops: seq<Op>,
                        now: map<Place, Track<B>>, log: seq<(Parts, Parts)>, more: seq<Op>, after: map<Place, Track<B>>,
                        log': seq<(Parts, Parts)>, tagging: bool)
    requires RanOn(before, noted, batch, ops, now, log, tagging) && CutOn(now, log, batch, more, after, log', tagging)
    ensures CutOn(before, noted, batch, ops + more, after, log', tagging)
  {
    RanThenCut(Bodies(before), noted, batch, ops, Bodies(now), log, more, Bodies(after), log');
    if !tagging {
      RanThenCut(before, noted, batch, ops, now, log, more, after, log');
    }
  }

  lemma CutOnOneMove<B>(before: map<Place, Track<B>>, noted: seq<(Parts, Parts)>, batch: string, from: Parts, to: Parts, tagging: bool)
    requires Legal(before, MoveTo(from, to))
    ensures CutOn(before, noted, batch, [MoveTo(from, to)], Move(before, Library(from), Library(to)), noted, tagging)
  {
    CutOneMove(before, noted, batch, from, to);
    BodiesMove(before, Library(from), Library(to));
    CutOneMove(Bodies(before), noted, batch, from, to);
  }

  lemma RanOnNothing<B>(before: map<Place, Track<B>>, noted: seq<(Parts, Parts)>, batch: string, tagging: bool)
    ensures RanOn(before, noted, batch, [], before, noted, tagging)
  {
    RanNothing(before, noted, batch);
    RanNothing(Bodies(before), noted, batch);
  }

  lemma RanOnOneMove<B>(before: map<Place, Track<B>>, noted: seq<(Parts, Parts)>, batch: string, from: Parts, to: Parts)
    requires Legal(before, MoveTo(from, to))
    ensures RanOn(before, noted, batch, [MoveTo(from, to)], Move(before, Library(from), Library(to)), noted + [(from, to)], false)
  {
    RanOneMove(before, noted, batch, from, to);
    BodiesMove(before, Library(from), Library(to));
    RanOneMove(Bodies(before), noted, batch, from, to);
  }

  /** An arrived track may get the album's tags; no note is made of those it had. */
  method TagArrived<B>(disk: Disk<Track<B>>, to: Parts, tags: Option<AlbumTags>)
    requires Library(to) in disk.files
    modifies disk`files
    ensures Bodies(disk.files) == Bodies(old(disk.files))
    ensures tags.None? ==> disk.files == old(disk.files)
  {
    var willing: bool := *;
    if willing && tags.Some? && IsAudio(FileName(to)) {
      disk.files := disk.files[Library(to) := TaggedAs(disk.files[Library(to)], tags.value)];
    }
  }

  /** Tagging changes a readable track unless it says the same already. */
  lemma TaggedAsIff<B>(track: Track<B>, tags: AlbumTags)
    ensures TaggedAs(track, tags) == track <==>
      track.tags.None? || tags.album.None? ||
      (track.tags.value.album == tags.album && (tags.albumArtist.None? || track.tags.value.albumArtists == [tags.albumArtist.value]))
  {
  }

  /** A track moved in and tagged comes back tagged: putting the batch back restores its place,
      and its tags if and only if tagging hadn't changed them. */
  lemma AlbumTagsStay<B>(files: map<Place, Track<B>>, batch: string, from: Parts, to: Parts, tags: AlbumTags)
    requires FreshBatch(files, batch) && Legal(files, MoveTo(from, to))
    ensures var moved := Move(files, Library(from), Library(to));
      var tagged := moved[Library(to) := TaggedAs(moved[Library(to)], tags)];
      && Restored(tagged, batch, [(from, to)]) == Outcome(files[Library(from) := TaggedAs(files[Library(from)], tags)], {})
      && (Restored(tagged, batch, [(from, to)]).files == files <==> TaggedAs(files[Library(from)], tags) == files[Library(from)])
  {
    var retagged := files[Library(from) := TaggedAs(files[Library(from)], tags)];
    var moved := Move(files, Library(from), Library(to));
    assert moved[Library(to) := TaggedAs(moved[Library(to)], tags)] == Move(retagged, Library(from), Library(to));
    RanOneMove(retagged, [], batch, from, to);
    assert [] + [(from, to)] == [(from, to)];
    Unsnoc([], MoveTo(from, to));
    assert [] + [MoveTo(from, to)] == [MoveTo(from, to)];
    UndoIsExact(retagged, batch, [MoveTo(from, to)]);
  }

  /** One file into `target` under a free name, noted in the batch. */
  method MoveOne<B>(disk: Disk<Track<B>>, from: Parts, target: Parts, batch: string, tags: Option<AlbumTags>)
      returns (r: Progress, ghost ops: seq<Op>)
    requires IsLibrary(from) && IsLibrary(target)
    modifies disk`files, disk`log
    ensures r.Done? ==> WasMoved(ops, from)
    ensures !r.Unrecorded? ==>
      RanOn(old(disk.files), old(disk.MovesOf(batch)), batch, ops, disk.files, disk.MovesOf(batch), tags.Some?)
    ensures r.Unrecorded? ==>
      CutOn(old(disk.files), old(disk.MovesOf(batch)), batch, ops, disk.files, disk.MovesOf(batch), tags.Some?)
    ensures forall op :: op in ops ==> op.MoveTo? && op.from == from && ArrivesAs(from, op.to, target)
    ensures |ops| <= 1 && forall op :: op in ops ==> IfTaken(Bodies(old(disk.files)), op, target)
  {
    ghost var before, noted := disk.files, disk.MovesOf(batch);
    var to := FreeName(disk, from, target);
    InFolderInLibrary(to, target);
    var moved := disk.Rename(Library(from), Library(to));
    if !moved {
      RanOnNothing(before, noted, batch, tags.Some?);
      return Refused, [];
    }
    RanOnOneMove(before, noted, batch, from, to);
    CutOnOneMove(before, noted, batch, from, to, tags.Some?);
    var written := disk.RecordMove(batch, from, to);
    if !written {
      return Unrecorded, [MoveTo(from, to)];
    }
    TagArrived(disk, to, tags);
    return Done, [MoveTo(from, to)];
  }

  lemma MoreMoved(ops: seq<Op>, more: seq<Op>, q: Parts)
    ensures WasMoved(ops, q) || WasMoved(more, q) ==> WasMoved(ops + more, q)
  {
  }

  /** What `MoveIn` has done once `todo` is left of what moves along with the file. */
  ghost predicate MovingIn(files: set<Parts>, todo: set<Parts>, file: Parts, target: Parts, ops: seq<Op>) {
    && todo <= files && MovesIn(ops, file, target)
    && (forall q :: q in files && q !in todo ==> WasMoved(ops, q))
  }

  lemma MovedOneMore(files: set<Parts>, todo: set<Parts>, file: Parts, target: Parts, ops: seq<Op>, from: Parts, more: seq<Op>, done: bool)
    requires MovingIn(files, todo, file, target, ops) && from in todo && Accompanies(file, from)
    requires forall op :: op in more ==> op.MoveTo? && op.from == from && ArrivesAs(from, op.to, target)
    requires done ==> WasMoved(more, from)
    ensures MovesIn(ops + more, file, target)
    ensures done ==> MovingIn(files, todo - {from}, file, target, ops + more)
  {
    forall q | q in files ensures WasMoved(ops, q) || WasMoved(more, q) ==> WasMoved(ops + more, q) {
      MoreMoved(ops, more, q);
    }
  }

  /** A track's way into `target`: all that moves along with it goes file by file, each to a free name
      and with a note. */
  method MoveIn<B>(disk: Disk<Track<B>>, file: Parts, target: Parts, batch: string, tags: Option<AlbumTags>)
      returns (r: Progress, ghost ops: seq<Op>)
    requires IsLibrary(Folder(file)) && IsLibrary(target)
    modifies disk`files, disk`log
    ensures !r.Unrecorded? ==>
      RanOn(old(disk.files), old(disk.MovesOf(batch)), batch, ops, disk.files, disk.MovesOf(batch), tags.Some?)
    ensures r.Unrecorded? ==>
      CutOn(old(disk.files), old(disk.MovesOf(batch)), batch, ops, disk.files, disk.MovesOf(batch), tags.Some?)
    ensures MovesIn(ops, file, target) && NumberedIfTaken(Bodies(old(disk.files)), batch, ops, target)
    ensures r.Done? ==> forall q :: q in MoveSet(old(disk.files), file) ==> WasMoved(ops, q)
  {
    ghost var before, noted := disk.files, disk.MovesOf(batch);
    RanOnNothing(before, noted, batch, tags.Some?);
    ops := [];
    var all := MoveSet(disk.files, file);
    var todo := all;
    while todo != {}
      invariant RanOn(before, noted, batch, ops, disk.files, disk.MovesOf(batch), tags.Some?)
      invariant MovingIn(all, todo, file, target, ops) && NumberedIfTaken(Bodies(before), batch, ops, target)
    {
      var from :| from in todo;
      InFolderInLibrary(from, Folder(file));
      ghost var now, log := disk.files, disk.MovesOf(batch);
      var one, more := MoveOne(disk, from, target, batch, tags);
      MovedOneMore(all, todo, file, target, ops, from, more, one.Done?);
      NumberedMore(Bodies(before), batch, ops, Bodies(now), more, target);
      if one.Unrecorded? {
        RanThenCutOn(before, noted, batch, ops, now, log, more, disk.files, disk.MovesOf(batch), tags.Some?);
      } else {
        RanOnMore(before, noted, batch, ops, now, log, more, disk.files, disk.MovesOf(batch), tags.Some?);
      }
      todo, ops := todo - {from}, ops + more;
      if !one.Done? {
        return one, ops;
      }
    }
    return Done, ops;
  }

  /** However it ended, noted or not, no file is lost. */
  lemma MoveInKeepsFiles<B>(before: map<Place, Track<B>>, noted: seq<(Parts, Parts)>, batch: string, ops: seq<Op>,
                            now: map<Place, Track<B>>, log: seq<(Parts, Parts)>, tagging: bool, file: Parts, target: Parts)
    requires RanOn(before, noted, batch, ops, now, log, tagging) || CutOn(before, noted, batch, ops, now, log, tagging)
    requires MovesIn(ops, file, target)
    ensures EveryFileKept(Bodies(before), Bodies(now))
  {
    MovesKeepFiles(Bodies(before), batch, ops);
  }

  // ---- what a merge may be given ----

  /** The key of a track, worked out from its file's name. */
  function TrackKey(key: string -> string, parts: Parts): string {
    key(Stem(FileName(parts)))
  }

  /** Keys shorter than two bytes say nothing. */
  predicate Telling(key: string) {
    2 <= Bytes(key)
  }

  /** An audio file of `folder` that isn't hidden. */
  predicate IsTrackOf(parts: Parts, folder: Parts) {
    parts != [] && Folder(parts) == folder && IsAudio(FileName(parts)) && !IsHidden(FileName(parts))
  }

  predicate InSources(parts: Parts, sources: seq<Parts>) {
    Folder(parts) in sources
  }

  predicate IsSourceTrack(parts: Parts, sources: seq<Parts>) {
    exists folder :: folder in sources && IsTrackOf(parts, folder)
  }

  /** A track of the other folders whose key tells something. */
  predicate IsMergedTrack<C>(files: map<Place, C>, sources: seq<Parts>, key: string -> string, parts: Parts) {
    Library(parts) in files && IsSourceTrack(parts, sources) && Telling(TrackKey(key, parts))
  }

  /** Something else may get the name of `a` in the kept folder: it has it there already, or
      comes from one of the other folders, with that name or with a number in it. */
  ghost predicate NameMayBeTaken<C>(files: map<Place, C>, target: Parts, sources: seq<Parts>, a: Parts) {
    exists b :: MayTakeName(files, b, target, sources, a)
  }

  ghost predicate MayTakeName<C>(files: map<Place, C>, b: Parts, target: Parts, sources: seq<Parts>, a: Parts) {
    && b != a && Library(b) in files
    && (b == target + [FileName(a)] ||
        (InSources(b, sources) && (FileName(b) == FileName(a) || exists n :: HasNumber(b, a, n))))
  }

  /** The other folders' tracks all have keys of their own, and none has the key a file of
      theirs would get by being numbered, when its name may be taken. */
  ghost predicate Mergeable<C>(files: map<Place, C>, target: Parts, sources: seq<Parts>, key: string -> string) {
    && (forall a, b :: 0 <= a < b < |sources| ==> sources[a] != sources[b])
    && (forall g, h :: IsMergedTrack(files, sources, key, h) && Library(g) in files && IsSourceTrack(g, sources) && g != h ==>
      TrackKey(key, g) != TrackKey(key, h))
    && (forall a, h, n ::
          IsMergedTrack(files, sources, key, h) && Library(a) in files && InSources(a, sources) && NameMayBeTaken(files, target, sources, a)
          ==> key(NumberedStem(a, n)) != TrackKey(key, h))
  }

  // ---- where the moved files came from ----

  /** A track already dealt with has this name. */
  predicate NameSeen(seen: set<Parts>, parts: Parts, sources: seq<Parts>) {
    exists g :: g in seen && IsSourceTrack(g, sources) && Stem(FileName(g)) == Stem(FileName(parts))
  }

  /** Every move so far took a file of the other folders, named like a track dealt with, to a
      new place in the kept folder. */
  ghost predicate MovesTracked<C>(before: map<Place, C>, target: Parts, sources: seq<Parts>, seen: set<Parts>, ops: seq<Op>) {
    forall op :: op in ops && op.MoveTo? ==> IsTracked(before, target, sources, seen, op.from, op.to)
  }

  ghost predicate IsTracked<C>(before: map<Place, C>, target: Parts, sources: seq<Parts>, seen: set<Parts>, from: Parts, to: Parts) {
    && Library(from) in before && InSources(from, sources) && NameSeen(seen, from, sources)
    && ArrivesAs(from, to, target)
    && (FileName(to) != FileName(from) ==> NameMayBeTaken(before, target, sources, from))
  }

  /** The merge so far. */
  ghost predicate Merging<C>(before: map<Place, C>, batch: string, target: Parts, sources: seq<Parts>, key: string -> string,
                             seen: set<Parts>, ops: seq<Op>) {
    && target !in sources
    && LegalRun(before, batch, ops) && NoRecords(ops)
    && (forall g :: g in seen ==> Library(g) in before)
    && MovesTracked(before, target, sources, seen, ops)
    && (Mergeable(before, target, sources, key) ==> PutsOnlySettled(ops))
  }

  /** A file nothing moved to its place was there from the start. */
  lemma {:induction false} ThereFromTheStart<C>(before: map<Place, C>, batch: string, ops: seq<Op>, parts: Parts)
    requires LegalRun(before, batch, ops) && Library(parts) in Run(before, batch, ops) && IsLibrary(parts) && !IsTarget(ops, parts)
    ensures Library(parts) in before
  {
    if ops != [] {
      var rest, last := ops[..|ops| - 1], ops[|ops| - 1];
      assert ops == rest + [last];
      assert last.MoveTo? ==> last.to != parts;
      ThereFromTheStart(before, batch, rest, parts);
    }
  }

  /** Files of the other folders stay where they began until they are dealt with. */
  lemma SourceFileIsOld<C>(before: map<Place, C>, batch: string, target: Parts, sources: seq<Parts>, key: string -> string,
                           seen: set<Parts>, ops: seq<Op>, parts: Parts)
    requires Merging(before, batch, target, sources, key, seen, ops)
    requires InSources(parts, sources) && parts != [] && IsLibrary(parts)
    ensures !IsTarget(ops, parts)
    ensures Library(parts) in Run(before, batch, ops) ==> Library(parts) in before
  {
    if Library(parts) in Run(before, batch, ops) {
      ThereFromTheStart(before, batch, ops, parts);
    }
  }

  // ---- one op of a merge ----

  lemma MergePut<C>(before: map<Place, C>, batch: string, target: Parts, sources: seq<Parts>, key: string -> string,
                    seen: set<Parts>, ops: seq<Op>, q: Parts)
    requires Merging(before, batch, target, sources, key, seen, ops)
    requires Legal(Run(before, batch, ops), PutAway(q)) && !IsRecord(q)
    requires Mergeable(before, target, sources, key) ==> !IsTarget(ops, q)
    ensures Merging(before, batch, target, sources, key, seen, ops + [PutAway(q)])
  {
    RunMore(before, batch, ops, PutAway(q));
  }

  /** A track is being dealt with. */
  lemma SeeTrack<C>(before: map<Place, C>, batch: string, target: Parts, sources: seq<Parts>, key: string -> string,
                    seen: set<Parts>, ops: seq<Op>, file: Parts)
    requires Merging(before, batch, target, sources, key, seen, ops) && Library(file) in before
    ensures Merging(before, batch, target, sources, key, seen + {file}, ops)
  {
    forall op | op in ops && op.MoveTo? ensures IsTracked(before, target, sources, seen + {file}, op.from, op.to) {
      assert IsTracked(before, target, sources, seen, op.from, op.to);
      var g :| g in seen && IsSourceTrack(g, sources) && Stem(FileName(g)) == Stem(FileName(op.from));
      assert g in seen + {file};
    }
  }

  /** Files sharing a name with a track of the kept folder that has the key of the track being
      merged weren't moved there by this merge. */
  lemma KeptNamesakeIsSettled<C>(before: map<Place, C>, batch: string, target: Parts, sources: seq<Parts>, key: string -> string,
                                 seen: set<Parts>, ops: seq<Op>, file: Parts, existing: Parts, q: Parts)
    requires Merging(before, batch, target, sources, key, seen, ops) && Mergeable(before, target, sources, key)
    requires IsMergedTrack(before, sources, key, file) && file !in seen
    requires TrackKey(key, existing) == TrackKey(key, file) && Stem(FileName(q)) == Stem(FileName(existing))
    ensures !IsTarget(ops, q)
  {
    forall op | op in ops && op.MoveTo? ensures op.to != q {
      assert IsTracked(before, target, sources, seen, op.from, op.to);
      var g :| g in seen && IsSourceTrack(g, sources) && Stem(FileName(g)) == Stem(FileName(op.from));
      assert TrackKey(key, g) != TrackKey(key, file);
      if op.to == q {
        assert FileName(op.to) != FileName(op.from);
        var n :| HasNumber(op.from, op.to, n);
        NumberedStemIs(op.from, op.to, n);
        assert false;
      }
    }
  }

  // ---- a put or a move of a merge, whole ----

  lemma {:induction false} MergePuts<C>(before: map<Place, C>, batch: string, target: Parts, sources: seq<Parts>, key: string -> string,
                                        seen: set<Parts>, ops: seq<Op>, more: seq<Op>)
    requires Merging(before, batch, target, sources, key, seen, ops) && LegalRun(Run(before, batch, ops), batch, more)
    requires forall op :: op in more ==> op.PutAway? && !IsRecord(op.parts)
    requires Mergeable(before, target, sources, key) ==> forall op :: op in more ==> !IsTarget(ops, op.parts)
    ensures Merging(before, batch, target, sources, key, seen, ops + more)
  {
    if more == [] {
      assert ops + more == ops;
    } else {
      var rest, last := more[..|more| - 1], more[|more| - 1];
      assert more == rest + [last] && last in more && (ops + rest) + [last] == ops + more;
      MergePuts(before, batch, target, sources, key, seen, ops, rest);
      RunInTwo(before, batch, ops, rest);
      assert IsTarget(ops + rest, last.parts) ==> IsTarget(ops, last.parts) by {
        assert forall op :: op in rest ==> op in more;
      }
      MergePut(before, batch, target, sources, key, seen, ops + rest, last.parts);
    }
  }

  /** What was moved away, or put, is gone until a move brings a file there. */
  lemma {:induction false} MovedIsAway<C>(files: map<Place, C>, batch: string, ops: seq<Op>, op: Op)
    requires LegalRun(files, batch, ops) && op in ops && op.MoveTo? && !IsTarget(ops, op.from) && IsLibrary(op.from)
    ensures Library(op.from) !in Run(files, batch, ops)
  {
    var rest, last := ops[..|ops| - 1], ops[|ops| - 1];
    assert ops == rest + [last];
    assert last.MoveTo? ==> last.to != op.from;
    if op != last {
      assert !IsTarget(rest, op.from) by {
        assert forall o :: o in rest ==> o in ops;
      }
      MovedIsAway(files, batch, rest, op);
    }
  }

  /** Whatever has the name of a file to be moved was in the kept folder, or was moved there from
      another place under that name. */
  lemma TakenMayBe<C>(before: map<Place, C>, batch: string, target: Parts, sources: seq<Parts>, key: string -> string,
                      seen: set<Parts>, ops: seq<Op>, from: Parts)
    requires Merging(before, batch, target, sources, key, seen, ops) && IsLibrary(target)
    requires from != [] && InSources(from, sources) && IsLibrary(from) && Library(from) in Run(before, batch, ops)
    requires Library(target + [FileName(from)]) in Run(before, batch, ops)
    ensures NameMayBeTaken(before, target, sources, from)
  {
    var taken := target + [FileName(from)];
    assert Folder(taken) == target && FileName(taken) == FileName(from) && taken[0] == target[0];
    if IsTarget(ops, taken) {
      var op :| op in ops && op.MoveTo? && op.to == taken;
      if op.from == from {
        SourceFileIsOld(before, batch, target, sources, key, seen, ops, from);
        MovedIsAway(before, batch, ops, op);
        assert false;
      }
      if FileName(op.to) != FileName(op.from) {
        var n :| HasNumber(op.from, op.to, n);
        assert HasNumber(op.from, from, n);
      }
      assert MayTakeName(before, op.from, target, sources, from);
    } else {
      ThereFromTheStart(before, batch, ops, taken);
      assert MayTakeName(before, taken, target, sources, from);
    }
  }

  lemma TrackedMove(target: Parts, sources: seq<Parts>, seen: set<Parts>, file: Parts, op: Op)
    requires BringsIn(op, file, target) && IsSourceTrack(file, sources) && file in seen
    ensures op.MoveTo? && op.from != [] && InSources(op.from, sources) && NameSeen(seen, op.from, sources)
    ensures ArrivesAs(op.from, op.to, target)
  {
  }

  /** One file of another folder moves in. */
  lemma MergeMove<C>(before: map<Place, C>, batch: string, target: Parts, sources: seq<Parts>, key: string -> string,
                     seen: set<Parts>, ops: seq<Op>, file: Parts, op: Op)
    requires Merging(before, batch, target, sources, key, seen, ops) && IsLibrary(target)
    requires BringsIn(op, file, target) && IsSourceTrack(file, sources) && file in seen
    requires Legal(Run(before, batch, ops), op) && IfTaken(Run(before, batch, ops), op, target)
    ensures Merging(before, batch, target, sources, key, seen, ops + [op])
  {
    RunMore(before, batch, ops, op);
    MoveIsTracked(before, batch, target, sources, key, seen, ops, file, op);
  }

  lemma MoveIsTracked<C>(before: map<Place, C>, batch: string, target: Parts, sources: seq<Parts>, key: string -> string,
                         seen: set<Parts>, ops: seq<Op>, file: Parts, op: Op)
    requires Merging(before, batch, target, sources, key, seen, ops) && IsLibrary(target)
    requires BringsIn(op, file, target) && IsSourceTrack(file, sources) && file in seen
    requires Legal(Run(before, batch, ops), op) && IfTaken(Run(before, batch, ops), op, target)
    ensures IsTracked(before, target, sources, seen, op.from, op.to)
  {
    TrackedMove(target, sources, seen, file, op);
    SourceFileIsOld(before, batch, target, sources, key, seen, ops, op.from);
    if FileName(op.to) != FileName(op.from) {
      TakenMayBe(before, batch, target, sources, key, seen, ops, op.from);
    }
  }

  /** A run that brings a file's companions in, one by one. */
  ghost predicate BroughtIn<C>(files: map<Place, C>, batch: string, more: seq<Op>, file: Parts, target: Parts) {
    more == [] ||
    (BroughtIn(files, batch, more[..|more| - 1], file, target) &&
     BringsNext(Run(files, batch, more[..|more| - 1]), more[|more| - 1], file, target))
  }

  ghost predicate BringsNext<C>(files: map<Place, C>, op: Op, file: Parts, target: Parts) {
    Legal(files, op) && IfTaken(files, op, target) && BringsIn(op, file, target)
  }

  lemma {:induction false} IsBroughtIn<C>(files: map<Place, C>, batch: string, more: seq<Op>, file: Parts, target: Parts)
    requires MovesIn(more, file, target)
    requires LegalRun(files, batch, more) && NumberedIfTaken(files, batch, more, target)
    ensures BroughtIn(files, batch, more, file, target)
  {
    if more != [] {
      assert more == more[..|more| - 1] + [more[|more| - 1]] && more[|more| - 1] in more;
      IsBroughtIn(files, batch, more[..|more| - 1], file, target);
    }
  }

  lemma Rejoined(ops: seq<Op>, more: seq<Op>)
    requires more != []
    ensures (ops + more[..|more| - 1]) + [more[|more| - 1]] == ops + more
  {
  }

  lemma MergeLast<C>(before: map<Place, C>, batch: string, target: Parts, sources: seq<Parts>, key: string -> string,
                     seen: set<Parts>, ops: seq<Op>, file: Parts, rest: seq<Op>, last: Op)
    requires Merging(before, batch, target, sources, key, seen, ops + rest) && IsLibrary(target)
    requires BringsNext(Run(Run(before, batch, ops), batch, rest), last, file, target)
    requires IsSourceTrack(file, sources) && file in seen
    ensures Merging(before, batch, target, sources, key, seen, (ops + rest) + [last])
  {
    RunInTwo(before, batch, ops, rest);
    MergeMove(before, batch, target, sources, key, seen, ops + rest, file, last);
  }

  lemma {:induction false} MergeBrought<C>(before: map<Place, C>, batch: string, target: Parts, sources: seq<Parts>, key: string -> string,
                                           seen: set<Parts>, ops: seq<Op>, file: Parts, more: seq<Op>)
    requires Merging(before, batch, target, sources, key, seen, ops) && IsLibrary(target)
    requires BroughtIn(Run(before, batch, ops), batch, more, file, target) && IsSourceTrack(file, sources) && file in seen
    ensures Merging(before, batch, target, sources, key, seen, ops + more)
  {
    if more == [] {
      assert ops + more == ops;
    } else {
      var rest, last := more[..|more| - 1], more[|more| - 1];
      Rejoined(ops, more);
      MergeBrought(before, batch, target, sources, key, seen, ops, file, rest);
      MergeLast(before, batch, target, sources, key, seen, ops, file, rest, last);
    }
  }

  lemma MergeMoves<C>(before: map<Place, C>, batch: string, target: Parts, sources: seq<Parts>, key: string -> string,
                      seen: set<Parts>, ops: seq<Op>, file: Parts, more: seq<Op>)
    requires Merging(before, batch, target, sources, key, seen, ops) && IsLibrary(target)
    requires LegalRun(Run(before, batch, ops), batch, more) && NumberedIfTaken(Run(before, batch, ops), batch, more, target)
    requires MovesIn(more, file, target) && IsSourceTrack(file, sources) && file in seen
    ensures Merging(before, batch, target, sources, key, seen, ops + more)
  {
    IsBroughtIn(Run(before, batch, ops), batch, more, file, target);
    MergeBrought(before, batch, target, sources, key, seen, ops, file, more);
  }

  /** A merge, however far it got, is undone exactly by putting its batch back, if and only if it
      put away nothing it had moved in. */
  lemma MergeUndone<C>(before: map<Place, C>, batch: string, target: Parts, sources: seq<Parts>, key: string -> string,
                       seen: set<Parts>, ops: seq<Op>, now: map<Place, C>, log: seq<(Parts, Parts)>)
    requires Merging(before, batch, target, sources, key, seen, ops) && Ran(before, [], batch, ops, now, log)
    requires FreshBatch(before, batch)
    ensures Restored(now, batch, log) == Outcome(before, {}) <==> PutsOnlySettled(ops)
  {
    assert [] + Log(ops) == Log(ops);
    UndoIsExactIff(before, batch, ops);
  }
}
