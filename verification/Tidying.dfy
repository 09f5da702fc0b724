/** Tidying a folder (`crates/delune-library/src/tidy.rs`): tracks of other albums are moved out of it,
    and those that remain are given the tags of one album. */
module Tidying {
  import opened Text
  import opened Paths
  import opened Relocation
  import opened Batches
  import opened Trash
  import opened Unnoted
  import opened Listings
  import opened Health
  import opened Tags
  import opened Tracks
  import opened Albums
  import opened Looks
  import opened Retags

  /** The tags each batch has recorded. */
  class TagNotes {
    var notes: map<string, seq<Before>>

    constructor ()
      ensures notes == map[]
    {
      notes := map[];
    }

    function Of(batch: string): seq<Before>
      reads this`notes
    {
      if batch in notes then notes[batch] else []
    }

    method Record(batch: string, before: Before) returns (ok: bool)
      modifies this
      ensures Of(batch) == if ok then old(Of(batch)) + [before] else old(Of(batch))
      ensures forall b :: b != batch ==> Of(b) == old(Of(b))
    {
      ok := *;
      if ok {
        notes := notes[batch := Of(batch) + [before]];
      }
    }
  }

  /** Replace the identity a track's tags give, when they can be read at all. */
  method WriteTags<B>(disk: Disk<Track<B>>, parts: Parts, id: Identity, withYear: bool) returns (ok: bool)
    modifies disk`files
    ensures ok ==> Readable(old(disk.files), parts) && disk.files == WriteAt(old(disk.files), parts, id, withYear)
    ensures !ok ==> disk.files == old(disk.files)
  {
    var willing: bool := *;
    ok := willing && Readable(disk.files, parts);
    if ok {
      disk.files := WriteAt(disk.files, parts, id, withYear);
    }
  }

  // ---- where strays go ----

  /** The folders of the library that hold an album, by artist and title. */
  type Shelves = (string, string) -> seq<Parts>

  function SafeChar(c: char): char {
    if IsControl(c) || c in "/\\<>:\"|?*" then '_' else c
  }

  /** The name of the folder made for an album. */
  function FolderName(album: string): (name: string)
    ensures IsName(name) && name[0] != '.'
  {
    var safe := seq(|album|, i requires 0 <= i < |album| => SafeChar(album[i]));
    assert '/' !in safe;
    var name := TrimDots(Trim(safe));
    assert forall c :: c in name ==> c in Trim(safe);
    assert ("_" + name)[0] == '_';
    if name == "" || name[0] == '.' then "_" + name else name
  }

  ghost predicate ShelvesInLibrary(shelves: Shelves) {
    forall artist, album, d :: d in shelves(artist, album) ==> IsLibrary(d)
  }

  function FirstOther(folders: seq<Parts>, dir: Parts): (r: Option<Parts>)
    ensures r.Some? ==> r.value in folders && r.value != dir
  {
    if folders == [] then None else if folders[0] != dir then Some(folders[0]) else FirstOther(folders[1..], dir)
  }

  /** Where a stray of this album and artist belongs: on a known shelf, else next to `dir`. */
  function HomeOf(shelves: Shelves, dir: Parts, artist: string, album: string): (home: Parts)
    requires IsLibrary(dir)
    ensures ShelvesInLibrary(shelves) ==> IsLibrary(home)
  {
    var other := FirstOther(shelves(artist, album), dir);
    if other.Some? then other.value else Folder(dir) + [FolderName(album)]
  }

  // ---- the folder's tracks ----

  predicate IsTrackIn<B>(files: map<Place, Track<B>>, dir: Parts, q: Parts) {
    q != [] && Folder(q) == dir && IsAudio(FileName(q)) && Readable(files, q)
  }

  ghost predicate IsListing<B>(files: map<Place, Track<B>>, dir: Parts, tracks: seq<Parts>) {
    InNameOrder(tracks) && forall q :: q in tracks <==> IsTrackIn(files, dir, q)
  }

  /** The readable tracks of a folder, by name. */
  method List<B>(files: map<Place, Track<B>>, dir: Parts) returns (tracks: seq<Parts>)
    ensures IsListing(files, dir, tracks)
  {
    var all := set p | p in files && p.Library? && IsTrackIn(files, dir, p.parts) :: p.parts;
    forall q ensures q in all <==> IsTrackIn(files, dir, q) {
      assert Readable(files, q) ==> Library(q) in files;
    }
    tracks := Sorted(all, dir);
  }

  function Ids<B>(files: map<Place, Track<B>>, tracks: seq<Parts>): (ids: seq<Identity>)
    requires forall q :: q in tracks ==> Readable(files, q)
    ensures |ids| == |tracks| && forall i :: 0 <= i < |ids| ==> ids[i] == IdAt(files, tracks[i])
  {
    seq(|tracks|, i requires 0 <= i < |tracks| => IdAt(files, tracks[i]))
  }

  // ---- moving strays out ----

  /** Nothing but moves, and what they did to the disk and the log. */
  ghost predicate MovedSoFar<C>(before: map<Place, C>, noted: seq<(Parts, Parts)>, batch: string, ops: seq<Op>, now: map<Place, C>,
                                log: seq<(Parts, Parts)>) {
    Ran(before, noted, batch, ops, now, log) && forall op :: op in ops ==> op.MoveTo?
  }

  /** Files leave the folder, and none comes to it. */
  ghost predicate MovesOut(ops: seq<Op>, dir: Parts) {
    forall op :: op in ops ==> op.MoveTo? && Folder(op.from) == dir && op.to != [] && Folder(op.to) != dir
  }

  /** As far as a move that isn't in the log. */
  ghost predicate CutShort<C>(before: map<Place, C>, noted: seq<(Parts, Parts)>, batch: string, dir: Parts, ops: seq<Op>,
                              now: map<Place, C>, log: seq<(Parts, Parts)>) {
    Cut(before, noted, batch, ops, now, log) && MovesOut(ops, dir)
  }

  lemma StrayMovesOut(ops: seq<Op>, dir: Parts, more: seq<Op>, stray: Parts, home: Parts)
    requires MovesOut(ops, dir) && MovesIn(more, stray, home) && Folder(stray) == dir && home != dir
    ensures MovesOut(ops + more, dir)
  {
  }

  /** The audio of the folder is what it was, less the strays that left. */
  ghost predicate Gone<C>(before: map<Place, C>, now: map<Place, C>, dir: Parts, strays: set<Parts>) {
    forall q :: q != [] && Folder(q) == dir && IsAudio(FileName(q)) ==>
      && (Library(q) in now <==> Library(q) in before && q !in strays)
      && (Library(q) in now ==> now[Library(q)] == before[Library(q)])
  }

  lemma {:induction false} RunLeaves<C>(files: map<Place, C>, batch: string, ops: seq<Op>, p: Place)
    requires forall op :: op in ops ==> op.MoveTo? && Library(op.from) != p && Library(op.to) != p
    requires LegalRun(files, batch, ops)
    ensures p in Run(files, batch, ops) <==> p in files
    ensures p in files ==> Run(files, batch, ops)[p] == files[p]
  {
    if ops != [] {
      assert ops[|ops| - 1] in ops;
      RunLeaves(files, batch, ops[..|ops| - 1], p);
    }
  }

  lemma {:induction false} MovedIsGone<C>(files: map<Place, C>, batch: string, ops: seq<Op>, q: Parts)
    requires LegalRun(files, batch, ops) && WasMoved(ops, q) && !IsTarget(ops, q)
    requires forall op :: op in ops ==> op.MoveTo?
    ensures Library(q) !in Run(files, batch, ops)
  {
    var rest, last := ops[..|ops| - 1], ops[|ops| - 1];
    assert ops == rest + [last];
    assert last.to != q;
    if last.from != q {
      assert WasMoved(rest, q) && !IsTarget(rest, q);
      MovedIsGone(files, batch, rest, q);
    }
  }

  lemma StrayGone<C>(before: map<Place, C>, now: map<Place, C>, batch: string, dir: Parts, strays: set<Parts>, stray: Parts,
                     home: Parts, more: seq<Op>)
    requires Gone(before, now, dir, strays) && LegalRun(now, batch, more) && MovesIn(more, stray, home) && home != dir
    requires Folder(stray) == dir && WasMoved(more, stray)
    ensures Gone(before, Run(now, batch, more), dir, strays + {stray})
  {
    assert !IsTarget(more, stray);
    MovedIsGone(now, batch, more, stray);
    forall q | q != [] && Folder(q) == dir && IsAudio(FileName(q)) && q != stray
      ensures Library(q) in Run(now, batch, more) <==> Library(q) in now
      ensures Library(q) in now ==> Run(now, batch, more)[Library(q)] == now[Library(q)]
    {
      OtherTrackStays(now, batch, dir, stray, home, more, q);
    }
  }

  lemma OtherTrackStays<C>(now: map<Place, C>, batch: string, dir: Parts, stray: Parts, home: Parts, more: seq<Op>, q: Parts)
    requires LegalRun(now, batch, more) && MovesIn(more, stray, home) && home != dir
    requires q != [] && Folder(q) == dir && IsAudio(FileName(q)) && q != stray
    ensures Library(q) in Run(now, batch, more) <==> Library(q) in now
    ensures Library(q) in now ==> Run(now, batch, more)[Library(q)] == now[Library(q)]
  {
    RunLeaves(now, batch, more, Library(q));
  }

  lemma NothingGone<C>(files: map<Place, C>, dir: Parts)
    ensures Gone(files, files, dir, {})
  {
  }

  /** Move one stray to its album's folder, if it has one to go to. */
  method MoveOut<B>(disk: Disk<Track<B>>, dir: Parts, stray: Parts, shelves: Shelves, batch: string,
                    ghost before: map<Place, Track<B>>, ghost noted: seq<(Parts, Parts)>, ghost ops: seq<Op>, ghost gone: set<Parts>)
      returns (r: Progress, left: bool, ghost after: seq<Op>)
    requires IsLibrary(dir) && ShelvesInLibrary(shelves) && Folder(stray) == dir
    requires MovedSoFar(before, noted, batch, ops, disk.files, disk.MovesOf(batch)) && Gone(before, disk.files, dir, gone)
    requires MovesOut(ops, dir)
    modifies disk`files, disk`log
    ensures MovesOut(after, dir)
    ensures r.Unrecorded? ==> CutShort(before, noted, batch, dir, after, disk.files, disk.MovesOf(batch))
    ensures !r.Unrecorded? ==> MovedSoFar(before, noted, batch, after, disk.files, disk.MovesOf(batch))
    ensures r.Done? ==> Gone(before, disk.files, dir, if left then gone else gone + {stray})
  {
    after := ops;
    if !Readable(disk.files, stray) {
      return Done, true, after;
    }
    var id := IdAt(disk.files, stray);
    if id.album.None? || AlbumArtist(id).None? {
      return Done, true, after;
    }
    var home := HomeOf(shelves, dir, AlbumArtist(id).value, id.album.value);
    if home == dir {
      return Done, true, after;
    }
    var made: bool := *;
    if !made {
      return Refused, true, after;
    }
    ghost var now, log := disk.files, disk.MovesOf(batch);
    ghost var more;
    r, more := MoveIn(disk, stray, home, batch, None);
    left, after := false, ops + more;
    StrayMovesOut(ops, dir, more, stray, home);
    if r.Unrecorded? {
      RanThenCut(before, noted, batch, ops, now, log, more, disk.files, disk.MovesOf(batch));
    } else {
      RanMore(before, noted, batch, ops, now, log, more, disk.files, disk.MovesOf(batch));
    }
    if r.Done? {
      assert stray in MoveSet(now, stray);
      StrayGone(before, now, batch, dir, gone, stray, home, more);
    }
  }

  function SetOf(tracks: seq<Parts>): set<Parts> {
    set q | q in tracks
  }

  lemma OneMore(tracks: seq<Parts>, i: nat)
    requires i < |tracks|
    ensures SetOf(tracks[..i + 1]) == SetOf(tracks[..i]) + {tracks[i]} && tracks[i] in tracks
  {
    assert tracks[..i + 1] == tracks[..i] + [tracks[i]];
  }

  /** Move every stray out. */
  method MoveStrays<B>(disk: Disk<Track<B>>, dir: Parts, strays: seq<Parts>, shelves: Shelves, batch: string)
      returns (r: Progress, left: seq<Parts>, ghost ops: seq<Op>)
    requires IsLibrary(dir) && ShelvesInLibrary(shelves) && forall q :: q in strays ==> Folder(q) == dir
    modifies disk`files, disk`log
    ensures !r.Unrecorded? ==>
      MovedSoFar(old(disk.files), old(disk.MovesOf(batch)), batch, ops, disk.files, disk.MovesOf(batch))
    ensures MovesOut(ops, dir)
    ensures r.Unrecorded? ==>
      CutShort(old(disk.files), old(disk.MovesOf(batch)), batch, dir, ops, disk.files, disk.MovesOf(batch))
    ensures r.Done? && left == [] ==> Gone(old(disk.files), disk.files, dir, SetOf(strays))
    ensures strays == [] ==> r.Done? && left == [] && ops == [] && disk.files == old(disk.files)
  {
    ghost var before, noted := disk.files, disk.MovesOf(batch);
    RanNothing(before, noted, batch);
    NothingGone(before, dir);
    r, left, ops := Done, [], [];
    ghost var gone: set<Parts> := {};
    for i := 0 to |strays|
      invariant r.Done? && MovedSoFar(before, noted, batch, ops, disk.files, disk.MovesOf(batch)) && MovesOut(ops, dir)
      invariant Gone(before, disk.files, dir, gone) && (left == [] ==> gone == SetOf(strays[..i]))
      invariant i == 0 ==> left == [] && ops == [] && disk.files == before
    {
      var stays;
      OneMore(strays, i);
      r, stays, ops := MoveOut(disk, dir, strays[i], shelves, batch, before, noted, ops, gone);
      if !r.Done? {
        return;
      }
      if stays {
        left := left + [strays[i]];
      } else {
        gone := gone + {strays[i]};
      }
    }
    assert strays[..|strays|] == strays;
  }

  // ---- retagging members ----

  /** What the changes so far did to the disk and the batch's records. */
  ghost predicate RetaggedSoFar<B>(moved: map<Place, Track<B>>, noted: seq<Before>, changes: seq<Change>,
                                   now: map<Place, Track<B>>, records: seq<Before>) {
    CanRetagAll(moved, changes) && now == RetagAll(moved, changes) && records == noted + Records(moved, changes)
  }

  lemma RetagNext<B>(moved: map<Place, Track<B>>, noted: seq<Before>, changes: seq<Change>, now: map<Place, Track<B>>,
                     records: seq<Before>, change: Change)
    requires RetaggedSoFar(moved, noted, changes, now, records) && Readable(now, change.parts)
    ensures RetaggedSoFar(moved, noted, changes + [change], Retag(now, change),
                          records + [Before(change.parts, IdAt(now, change.parts), true)])
  {
    StaysReadable(moved, changes, change.parts);
    assert (changes + [change])[..|changes + [change]| - 1] == changes;
    assert (noted + Records(moved, changes)) + [Before(change.parts, IdAt(now, change.parts), true)] ==
      noted + (Records(moved, changes) + [Before(change.parts, IdAt(now, change.parts), true)]);
  }

  lemma NoneRetagged<B>(moved: map<Place, Track<B>>, noted: seq<Before>)
    ensures RetaggedSoFar(moved, noted, [], moved, noted)
  {
    assert noted + [] == noted;
  }

  /** Retag one member, recording its tags first. */
  method RetagOne<B>(disk: Disk<Track<B>>, notes: TagNotes, parts: Parts, look: Look, batch: string,
                     ghost moved: map<Place, Track<B>>, ghost noted: seq<Before>, ghost changes: seq<Change>)
      returns (ok: bool, ghost after: seq<Change>)
    requires RetaggedSoFar(moved, noted, changes, disk.files, notes.Of(batch))
    modifies disk`files, notes
    ensures RetaggedSoFar(moved, noted, after, disk.files, notes.Of(batch))
    ensures ok ==> Readable(old(disk.files), parts)
    ensures ok ==> var before := IdAt(old(disk.files), parts);
      disk.files == if Wanted(look, before) == before then old(disk.files) else WriteAt(old(disk.files), parts, Wanted(look, before), true)
  {
    after := changes;
    if !Readable(disk.files, parts) {
      return false, after;
    }
    var before := IdAt(disk.files, parts);
    var wanted := Wanted(look, before);
    if wanted == before {
      return true, after;
    }
    var recorded := notes.Record(batch, Before(parts, before, true));
    if !recorded {
      return false, after;
    }
    ghost var now := disk.files;
    ghost var records := noted + Records(moved, changes);
    ok := WriteTags(disk, parts, wanted, true);
    RetagNext(moved, noted, changes, now, records, Change(parts, wanted, ok));
    after := changes + [Change(parts, wanted, ok)];
  }

  /** Of the tracks listed, those before `n` say what they should, and the rest what they did. */
  ghost predicate RetaggedUpTo<B>(moved: map<Place, Track<B>>, look: Look, retag: seq<Parts>, n: nat, now: map<Place, Track<B>>) {
    && now.Keys == moved.Keys
    && (forall q :: q !in retag ==> Library(q) in now ==> now[Library(q)] == moved[Library(q)])
    && (forall k :: n <= k < |retag| ==> Library(retag[k]) in now ==> now[Library(retag[k])] == moved[Library(retag[k])])
    && (forall k :: 0 <= k < n && k < |retag| ==>
      Readable(now, retag[k]) && Readable(moved, retag[k])
      && IdAt(now, retag[k]) == Rewritten(IdAt(moved, retag[k]), Wanted(look, IdAt(moved, retag[k]))))
  }

  lemma RetaggedOneMore<B>(moved: map<Place, Track<B>>, look: Look, retag: seq<Parts>, n: nat, now: map<Place, Track<B>>)
    requires n < |retag| && InNameOrder(retag) && RetaggedUpTo(moved, look, retag, n, now) && Readable(now, retag[n])
    ensures var before := IdAt(now, retag[n]);
      Wanted(look, before) != before ==> RetaggedUpTo(moved, look, retag, n + 1, WriteAt(now, retag[n], Wanted(look, before), true))
  {
    var before := IdAt(now, retag[n]);
    WriteRewrites(now[Library(retag[n])].tags.value, Wanted(look, before));
    forall k | 0 <= k < |retag| && k != n ensures retag[k] != retag[n] {}
  }

  /** What each track listed should read as differs from what it does. */
  ghost predicate AllNeedRetag<B>(files: map<Place, Track<B>>, look: Look, retag: seq<Parts>) {
    forall q :: q in retag ==> Readable(files, q) && Wanted(look, IdAt(files, q)) != IdAt(files, q)
  }

  method RetagMembers<B>(disk: Disk<Track<B>>, notes: TagNotes, retag: seq<Parts>, look: Look, batch: string)
      returns (ok: bool, ghost changes: seq<Change>)
    requires InNameOrder(retag)
    modifies disk`files, notes
    ensures RetaggedSoFar(old(disk.files), old(notes.Of(batch)), changes, disk.files, notes.Of(batch))
    ensures ok && AllNeedRetag(old(disk.files), look, retag) ==>
      RetaggedUpTo(old(disk.files), look, retag, |retag|, disk.files)
    ensures retag == [] ==> ok && changes == [] && disk.files == old(disk.files)
  {
    ghost var moved, noted := disk.files, notes.Of(batch);
    NoneRetagged(moved, noted);
    ok, changes := true, [];
    for n := 0 to |retag|
      invariant ok && RetaggedSoFar(moved, noted, changes, disk.files, notes.Of(batch))
      invariant AllNeedRetag(moved, look, retag) ==> RetaggedUpTo(moved, look, retag, n, disk.files)
      invariant n == 0 ==> changes == [] && disk.files == moved
    {
      ghost var now := disk.files;
      ok, changes := RetagOne(disk, notes, retag[n], look, batch, moved, noted, changes);
      if !ok {
        return;
      }
      if AllNeedRetag(moved, look, retag) {
        assert retag[n] in retag;
        RetaggedOneMore(moved, look, retag, n, now);
      }
    }
  }

  // ---- the whole of it ----

  function Pick(tracks: seq<Parts>, wanted: Parts -> bool): (r: seq<Parts>)
    ensures forall q :: q in r <==> q in tracks && wanted(q)
  {
    if tracks == [] then []
    else
      var rest := Pick(tracks[1..], wanted);
      assert tracks == [tracks[0]] + tracks[1..];
      if wanted(tracks[0]) then [tracks[0]] + rest else rest
  }

  lemma {:induction false} PickInOrder(tracks: seq<Parts>, wanted: Parts -> bool)
    requires InNameOrder(tracks)
    ensures InNameOrder(Pick(tracks, wanted))
  {
    if tracks != [] {
      var rest := Pick(tracks[1..], wanted);
      PickInOrder(tracks[1..], wanted);
      forall i | 0 <= i < |rest| ensures tracks[0] != rest[i] && NamedBefore(tracks[0], rest[i]) {
        assert rest[i] in rest;
        var j :| 0 <= j < |tracks[1..]| && tracks[1..][j] == rest[i];
        assert tracks[j + 1] == rest[i];
      }
    }
  }

  predicate Belongs<B>(files: map<Place, Track<B>>, main: string, key: Keying, q: Parts) {
    Readable(files, q) && IsMember(main, key, IdAt(files, q))
  }

  lemma IdsNext<B>(files: map<Place, Track<B>>, first: Parts, rest: seq<Parts>)
    requires Readable(files, first) && forall q :: q in rest ==> Readable(files, q)
    ensures Ids(files, [first] + rest) == [IdAt(files, first)] + Ids(files, rest)
  {
  }

  /** The members' tracks say what the members do, in the same order. */
  lemma {:induction false} MembersPicked<B>(files: map<Place, Track<B>>, tracks: seq<Parts>, main: string, key: Keying,
                                            belongs: Parts -> bool)
    requires forall q :: q in tracks ==> Readable(files, q) && (belongs(q) <==> IsMember(main, key, IdAt(files, q)))
    ensures Ids(files, Pick(tracks, belongs)) == Members(Ids(files, tracks), main, key)
  {
    if tracks != [] {
      var first, rest := tracks[0], tracks[1..];
      assert tracks == [first] + rest;
      MembersPicked(files, rest, main, key, belongs);
      IdsNext(files, first, rest);
      if belongs(first) {
        IdsNext(files, first, Pick(rest, belongs));
      }
    }
  }

  lemma TidiedListing<B>(before: map<Place, Track<B>>, moved: map<Place, Track<B>>, now: map<Place, Track<B>>, dir: Parts,
                         tracks: seq<Parts>, members: seq<Parts>, strays: seq<Parts>, retag: seq<Parts>, look: Look)
    requires IsListing(before, dir, tracks) && Gone(before, moved, dir, SetOf(strays)) && InNameOrder(members)
    requires forall q :: q in tracks <==> q in members || q in strays
    requires (forall q :: q in members ==> q !in strays)
    requires forall q :: q in retag <==> q in members && Readable(before, q) && Disagrees(look, IdAt(before, q))
    requires RetaggedUpTo(moved, look, retag, |retag|, now)
    ensures IsListing(now, dir, members)
    ensures forall q :: q in members ==> Readable(before, q) && IdAt(now, q) == Retagged(look, IdAt(before, q))
  {
    forall q | q != [] && Folder(q) == dir && IsAudio(FileName(q))
      ensures Readable(now, q) <==> q in members
      ensures q in members ==> Readable(before, q) && IdAt(now, q) == Retagged(look, IdAt(before, q))
    {
      assert q in tracks <==> IsTrackIn(before, dir, q);
      assert Library(q) in now <==> Library(q) in moved;
      if q in retag {
        var k :| 0 <= k < |retag| && retag[k] == q;
      }
    }
    forall q | q in members ensures IsTrackIn(before, dir, q) {
      assert q in tracks;
    }
  }

  /** Everything a tidied folder's undo needs. */
  ghost predicate TidyRan<B>(before: map<Place, Track<B>>, noted: seq<(Parts, Parts)>, recorded: seq<Before>, batch: string,
                             ops: seq<Op>, moved: map<Place, Track<B>>, changes: seq<Change>, now: map<Place, Track<B>>,
                             log: seq<(Parts, Parts)>, records: seq<Before>) {
    MovedSoFar(before, noted, batch, ops, moved, log) && RetaggedSoFar(moved, recorded, changes, now, records)
  }

  /** However a tidying ended, noted or not, no file is lost. */
  lemma TidyKeepsFiles<B>(before: map<Place, Track<B>>, noted: seq<(Parts, Parts)>, recorded: seq<Before>, batch: string, dir: Parts,
                          ops: seq<Op>, moved: map<Place, Track<B>>, changes: seq<Change>, now: map<Place, Track<B>>,
                          log: seq<(Parts, Parts)>, records: seq<Before>)
    requires TidyRan(before, noted, recorded, batch, ops, moved, changes, now, log, records) ||
             CutShort(before, noted, batch, dir, ops, now, log)
    ensures EveryFileKept(Bodies(before), Bodies(now))
  {
    RunSees(before, batch, ops, Body);
    MovesKeepFiles(Bodies(before), batch, ops);
    if TidyRan(before, noted, recorded, batch, ops, moved, changes, now, log, records) {
      RetagsKeepBodies(moved, changes);
    }
  }

  /** The tracks of `dir`, and the ids it has after tidying. */
  ghost predicate FolderTidied<B>(before: map<Place, Track<B>>, tracks: seq<Parts>, dir: Parts, key: Keying,
                                  now: map<Place, Track<B>>, members: seq<Parts>) {
    && IsListing(before, dir, tracks) && IsListing(now, dir, members)
    && Ids(now, members) == Tidied(FileName(dir), key, Ids(before, tracks))
  }

  lemma MembersNeedRetag<B>(folder: string, key: Keying, files: map<Place, Track<B>>, tracks: seq<Parts>, q: Parts)
    requires (forall t :: t in tracks ==> Readable(files, t)) && q in tracks
    requires var ids := Ids(files, tracks);
      IsMember(MainKeyOf(folder, key, ids), key, IdAt(files, q)) && Disagrees(LookAt(folder, key, ids), IdAt(files, q))
    ensures var look := LookAt(folder, key, Ids(files, tracks)); Wanted(look, IdAt(files, q)) != IdAt(files, q)
  {
    var ids := Ids(files, tracks);
    var members := Members(ids, MainKeyOf(folder, key, ids), key);
    var i :| 0 <= i < |tracks| && tracks[i] == q;
    assert ids[i] in ids && ids[i] in members;
    FieldOf(members, ARTIST, IdAt(files, q));
    RetaggingChanges(LookAt(folder, key, ids), IdAt(files, q));
  }

  lemma FolderIsTidied<B>(before: map<Place, Track<B>>, moved: map<Place, Track<B>>, now: map<Place, Track<B>>, dir: Parts,
                          key: Keying, tracks: seq<Parts>, members: seq<Parts>, strays: seq<Parts>, retag: seq<Parts>,
                          belongs: Parts -> bool)
    requires IsListing(before, dir, tracks) && Gone(before, moved, dir, SetOf(strays))
    requires var ids := Ids(before, tracks);
      forall q :: q in tracks ==> (belongs(q) <==> IsMember(MainKeyOf(FileName(dir), key, ids), key, IdAt(before, q)))
    requires members == Pick(tracks, belongs)
    requires forall q :: q in strays <==> q in tracks && !belongs(q)
    requires var look := LookAt(FileName(dir), key, Ids(before, tracks));
      && (forall q :: q in retag <==> q in members && Readable(before, q) && Disagrees(look, IdAt(before, q)))
      && RetaggedUpTo(moved, look, retag, |retag|, now)
    ensures FolderTidied(before, tracks, dir, key, now, members)
  {
    var ids := Ids(before, tracks);
    var look := LookAt(FileName(dir), key, ids);
    PickInOrder(tracks, belongs);
    TidiedListing(before, moved, now, dir, tracks, members, strays, retag, look);
    MembersPicked(before, tracks, MainKeyOf(FileName(dir), key, ids), key, belongs);
    SameIds(before, now, members, look);
  }

  lemma SameIds<B>(before: map<Place, Track<B>>, now: map<Place, Track<B>>, members: seq<Parts>, look: Look)
    requires forall q :: q in members ==> Readable(before, q) && Readable(now, q) && IdAt(now, q) == Retagged(look, IdAt(before, q))
    ensures Ids(now, members) == RetaggedAll(look, Ids(before, members))
  {
    forall i | 0 <= i < |members| ensures Ids(now, members)[i] == RetaggedAll(look, Ids(before, members))[i] {
      assert members[i] in members;
    }
  }

  lemma SettledHasNone<B>(files: map<Place, Track<B>>, tracks: seq<Parts>, folder: string, key: Keying)
    requires (forall q :: q in tracks ==> Readable(files, q)) && Settled(folder, key, Ids(files, tracks))
    ensures var ids := Ids(files, tracks);
      forall q :: q in tracks ==>
        IsMember(MainKeyOf(folder, key, ids), key, IdAt(files, q)) && !Disagrees(LookAt(folder, key, ids), IdAt(files, q))
  {
    forall i | 0 <= i < |tracks| ensures Ids(files, tracks)[i] in Ids(files, tracks) {}
  }

  lemma StillNeedRetag<B>(before: map<Place, Track<B>>, moved: map<Place, Track<B>>, dir: Parts, strays: set<Parts>,
                          folder: string, key: Keying, tracks: seq<Parts>, retag: seq<Parts>)
    requires IsListing(before, dir, tracks) && Gone(before, moved, dir, strays)
    requires var ids := Ids(before, tracks);
      forall q :: q in retag ==>
        && q in tracks && q !in strays && IsMember(MainKeyOf(folder, key, ids), key, IdAt(before, q))
        && Disagrees(LookAt(folder, key, ids), IdAt(before, q))
    ensures AllNeedRetag(moved, LookAt(folder, key, Ids(before, tracks)), retag)
  {
    forall q | q in retag
      ensures Readable(moved, q) && Wanted(LookAt(folder, key, Ids(before, tracks)), IdAt(moved, q)) != IdAt(moved, q)
    {
      MembersNeedRetag(folder, key, before, tracks, q);
      assert IsTrackIn(before, dir, q);
    }
  }

  /** Move the strays out, then retag. */
  method TidyUp<B>(disk: Disk<Track<B>>, notes: TagNotes, dir: Parts, strays: seq<Parts>, retag: seq<Parts>, look: Look,
                   shelves: Shelves, batch: string)
      returns (r: Progress, left: seq<Parts>, ghost ops: seq<Op>, ghost moved: map<Place, Track<B>>, ghost changes: seq<Change>)
    requires IsLibrary(dir) && ShelvesInLibrary(shelves) && InNameOrder(retag) && forall q :: q in strays ==> Folder(q) == dir
    modifies disk`files, disk`log, notes
    ensures !r.Unrecorded? ==>
      TidyRan(old(disk.files), old(disk.MovesOf(batch)), old(notes.Of(batch)), batch, ops, moved, changes, disk.files,
              disk.MovesOf(batch), notes.Of(batch))
    ensures r.Unrecorded? ==> notes.Of(batch) == old(notes.Of(batch))
    ensures r.Unrecorded? ==>
      CutShort(old(disk.files), old(disk.MovesOf(batch)), batch, dir, ops, disk.files, disk.MovesOf(batch))
    ensures MovesOut(ops, dir)
    ensures r.Done? && left == [] ==> Gone(old(disk.files), moved, dir, SetOf(strays))
    ensures r.Done? && AllNeedRetag(moved, look, retag) ==> RetaggedUpTo(moved, look, retag, |retag|, disk.files)
    ensures strays == [] && retag == [] ==> r.Done? && left == [] && ops == [] && changes == [] && disk.files == old(disk.files)
  {
    ghost var recorded := notes.Of(batch);
    r, left, ops := MoveStrays(disk, dir, strays, shelves, batch);
    moved, changes := disk.files, [];
    NoneRetagged(moved, recorded);
    if r.Done? {
      var ok;
      ok, changes := RetagMembers(disk, notes, retag, look, batch);
      r := if ok then Done else Refused;
    }
  }

  /** One tidying: strays out, members retagged. */
  method Tidy<B>(disk: Disk<Track<B>>, notes: TagNotes, dir: Parts, key: Keying, shelves: Shelves, batch: string)
      returns (r: Progress, left: seq<Parts>, ghost tracks: seq<Parts>, ghost members: seq<Parts>, ghost ops: seq<Op>,
               ghost moved: map<Place, Track<B>>, ghost changes: seq<Change>)
    requires IsLibrary(dir) && ShelvesInLibrary(shelves)
    modifies disk`files, disk`log, notes
    ensures !r.Unrecorded? ==>
      TidyRan(old(disk.files), old(disk.MovesOf(batch)), old(notes.Of(batch)), batch, ops, moved, changes, disk.files,
              disk.MovesOf(batch), notes.Of(batch))
    ensures r.Unrecorded? ==> notes.Of(batch) == old(notes.Of(batch))
    ensures r.Unrecorded? ==>
      CutShort(old(disk.files), old(disk.MovesOf(batch)), batch, dir, ops, disk.files, disk.MovesOf(batch))
    ensures IsListing(old(disk.files), dir, tracks)
    ensures r.Done? && left == [] ==> FolderTidied(old(disk.files), tracks, dir, key, disk.files, members)
    ensures Settled(FileName(dir), key, Ids(old(disk.files), tracks)) ==>
      r.Done? && left == [] && ops == [] && changes == [] && disk.files == old(disk.files)
  {
    var files := disk.files;
    var listed := List(files, dir);
    var ids := Ids(files, listed);
    var main, look := MainKeyOf(FileName(dir), key, ids), LookAt(FileName(dir), key, ids);
    var strays := Pick(listed, q => Readable(files, q) && !Belongs(files, main, key, q));
    var belongs := q => Belongs(files, main, key, q);
    var retag := Pick(Pick(listed, belongs), q => Readable(files, q) && Disagrees(look, IdAt(files, q)));
    tracks, members := listed, Pick(listed, belongs);
    PickInOrder(listed, belongs);
    PickInOrder(members, q => Readable(files, q) && Disagrees(look, IdAt(files, q)));
    if Settled(FileName(dir), key, ids) {
      SettledHasNone(files, listed, FileName(dir), key);
      NoneListed(strays);
      NoneListed(retag);
    }
    r, left, ops, moved, changes := TidyUp(disk, notes, dir, strays, retag, look, shelves, batch);
    if r.Done? && left == [] {
      StillNeedRetag(files, moved, dir, SetOf(strays), FileName(dir), key, listed, retag);
      FolderIsTidied(files, moved, disk.files, dir, key, listed, members, strays, retag, belongs);
    }
  }

  /** Tidying the folder again finds nothing to do if and only if the album's name isn't
      blank and the album artist that was chosen survives being written and read. */
  lemma SecondTidyIff<B>(before: map<Place, Track<B>>, tracks: seq<Parts>, dir: Parts, key: Keying, now: map<Place, Track<B>>,
                         members: seq<Parts>, again: seq<Parts>)
    requires FolderTidied(before, tracks, dir, key, now, members) && IsListing(now, dir, again) && tracks != []
    ensures var ids, folder := Ids(before, tracks), FileName(dir);
      Settled(folder, key, Ids(now, again)) <==>
        Trim(LookAt(folder, key, ids).album) != "" &&
        ArtistKept(LookAt(folder, key, ids), Members(ids, MainKeyOf(folder, key, ids), key))
  {
    OneOrder(members, again);
    TidySettlesIff(FileName(dir), key, Ids(before, tracks));
  }
}
