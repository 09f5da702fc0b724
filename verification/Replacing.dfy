/** What an import does with the files its tracks replace (`crates/delune-library/src/import.rs`): they
    are put in its batch, one name after the other, ahead of the arrivals. */
module Replacing {
  import opened Text
  import opened Paths
  import opened Relocation
  import opened Batches
  import opened Trash
  import opened Plans

  /** `q` is `parts`, or would go with it: a namesake that isn't audio. */
  predicate GoesWith(parts: Parts, q: Parts) {
    q == parts || (q != [] && Folder(q) == Folder(parts) && Stem(FileName(q)) == Stem(FileName(parts)) && !IsAudio(FileName(q)))
  }

  /** The library's copies that arriving tracks replace. */
  function ReplacedFiles(tracks: seq<PlannedFile>): seq<string> {
    if tracks == [] then []
    else
      (if !tracks[0].skip && tracks[0].replaced.Some? then [tracks[0].replaced.value] else []) + ReplacedFiles(tracks[1..])
  }

  predicate GoesWithReplaced(names: seq<string>, q: Parts) {
    exists name :: name in names && GoesWith(PlaceOf(name).parts, q)
  }

  /** Where they are safe, the names are of library files that don't look like a batch's notes. */
  predicate AreReplaceable(names: seq<string>) {
    forall name :: name in names && Resolve(name).Some? ==>
      IsLibrary(Resolve(name).value) && !IsRecord(Resolve(name).value)
  }

  /** The first `n` names are plain paths below the library. */
  predicate AreSafe(names: seq<string>, n: nat)
    requires n <= |names|
  {
    forall k :: 0 <= k < n ==> Resolve(names[k]).Some?
  }

  /** The first name that isn't. */
  function FirstUnsafe(names: seq<string>): (k: Option<nat>)
    ensures k.Some? ==> k.value < |names| && AreSafe(names, k.value) && Resolve(names[k.value]).None?
    ensures k.None? ==> AreSafe(names, |names|)
  {
    if names == [] then None
    else if Resolve(names[0]).None? then Some(0)
    else
      var k := FirstUnsafe(names[1..]);
      if k.Some? then Some(k.value + 1) else None
  }

  lemma FirstUnsafeIs(names: seq<string>, k: nat)
    requires k <= |names| && AreSafe(names, k)
    ensures k < |names| && Resolve(names[k]).None? ==> FirstUnsafe(names) == Some(k)
    ensures k == |names| ==> FirstUnsafe(names).None?
  {
  }

  /** Only what looks like a batch's note has companions that do. */
  lemma NotesGoTogether(parts: Parts, q: Parts)
    requires GoesWith(parts, q) && IsRecord(q)
    ensures IsRecord(parts)
  {
    StemKeepsPrefix(q[0]);
    assert ".delune-" <= Stem(FileName(q)) == Stem(FileName(parts)) <= FileName(parts);
  }

  lemma StemKeepsPrefix(name: string)
    requires ".delune-" <= name
    ensures ".delune-" <= Stem(name)
  {
    var dot := LastDot(name);
    forall i | 0 < i < 8
      ensures i < |name| && name[i] != '.'
    {
      assert name[i] == name[..8][i] == ".delune-"[i];
    }
  }

  /** Puts only, of replaced files and what goes with them. */
  ghost predicate PutsFor(ops: seq<Op>, names: seq<string>) {
    forall op :: op in ops ==> op.PutAway? && GoesWithReplaced(names, op.parts)
  }

  lemma PutsForMore<C>(files: map<Place, C>, ops: seq<Op>, more: seq<Op>, names: seq<string>, name: string)
    requires PutsFor(ops, names) && name in names && PlaceOf(name).parts != []
    requires PutsOf(more, PutSet(files, PlaceOf(name).parts))
    ensures PutsFor(ops + more, names)
  {
  }

  lemma PutsAreNoNotes(ops: seq<Op>, names: seq<string>)
    requires PutsFor(ops, names) && AreReplaceable(names)
    ensures NoRecords(ops)
  {
    forall op | op in ops ensures !IsRecord(op.parts) {
      var name :| name in names && GoesWith(PlaceOf(name).parts, op.parts);
      if IsRecord(op.parts) {
        NotesGoTogether(PlaceOf(name).parts, op.parts);
      }
    }
  }

  /** A batch that only put files away is undone exactly. */
  lemma PutsUndone<C>(before: map<Place, C>, batch: string, ops: seq<Op>, names: seq<string>)
    requires FreshBatch(before, batch) && LegalRun(before, batch, ops) && PutsFor(ops, names) && AreReplaceable(names)
    ensures InGoodOrder(Run(before, batch, ops), batch, [])
    ensures Restored(Run(before, batch, ops), batch, []) == Outcome(before, {})
    ensures PutAside(before, batch, ops, Run(before, batch, ops))
  {
    NoMoves(ops);
    PutsAreNoNotes(ops, names);
    PutsAlone(before, batch, ops);
    UndoIsExact(before, batch, ops);
    var now := Run(before, batch, ops);
    forall p | p in now && InBatch(p, batch) ensures !IsRecord(Inside(p)) && IsLibrary(Inside(p)) {
      assert IsKept(ops, batch, p);
    }
  }

  /** What is gone from the library proper stays gone while files are only put away. */
  lemma {:induction false} GoneStaysGone<C>(before: map<Place, C>, batch: string, ops: seq<Op>, p: Place)
    requires (forall op :: op in ops ==> op.PutAway?) && p !in before && !InBatch(p, batch) && LegalRun(before, batch, ops)
    ensures p !in Run(before, batch, ops)
  {
    if ops != [] {
      assert ops[|ops| - 1] in ops;
      GoneStaysGone(before, batch, ops[..|ops| - 1], p);
      KeptInside({}, batch);
    }
  }

  /** Of the first `n` names none is left in the library, and nothing else changed: without a
      file under any of them nothing did. */
  ghost predicate Trashed<C>(before: map<Place, C>, batch: string, names: seq<string>, n: nat, ops: seq<Op>, now: map<Place, C>)
    requires n <= |names|
  {
    && PutSoFar(before, batch, names, ops, now) && AreSafe(names, n)
    && (NoneThere(names, n, before) ==> ops == [])
    && (FreshBatch(before, batch) && AreReplaceable(names) ==> NoneThere(names, n, now))
  }

  predicate NoneThere<C>(names: seq<string>, n: nat, files: map<Place, C>)
    requires n <= |names|
  {
    forall k :: 0 <= k < n ==> PlaceOf(names[k]) !in files
  }

  /** The puts so far are undone by putting the batch back. */
  ghost predicate PutSoFar<C>(before: map<Place, C>, batch: string, names: seq<string>, ops: seq<Op>, now: map<Place, C>) {
    LegalRun(before, batch, ops) && now == Run(before, batch, ops) && PutsFor(ops, names)
  }

  lemma PutSoFarMore<C>(before: map<Place, C>, batch: string, names: seq<string>, ops: seq<Op>, now: map<Place, C>, more: seq<Op>,
                        name: string)
    requires PutSoFar(before, batch, names, ops, now) && LegalRun(now, batch, more)
    requires name in names && PlaceOf(name).parts != [] && PutsOf(more, PutSet(now, PlaceOf(name).parts))
    ensures PutSoFar(before, batch, names, ops + more, Run(now, batch, more))
  {
    RunInTwo(before, batch, ops, more);
    PutsForMore(now, ops, more, names, name);
  }

  lemma TrashedMore<C>(before: map<Place, C>, batch: string, names: seq<string>, n: nat, ops: seq<Op>, now: map<Place, C>,
                       more: seq<Op>)
    requires n < |names| && Trashed(before, batch, names, n, ops, now)
    requires LegalRun(now, batch, more) && Resolve(names[n]).Some?
    requires PutsOf(more, PutSet(now, PlaceOf(names[n]).parts))
    requires PutAway(PlaceOf(names[n]).parts) in more && PlaceOf(names[n]) in now
    requires PutSoFar(before, batch, names, ops + more, Run(now, batch, more))
    ensures Trashed(before, batch, names, n + 1, ops + more, Run(now, batch, more))
  {
    SomethingThere(before, batch, names, n, ops, now);
    if FreshBatch(before, batch) && AreReplaceable(names) {
      NamesGone(now, batch, more, names, n);
    }
  }

  lemma SomethingThere<C>(before: map<Place, C>, batch: string, names: seq<string>, n: nat, ops: seq<Op>, now: map<Place, C>)
    requires n < |names| && Trashed(before, batch, names, n, ops, now) && PlaceOf(names[n]) in now
    ensures !NoneThere(names, n + 1, before)
  {
    if NoneThere(names, n, before) {
      assert now == before && PlaceOf(names[n]) in before;
    }
  }

  lemma TrashedAbsent<C>(before: map<Place, C>, batch: string, names: seq<string>, n: nat, ops: seq<Op>, now: map<Place, C>)
    requires n < |names| && Trashed(before, batch, names, n, ops, now)
    requires Resolve(names[n]).Some? && PlaceOf(names[n]) !in now
    ensures Trashed(before, batch, names, n + 1, ops, now)
  {
  }

  // ---- when the trashing stops at an unsafe name ----

  /** Each copy there was under the first `n` names is in the batch, and only there. */
  ghost predicate Stranded<C>(before: map<Place, C>, batch: string, names: seq<string>, n: nat, now: map<Place, C>)
    requires n <= |names|
  {
    forall k :: 0 <= k < n && PlaceOf(names[k]) in before ==>
      PlaceOf(names[k]) !in now
      && Kept(batch, PlaceOf(names[k]).parts) in now && now[Kept(batch, PlaceOf(names[k]).parts)] == before[PlaceOf(names[k])]
  }

  /** Stopping after `n` names leaves the copies it has come to in the trash, and is without
      effect if and only if there were none. */
  lemma StoppedIff<C>(before: map<Place, C>, batch: string, names: seq<string>, n: nat, ops: seq<Op>, now: map<Place, C>)
    requires n <= |names| && FreshBatch(before, batch) && AreReplaceable(names) && Trashed(before, batch, names, n, ops, now)
    ensures Stranded(before, batch, names, n, now) && EveryFileKept(before, now)
    ensures now == before <==> NoneThere(names, n, before)
  {
    PutsUndone(before, batch, ops, names);
    forall k | 0 <= k < n && PlaceOf(names[k]) in before
      ensures Kept(batch, PlaceOf(names[k]).parts) in now && now[Kept(batch, PlaceOf(names[k]).parts)] == before[PlaceOf(names[k])]
    {
      assert WasPut(ops, PlaceOf(names[k]));
      assert PutAway(PlaceOf(names[k]).parts) in ops;
      KeptInside({}, batch);
      assert IsKept(ops, batch, Kept(batch, PlaceOf(names[k]).parts));
    }
    PutOnlyOnce(before, batch, ops);
    var j := NothingDeleted(before, batch, ops);
  }

  /** A file that was put away is gone, so it isn't put away again. */
  lemma {:induction false} PutOnlyOnce<C>(files: map<Place, C>, batch: string, puts: seq<Op>)
    requires LegalRun(files, batch, puts) && forall op :: op in puts ==> op.PutAway?
    ensures PutsOnce(puts)
  {
    NoMoves(puts);
    SettledPutsOnce(files, batch, puts);
  }

  const COPY: Parts := ["a", "x.flac"]

  /** Two copies to replace, the second under an unsafe name. */
  const STRANDING: seq<PlannedFile> :=
    [PlannedFile("1.flac", "a/1.flac", Some("a/x.flac"), false), PlannedFile("2.flac", "a/2.flac", Some("../x.flac"), false)]

  lemma CopyResolves()
    ensures Resolve("a/x.flac") == Some(COPY)
  {
    assert COPY[1..] == ["x.flac"];
    assert Join(COPY, "/") == "a/x.flac";
    ResolveJoin(COPY);
  }

  lemma NoWayUp()
    ensures Resolve("../x.flac").None?
  {
    var up := ["..", "x.flac"];
    assert up[1..] == ["x.flac"];
    assert Join(up, "/") == "../x.flac";
    SplitJoin(up, '/');
    assert up[0] in Split("../x.flac", '/');
  }

  lemma StrandingNames()
    ensures ReplacedFiles(STRANDING) == ["a/x.flac", "../x.flac"]
  {
    assert STRANDING[1..] == [STRANDING[1]] && STRANDING[1..][1..] == [];
  }

  lemma OneSafeName(names: seq<string>, parts: Parts)
    requires |names| == 2 && Resolve(names[0]) == Some(parts) && Resolve(names[1]).None?
    ensures FirstUnsafe(names) == Some(1)
    ensures IsLibrary(parts) && !IsRecord(parts) ==> AreReplaceable(names)
  {
    FirstUnsafeIs(names, 1);
    if IsLibrary(parts) && !IsRecord(parts) {
      OneReplaceable(names, parts);
    }
  }

  lemma OneReplaceable(names: seq<string>, parts: Parts)
    requires |names| == 2 && Resolve(names[0]) == Some(parts) && Resolve(names[1]).None? && IsLibrary(parts) && !IsRecord(parts)
    ensures AreReplaceable(names)
  {
    forall name | name in names && Resolve(name).Some? ensures IsLibrary(Resolve(name).value) && !IsRecord(Resolve(name).value) {
      assert name == names[0];
    }
  }

  /** With two names, the first a file's and the second unsafe, the first file stays in the
      trash, and that state can be reached. */
  lemma UnsafeNameStrandsCopy<C>(before: map<Place, C>, batch: string, names: seq<string>, parts: Parts, ops: seq<Op>, now: map<Place, C>)
    requires |names| == 2 && Resolve(names[0]) == Some(parts) && Resolve(names[1]).None?
    requires IsLibrary(parts) && !IsRecord(parts) && Library(parts) in before && FreshBatch(before, batch)
    ensures Trashed(before, batch, names, 1, ops, now) ==> now != before && Stranded(before, batch, names, 1, now)
    ensures Trashed(before, batch, names, 1, [PutAway(parts)], Run(before, batch, [PutAway(parts)]))
  {
    OneSafeName(names, parts);
    if Trashed(before, batch, names, 1, ops, now) {
      StoppedIff(before, batch, names, 1, ops, now);
    }
    CanStopThere(before, batch, names, parts);
  }

  lemma CanStopThere<C>(before: map<Place, C>, batch: string, names: seq<string>, parts: Parts)
    requires |names| == 2 && Resolve(names[0]) == Some(parts) && IsLibrary(parts) && Library(parts) in before
    ensures Trashed(before, batch, names, 1, [PutAway(parts)], Run(before, batch, [PutAway(parts)]))
  {
    RunMore(before, batch, [], PutAway(parts));
    assert [] + [PutAway(parts)] == [PutAway(parts)];
    assert names[0] in names && GoesWithReplaced(names, parts);
    AfterPuts(before, batch, [PutAway(parts)], parts);
  }

  /** A plan with such names. */
  lemma StrandingFits()
    ensures var names := ReplacedFiles(STRANDING);
      |names| == 2 && Resolve(names[0]) == Some(COPY) && Resolve(names[1]).None? && FirstUnsafe(names) == Some(1)
    ensures IsLibrary(COPY) && !IsRecord(COPY)
  {
    StrandingNames();
    CopyResolves();
    NoWayUp();
    OneSafeName(ReplacedFiles(STRANDING), COPY);
  }

  /** One replaced copy, when it is there, goes to the trash. */
  method TrashOne<C>(disk: Disk<C>, batch: string, name: string) returns (r: Result<bool, ImportError>, ghost more: seq<Op>)
    modifies disk`files
    ensures LegalRun(old(disk.files), batch, more) && disk.files == Run(old(disk.files), batch, more)
    ensures PlaceOf(name).parts != [] ==> PutsOf(more, PutSet(old(disk.files), PlaceOf(name).parts))
    ensures PlaceOf(name).parts == [] ==> more == []
    ensures r.Ok? ==> Resolve(name).Some?
    ensures r.Ok? && r.value ==> PlaceOf(name) in old(disk.files) && PutAway(PlaceOf(name).parts) in more
    ensures r.Ok? && !r.value ==> PlaceOf(name) !in old(disk.files) && more == []
    ensures r.Err? ==> r.error == if Resolve(name).None? then UnsafeDestination(name) else Io
    ensures Resolve(name).None? ==> r.Err? && more == []
  {
    var path := Resolve(name);
    if path.None? {
      return Err(UnsafeDestination(name)), [];
    }
    if !Occupied(disk.files, path.value) {
      NotThere(disk.files, name);
      return Ok(false), [];
    }
    var put: bool;
    put, more := Put(disk, path.value, batch);
    r := if put then Ok(true) else Err(Io);
  }

  lemma NotThere<C>(files: map<Place, C>, name: string)
    requires Resolve(name).Some? && !Occupied(files, Resolve(name).value)
    ensures PlaceOf(name) !in files
  {
  }

  /** Bring a batch of puts back to the library. */
  method UndoTrash<C>(disk: Disk<C>, batch: string, ghost before: map<Place, C>, ghost names: seq<string>, ghost ops: seq<Op>)
    requires PutSoFar(before, batch, names, ops, disk.files)
    modifies disk
    ensures old(disk.stuck) <= disk.stuck
    ensures FreshBatch(before, batch) && AreReplaceable(names) && old(disk.MovesOf(batch)) == [] && disk.stuck == old(disk.stuck) ==>
      disk.files == before
  {
    if FreshBatch(before, batch) && AreReplaceable(names) {
      PutsUndone(before, batch, ops, names);
    }
    var _, _ := Restore(disk, batch);
  }

  /** Move the replaced copies into the batch. When one can't be moved, those that moved are
      put back; at an unsafe name they are not. Whether anything moved. */
  method TrashReplaced<C>(disk: Disk<C>, tracks: seq<PlannedFile>, batch: string)
      returns (r: Result<bool, ImportError>, ghost ops: seq<Op>)
    modifies disk
    ensures old(disk.stuck) <= disk.stuck
    ensures r.Ok? ==> disk.stuck == old(disk.stuck) && disk.log == old(disk.log) && (!r.value ==> ops == [])
    ensures r.Ok? ==> FirstUnsafe(ReplacedFiles(tracks)).None?
    ensures r.Ok? ==>
      Trashed(old(disk.files), batch, ReplacedFiles(tracks), |ReplacedFiles(tracks)|, ops, disk.files)
    ensures r.Err? && r.error != Io ==>
      disk.stuck == old(disk.stuck) && StoppedAtUnsafe(old(disk.files), batch, ReplacedFiles(tracks), r.error, ops, disk.files)
    ensures FreshBatch(old(disk.files), batch) && AreReplaceable(ReplacedFiles(tracks)) && old(disk.MovesOf(batch)) == [] ==>
      r == Err(Io) && disk.stuck == old(disk.stuck) ==> disk.files == old(disk.files)
  {
    r, ops := TrashNames(disk, ReplacedFiles(tracks), batch);
  }

  /** The names before the first unsafe one have been dealt with, and stay so. */
  ghost predicate StoppedAtUnsafe<C>(before: map<Place, C>, batch: string, names: seq<string>, error: ImportError, ops: seq<Op>,
                                     now: map<Place, C>) {
    var k := FirstUnsafe(names);
    k.Some? && error == UnsafeDestination(names[k.value]) && Trashed(before, batch, names, k.value, ops, now)
  }

  /** The next name, after the first `i`. */
  method TrashNext<C>(disk: Disk<C>, names: seq<string>, i: nat, batch: string, trashed: bool, ghost before: map<Place, C>,
                      ghost start: seq<Op>, ghost fit: bool)
      returns (error: Option<ImportError>, any: bool, ghost ops: seq<Op>)
    requires i < |names| && Trashed(before, batch, names, i, start, disk.files) && (!trashed ==> start == [])
    requires fit ==> FreshBatch(before, batch) && AreReplaceable(names) && disk.MovesOf(batch) == []
    modifies disk
    ensures old(disk.stuck) <= disk.stuck
    ensures error != Some(Io) ==> disk.stuck == old(disk.stuck) && disk.log == old(disk.log)
    ensures error.None? ==>
      Resolve(names[i]).Some? && Trashed(before, batch, names, i + 1, ops, disk.files) && (!any ==> ops == [])
    ensures error.Some? && error.value != Io ==>
      Resolve(names[i]).None? && error.value == UnsafeDestination(names[i]) && ops == start && disk.files == old(disk.files)
    ensures fit && error == Some(Io) && disk.stuck == old(disk.stuck) ==> disk.files == before
  {
    ghost var now := disk.files;
    error, any, ops := None, trashed, start;
    var one, more := TrashOne(disk, batch, names[i]);
    if one.Ok? && !one.value {
      TrashedAbsent(before, batch, names, i, ops, now);
    } else if Resolve(names[i]).None? {
      error := Some(one.error);
    } else {
      PutSoFarMore(before, batch, names, ops, now, more, names[i]);
      ops, any := ops + more, true;
      if one.Ok? {
        TrashedMore(before, batch, names, i, start, now, more);
      } else {
        UndoTrash(disk, batch, before, names, ops);
        error := Some(one.error);
      }
    }
  }

  /** One name after the other, until one can't be dealt with. */
  method TrashEach<C>(disk: Disk<C>, names: seq<string>, batch: string, ghost fit: bool)
      returns (error: Option<ImportError>, any: bool, ghost k: nat, ghost ops: seq<Op>)
    requires fit ==> FreshBatch(disk.files, batch) && AreReplaceable(names) && disk.MovesOf(batch) == []
    modifies disk
    ensures old(disk.stuck) <= disk.stuck && k <= |names|
    ensures error != Some(Io) ==>
      disk.stuck == old(disk.stuck) && disk.log == old(disk.log) && Trashed(old(disk.files), batch, names, k, ops, disk.files)
    ensures error.None? ==> k == |names| && (!any ==> ops == [])
    ensures error.Some? && error.value != Io ==>
      k < |names| && Resolve(names[k]).None? && error.value == UnsafeDestination(names[k])
    ensures fit && error == Some(Io) && disk.stuck == old(disk.stuck) ==> disk.files == old(disk.files)
  {
    ghost var before := disk.files;
    any, k, ops := false, 0, [];
    for i := 0 to |names|
      invariant k == i && disk.stuck == old(disk.stuck) && disk.log == old(disk.log)
      invariant Trashed(before, batch, names, k, ops, disk.files) && (!any ==> ops == [])
    {
      error, any, ops := TrashNext(disk, names, i, batch, any, before, ops, fit);
      if error.Some? {
        return;
      }
      k := k + 1;
    }
    error := None;
  }

  method TrashNames<C>(disk: Disk<C>, names: seq<string>, batch: string) returns (r: Result<bool, ImportError>, ghost ops: seq<Op>)
    modifies disk
    ensures old(disk.stuck) <= disk.stuck
    ensures r.Ok? ==> disk.stuck == old(disk.stuck) && disk.log == old(disk.log) && (!r.value ==> ops == [])
    ensures r.Ok? ==> FirstUnsafe(names).None? && Trashed(old(disk.files), batch, names, |names|, ops, disk.files)
    ensures r.Err? && r.error != Io ==>
      disk.stuck == old(disk.stuck) && StoppedAtUnsafe(old(disk.files), batch, names, r.error, ops, disk.files)
    ensures FreshBatch(old(disk.files), batch) && AreReplaceable(names) && old(disk.MovesOf(batch)) == [] ==>
      r == Err(Io) && disk.stuck == old(disk.stuck) ==> disk.files == old(disk.files)
  {
    ghost var fit := FreshBatch(disk.files, batch) && AreReplaceable(names) && disk.MovesOf(batch) == [];
    ghost var k;
    var error, any;
    error, any, k, ops := TrashEach(disk, names, batch, fit);
    if error != Some(Io) {
      FirstUnsafeIs(names, k);
    }
    r := if error.Some? then Err(error.value) else Ok(any);
  }

  lemma NamesGone<C>(now: map<Place, C>, batch: string, more: seq<Op>, names: seq<string>, i: nat)
    requires i < |names| && AreReplaceable(names) && LegalRun(now, batch, more) && Resolve(names[i]).Some?
    requires (forall op :: op in more ==> op.PutAway?) && PutAway(PlaceOf(names[i]).parts) in more
    requires forall k :: 0 <= k < i ==> PlaceOf(names[k]) !in now
    ensures forall k :: 0 <= k <= i ==> PlaceOf(names[k]) !in Run(now, batch, more)
  {
    forall k | 0 <= k < i ensures PlaceOf(names[k]) !in Run(now, batch, more) {
      assert names[k] in names;
      GoneStaysGone(now, batch, more, PlaceOf(names[k]));
    }
    assert names[i] in names;
    PutIsGone(now, batch, more, PlaceOf(names[i]).parts);
  }
}
