/** The disk delune works on, and the trash on it (`crates/delune-library/src/trash.rs`).
    A rename is one step that either happens or leaves everything as it was; the disk may
    refuse any of them. Putting a file away takes its companions along, one rename each, and putting a
    batch back undoes its noted moves, newest first, and then brings its files home. The methods here
    are the loops of the source over the disk, proved against the functions on whole trees that
    `Batches` is about; `stuck` counts what the disk refused on the way back. */
module Trash {
  import opened Text
  import opened Paths
  import opened Relocation
  import opened Batches

  class Disk<C> {
    var files: map<Place, C>
    /** The moves each batch has noted. */
    var log: map<string, seq<(Parts, Parts)>>
    /** Steps of putting things back that the disk has refused. */
    var stuck: nat

    constructor (files: map<Place, C>)
      ensures this.files == files && log == map[] && stuck == 0
    {
      this.files, log, stuck := files, map[], 0;
    }

    /** `fs::rename`, with the folder made for it. */
    method Rename(from: Place, to: Place) returns (ok: bool)
      modifies this`files
      ensures ok ==> from in old(files) && files == Move(old(files), from, to)
      ensures !ok ==> files == old(files)
    {
      var willing: bool := *;
      ok := willing && from in files;
      if ok {
        files := Move(files, from, to);
      }
    }

    /** A rename that puts a file back. When the file is there but the disk refuses, the
        file is stuck. */
    method RenameBack(from: Place, to: Place) returns (ok: bool)
      modifies this`files, this`stuck
      ensures old(stuck) <= stuck
      ensures stuck == old(stuck) ==> ok == (from in old(files))
      ensures ok ==> from in old(files) && files == Move(old(files), from, to)
      ensures !ok ==> files == old(files)
    {
      ok := Rename(from, to);
      if !ok && from in files {
        stuck := stuck + 1;
      }
    }

    /** `fs::create_dir_all` on the way back. */
    method MakeFolder() returns (ok: bool)
      modifies this`stuck
      ensures old(stuck) <= stuck && (ok <==> stuck == old(stuck))
    {
      ok := *;
      if !ok {
        stuck := stuck + 1;
      }
    }

    function MovesOf(batch: string): seq<(Parts, Parts)>
      reads this`log
    {
      if batch in log then log[batch] else []
    }

    /** Note that a file of the library was moved; the note may fail to be written. */
    method RecordMove(batch: string, from: Parts, to: Parts) returns (ok: bool)
      modifies this`log
      ensures ok ==> IsLibrary(from) && IsLibrary(to)
      ensures MovesOf(batch) == if ok then old(MovesOf(batch)) + [(from, to)] else old(MovesOf(batch))
      ensures forall b :: b != batch ==> MovesOf(b) == old(MovesOf(b))
    {
      var willing: bool := *;
      ok := willing && IsLibrary(from) && IsLibrary(to);
      if ok {
        log := log[batch := MovesOf(batch) + [(from, to)]];
      }
    }
  }

  // ---- putting files in the trash ----

  /** The other files of the folder that share the file's name. */
  function Namesakes<C>(files: map<Place, C>, parts: Parts): (r: set<Parts>)
    requires parts != []
    ensures forall q :: q in r <==>
      Library(q) in files && q != parts && q != [] && Folder(q) == Folder(parts) && Stem(FileName(q)) == Stem(FileName(parts))
  {
    set p | p in files && p.Library? && p.parts != parts && p.parts != [] && Folder(p.parts) == Folder(parts) &&
            Stem(FileName(p.parts)) == Stem(FileName(parts)) :: p.parts
  }

  /** The namesakes that leave along with a file: all of them, provided none is audio; else none. */
  function Companions<C>(files: map<Place, C>, parts: Parts): (r: set<Parts>)
    requires parts != []
    ensures r <= Namesakes(files, parts)
    ensures forall q :: q in r ==> !IsAudio(FileName(q))
  {
    if exists q :: q in Namesakes(files, parts) && IsAudio(FileName(q)) then {} else Namesakes(files, parts)
  }

  /** The files one call of `put` may move. */
  function PutSet<C>(files: map<Place, C>, parts: Parts): set<Parts>
    requires parts != []
  {
    {parts} + Companions(files, parts)
  }

  /** `ops` puts away files of `targets`, each at most once. */
  ghost predicate PutsOf(ops: seq<Op>, targets: set<Parts>) {
    forall op :: op in ops ==> op.PutAway? && op.parts in targets
  }

  /** One file into the batch. */
  method PutOne<C>(disk: Disk<C>, parts: Parts, batch: string, ghost before: map<Place, C>, ghost ops: seq<Op>) returns (ok: bool)
    requires LegalRun(before, batch, ops) && disk.files == Run(before, batch, ops)
    requires IsLibrary(parts)
    modifies disk`files
    ensures !ok ==> disk.files == old(disk.files)
    ensures ok ==> LegalRun(before, batch, ops + [PutAway(parts)]) && disk.files == Run(before, batch, ops + [PutAway(parts)])
    ensures ok ==> disk.files == Move(old(disk.files), Library(parts), Kept(batch, parts)) && Library(parts) in old(disk.files)
  {
    ok := disk.Rename(Library(parts), Kept(batch, parts));
    RunMore(before, batch, ops, PutAway(parts));
  }

  /** Move a library file and its companions into the batch. On failure what already moved
      stays in the batch. */
  method Put<C>(disk: Disk<C>, parts: Parts, batch: string) returns (ok: bool, ghost ops: seq<Op>)
    modifies disk`files
    ensures LegalRun(old(disk.files), batch, ops) && disk.files == Run(old(disk.files), batch, ops)
    ensures parts == [] ==> ops == []
    ensures parts != [] ==> PutsOf(ops, PutSet(old(disk.files), parts))
    ensures ok ==> IsLibrary(parts) && Library(parts) in old(disk.files)
    ensures ok ==> forall q :: q in PutSet(old(disk.files), parts) ==> PutAway(q) in ops
  {
    ops := [];
    // A file where the trash folder should be stops it from being made.
    if !IsLibrary(parts) || Library(parts) !in disk.files || Library([TRASH]) in disk.files {
      return false, ops;
    }
    ghost var before := disk.files;
    var todo := Companions(disk.files, parts);
    ok := PutOne(disk, parts, batch, before, ops);
    if !ok {
      return false, ops;
    }
    ops := [PutAway(parts)];
    while todo != {}
      invariant LegalRun(before, batch, ops) && disk.files == Run(before, batch, ops)
      invariant PutsOf(ops, PutSet(before, parts))
      invariant todo <= Companions(before, parts)
      invariant forall q :: q in PutSet(before, parts) && q !in todo ==> PutAway(q) in ops
    {
      var next :| next in todo;
      todo := todo - {next};
      CompanionInLibrary(before, parts, next);
      ok := PutOne(disk, next, batch, before, ops);
      if !ok {
        return false, ops;
      }
      ops := ops + [PutAway(next)];
    }
    return true, ops;
  }

  /** A companion is in the library proper, as its track is. */
  lemma CompanionInLibrary<C>(files: map<Place, C>, parts: Parts, q: Parts)
    requires IsLibrary(parts) && q in Companions(files, parts) && Library([TRASH]) !in files
    ensures IsLibrary(q)
  {
    assert q != [] && Folder(q) == Folder(parts) && Library(q) in files;
    if |q| == 1 {
      assert q == [q[0]];
    } else {
      assert q[0] == Folder(q)[0] && parts[0] == Folder(parts)[0];
    }
  }

  // ---- putting a batch back ----

  /** The batch and its log are as `put` and `record_move` leave them. */
  ghost predicate InGoodOrder<C>(files: map<Place, C>, batch: string, log: seq<(Parts, Parts)>) {
    SafeLog(log) && CleanBatch(files, batch)
  }

  /** Undo the noted moves, newest first. */
  method UndoNoted<C>(disk: Disk<C>, batch: string) returns (ok: bool, left: set<Parts>, ghost j: Journey)
    modifies disk`files, disk`stuck
    ensures old(disk.stuck) <= disk.stuck
    ensures disk.stuck == old(disk.stuck) ==> ok && disk.files == UndoMoves(old(disk.files), disk.MovesOf(batch)).0
    ensures disk.stuck == old(disk.stuck) ==> forall q :: q in left <==> q in UndoMoves(old(disk.files), disk.MovesOf(batch)).1
    ensures InGoodOrder(old(disk.files), batch, disk.MovesOf(batch)) ==>
      Relocated(old(disk.files), j, disk.files) && CleanBatch(disk.files, batch)
  {
    var moves := disk.MovesOf(batch);
    var i := |moves|;
    left := {};
    ghost var before, stuck, order := disk.files, disk.stuck, [];
    j := Nowhere(before);
    NothingUndone(before, moves);
    NothingMoved(before);
    while 0 < i
      invariant 0 <= i <= |moves| && stuck <= disk.stuck
      invariant forall q :: q in left <==> q in order
      invariant disk.stuck == stuck ==> UndoneTo(before, moves, i, disk.files, order)
      invariant InGoodOrder(before, batch, moves) ==> Relocated(before, j, disk.files) && CleanBatch(disk.files, batch)
    {
      i := i - 1;
      var (was, now) := moves[i];
      ghost var files := disk.files;
      if disk.stuck == stuck {
        UndoneNext(before, moves, i, files, order);
      }
      if Library(now) !in disk.files || Library(was) in disk.files {
        left, order := left + {now}, order + [now];
      } else {
        var made := disk.MakeFolder();
        if !made {
          return false, left, j;
        }
        var back := disk.RenameBack(Library(now), Library(was));
        if !back {
          left, order := left + {now}, order + [now];
        } else if InGoodOrder(before, batch, moves) {
          StaysInOrder(before, j, files, batch, moves, i);
          j := j.Onward(j.home[Library(now)], Library(was));
        }
      }
    }
    return true, left, j;
  }

  /** The log is undone down to entry `i`. */
  ghost predicate UndoneTo<C>(before: map<Place, C>, log: seq<(Parts, Parts)>, i: nat, now: map<Place, C>, order: seq<Parts>)
    requires i <= |log|
  {
    UndoMoves(before, log) == (UndoMoves(now, log[..i]).0, order + UndoMoves(now, log[..i]).1)
  }

  lemma NothingUndone<C>(before: map<Place, C>, log: seq<(Parts, Parts)>)
    ensures UndoneTo(before, log, |log|, before, [])
  {
    assert log[..|log|] == log;
    assert [] + UndoMoves(before, log).1 == UndoMoves(before, log).1;
  }

  lemma UndoneNext<C>(before: map<Place, C>, log: seq<(Parts, Parts)>, i: nat, files: map<Place, C>, order: seq<Parts>)
    requires i < |log| && UndoneTo(before, log, i + 1, files, order)
    ensures var (was, now) := log[i];
      if Library(now) !in files || Library(was) in files then UndoneTo(before, log, i, files, order + [now])
      else UndoneTo(before, log, i, Move(files, Library(now), Library(was)), order)
  {
    var rest := UndoMoves(files, log[..i]).1;
    assert log[..i + 1][..i] == log[..i];
    assert order + ([log[i].1] + rest) == (order + [log[i].1]) + rest;
  }

  /** Undoing one move keeps every file, and the batch as it was. */
  lemma StaysInOrder<C>(before: map<Place, C>, j: Journey, files: map<Place, C>, batch: string, log: seq<(Parts, Parts)>, i: nat)
    requires i < |log| && SafeLog(log) && Relocated(before, j, files) && CleanBatch(files, batch)
    requires Library(log[i].1) in files && Library(log[i].0) !in files
    ensures var (was, now) := log[i]; var after := Move(files, Library(now), Library(was));
      Relocated(before, j.Onward(j.home[Library(now)], Library(was)), after) && CleanBatch(after, batch)
  {
    var (was, now) := log[i];
    assert log[i] in log;
    MoveToFree(before, j, files, j.home[Library(now)], Library(was));
  }

  lemma BackNone<C>(files: map<Place, C>, batch: string)
    ensures PutBackOnly(files, batch, {}) == files
  {
  }

  lemma StillThere<C>(files: map<Place, C>, batch: string, done: set<Parts>, parts: Parts)
    requires CleanBatch(files, batch) && done <= Returning(files, batch)
    requires parts in Contents(files, batch) && parts !in done
    ensures Kept(batch, parts) in PutBackOnly(files, batch, done)
    ensures Library(parts) in PutBackOnly(files, batch, done) <==> Library(parts) in files
  {
    KeptInside(files.Keys, batch);
    assert InBatch(Kept(batch, parts), batch) && IsLibrary(Inside(Kept(batch, parts)));
  }

  /** How far putting the files back has got. */
  ghost predicate PartlyBack<C>(before: map<Place, C>, batch: string, todo: set<Parts>, done: set<Parts>, left: set<Parts>,
                                now: map<Place, C>) {
    && todo + done + left == Contents(before, batch) && todo !! done && done !! left && todo !! left
    && done <= Returning(before, batch)
    && now == PutBackOnly(before, batch, done)
  }

  lemma TakeOut<T>(all: set<T>, todo: set<T>, done: set<T>, left: set<T>, x: T)
    requires todo + done + left == all && todo !! done && done !! left && todo !! left && x in todo
    ensures (todo - {x}) + (done + {x}) + left == all && (todo - {x}) + done + (left + {x}) == all
    ensures todo - {x} !! done + {x} && done + {x} !! left && todo - {x} !! left + {x} && done !! left + {x}
    ensures x in all && x !in done
  {
  }

  lemma LeaveOne<C>(before: map<Place, C>, batch: string, todo: set<Parts>, done: set<Parts>, left: set<Parts>,
                    now: map<Place, C>, parts: Parts)
    requires CleanBatch(before, batch) && PartlyBack(before, batch, todo, done, left, now) && parts in todo
    ensures PartlyBack(before, batch, todo - {parts}, done, left + {parts}, now)
    ensures Library(parts) in now <==> parts !in Returning(before, batch)
    ensures Kept(batch, parts) in now
  {
    TakeOut(Contents(before, batch), todo, done, left, parts);
    StillThere(before, batch, done, parts);
  }

  lemma BringOneBack<C>(before: map<Place, C>, batch: string, todo: set<Parts>, done: set<Parts>, left: set<Parts>,
                        now: map<Place, C>, parts: Parts)
    requires CleanBatch(before, batch) && PartlyBack(before, batch, todo, done, left, now)
    requires parts in todo && parts in Returning(before, batch)
    ensures PartlyBack(before, batch, todo - {parts}, done + {parts}, left, Move(now, Kept(batch, parts), Library(parts)))
  {
    TakeOut(Contents(before, batch), todo, done, left, parts);
    AllLibrary(before, batch);
    BackOne(before, batch, done, parts);
  }

  lemma AllLibrary<C>(files: map<Place, C>, batch: string)
    requires CleanBatch(files, batch)
    ensures forall q :: q in Contents(files, batch) ==> IsLibrary(q)
  {
    KeptInside(files.Keys, batch);
    forall q | q in Contents(files, batch) ensures IsLibrary(q) {
      assert InBatch(Kept(batch, q), batch) && Inside(Kept(batch, q)) == q;
    }
  }

  lemma AllBack<C>(before: map<Place, C>, batch: string, done: set<Parts>, left: set<Parts>, now: map<Place, C>)
    requires CleanBatch(before, batch) && PartlyBack(before, batch, {}, done, left, now)
    ensures left == {} ==> FreshBatch(now, batch)
    ensures left !! Returning(before, batch) ==>
      now == PutBack(before, batch) && left == Contents(before, batch) - Returning(before, batch)
  {
    if left == {} {
      assert done == Contents(before, batch) == Returning(before, batch);
      EverythingReturned(before, batch);
    }
    if left !! Returning(before, batch) {
      assert done == Returning(before, batch);
    }
  }

  /** Put the batch's files back where nothing has taken their place. */
  method PutBackFiles<C>(disk: Disk<C>, batch: string) returns (ok: bool, left: set<Parts>, ghost j: Journey)
    modifies disk`files, disk`stuck
    ensures old(disk.stuck) <= disk.stuck
    ensures CleanBatch(old(disk.files), batch) && disk.stuck == old(disk.stuck) ==>
      ok && disk.files == PutBack(old(disk.files), batch)
      && left == Contents(old(disk.files), batch) - Returning(old(disk.files), batch)
    ensures CleanBatch(old(disk.files), batch) ==> Relocated(old(disk.files), j, disk.files)
    ensures CleanBatch(old(disk.files), batch) && ok && left == {} ==> FreshBatch(disk.files, batch)
  {
    ghost var before, stuck := disk.files, disk.stuck;
    ghost var clean := CleanBatch(before, batch);
    ghost var done: set<Parts> := {};
    var todo := Contents(disk.files, batch);
    left := {};
    j := Nowhere(before);
    BackNone(before, batch);
    NothingMoved(before);
    while todo != {}
      invariant stuck <= disk.stuck
      invariant clean ==> PartlyBack(before, batch, todo, done, left, disk.files) && Relocated(before, j, disk.files)
      invariant clean && disk.stuck == stuck ==> left !! Returning(before, batch)
    {
      var parts :| parts in todo;
      var ended, back, went := PutBackOne(disk, batch, parts, before, todo, done, left, j);
      if ended {
        return false, left, j;
      }
      if back {
        j, done := went, done + {parts};
      } else {
        left := left + {parts};
      }
      todo := todo - {parts};
    }
    if clean {
      AllBack(before, batch, done, left, disk.files);
    }
    return true, left, j;
  }

  method PutBackOne<C>(disk: Disk<C>, batch: string, parts: Parts, ghost before: map<Place, C>, ghost todo: set<Parts>,
                       ghost done: set<Parts>, ghost left: set<Parts>, ghost j: Journey)
      returns (ended: bool, back: bool, ghost went: Journey)
    requires parts in todo
    requires CleanBatch(before, batch) ==> PartlyBack(before, batch, todo, done, left, disk.files) && Relocated(before, j, disk.files)
    modifies disk`files, disk`stuck
    ensures old(disk.stuck) <= disk.stuck
    ensures ended ==> old(disk.stuck) < disk.stuck && disk.files == old(disk.files)
    ensures CleanBatch(before, batch) && back ==>
      PartlyBack(before, batch, todo - {parts}, done + {parts}, left, disk.files) && Relocated(before, went, disk.files)
    ensures CleanBatch(before, batch) && !back ==>
      PartlyBack(before, batch, todo - {parts}, done, left + {parts}, disk.files) && disk.files == old(disk.files)
    ensures CleanBatch(before, batch) && !back && disk.stuck == old(disk.stuck) ==> parts !in Returning(before, batch)
  {
    ghost var files, clean := disk.files, CleanBatch(before, batch);
    went := j;
    if clean {
      LeaveOne(before, batch, todo, done, left, files, parts);
    }
    if Library(parts) in disk.files {
      return false, false, went;
    }
    var made := disk.MakeFolder();
    if !made {
      return true, false, went;
    }
    back := disk.RenameBack(Kept(batch, parts), Library(parts));
    ended := false;
    if clean && back {
      BringOneBack(before, batch, todo, done, left, files, parts);
      MoveToFree(before, j, files, j.home[Kept(batch, parts)], Library(parts));
      went := j.Onward(j.home[Kept(batch, parts)], Library(parts));
    }
  }

  /** What restoring comes to when its two halves go through. */
  lemma RestoredInTwo<C>(before: map<Place, C>, batch: string, log: seq<(Parts, Parts)>, unmoved: set<Parts>, kept: set<Parts>)
    requires InGoodOrder(before, batch, log) && CleanBatch(UndoMoves(before, log).0, batch)
    requires forall q :: q in unmoved <==> q in UndoMoves(before, log).1
    requires kept == Contents(UndoMoves(before, log).0, batch) - Returning(UndoMoves(before, log).0, batch)
    ensures Restored(before, batch, log) == Outcome(PutBack(UndoMoves(before, log).0, batch), unmoved + kept)
  {
    NothingToSweep(before, batch, log);
    assert (set parts | parts in UndoMoves(before, log).1) == unmoved;
  }

  /** The inverse of filling a batch: the log is undone from its end, then the batch is emptied
      into the library. What finds its place occupied is returned instead. */
  method Restore<C>(disk: Disk<C>, batch: string) returns (r: Result<set<Parts>, ()>, ghost j: Journey)
    modifies disk
    ensures old(disk.stuck) <= disk.stuck
    ensures var log := old(disk.MovesOf(batch));
      InGoodOrder(old(disk.files), batch, log) && disk.stuck == old(disk.stuck) ==>
        r == Ok(Restored(old(disk.files), batch, log).left) && disk.files == Restored(old(disk.files), batch, log).files
    ensures InGoodOrder(old(disk.files), batch, old(disk.MovesOf(batch))) ==> Relocated(old(disk.files), j, disk.files)
  {
    ghost var before, stuck, log := disk.files, disk.stuck, disk.MovesOf(batch);
    ghost var clean := InGoodOrder(before, batch, log);
    var ok, unmoved, first := UndoNoted(disk, batch);
    j := first;
    if !ok {
      return Err(()), j;
    }
    ghost var undone := disk.files;
    var put, kept, second := PutBackFiles(disk, batch);
    if clean {
      Compose(before, first, undone, second, disk.files);
      j := After(first, second);
      if disk.stuck == stuck {
        RestoredInTwo(before, batch, log, unmoved, kept);
      }
    }
    if !put {
      return Err(()), j;
    }
    if unmoved + kept == {} {
      if clean {
        NothingInBatch(disk.files, batch);
      }
      disk.files := Swept(disk.files, batch);
      disk.log := disk.log - {batch};
    }
    return Ok(unmoved + kept), j;
  }
}
