/** A file that was moved but whose move couldn't be noted (`crates/delune-library/src/health.rs`):
    what putting its batch back comes to then. */
module Unnoted {
  import opened Text
  import opened Paths
  import opened Relocation
  import opened Batches

  /** Where a run began with the file it leaves at `parts`, when no file moves twice. */
  function Origin(ops: seq<Op>, parts: Parts): Parts {
    if ops == [] then parts
    else
      var last := ops[|ops| - 1];
      if last.MoveTo? && last.to == parts then last.from else Origin(ops[..|ops| - 1], parts)
  }

  /** No file moves on from where a move of the run brought it. */
  predicate Unchained(ops: seq<Op>) {
    forall a, b :: a in ops && b in ops && a.MoveTo? && b.MoveTo? ==> a.to != b.from
  }

  predicate IsSource(ops: seq<Op>, parts: Parts) {
    exists op :: op in ops && op.MoveTo? && op.from == parts
  }

  predicate OnlyMoves(ops: seq<Op>) {
    forall op :: op in ops ==> op.MoveTo?
  }

  lemma UnchainedLast(ops: seq<Op>)
    requires ops != [] && ops[|ops| - 1].MoveTo? && Unchained(ops)
    ensures var rest, last := ops[..|ops| - 1], ops[|ops| - 1];
      Unchained(rest) && !IsTarget(rest, last.from) && !IsSource(rest, last.to)
  {
    var rest, last := ops[..|ops| - 1], ops[|ops| - 1];
    assert ops == rest + [last] && last in ops;
  }

  lemma {:induction false} InLog(ops: seq<Op>, move: (Parts, Parts))
    ensures move in Log(ops) <==> MoveTo(move.0, move.1) in ops
  {
    if ops != [] {
      var rest, last := ops[..|ops| - 1], ops[|ops| - 1];
      assert ops == rest + [last];
      InLog(rest, move);
    }
  }

  lemma SplitLast(ops: seq<Op>)
    requires ops != [] && OnlyMoves(ops)
    ensures var rest, last := ops[..|ops| - 1], ops[|ops| - 1];
      && ops == rest + [last] && last.MoveTo? && OnlyMoves(rest)
      && Log(ops) != [] && Log(ops)[|Log(ops)| - 1] == (last.from, last.to) && Log(ops)[..|Log(ops)| - 1] == Log(rest)
      && (Unchained(ops) ==> Unchained(rest))
      && (forall parts :: IsTarget(ops, parts) <==> last.to == parts || IsTarget(rest, parts))
      && (forall parts :: IsSource(ops, parts) <==> last.from == parts || IsSource(rest, parts))
  {
    var rest, last := ops[..|ops| - 1], ops[|ops| - 1];
    assert ops == rest + [last];
    assert last in ops;
    forall parts ensures IsTarget(ops, parts) <==> last.to == parts || IsTarget(rest, parts) {}
    forall parts ensures IsSource(ops, parts) <==> last.from == parts || IsSource(rest, parts) {}
  }

  // ---- what moves leave ----

  /** What a file moved from is free, when no move refills it. */
  lemma {:induction false} SourceIsFree<C>(files: map<Place, C>, batch: string, moves: seq<Op>, parts: Parts)
    requires OnlyMoves(moves) && LegalRun(files, batch, moves) && IsSource(moves, parts) && !IsTarget(moves, parts)
    ensures Library(parts) !in Run(files, batch, moves)
  {
    SplitLast(moves);
    var rest, last := moves[..|moves| - 1], moves[|moves| - 1];
    if last.from != parts {
      SourceIsFree(files, batch, rest, parts);
    }
  }

  /** A place no move begins or ends at is as it was. */
  lemma {:induction false} MovesLeave<C>(files: map<Place, C>, batch: string, moves: seq<Op>, parts: Parts)
    requires OnlyMoves(moves) && LegalRun(files, batch, moves)
    ensures !IsTarget(moves, parts) ==> (Library(parts) in Run(files, batch, moves) ==> Library(parts) in files)
    ensures !IsSource(moves, parts) ==> (Library(parts) in files ==> Library(parts) in Run(files, batch, moves))
    ensures !IsSource(moves, parts) && IsTarget(moves, parts) ==> Library(parts) in Run(files, batch, moves)
  {
    if moves != [] {
      SplitLast(moves);
      MovesLeave(files, batch, moves[..|moves| - 1], parts);
    }
  }

  /** Moves lose no file. */
  lemma {:induction false} MovesKeepFiles<C>(files: map<Place, C>, batch: string, moves: seq<Op>)
    requires OnlyMoves(moves) && LegalRun(files, batch, moves)
    ensures EveryFileKept(files, Run(files, batch, moves))
  {
    if moves == [] {
      NothingMoved(files);
      JourneyKeeps(files, Nowhere(files), files);
    } else {
      SplitLast(moves);
      var rest, last := moves[..|moves| - 1], moves[|moves| - 1];
      MovesKeepFiles(files, batch, rest);
      FilesStayKept(files, Run(files, batch, rest), Library(last.from), Library(last.to));
    }
  }

  // ---- undoing the noted moves around an unnoted one ----

  /** The unnoted move has nothing to do with the others: they are undone, and it stays. */
  lemma {:induction false} UndoneAround<C>(files: map<Place, C>, batch: string, moves: seq<Op>, from: Parts, to: Parts)
    requires OnlyMoves(moves) && LegalRun(files, batch, moves) && Legal(Run(files, batch, moves), MoveTo(from, to))
    requires !IsTarget(moves, from) && !IsSource(moves, to)
    ensures Legal(files, MoveTo(from, to))
    ensures UndoMoves(Move(Run(files, batch, moves), Library(from), Library(to)), Log(moves)) ==
      (Move(files, Library(from), Library(to)), [])
  {
    if moves != [] {
      SplitLast(moves);
      var rest, last := moves[..|moves| - 1], moves[|moves| - 1];
      var before := Run(files, batch, rest);
      UndoneBefore(before, last.from, last.to, from, to);
      UndoneAround(files, batch, rest, from, to);
    }
  }

  /** One noted move, then an unnoted one of another file to another place, then undoing the
      first. */
  lemma UndoneBefore<C>(files: map<Place, C>, was: Parts, now: Parts, from: Parts, to: Parts)
    requires Legal(files, MoveTo(was, now)) && Legal(Move(files, Library(was), Library(now)), MoveTo(from, to))
    requires now != from && was != to
    ensures Legal(files, MoveTo(from, to))
    ensures var after := Move(Move(files, Library(was), Library(now)), Library(from), Library(to));
      && Library(now) in after && Library(was) !in after
      && Move(after, Library(now), Library(was)) == Move(files, Library(from), Library(to))
  {
  }

  /** The unnoted move took a file back to where a noted one had taken it from: that one can't
      be undone, and needn't be. */
  lemma {:induction false} UndoneToOrigin<C>(files: map<Place, C>, batch: string, moves: seq<Op>, from: Parts, to: Parts)
    requires OnlyMoves(moves) && LegalRun(files, batch, moves) && Legal(Run(files, batch, moves), MoveTo(from, to))
    requires Unchained(moves) && Origin(moves, from) == to
    ensures UndoMoves(Move(Run(files, batch, moves), Library(from), Library(to)), Log(moves)).0 == files
  {
    if moves != [] {
      SplitLast(moves);
      var rest, last := moves[..|moves| - 1], moves[|moves| - 1];
      var before := Run(files, batch, rest);
      if last.to == from {
        assert Move(Move(before, Library(last.from), Library(from)), Library(from), Library(last.from)) == before;
        UndoMovesExactly(files, batch, rest);
      } else {
        OriginMoved(rest, from);
        assert last.from != to by {
          if last.from == to {
            SourceIsFree(files, batch, rest, to);
          }
        }
        UndoneBefore(before, last.from, last.to, from, to);
        UndoneToOrigin(files, batch, rest, from, to);
      }
    }
  }

  lemma {:induction false} OriginMoved(ops: seq<Op>, parts: Parts)
    requires OnlyMoves(ops)
    ensures Origin(ops, parts) != parts ==> IsSource(ops, Origin(ops, parts)) && IsTarget(ops, parts)
  {
    if ops != [] {
      SplitLast(ops);
      OriginMoved(ops[..|ops| - 1], parts);
    }
  }

  /** Undoing moves doesn't take a file from where none of them had brought one. */
  lemma {:induction false} UndoKeepsPlace<C>(files: map<Place, C>, log: seq<(Parts, Parts)>, parts: Parts)
    requires Library(parts) in files && forall move :: move in log ==> move.1 != parts
    ensures Library(parts) in UndoMoves(files, log).0
    decreases |log|
  {
    if log != [] {
      var (was, now) := log[|log| - 1];
      assert log[|log| - 1] in log;
      if Library(now) !in files || Library(was) in files {
        UndoKeepsPlace(files, log[..|log| - 1], parts);
      } else {
        UndoKeepsPlace(Move(files, Library(now), Library(was)), log[..|log| - 1], parts);
      }
    }
  }

  /** Nor from where every move that had brought one finds its old place taken. */
  lemma {:induction false} UndoIsBlocked<C>(files: map<Place, C>, log: seq<(Parts, Parts)>, parts: Parts, taken: Parts)
    requires Library(parts) in files && Library(taken) in files
    requires forall move :: move in log ==> move.1 != taken && (move.1 == parts ==> move.0 == taken)
    ensures Library(parts) in UndoMoves(files, log).0
    decreases |log|
  {
    if log != [] {
      var (was, now) := log[|log| - 1];
      assert log[|log| - 1] in log;
      if Library(now) !in files || Library(was) in files {
        UndoIsBlocked(files, log[..|log| - 1], parts, taken);
      } else {
        UndoIsBlocked(Move(files, Library(now), Library(was)), log[..|log| - 1], parts, taken);
      }
    }
  }

  // ---- putting the batch back ----

  /** After a run that could be put back, a file was moved without a note of it. */
  ghost predicate MovedUnnoted<C>(files: map<Place, C>, batch: string, ops: seq<Op>, from: Parts, to: Parts) {
    && FreshBatch(files, batch) && LegalRun(files, batch, ops) && NoRecords(ops) && PutsOnlySettled(ops)
    && Legal(Run(files, batch, ops), MoveTo(from, to))
  }

  /** What the move leaves. */
  function AfterMove<C>(files: map<Place, C>, batch: string, ops: seq<Op>, from: Parts, to: Parts): map<Place, C> {
    Move(Run(files, batch, ops), Library(from), Library(to))
  }

  /** The run as its puts, then its moves, then the unnoted one. */
  lemma PutsMovesAndOne<C>(files: map<Place, C>, batch: string, ops: seq<Op>, from: Parts, to: Parts)
    requires MovedUnnoted(files, batch, ops, from, to)
    ensures var put := Run(files, batch, Puts(ops));
      && PutAside(files, batch, Puts(ops), put)
      && LegalRun(put, batch, Moves(ops)) && Legal(Run(put, batch, Moves(ops)), MoveTo(from, to))
      && AfterMove(files, batch, ops, from, to) == AfterMove(put, batch, Moves(ops), from, to)
      && Log(Moves(ops)) == Log(ops)
  {
    PutsComeFirst(files, batch, ops);
    PutsAlone(files, batch, Puts(ops));
  }

  /** The tree once the noted moves are undone. */
  function Undone<C>(files: map<Place, C>, batch: string, ops: seq<Op>, from: Parts, to: Parts): map<Place, C> {
    UndoMoves(AfterMove(files, batch, ops, from, to), Log(ops)).0
  }

  lemma SameMoves(ops: seq<Op>, parts: Parts)
    ensures IsTarget(Moves(ops), parts) <==> IsTarget(ops, parts)
    ensures IsSource(Moves(ops), parts) <==> IsSource(ops, parts)
    ensures OnlyMoves(Moves(ops)) && (Unchained(ops) ==> Unchained(Moves(ops)))
  {
  }

  lemma {:induction false} SameOrigin(ops: seq<Op>, parts: Parts)
    ensures Origin(Moves(ops), parts) == Origin(ops, parts)
  {
    if ops != [] {
      var rest, last := ops[..|ops| - 1], ops[|ops| - 1];
      assert ops == rest + [last];
      Unsnoc(rest, last);
      SameOrigin(rest, parts);
      if last.MoveTo? {
        assert (Moves(rest) + [last])[..|Moves(rest) + [last]| - 1] == Moves(rest);
      }
    }
  }

  /** Files put away keep the unnoted move's places, when it has nothing to do with them. */
  lemma PutAsideMoved<C>(files: map<Place, C>, batch: string, puts: seq<Op>, put: map<Place, C>, from: Parts, to: Parts)
    requires FreshBatch(files, batch) && PutAside(files, batch, puts, put)
    requires Legal(put, MoveTo(from, to)) && PutAway(to) !in puts
    ensures FreshBatch(Move(files, Library(from), Library(to)), batch)
    ensures PutAside(Move(files, Library(from), Library(to)), batch, puts, Move(put, Library(from), Library(to)))
  {
    assert !InBatch(Library(from), batch) && !InBatch(Library(to), batch);
    assert Library(from) in files && !WasPut(puts, Library(from));
    assert Library(to) !in files;
  }

  lemma PutsAllReturn<C>(files: map<Place, C>, batch: string, puts: seq<Op>, put: map<Place, C>)
    requires FreshBatch(files, batch) && PutAside(files, batch, puts, put) && NoRecords(puts)
    ensures PutBack(put, batch) == files && Swept(files, batch) == files
  {
    PutBackUndoesPuts(files, batch, puts, put);
    forall p | p in put && InBatch(p, batch) ensures !IsRecord(Inside(p)) && IsLibrary(Inside(p)) {
      assert IsKept(puts, batch, p);
    }
    EverythingReturned(put, batch);
    NothingInBatch(PutBack(put, batch), batch);
    assert RecordsPut(puts) == {};
  }

  /** The tree and the file at `to` when its own is in the batch. */
  function Replaced<C>(files: map<Place, C>, batch: string, from: Parts, to: Parts): map<Place, C> {
    Move(Move(files, Library(to), Kept(batch, to)), Library(from), Library(to))
  }

  lemma AllButOneReturn<C>(files: map<Place, C>, batch: string, puts: seq<Op>, put: map<Place, C>, from: Parts, to: Parts)
    requires FreshBatch(files, batch) && PutAside(files, batch, puts, put) && NoRecords(puts)
    requires Legal(put, MoveTo(from, to)) && PutAway(to) in puts
    ensures var undone := Move(put, Library(from), Library(to));
      Contents(undone, batch) == Contents(put, batch) && Returning(undone, batch) == Returning(put, batch) - {to}
      && to in Contents(undone, batch)
  {
    var undone := Move(put, Library(from), Library(to));
    KeptInside(put.Keys + undone.Keys, batch);
    assert !InBatch(Library(from), batch) && !InBatch(Library(to), batch);
    KeptReturn(files, batch, puts, put);
    assert !WasPut(puts, Library(from));
    assert forall parts :: Kept(batch, parts) in undone <==> Kept(batch, parts) in put;
  }

  /** Putting back all but one file. */
  lemma AllButOneBack<C>(files: map<Place, C>, batch: string, returning: set<Parts>, one: Parts)
    requires returning <= Returning(files, batch) && one in returning
    requires forall q :: q in Contents(files, batch) ==> IsLibrary(q)
    ensures PutBackOnly(files, batch, returning - {one}) ==
      Move(PutBackOnly(files, batch, returning), Library(one), Kept(batch, one))
  {
    BackOne(files, batch, returning - {one}, one);
    assert (returning - {one}) + {one} == returning;
  }

  /** Putting back has nothing to do with a move within the library of other files. */
  lemma BackAround<C>(files: map<Place, C>, batch: string, returning: set<Parts>, from: Parts, to: Parts)
    requires Legal(files, MoveTo(from, to)) && to !in returning
    requires returning <= Returning(files, batch) && returning <= Returning(Move(files, Library(from), Library(to)), batch)
    ensures PutBackOnly(Move(files, Library(from), Library(to)), batch, returning) ==
      Move(PutBackOnly(files, batch, returning), Library(from), Library(to))
  {
    var moved := Move(files, Library(from), Library(to));
    var left, right := PutBackOnly(moved, batch, returning), Move(PutBackOnly(files, batch, returning), Library(from), Library(to));
    assert from !in returning && !InBatch(Library(from), batch) && !InBatch(Library(to), batch);
    forall p ensures Alike(left, right, p) {
      AlikeAround(files, batch, returning, from, to, p);
    }
    SameWhereAlike(left, right);
  }

  predicate Alike<C(==)>(files: map<Place, C>, others: map<Place, C>, p: Place) {
    (p in files <==> p in others) && (p in files ==> files[p] == others[p])
  }

  lemma SameWhereAlike<C>(files: map<Place, C>, others: map<Place, C>)
    requires forall p :: Alike(files, others, p)
    ensures files == others
  {
    assert forall p :: p in files ==> Alike(files, others, p);
    assert forall p :: p in others ==> Alike(files, others, p);
  }

  lemma AlikeAround<C>(files: map<Place, C>, batch: string, returning: set<Parts>, from: Parts, to: Parts, p: Place)
    requires Legal(files, MoveTo(from, to)) && to !in returning && from !in returning
    requires returning <= Returning(files, batch) && returning <= Returning(Move(files, Library(from), Library(to)), batch)
    requires !InBatch(Library(from), batch) && !InBatch(Library(to), batch)
    ensures Alike(PutBackOnly(Move(files, Library(from), Library(to)), batch, returning),
                  Move(PutBackOnly(files, batch, returning), Library(from), Library(to)), p)
  {
    if p == Library(from) || p == Library(to) {
    } else if p in files {
    } else {
    }
  }

  lemma OneStaysAside<C>(files: map<Place, C>, batch: string, puts: seq<Op>, put: map<Place, C>, from: Parts, to: Parts)
    requires FreshBatch(files, batch) && PutAside(files, batch, puts, put) && NoRecords(puts)
    requires Legal(put, MoveTo(from, to)) && PutAway(to) in puts
    ensures PutBack(Move(put, Library(from), Library(to)), batch) == Replaced(files, batch, from, to)
  {
    var returning := Returning(put, batch);
    AllButOneReturn(files, batch, puts, put, from, to);
    KeptReturn(files, batch, puts, put);
    PutsAllReturn(files, batch, puts, put);
    AllButOneBack(put, batch, returning, to);
    BackAround(put, batch, returning - {to}, from, to);
  }

  /** Everything as it was but for the file at `from`, which is now at `to`: a file that was
      there is in the batch, and reported. */
  ghost predicate BackBut<C>(files: map<Place, C>, batch: string, from: Parts, to: Parts, restored: Outcome<C>) {
    && IsLibrary(from) && IsLibrary(to) && from != to && Library(from) in files
    && restored == if Library(to) in files then Outcome(Replaced(files, batch, from, to), {to})
                   else Outcome(Move(files, Library(from), Library(to)), {})
  }

  /** When no noted move brought the file or vacated its new place, putting the batch back
      restores everything but that one move. */
  lemma BackButForOne<C>(files: map<Place, C>, batch: string, ops: seq<Op>, from: Parts, to: Parts)
    requires MovedUnnoted(files, batch, ops, from, to) && !IsTarget(ops, from) && !IsSource(ops, to)
    ensures BackBut(files, batch, from, to, Restored(AfterMove(files, batch, ops, from, to), batch, Log(ops)))
  {
    var put := Run(files, batch, Puts(ops));
    PutsMovesAndOne(files, batch, ops, from, to);
    SameMoves(ops, from);
    SameMoves(ops, to);
    UndoneAround(put, batch, Moves(ops), from, to);
    BackButForOnePut(files, batch, Puts(ops), put, AfterMove(files, batch, ops, from, to), Log(ops), from, to);
  }

  lemma BackButForOnePut<C>(files: map<Place, C>, batch: string, puts: seq<Op>, put: map<Place, C>, now: map<Place, C>,
                            log: seq<(Parts, Parts)>, from: Parts, to: Parts)
    requires FreshBatch(files, batch) && PutAside(files, batch, puts, put) && NoRecords(puts) && Legal(put, MoveTo(from, to))
    requires UndoMoves(now, log) == (Move(put, Library(from), Library(to)), [])
    ensures BackBut(files, batch, from, to, Restored(now, batch, log))
  {
    if PutAway(to) in puts {
      OneLeft(files, batch, puts, put, from, to);
    } else {
      NoneLeftBehind(files, batch, puts, put, from, to);
      RestoredFrom(now, batch, log, Move(put, Library(from), Library(to)));
    }
    WhereMoved(files, batch, puts, put, from, to);
  }

  lemma WhereMoved<C>(files: map<Place, C>, batch: string, puts: seq<Op>, put: map<Place, C>, from: Parts, to: Parts)
    requires FreshBatch(files, batch) && PutAside(files, batch, puts, put) && Legal(put, MoveTo(from, to))
    ensures Library(from) in files && from != to && (Library(to) in files <==> PutAway(to) in puts)
  {
    assert !InBatch(Library(from), batch) && !InBatch(Library(to), batch);
    assert WasPut(puts, Library(to)) <==> PutAway(to) in puts;
  }

  lemma OneLeft<C>(files: map<Place, C>, batch: string, puts: seq<Op>, put: map<Place, C>, from: Parts, to: Parts)
    requires FreshBatch(files, batch) && PutAside(files, batch, puts, put) && NoRecords(puts)
    requires Legal(put, MoveTo(from, to)) && PutAway(to) in puts
    ensures var undone := Move(put, Library(from), Library(to));
      PutBack(undone, batch) == Replaced(files, batch, from, to) && Contents(undone, batch) - Returning(undone, batch) == {to}
  {
    OneStaysAside(files, batch, puts, put, from, to);
    AllButOneReturn(files, batch, puts, put, from, to);
    KeptReturn(files, batch, puts, put);
  }

  lemma NoneLeftBehind<C>(files: map<Place, C>, batch: string, puts: seq<Op>, put: map<Place, C>, from: Parts, to: Parts)
    requires FreshBatch(files, batch) && PutAside(files, batch, puts, put) && NoRecords(puts)
    requires Legal(put, MoveTo(from, to)) && PutAway(to) !in puts
    ensures var undone := Move(put, Library(from), Library(to));
      && Swept(PutBack(undone, batch), batch) == Move(files, Library(from), Library(to))
      && Contents(undone, batch) == Returning(undone, batch)
  {
    PutAsideMoved(files, batch, puts, put, from, to);
    PutBackUndoesPuts(Move(files, Library(from), Library(to)), batch, puts, Move(put, Library(from), Library(to)));
    assert RecordsPut(puts) == {};
  }

  // ---- exactly when everything is back ----

  /** Moves that don't chain end at places of their own, that were free. */
  lemma {:induction false} TargetsAreNew<C>(files: map<Place, C>, batch: string, moves: seq<Op>, from: Parts, to: Parts)
    requires OnlyMoves(moves) && LegalRun(files, batch, moves) && Unchained(moves) && MoveTo(from, to) in moves
    ensures Origin(moves, to) == from && Library(to) !in files && IsLibrary(to)
  {
    SplitLast(moves);
    var rest, last := moves[..|moves| - 1], moves[|moves| - 1];
    assert last in moves && !IsSource(rest, to);
    MovesLeave(files, batch, rest, to);
    if MoveTo(from, to) in rest {
      TargetsAreNew(files, batch, rest, from, to);
      assert IsTarget(rest, to);
    }
  }

  /** A file in the way of one put away keeps it in the trash; one where none was stays. */
  lemma OccupiedMeansChanged<C>(files: map<Place, C>, batch: string, now: map<Place, C>, log: seq<(Parts, Parts)>, parts: Parts)
    requires FreshBatch(files, batch) && IsLibrary(parts) && Library(parts) in UndoMoves(now, log).0
    requires Library(parts) !in files || (!IsRecord(parts) && Kept(batch, parts) in UndoMoves(now, log).0)
    ensures Restored(now, batch, log).files != files
  {
    var undone := UndoMoves(now, log).0;
    KeptInside(undone.Keys, batch);
    assert !InBatch(Library(parts), batch);
    if Library(parts) in files {
      assert parts in Contents(undone, batch) && parts !in Returning(undone, batch);
      assert parts in Restored(now, batch, log).left;
      assert InBatch(Kept(batch, parts), batch) && Kept(batch, parts) in PutBack(undone, batch);
    } else {
      assert Library(parts) in PutBack(undone, batch) && Library(parts) in Swept(PutBack(undone, batch), batch);
    }
  }

  lemma {:induction false} UndoLeavesAside<C>(files: map<Place, C>, log: seq<(Parts, Parts)>, p: Place)
    requires SafeLog(log) && IsAside(p) && p in files
    ensures p in UndoMoves(files, log).0
  {
    var _ := UndoMovesKeepsFiles(files, log);
  }

  lemma {:induction false} LegalLog<C>(files: map<Place, C>, batch: string, ops: seq<Op>)
    requires LegalRun(files, batch, ops)
    ensures SafeLog(Log(ops)) && forall op :: op in ops && op.PutAway? ==> IsLibrary(op.parts)
  {
    if ops != [] {
      var rest, last := ops[..|ops| - 1], ops[|ops| - 1];
      assert ops == rest + [last];
      LegalLog(files, batch, rest);
    }
  }

  lemma RunIsClean<C>(files: map<Place, C>, batch: string, ops: seq<Op>)
    requires FreshBatch(files, batch) && LegalRun(files, batch, ops) && NoRecords(ops)
    ensures CleanBatch(Run(files, batch, ops), batch) && SafeLog(Log(ops))
  {
    LegalLog(files, batch, ops);
    var now := Run(files, batch, ops);
    forall p | p in now && InBatch(p, batch) ensures !IsRecord(Inside(p)) && IsLibrary(Inside(p)) {
      InsideKept(p, batch);
      BatchHoldsPuts(files, batch, ops, Inside(p));
    }
  }

  /** What was put away before the moves is still aside once they are undone. */
  lemma StillAside<C>(files: map<Place, C>, batch: string, ops: seq<Op>, from: Parts, to: Parts, parts: Parts)
    requires MovedUnnoted(files, batch, ops, from, to) && PutAway(parts) in ops
    ensures Kept(batch, parts) in Undone(files, batch, ops, from, to)
  {
    LegalLog(files, batch, ops);
    BatchHoldsPuts(files, batch, ops, parts);
    UndoLeavesAside(AfterMove(files, batch, ops, from, to), Log(ops), Kept(batch, parts));
  }

  /** A file where the run freed the place, or found none. */
  lemma ChangedAt<C>(files: map<Place, C>, batch: string, ops: seq<Op>, from: Parts, to: Parts, parts: Parts)
    requires MovedUnnoted(files, batch, ops, from, to) && IsLibrary(parts)
    requires Library(parts) in Undone(files, batch, ops, from, to)
    requires Library(parts) !in Run(files, batch, Puts(ops))
    ensures Restored(AfterMove(files, batch, ops, from, to), batch, Log(ops)).files != files
  {
    PutsMovesAndOne(files, batch, ops, from, to);
    if Library(parts) in files {
      assert WasPut(Puts(ops), Library(parts)) && PutAway(parts) in ops;
      StillAside(files, batch, ops, from, to, parts);
    }
    OccupiedMeansChanged(files, batch, AfterMove(files, batch, ops, from, to), Log(ops), parts);
  }

  lemma NoTargetThere<C>(files: map<Place, C>, batch: string, moves: seq<Op>, parts: Parts)
    requires OnlyMoves(moves) && LegalRun(files, batch, moves) && Unchained(moves) && Library(parts) !in Run(files, batch, moves)
    ensures !IsTarget(moves, parts)
  {
    if IsTarget(moves, parts) {
      MovesLeave(files, batch, moves, parts);
    }
  }

  /** The unnoted move's file stays where it was taken. */
  lemma StaysTaken<C>(files: map<Place, C>, batch: string, moves: seq<Op>, from: Parts, to: Parts)
    requires OnlyMoves(moves) && LegalRun(files, batch, moves) && Unchained(moves)
    requires Legal(Run(files, batch, moves), MoveTo(from, to))
    ensures Library(to) in Undone(files, batch, moves, from, to)
  {
    NoTargetThere(files, batch, moves, to);
    forall move | move in Log(moves) ensures move.1 != to {
      InLog(moves, move);
    }
    UndoKeepsPlace(AfterMove(files, batch, moves, from, to), Log(moves), to);
  }

  /** And so does a file that a noted move had taken from there. */
  lemma StaysBlocked<C>(files: map<Place, C>, batch: string, moves: seq<Op>, from: Parts, to: Parts, parts: Parts)
    requires OnlyMoves(moves) && LegalRun(files, batch, moves) && Unchained(moves)
    requires Legal(Run(files, batch, moves), MoveTo(from, to)) && MoveTo(to, parts) in moves && parts != from
    ensures Library(parts) in Undone(files, batch, moves, from, to)
  {
    NoTargetThere(files, batch, moves, to);
    assert IsTarget(moves, parts) && !IsSource(moves, parts);
    MovesLeave(files, batch, moves, parts);
    TargetsAreNew(files, batch, moves, to, parts);
    forall move | move in Log(moves) ensures move.1 != to && (move.1 == parts ==> move.0 == to) {
      InLog(moves, move);
      if move.1 == parts {
        TargetsAreNew(files, batch, moves, move.0, parts);
      }
    }
    UndoIsBlocked(AfterMove(files, batch, moves, from, to), Log(moves), parts, to);
  }

  lemma NotBack<C>(files: map<Place, C>, batch: string, ops: seq<Op>, from: Parts, to: Parts)
    requires MovedUnnoted(files, batch, ops, from, to) && Unchained(ops) && Origin(ops, from) != to
    ensures Restored(AfterMove(files, batch, ops, from, to), batch, Log(ops)).files != files
  {
    var put, moves := Run(files, batch, Puts(ops)), Moves(ops);
    PutsMovesAndOne(files, batch, ops, from, to);
    SameMoves(ops, to);
    SameOrigin(ops, from);
    StaysTaken(put, batch, moves, from, to);
    if Library(to) !in put {
      ChangedAt(files, batch, ops, from, to, to);
    } else {
      MovesLeave(put, batch, moves, to);
      var op :| op in moves && op.from == to;
      assert op == MoveTo(to, op.to);
      TargetsAreNew(put, batch, moves, to, op.to);
      StaysBlocked(put, batch, moves, from, to, op.to);
      ChangedAt(files, batch, ops, from, to, op.to);
    }
  }

  lemma BackAtOrigin<C>(files: map<Place, C>, batch: string, ops: seq<Op>, from: Parts, to: Parts)
    requires MovedUnnoted(files, batch, ops, from, to) && Unchained(ops) && Origin(ops, from) == to
    ensures Restored(AfterMove(files, batch, ops, from, to), batch, Log(ops)).files == files
  {
    PutsMovesAndOne(files, batch, ops, from, to);
    SameMoves(ops, to);
    SameOrigin(ops, from);
    UndoneToOrigin(Run(files, batch, Puts(ops)), batch, Moves(ops), from, to);
    PutsAllReturn(files, batch, Puts(ops), Run(files, batch, Puts(ops)));
  }

  /** Putting the batch back after an unnoted move restores the library if and only if that
      move took the file back to where the batch had first moved it from. */
  lemma BackIff<C>(files: map<Place, C>, batch: string, ops: seq<Op>, from: Parts, to: Parts)
    requires MovedUnnoted(files, batch, ops, from, to) && Unchained(ops)
    ensures Restored(AfterMove(files, batch, ops, from, to), batch, Log(ops)).files == files <==> Origin(ops, from) == to
  {
    if Origin(ops, from) == to {
      BackAtOrigin(files, batch, ops, from, to);
    } else {
      NotBack(files, batch, ops, from, to);
    }
  }

  lemma CleanUnnoted<C>(files: map<Place, C>, batch: string, ops: seq<Op>, from: Parts, to: Parts)
    requires MovedUnnoted(files, batch, ops, from, to)
    ensures CleanBatch(AfterMove(files, batch, ops, from, to), batch) && SafeLog(Log(ops))
  {
    RunIsClean(files, batch, ops);
    assert !InBatch(Library(to), batch);
  }

  lemma RunKeepsFiles<C>(files: map<Place, C>, batch: string, ops: seq<Op>)
    requires FreshBatch(files, batch) && LegalRun(files, batch, ops) && PutsOnlySettled(ops)
    ensures EveryFileKept(files, Run(files, batch, ops))
  {
    SettledPutsOnce(files, batch, ops);
    var j := NothingDeleted(files, batch, ops);
  }

  /** A run keeps every file if and only if it puts no path away twice. */
  lemma RunKeepsFilesIff<C>(files: map<Place, C>, batch: string, ops: seq<Op>)
    requires FreshBatch(files, batch) && LegalRun(files, batch, ops)
    ensures EveryFileKept(files, Run(files, batch, ops)) <==> PutsOnce(ops)
  {
    if PutsOnce(ops) {
      var j := NothingDeleted(files, batch, ops);
    } else if EveryFileKept(files, Run(files, batch, ops)) {
      var j := JourneyOf(files, Run(files, batch, ops));
      RelocatedSize(files, j, Run(files, batch, ops));
      NothingDeletedIff(files, batch, ops);
    }
  }

  lemma RestoreKeepsAll<C>(files: map<Place, C>, now: map<Place, C>, batch: string, log: seq<(Parts, Parts)>)
    requires EveryFileKept(files, now) && SafeLog(log) && CleanBatch(now, batch)
    ensures EveryFileKept(files, Restored(now, batch, log).files)
  {
    var j := RestoreKeepsFiles(now, batch, log);
    KeptAgain(files, now, Restored(now, batch, log).files);
  }

  lemma KeptAfterMove<C>(files: map<Place, C>, batch: string, ops: seq<Op>, from: Parts, to: Parts)
    requires MovedUnnoted(files, batch, ops, from, to)
    ensures EveryFileKept(files, AfterMove(files, batch, ops, from, to))
  {
    RunKeepsFiles(files, batch, ops);
    FilesStayKept(files, Run(files, batch, ops), Library(from), Library(to));
  }

  /** Either way no file is lost. */
  lemma KeptUnnoted<C>(files: map<Place, C>, batch: string, ops: seq<Op>, from: Parts, to: Parts)
    requires MovedUnnoted(files, batch, ops, from, to)
    ensures EveryFileKept(files, Restored(AfterMove(files, batch, ops, from, to), batch, Log(ops)).files)
  {
    KeptAfterMove(files, batch, ops, from, to);
    CleanUnnoted(files, batch, ops, from, to);
    RestoreKeepsAll(files, AfterMove(files, batch, ops, from, to), batch, Log(ops));
  }

  /** A library of one file, moved without a note: it stays where it was moved. */
  lemma OneFileStays<C>(files: map<Place, C>, batch: string)
    requires files.Keys == {Library(["a", "x.flac"])}
    ensures var from, to := ["a", "x.flac"], ["b", "x.flac"];
      && MovedUnnoted(files, batch, [], from, to)
      && Restored(AfterMove(files, batch, [], from, to), batch, []).files == Move(files, Library(from), Library(to)) != files
  {
    var from, to := ["a", "x.flac"], ["b", "x.flac"];
    assert from[0] != TRASH && to[0] != TRASH && from[0] != to[0];
    BackButForOne(files, batch, [], from, to);
    assert Library(to) in Move(files, Library(from), Library(to));
  }

  /** A file moved with a note and then back without one is home, but reported. */
  lemma ThereAndBack<C>(files: map<Place, C>, batch: string, home: Parts, away: Parts)
    requires FreshBatch(files, batch) && Legal(files, MoveTo(home, away))
    ensures MovedUnnoted(files, batch, [MoveTo(home, away)], away, home)
    ensures Log([MoveTo(home, away)]) == [(home, away)]
    ensures Restored(AfterMove(files, batch, [MoveTo(home, away)], away, home), batch, [(home, away)]) == Outcome(files, {away})
  {
    var ops := [MoveTo(home, away)];
    RunMore(files, batch, [], MoveTo(home, away));
    Unsnoc([], MoveTo(home, away));
    assert [] + ops == ops;
    assert AfterMove(files, batch, ops, away, home) == files;
    assert [(home, away)][..0] == [] && UndoMoves(files, []) == (files, []) && [away] + [] == [away];
    assert UndoMoves(files, [(home, away)]) == (files, [away]);
    NothingReturns(files, batch);
  }

  lemma NothingReturns<C>(files: map<Place, C>, batch: string)
    requires FreshBatch(files, batch)
    ensures Contents(files, batch) == {} && PutBack(files, batch) == files
  {
    KeptInside({}, batch);
    assert Contents(files, batch) == {} == Returning(files, batch);
  }

  // ---- moves between the run and the unnoted one ----

  /** Noted moves after a run, of other files and from other places: they are undone, and the
      rest goes as if they hadn't been made. */
  lemma LaterMovesGo<C>(files: map<Place, C>, batch: string, ops: seq<Op>, later: seq<Op>, from: Parts, to: Parts)
    requires OnlyMoves(later) && LegalRun(files, batch, ops + later) && Legal(Run(files, batch, ops + later), MoveTo(from, to))
    requires !IsTarget(later, from) && !IsSource(later, to)
    ensures LegalRun(files, batch, ops) && Legal(Run(files, batch, ops), MoveTo(from, to))
    ensures Restored(AfterMove(files, batch, ops + later, from, to), batch, Log(ops + later)) ==
      Restored(AfterMove(files, batch, ops, from, to), batch, Log(ops))
  {
    RunInTwo(files, batch, ops, later);
    LogInTwo(ops, later);
    UndoneAround(Run(files, batch, ops), batch, later, from, to);
    UndoMovesInTwo(AfterMove(files, batch, ops + later, from, to), Log(ops), Log(later));
    var left := UndoMoves(AfterMove(files, batch, ops, from, to), Log(ops)).1;
    assert [] + left == left;
  }

  lemma {:induction false} FirstPart(ops: seq<Op>, later: seq<Op>)
    requires PutsOnlySettled(ops + later) && NoRecords(ops + later)
    ensures PutsOnlySettled(ops) && NoRecords(ops)
  {
    assert forall op :: op in ops ==> op in ops + later;
    if later == [] {
      assert ops + later == ops;
    } else {
      assert (ops + later)[..|ops + later| - 1] == ops + later[..|later| - 1];
      assert NoRecords(ops + later[..|later| - 1]) by {
        assert forall op :: op in ops + later[..|later| - 1] ==> op in ops + later;
      }
      FirstPart(ops, later[..|later| - 1]);
    }
  }

  /** After a run that doesn't chain and then such moves, too: everything is back if and only if
      the unnoted move took the file back to where the run had first moved it from. */
  lemma BackAfterLaterIff<C>(files: map<Place, C>, batch: string, ops: seq<Op>, later: seq<Op>, from: Parts, to: Parts)
    requires MovedUnnoted(files, batch, ops + later, from, to) && Unchained(ops) && OnlyMoves(later)
    requires !IsTarget(later, from) && !IsSource(later, to)
    ensures Restored(AfterMove(files, batch, ops + later, from, to), batch, Log(ops + later)).files == files <==>
      Origin(ops, from) == to
  {
    LaterMovesGo(files, batch, ops, later, from, to);
    FirstPart(ops, later);
    BackIff(files, batch, ops, from, to);
  }
}
