/** What a trash batch does, and what putting it back does (`crates/delune-library/src/trash.rs`). */
module Batches {
  // A batch is a run of files put away and files moved within the library, and only the moves are
  // written down.

  import opened Text
  import opened Paths
  import opened Relocation

  /** A step of a batch: a file leaves the library for it, or changes its place in the library. */
  datatype Op = PutAway(parts: Parts) | MoveTo(from: Parts, to: Parts)

  /** Where batch `batch` keeps a library file. */
  function Kept(batch: string, parts: Parts): Place {
    Library([TRASH, batch] + parts)
  }

  predicate InBatch(place: Place, batch: string) {
    place.Library? && 2 < |place.parts| && place.parts[0] == TRASH && place.parts[1] == batch
  }

  /** The library path a file of the batch came from. */
  function Inside(place: Place): Parts
    requires place.Library? && 2 <= |place.parts|
  {
    place.parts[2..]
  }

  /** Taken for one of a batch's own notes: directly in it, and named like one. */
  predicate IsRecord(parts: Parts) {
    |parts| == 1 && ".delune-" <= parts[0]
  }

  predicate FreshBatch<C>(files: map<Place, C>, batch: string) {
    forall p :: p in files ==> !InBatch(p, batch)
  }

  // ---- runs ----

  function Step<C>(files: map<Place, C>, batch: string, op: Op): map<Place, C> {
    match op
    case PutAway(parts) => Move(files, Library(parts), Kept(batch, parts))
    case MoveTo(from, to) => Move(files, Library(from), Library(to))
  }

  function Run<C>(files: map<Place, C>, batch: string, ops: seq<Op>): map<Place, C> {
    if ops == [] then files else Step(Run(files, batch, ops[..|ops| - 1]), batch, ops[|ops| - 1])
  }

  /** What the code makes sure of before each step: the file is there and in the library,
      and a move doesn't replace anything. */
  predicate Legal<C>(files: map<Place, C>, op: Op) {
    match op
    case PutAway(parts) => IsLibrary(parts) && Library(parts) in files
    case MoveTo(from, to) => IsLibrary(from) && IsLibrary(to) && Library(from) in files && Library(to) !in files
  }

  predicate LegalRun<C>(files: map<Place, C>, batch: string, ops: seq<Op>) {
    ops == [] ||
    (LegalRun(files, batch, ops[..|ops| - 1]) && Legal(Run(files, batch, ops[..|ops| - 1]), ops[|ops| - 1]))
  }

  /** The moves of a run, as its log lists them. */
  function Log(ops: seq<Op>): seq<(Parts, Parts)> {
    if ops == [] then []
    else
      var rest := Log(ops[..|ops| - 1]);
      match ops[|ops| - 1]
      case PutAway(_) => rest
      case MoveTo(from, to) => rest + [(from, to)]
  }

  function Puts(ops: seq<Op>): (r: seq<Op>)
    ensures forall op :: op in r <==> op in ops && op.PutAway?
  {
    if ops == [] then []
    else
      var last := ops[|ops| - 1];
      assert ops == ops[..|ops| - 1] + [last];
      Puts(ops[..|ops| - 1]) + if last.PutAway? then [last] else []
  }

  function Moves(ops: seq<Op>): (r: seq<Op>)
    ensures forall op :: op in r <==> op in ops && op.MoveTo?
  {
    if ops == [] then []
    else
      var last := ops[|ops| - 1];
      assert ops == ops[..|ops| - 1] + [last];
      Moves(ops[..|ops| - 1]) + if last.MoveTo? then [last] else []
  }

  /** A move of the run brought a file to `parts`. */
  predicate IsTarget(ops: seq<Op>, parts: Parts) {
    exists op :: op in ops && op.MoveTo? && op.to == parts
  }

  /** No file is put away from a place a move of the same run brought one to. */
  predicate PutsOnlySettled(ops: seq<Op>) {
    ops == [] ||
    (PutsOnlySettled(ops[..|ops| - 1]) && (ops[|ops| - 1].PutAway? ==> !IsTarget(ops[..|ops| - 1], ops[|ops| - 1].parts)))
  }

  // ---- putting a batch back ----

  /** Undoing the noted moves, newest first; what can't go back is left. */
  function UndoMoves<C>(files: map<Place, C>, log: seq<(Parts, Parts)>): (map<Place, C>, seq<Parts>)
    decreases |log|
  {
    if log == [] then (files, [])
    else
      var (was, now) := log[|log| - 1];
      var rest := log[..|log| - 1];
      if Library(now) !in files || Library(was) in files then
        var (r, left) := UndoMoves(files, rest);
        (r, [now] + left)
      else UndoMoves(Move(files, Library(now), Library(was)), rest)
  }

  /** The files of the batch, by the library path they came from. */
  function Contents<C>(files: map<Place, C>, batch: string): (r: set<Parts>)
    ensures forall parts :: parts in r <==> parts != [] && Kept(batch, parts) in files && !IsRecord(parts)
  {
    KeptInside(files.Keys, batch);
    set p | p in files && InBatch(p, batch) && !IsRecord(Inside(p)) :: Inside(p)
  }

  lemma InsideKept(p: Place, batch: string)
    requires InBatch(p, batch)
    ensures p == Kept(batch, Inside(p))
  {
  }

  lemma KeptInside(places: set<Place>, batch: string)
    ensures forall p :: p in places && InBatch(p, batch) ==> p == Kept(batch, Inside(p))
    ensures forall parts :: parts != [] ==> InBatch(Kept(batch, parts), batch) && Inside(Kept(batch, parts)) == parts
  {
  }

  /** The files of the batch whose place isn't taken again. */
  function Returning<C>(files: map<Place, C>, batch: string): set<Parts> {
    set parts | parts in Contents(files, batch) && Library(parts) !in files
  }

  /** The files of `returning` leave the batch for their places in the library. */
  function PutBackOnly<C>(files: map<Place, C>, batch: string, returning: set<Parts>): map<Place, C>
    requires returning <= Returning(files, batch)
  {
    map p | p in files.Keys + (set parts | parts in returning :: Library(parts)) &&
            (p in files ==> !(InBatch(p, batch) && Inside(p) in returning)) ::
      if p in files then files[p] else files[Kept(batch, p.parts)]
  }

  function PutBack<C>(files: map<Place, C>, batch: string): map<Place, C> {
    PutBackOnly(files, batch, Returning(files, batch))
  }

  /** One file more goes back. */
  lemma BackOne<C>(files: map<Place, C>, batch: string, done: set<Parts>, parts: Parts)
    requires done + {parts} <= Returning(files, batch) && parts !in done
    requires forall q :: q in Contents(files, batch) ==> IsLibrary(q)
    ensures Kept(batch, parts) in PutBackOnly(files, batch, done) && Library(parts) !in PutBackOnly(files, batch, done)
    ensures Move(PutBackOnly(files, batch, done), Kept(batch, parts), Library(parts)) == PutBackOnly(files, batch, done + {parts})
  {
    KeptInside(files.Keys, batch);
    assert InBatch(Kept(batch, parts), batch) && Inside(Kept(batch, parts)) == parts;
    forall q | q in done + {parts} ensures IsLibrary(q) && !InBatch(Library(q), batch) {}
    var now, next := PutBackOnly(files, batch, done), PutBackOnly(files, batch, done + {parts});
    forall p ensures p in next <==> p in Move(now, Kept(batch, parts), Library(parts)) {
      if InBatch(p, batch) { InsideKept(p, batch); }
    }
  }

  /** The batch's folder is deleted with whatever is in it. */
  function Swept<C>(files: map<Place, C>, batch: string): map<Place, C> {
    map p | p in files && !InBatch(p, batch) :: files[p]
  }

  datatype Outcome<C> = Outcome(files: map<Place, C>, left: set<Parts>)

  function Restored<C>(files: map<Place, C>, batch: string, log: seq<(Parts, Parts)>): Outcome<C> {
    var (undone, unmoved) := UndoMoves(files, log);
    var left := (set parts | parts in unmoved) + (Contents(undone, batch) - Returning(undone, batch));
    var back := PutBack(undone, batch);
    Outcome(if left == {} then Swept(back, batch) else back, left)
  }

  // ---- undoing a run exactly ----

  /** Undoing legal moves newest first is exact. */
  lemma {:induction false} UndoMovesExactly<C>(files: map<Place, C>, batch: string, moves: seq<Op>)
    requires LegalRun(files, batch, moves) && forall op :: op in moves ==> op.MoveTo?
    ensures UndoMoves(Run(files, batch, moves), Log(moves)) == (files, [])
  {
    if moves != [] {
      var rest, last := moves[..|moves| - 1], moves[|moves| - 1];
      assert last in moves;
      UndoMovesExactly(files, batch, rest);
      var before := Run(files, batch, rest);
      assert Log(moves) == Log(rest) + [(last.from, last.to)];
      assert Log(moves)[..|Log(moves)| - 1] == Log(rest);
      assert Move(Move(before, Library(last.from), Library(last.to)), Library(last.to), Library(last.from)) == before;
    }
  }

  /** Putting away a file no move brought to its place could have been done first. */
  lemma {:induction false} PutCommutes<C>(files: map<Place, C>, batch: string, moves: seq<Op>, parts: Parts)
    requires LegalRun(files, batch, moves) && (forall op :: op in moves ==> op.MoveTo?)
    requires Legal(Run(files, batch, moves), PutAway(parts)) && !IsTarget(moves, parts)
    ensures Legal(files, PutAway(parts))
    ensures LegalRun(Step(files, batch, PutAway(parts)), batch, moves)
    ensures Run(Step(files, batch, PutAway(parts)), batch, moves) == Step(Run(files, batch, moves), batch, PutAway(parts))
  {
    if moves != [] {
      var rest, last := moves[..|moves| - 1], moves[|moves| - 1];
      assert last in moves;
      assert !IsTarget(rest, parts) by {
        assert forall op :: op in rest ==> op in moves;
      }
      assert last.to != parts;
      PutCommutes(files, batch, rest, parts);
      MovesCommute(Run(files, batch, rest), Library(parts), Kept(batch, parts), Library(last.from), Library(last.to));
    }
  }

  lemma MovesCommute<C>(files: map<Place, C>, a: Place, b: Place, c: Place, d: Place)
    requires a in files && c in files && a != c && a != d && b != c && b != d && a != b && c != d
    ensures Move(Move(files, a, b), c, d) == Move(Move(files, c, d), a, b)
  {
  }

  lemma Unsnoc(ops: seq<Op>, last: Op)
    ensures (ops + [last])[..|ops + [last]| - 1] == ops
    ensures Puts(ops + [last]) == if last.PutAway? then Puts(ops) + [last] else Puts(ops)
    ensures Moves(ops + [last]) == if last.MoveTo? then Moves(ops) + [last] else Moves(ops)
    ensures Log(ops + [last]) == if last.MoveTo? then Log(ops) + [(last.from, last.to)] else Log(ops)
  {
    assert (ops + [last])[..|ops + [last]| - 1] == ops;
  }

  lemma RunMore<C>(files: map<Place, C>, batch: string, ops: seq<Op>, last: Op)
    ensures Run(files, batch, ops + [last]) == Step(Run(files, batch, ops), batch, last)
    ensures LegalRun(files, batch, ops + [last]) <==> LegalRun(files, batch, ops) && Legal(Run(files, batch, ops), last)
    ensures PutsOnlySettled(ops + [last]) <==>
      PutsOnlySettled(ops) && (last.PutAway? ==> !IsTarget(ops, last.parts))
  {
    Unsnoc(ops, last);
  }

  /** The run could have done all its puts, then all its moves. */
  ghost predicate CanPutFirst<C>(files: map<Place, C>, batch: string, ops: seq<Op>) {
    && LegalRun(files, batch, Puts(ops))
    && LegalRun(Run(files, batch, Puts(ops)), batch, Moves(ops))
    && Run(files, batch, ops) == Run(Run(files, batch, Puts(ops)), batch, Moves(ops))
    && Log(Moves(ops)) == Log(ops)
  }

  lemma PutFirstThenMove<C>(files: map<Place, C>, batch: string, ops: seq<Op>, last: Op)
    requires CanPutFirst(files, batch, ops) && last.MoveTo? && Legal(Run(files, batch, ops), last)
    ensures CanPutFirst(files, batch, ops + [last])
  {
    Unsnoc(ops, last);
    Unsnoc(Moves(ops), last);
    RunMore(files, batch, ops, last);
    RunMore(Run(files, batch, Puts(ops)), batch, Moves(ops), last);
  }

  lemma PutFirstThenPut<C>(files: map<Place, C>, batch: string, ops: seq<Op>, last: Op)
    requires CanPutFirst(files, batch, ops) && last.PutAway? && Legal(Run(files, batch, ops), last)
    requires !IsTarget(ops, last.parts)
    ensures CanPutFirst(files, batch, ops + [last])
  {
    Unsnoc(ops, last);
    assert !IsTarget(Moves(ops), last.parts);
    PutCommutes(Run(files, batch, Puts(ops)), batch, Moves(ops), last.parts);
    RunMore(files, batch, ops, last);
    RunMore(files, batch, Puts(ops), last);
  }

  /** A run that puts away only settled files is its puts, then its moves. */
  lemma {:induction false} PutsComeFirst<C>(files: map<Place, C>, batch: string, ops: seq<Op>)
    requires LegalRun(files, batch, ops) && PutsOnlySettled(ops)
    ensures CanPutFirst(files, batch, ops)
  {
    if ops != [] {
      var rest, last := ops[..|ops| - 1], ops[|ops| - 1];
      assert ops == rest + [last];
      PutsComeFirst(files, batch, rest);
      if last.MoveTo? {
        PutFirstThenMove(files, batch, rest, last);
      } else {
        PutFirstThenPut(files, batch, rest, last);
      }
    }
  }

  predicate WasPut(puts: seq<Op>, p: Place) {
    p.Library? && PutAway(p.parts) in puts
  }

  predicate IsKept(puts: seq<Op>, batch: string, p: Place) {
    InBatch(p, batch) && PutAway(Inside(p)) in puts
  }

  /** Each file in `puts` is in the batch, and everything else where it was. */
  ghost predicate PutAside<C>(files: map<Place, C>, batch: string, puts: seq<Op>, now: map<Place, C>) {
    && (forall op :: op in puts ==> op.PutAway? && IsLibrary(op.parts) && Library(op.parts) in files)
    && (forall p :: p in now <==> (p in files && !WasPut(puts, p)) || IsKept(puts, batch, p))
    && (forall p :: p in now && !InBatch(p, batch) ==> now[p] == files[p])
    && (forall op :: op in puts ==> now[Kept(batch, op.parts)] == files[Library(op.parts)])
  }

  lemma PutAsideNext<C>(files: map<Place, C>, batch: string, puts: seq<Op>, now: map<Place, C>, last: Op)
    requires FreshBatch(files, batch) && PutAside(files, batch, puts, now)
    requires last.PutAway? && Legal(now, last)
    ensures PutAside(files, batch, puts + [last], Step(now, batch, last))
  {
    KeptInside(now.Keys + Step(now, batch, last).Keys, batch);
    assert !InBatch(Library(last.parts), batch);
    assert last !in puts;
    var now' := Step(now, batch, last);
    forall p ensures p in now' <==> (p in files && !WasPut(puts + [last], p)) || IsKept(puts + [last], batch, p) {
      if p == Kept(batch, last.parts) {
        assert IsKept(puts + [last], batch, p);
      } else {
        assert IsKept(puts + [last], batch, p) == IsKept(puts, batch, p) by {
          if InBatch(p, batch) {
            InsideKept(p, batch);
          }
        }
      }
    }
  }

  /** Puts alone leave each file in the batch and everything else where it was. */
  lemma {:induction false} PutsAlone<C>(files: map<Place, C>, batch: string, puts: seq<Op>)
    requires FreshBatch(files, batch) && LegalRun(files, batch, puts) && forall op :: op in puts ==> op.PutAway?
    ensures PutAside(files, batch, puts, Run(files, batch, puts))
  {
    if puts != [] {
      var rest, last := puts[..|puts| - 1], puts[|puts| - 1];
      assert puts == rest + [last] && last in puts;
      PutsAlone(files, batch, rest);
      PutAsideNext(files, batch, rest, Run(files, batch, rest), last);
    }
  }

  /** None of the run's files would be mistaken for the batch's own notes. */
  predicate NoRecords(ops: seq<Op>) {
    forall op :: op in ops && op.PutAway? ==> !IsRecord(op.parts)
  }

  /** The places of a run's files that would be. */
  function RecordsPut(ops: seq<Op>): set<Place> {
    set op | op in ops && op.PutAway? && IsRecord(op.parts) :: Library(op.parts)
  }

  lemma KeptReturn<C>(files: map<Place, C>, batch: string, puts: seq<Op>, now: map<Place, C>)
    requires FreshBatch(files, batch) && PutAside(files, batch, puts, now)
    ensures Contents(now, batch) == Returning(now, batch)
    ensures forall parts :: parts in Returning(now, batch) <==> PutAway(parts) in puts && !IsRecord(parts)
  {
    KeptInside(now.Keys + files.Keys, batch);
    forall parts | parts in Contents(now, batch)
      ensures PutAway(parts) in puts && Library(parts) in files && Library(parts) !in now
    {
      assert InBatch(Kept(batch, parts), batch);
      assert IsKept(puts, batch, Kept(batch, parts));
      assert !InBatch(Library(parts), batch);
    }
    forall op | op in puts && !IsRecord(op.parts) ensures op.parts in Contents(now, batch) {
      assert IsKept(puts, batch, Kept(batch, op.parts));
    }
  }

  /** What was put away returns, but for files that look like the batch's own notes: those go
      with the batch's folder. */
  lemma PutBackUndoesPuts<C>(files: map<Place, C>, batch: string, puts: seq<Op>, now: map<Place, C>)
    requires FreshBatch(files, batch) && PutAside(files, batch, puts, now)
    ensures Contents(now, batch) == Returning(now, batch)
    ensures Swept(PutBack(now, batch), batch) == files - RecordsPut(puts)
  {
    KeptInside(now.Keys + files.Keys, batch);
    KeptReturn(files, batch, puts, now);
    var back := Swept(PutBack(now, batch), batch);
    forall p | p in files - RecordsPut(puts) ensures p in back && back[p] == files[p] {
      assert !InBatch(p, batch);
      if WasPut(puts, p) {
        assert !IsRecord(p.parts) by {
          assert PutAway(p.parts) in puts;
        }
        assert p.parts in Returning(now, batch);
      }
    }
    forall p | p in back ensures p in files - RecordsPut(puts) {
      PutBackHolds(files, batch, puts, now, p);
    }
  }

  lemma PutBackHolds<C>(files: map<Place, C>, batch: string, puts: seq<Op>, now: map<Place, C>, p: Place)
    requires FreshBatch(files, batch) && PutAside(files, batch, puts, now)
    requires p in PutBack(now, batch) && !InBatch(p, batch)
    ensures p in files && p !in RecordsPut(puts)
  {
    KeptReturn(files, batch, puts, now);
    if p in now {
      assert p in files && !WasPut(puts, p);
    } else {
      assert p.parts in Returning(now, batch);
    }
  }

  /** Putting a batch back after its run: every file returns to where it began, but for those
      that look like the batch's own notes, and nothing is reported left. */
  lemma AllButRecordsReturn<C>(files: map<Place, C>, batch: string, ops: seq<Op>)
    requires FreshBatch(files, batch) && LegalRun(files, batch, ops) && PutsOnlySettled(ops)
    ensures Restored(Run(files, batch, ops), batch, Log(ops)) == Outcome(files - RecordsPut(ops), {})
    ensures RecordsPut(ops) <= files.Keys
  {
    PutsComeFirst(files, batch, ops);
    PutsAlone(files, batch, Puts(ops));
    var put := Run(files, batch, Puts(ops));
    UndoMovesExactly(put, batch, Moves(ops));
    PutBackUndoesPuts(files, batch, Puts(ops), put);
    RecordsArePut(files, batch, ops, put);
    RestoredFrom(Run(files, batch, ops), batch, Log(ops), put);
  }

  lemma RecordsArePut<C>(files: map<Place, C>, batch: string, ops: seq<Op>, put: map<Place, C>)
    requires PutAside(files, batch, Puts(ops), put)
    ensures RecordsPut(Puts(ops)) == RecordsPut(ops) <= files.Keys
  {
  }

  /** With every move undone and every place free, the whole batch goes back. */
  lemma RestoredFrom<C>(now: map<Place, C>, batch: string, log: seq<(Parts, Parts)>, put: map<Place, C>)
    requires UndoMoves(now, log) == (put, []) && Contents(put, batch) == Returning(put, batch)
    ensures Restored(now, batch, log) == Outcome(Swept(PutBack(put, batch), batch), {})
  {
  }

  lemma UndoIsExact<C>(files: map<Place, C>, batch: string, ops: seq<Op>)
    requires FreshBatch(files, batch) && LegalRun(files, batch, ops) && NoRecords(ops)
    requires PutsOnlySettled(ops)
    ensures Restored(Run(files, batch, ops), batch, Log(ops)) == Outcome(files, {})
  {
    AllButRecordsReturn(files, batch, ops);
    assert RecordsPut(ops) == {};
    assert files - {} == files;
  }

  // ---- and when it isn't exact ----

  /** Undoing a log in two parts, the newer one first. */
  lemma {:induction false} UndoMovesInTwo<C>(files: map<Place, C>, older: seq<(Parts, Parts)>, newer: seq<(Parts, Parts)>)
    ensures UndoMoves(files, older + newer) ==
      (UndoMoves(UndoMoves(files, newer).0, older).0, UndoMoves(files, newer).1 + UndoMoves(UndoMoves(files, newer).0, older).1)
    decreases |newer|
  {
    if newer == [] {
      assert older + newer == older;
      var left := UndoMoves(files, older).1;
      assert [] + left == left;
    } else {
      var (was, now) := newer[|newer| - 1];
      var rest := newer[..|newer| - 1];
      assert (older + newer)[..|older + newer| - 1] == older + rest;
      if Library(now) !in files || Library(was) in files {
        UndoMovesInTwo(files, older, rest);
        var (middle, left) := UndoMoves(files, rest);
        var more := UndoMoves(middle, older).1;
        assert ([now] + left) + more == [now] + (left + more);
      } else {
        UndoMovesInTwo(Move(files, Library(now), Library(was)), older, rest);
      }
    }
  }

  lemma {:induction false} LogInTwo(ops: seq<Op>, more: seq<Op>)
    ensures Log(ops + more) == Log(ops) + Log(more)
  {
    if more == [] {
      assert ops + more == ops;
    } else {
      assert (ops + more)[..|ops + more| - 1] == ops + more[..|more| - 1];
      LogInTwo(ops, more[..|more| - 1]);
    }
  }

  lemma {:induction false} RunInTwo<C>(files: map<Place, C>, batch: string, ops: seq<Op>, more: seq<Op>)
    ensures Run(files, batch, ops + more) == Run(Run(files, batch, ops), batch, more)
    ensures LegalRun(files, batch, ops + more) <==> LegalRun(files, batch, ops) && LegalRun(Run(files, batch, ops), batch, more)
  {
    if more == [] {
      assert ops + more == ops;
    } else {
      assert (ops + more)[..|ops + more| - 1] == ops + more[..|more| - 1];
      RunInTwo(files, batch, ops, more[..|more| - 1]);
    }
  }

  /** The newest entry of the log that mentions `parts` moved a file there. */
  predicate NewestIsArrival(log: seq<(Parts, Parts)>, parts: Parts) {
    log != [] &&
    (log[|log| - 1].1 == parts || (log[|log| - 1].0 != parts && NewestIsArrival(log[..|log| - 1], parts)))
  }

  /** A file a move brought somewhere, and that is still there, is the newest mention. */
  lemma {:induction false} ArrivalsShowInLog<C>(files: map<Place, C>, batch: string, ops: seq<Op>, parts: Parts)
    requires LegalRun(files, batch, ops) && IsTarget(ops, parts) && Library(parts) in Run(files, batch, ops)
    requires IsLibrary(parts)
    ensures NewestIsArrival(Log(ops), parts)
  {
    var rest, last := ops[..|ops| - 1], ops[|ops| - 1];
    assert ops == rest + [last];
    if last.PutAway? || last.to != parts {
      assert IsTarget(rest, parts);
      assert Library(parts) in Run(files, batch, rest);
      ArrivalsShowInLog(files, batch, rest, parts);
    }
    if last.MoveTo? {
      assert Log(ops)[..|Log(ops)| - 1] == Log(rest);
    }
  }

  /** A move can't be undone once its file has gone from where it was brought. */
  lemma {:induction false} GoneMeansLeft<C>(files: map<Place, C>, log: seq<(Parts, Parts)>, parts: Parts)
    requires Library(parts) !in files && NewestIsArrival(log, parts)
    ensures UndoMoves(files, log).1 != []
    decreases |log|
  {
    var (was, now) := log[|log| - 1];
    if now != parts {
      if Library(now) !in files || Library(was) in files {
      } else {
        GoneMeansLeft(Move(files, Library(now), Library(was)), log[..|log| - 1], parts);
      }
    }
  }

  /** The run's last put from a place a move had brought a file to. */
  lemma {:induction false} LastUnsettledPut(ops: seq<Op>) returns (early: seq<Op>, put: Op, later: seq<Op>)
    requires !PutsOnlySettled(ops)
    ensures ops == (early + [put]) + later
    ensures put.PutAway? && IsTarget(early, put.parts) && PutsOnlySettled(later)
  {
    var rest, last := ops[..|ops| - 1], ops[|ops| - 1];
    assert ops == rest + [last];
    if last.PutAway? && IsTarget(rest, last.parts) {
      early, put, later := rest, last, [];
    } else {
      early, put, later := LastUnsettledPut(rest);
      assert (later + [last])[..|later + [last]| - 1] == later;
      assert forall op :: op in later ==> op in rest;
      assert ops == (early + [put]) + (later + [last]);
      later := later + [last];
    }
  }

  /** However the run went on, undoing its later moves doesn't bring back what was put away
      before them. */
  lemma LaterMovesUndone<C>(middle: map<Place, C>, batch: string, later: seq<Op>, p: Place)
    requires LegalRun(middle, batch, later) && PutsOnlySettled(later)
    requires p !in middle && p.Library? && IsLibrary(p.parts)
    ensures p !in UndoMoves(Run(middle, batch, later), Log(later)).0
  {
    PutsComeFirst(middle, batch, later);
    UndoMovesExactly(Run(middle, batch, Puts(later)), batch, Moves(later));
    AfterPuts(middle, batch, Puts(later), p.parts);
  }

  /** Once a moved file has been put away, its move can't be undone: something is left. */
  lemma UnsettledMeansLeft<C>(files: map<Place, C>, batch: string, ops: seq<Op>)
    requires LegalRun(files, batch, ops) && !PutsOnlySettled(ops)
    ensures UndoMoves(Run(files, batch, ops), Log(ops)).1 != []
  {
    var early, put, later := LastUnsettledPut(ops);
    UnsettledPutMeansLeft(files, batch, early, put, later);
  }

  lemma UnsettledPutMeansLeft<C>(files: map<Place, C>, batch: string, early: seq<Op>, put: Op, later: seq<Op>)
    requires LegalRun(files, batch, (early + [put]) + later) && put.PutAway?
    requires IsTarget(early, put.parts) && PutsOnlySettled(later)
    ensures UndoMoves(Run(files, batch, (early + [put]) + later), Log((early + [put]) + later)).1 != []
  {
    RunInTwo(files, batch, early + [put], later);
    LogInTwo(early + [put], later);
    PutArrival(files, batch, early, put);
    var middle, end := Run(files, batch, early + [put]), Run(files, batch, (early + [put]) + later);
    LaterMovesUndone(middle, batch, later, Library(put.parts));
    UndoMovesInTwo(end, Log(early), Log(later));
    GoneMeansLeft(UndoMoves(end, Log(later)).0, Log(early), put.parts);
  }

  /** What was moved somewhere and put away is gone, with its move the newest mention of the place. */
  lemma PutArrival<C>(files: map<Place, C>, batch: string, early: seq<Op>, put: Op)
    requires LegalRun(files, batch, early + [put]) && put.PutAway? && IsTarget(early, put.parts)
    ensures IsLibrary(put.parts) && Library(put.parts) !in Run(files, batch, early + [put])
    ensures Log(early + [put]) == Log(early) && NewestIsArrival(Log(early), put.parts)
  {
    RunMore(files, batch, early, put);
    Unsnoc(early, put);
    ArrivalsShowInLog(files, batch, early, put.parts);
  }

  lemma {:induction false} NoMoves(ops: seq<Op>)
    requires forall op :: op in ops ==> op.PutAway?
    ensures Log(ops) == [] && PutsOnlySettled(ops)
  {
    if ops != [] {
      assert ops[|ops| - 1] in ops;
      NoMoves(ops[..|ops| - 1]);
    }
  }

  /** Puts alone leave every other file of the library where it was. */
  lemma {:induction false} AfterPuts<C>(files: map<Place, C>, batch: string, puts: seq<Op>, p: Parts)
    requires (forall op :: op in puts ==> op.PutAway?) && IsLibrary(p)
    ensures Library(p) in Run(files, batch, puts) <==> Library(p) in files && PutAway(p) !in puts
    ensures Library(p) in Run(files, batch, puts) ==> Run(files, batch, puts)[Library(p)] == files[Library(p)]
  {
    if puts != [] {
      var rest, last := puts[..|puts| - 1], puts[|puts| - 1];
      assert puts == rest + [last] && last in puts;
      AfterPuts(files, batch, rest, p);
    }
  }

  lemma {:induction false} PutWasThere<C>(files: map<Place, C>, batch: string, puts: seq<Op>, p: Parts)
    requires LegalRun(files, batch, puts) && (forall op :: op in puts ==> op.PutAway?) && PutAway(p) in puts
    ensures IsLibrary(p) && Library(p) in files
  {
    var rest, last := puts[..|puts| - 1], puts[|puts| - 1];
    assert puts == rest + [last] && last in puts && forall op :: op in rest ==> op in puts;
    if last == PutAway(p) {
      AfterPuts(files, batch, rest, p);
    } else {
      PutWasThere(files, batch, rest, p);
    }
  }

  /** A file put away is gone from its place until a move brings one there. */
  lemma {:induction false} PutIsGone<C>(files: map<Place, C>, batch: string, ops: seq<Op>, parts: Parts)
    requires LegalRun(files, batch, ops) && PutAway(parts) in ops && IsLibrary(parts) && !IsTarget(ops, parts)
    ensures Library(parts) !in Run(files, batch, ops)
  {
    var rest, last := ops[..|ops| - 1], ops[|ops| - 1];
    assert ops == rest + [last];
    assert last.MoveTo? ==> last.to != parts;
    if last != PutAway(parts) {
      assert !IsTarget(rest, parts) by {
        assert forall op :: op in rest ==> op in ops;
      }
      PutIsGone(files, batch, rest, parts);
    }
  }

  /** Putting a batch back restores the library exactly, with nothing left, if and only if
      its run never put away a file it had moved, nor one that looks like a note. */
  lemma UndoIsExactIff<C>(files: map<Place, C>, batch: string, ops: seq<Op>)
    requires FreshBatch(files, batch) && LegalRun(files, batch, ops)
    ensures Restored(Run(files, batch, ops), batch, Log(ops)) == Outcome(files, {}) <==> PutsOnlySettled(ops) && NoRecords(ops)
  {
    if !PutsOnlySettled(ops) {
      UnsettledMeansLeft(files, batch, ops);
      var unmoved := UndoMoves(Run(files, batch, ops), Log(ops)).1;
      assert unmoved[0] in Restored(Run(files, batch, ops), batch, Log(ops)).left;
    } else if NoRecords(ops) {
      UndoIsExact(files, batch, ops);
    } else {
      AllButRecordsReturn(files, batch, ops);
      var op :| op in ops && op.PutAway? && IsRecord(op.parts);
      assert Library(op.parts) in RecordsPut(ops) && Library(op.parts) in files.Keys;
    }
  }

  // ---- nothing is deleted ----

  /** No library path is put away twice. */
  predicate PutsOnce(ops: seq<Op>) {
    ops == [] ||
    (PutsOnce(ops[..|ops| - 1]) && (ops[|ops| - 1].PutAway? ==> ops[|ops| - 1] !in ops[..|ops| - 1]))
  }

  /** The batch holds exactly what the run put there, and it stays. */
  lemma {:induction false} BatchHoldsPuts<C>(files: map<Place, C>, batch: string, ops: seq<Op>, parts: Parts)
    requires FreshBatch(files, batch) && LegalRun(files, batch, ops) && parts != []
    ensures Kept(batch, parts) in Run(files, batch, ops) <==> PutAway(parts) in ops
  {
    KeptInside(files.Keys, batch);
    if ops != [] {
      var rest, last := ops[..|ops| - 1], ops[|ops| - 1];
      assert ops == rest + [last];
      BatchHoldsPuts(files, batch, rest, parts);
      if last.PutAway? && Kept(batch, last.parts) == Kept(batch, parts) {
        assert Inside(Kept(batch, last.parts)) == Inside(Kept(batch, parts));
      }
    }
  }

  /** As long as no path is put away twice, every file is still there, once, unchanged. */
  lemma {:induction false} NothingDeleted<C>(files: map<Place, C>, batch: string, ops: seq<Op>) returns (j: Journey)
    requires FreshBatch(files, batch) && LegalRun(files, batch, ops) && PutsOnce(ops)
    ensures Relocated(files, j, Run(files, batch, ops))
  {
    if ops == [] {
      NothingMoved(files);
      j := Nowhere(files);
    } else {
      var rest, last := ops[..|ops| - 1], ops[|ops| - 1];
      j := NothingDeleted(files, batch, rest);
      var now := Run(files, batch, rest);
      var from := if last.PutAway? then Library(last.parts) else Library(last.from);
      var to := if last.PutAway? then Kept(batch, last.parts) else Library(last.to);
      if last.PutAway? {
        BatchHoldsPuts(files, batch, rest, last.parts);
      }
      MoveToFree(files, j, now, j.home[from], to);
      j := j.Onward(j.home[from], to);
    }
  }

  lemma {:induction false} RunNeverGrows<C>(files: map<Place, C>, batch: string, ops: seq<Op>)
    requires FreshBatch(files, batch) && LegalRun(files, batch, ops)
    ensures |Run(files, batch, ops)| <= |files|
    ensures !PutsOnce(ops) ==> |Run(files, batch, ops)| < |files|
  {
    if ops != [] {
      var rest, last := ops[..|ops| - 1], ops[|ops| - 1];
      RunNeverGrows(files, batch, rest);
      var now, next := Run(files, batch, rest), Run(files, batch, ops);
      var from := if last.PutAway? then Library(last.parts) else Library(last.from);
      var to := if last.PutAway? then Kept(batch, last.parts) else Library(last.to);
      assert next.Keys == now.Keys - {from} + {to};
      if last.PutAway? {
        BatchHoldsPuts(files, batch, rest, last.parts);
        if last in rest {
          assert next.Keys == now.Keys - {from};
        }
      }
    }
  }

  /** A run that puts away only settled files puts none away twice, so it deletes nothing. */
  lemma {:induction false} SettledPutsOnce<C>(files: map<Place, C>, batch: string, ops: seq<Op>)
    requires LegalRun(files, batch, ops) && PutsOnlySettled(ops)
    ensures PutsOnce(ops)
  {
    if ops != [] {
      var rest, last := ops[..|ops| - 1], ops[|ops| - 1];
      SettledPutsOnce(files, batch, rest);
      if last.PutAway? && last in rest {
        PutIsGone(files, batch, rest, last.parts);
        assert false;
      }
    }
  }

  /** Moves after it don't change whether a run puts away settled files only, and each once. */
  lemma {:induction false} MovesChangeNeither(ops: seq<Op>, moves: seq<Op>)
    requires forall op :: op in moves ==> op.MoveTo?
    ensures PutsOnlySettled(ops + moves) <==> PutsOnlySettled(ops)
    ensures PutsOnce(ops + moves) <==> PutsOnce(ops)
  {
    if moves == [] {
      assert ops + moves == ops;
    } else {
      assert (ops + moves)[..|ops + moves| - 1] == ops + moves[..|moves| - 1];
      assert moves[|moves| - 1] in moves;
      MovesChangeNeither(ops, moves[..|moves| - 1]);
    }
  }

  /** The library and its trash together lose a file if and only if some path is put away
      twice in the batch: the second copy replaces the first. */
  lemma NothingDeletedIff<C>(files: map<Place, C>, batch: string, ops: seq<Op>)
    requires FreshBatch(files, batch) && LegalRun(files, batch, ops)
    ensures |Run(files, batch, ops)| == |files| <==> PutsOnce(ops)
  {
    RunNeverGrows(files, batch, ops);
    if PutsOnce(ops) {
      var j := NothingDeleted(files, batch, ops);
      RelocatedSize(files, j, Run(files, batch, ops));
    }
  }

  // ---- putting back never destroys ----

  predicate SafeLog(log: seq<(Parts, Parts)>) {
    forall move :: move in log ==> IsLibrary(move.0) && IsLibrary(move.1)
  }

  /** The batch holds files of the library only. */
  predicate LibraryBatch<C>(files: map<Place, C>, batch: string) {
    forall p :: p in files && InBatch(p, batch) ==> IsLibrary(Inside(p))
  }

  /** None of them looks like one of its notes. */
  predicate CleanBatch<C>(files: map<Place, C>, batch: string) {
    forall p :: p in files && InBatch(p, batch) ==> !IsRecord(Inside(p)) && IsLibrary(Inside(p))
  }

  /** Staged, or in the trash. */
  predicate IsAside(p: Place) {
    p.Library? ==> !IsLibrary(p.parts)
  }

  /** Undoing moves within the library keeps every file, and leaves the trash alone. */
  lemma {:induction false} UndoMovesKeepsFiles<C>(files: map<Place, C>, log: seq<(Parts, Parts)>) returns (j: Journey)
    requires SafeLog(log)
    ensures Relocated(files, j, UndoMoves(files, log).0)
    ensures forall p :: IsAside(p) ==> (p in UndoMoves(files, log).0 <==> p in files)
    decreases |log|
  {
    if log == [] {
      NothingMoved(files);
      j := Nowhere(files);
    } else {
      var (was, now) := log[|log| - 1];
      assert log[|log| - 1] in log;
      var rest := log[..|log| - 1];
      if Library(now) !in files || Library(was) in files {
        j := UndoMovesKeepsFiles(files, rest);
      } else {
        var middle := Move(files, Library(now), Library(was));
        NothingMoved(files);
        MoveToFree(files, Nowhere(files), files, Library(now), Library(was));
        var again := UndoMovesKeepsFiles(middle, rest);
        var first := Nowhere(files).Onward(Library(now), Library(was));
        Compose(files, first, middle, again, UndoMoves(middle, rest).0);
        j := After(first, again);
      }
    }
  }

  lemma UndoneBatch<C>(files: map<Place, C>, undone: map<Place, C>, batch: string)
    requires forall p :: IsAside(p) ==> (p in undone <==> p in files)
    ensures LibraryBatch(undone, batch) <==> LibraryBatch(files, batch)
    ensures CleanBatch(undone, batch) <==> CleanBatch(files, batch)
  {
    assert forall p :: InBatch(p, batch) ==> IsAside(p);
  }

  lemma ReturningIsProper<C>(files: map<Place, C>, batch: string)
    requires LibraryBatch(files, batch)
    ensures forall parts :: parts in Returning(files, batch) ==>
      IsLibrary(parts) && !InBatch(Library(parts), batch) && Kept(batch, parts) in files && Library(parts) !in files
  {
    KeptInside(files.Keys, batch);
    forall parts | parts in Returning(files, batch) ensures IsLibrary(parts) {
      assert InBatch(Kept(batch, parts), batch);
    }
  }

  lemma PutBackKeepsFiles<C>(files: map<Place, C>, batch: string) returns (j: Journey)
    requires LibraryBatch(files, batch)
    ensures Relocated(files, j, PutBack(files, batch))
  {
    KeptInside(files.Keys, batch);
    var returning, back := Returning(files, batch), PutBack(files, batch);
    ReturningIsProper(files, batch);
    j := Journey(
      map p | p in files :: if InBatch(p, batch) && Inside(p) in returning then Library(Inside(p)) else p,
      map p | p in back :: if p.Library? && p.parts in returning then Kept(batch, p.parts) else p);
  }

  lemma EverythingReturned<C>(files: map<Place, C>, batch: string)
    requires CleanBatch(files, batch) && Contents(files, batch) <= Returning(files, batch)
    ensures FreshBatch(PutBack(files, batch), batch)
  {
    KeptInside(files.Keys, batch);
    forall p | p in files && InBatch(p, batch) ensures p !in PutBack(files, batch) {
      assert Inside(p) in Contents(files, batch);
    }
    forall parts | parts in Returning(files, batch) ensures !InBatch(Library(parts), batch) {
      assert InBatch(Kept(batch, parts), batch);
    }
  }

  /** Deleting the batch's folder deletes no file of a clean batch. */
  lemma NothingToSweep<C>(files: map<Place, C>, batch: string, log: seq<(Parts, Parts)>)
    requires CleanBatch(UndoMoves(files, log).0, batch)
    ensures Restored(files, batch, log).files == PutBack(UndoMoves(files, log).0, batch)
  {
    var (undone, unmoved) := UndoMoves(files, log);
    if Contents(undone, batch) <= Returning(undone, batch) {
      EverythingReturned(undone, batch);
      NothingInBatch(PutBack(undone, batch), batch);
    } else {
      var parts :| parts in Contents(undone, batch) && parts !in Returning(undone, batch);
      assert parts in Restored(files, batch, log).left;
    }
  }

  lemma NothingInBatch<C>(files: map<Place, C>, batch: string)
    requires FreshBatch(files, batch)
    ensures Swept(files, batch) == files
  {
  }

  /** Until the batch's folder is deleted, no file is lost. */
  lemma BackKeepsFiles<C>(files: map<Place, C>, batch: string, log: seq<(Parts, Parts)>) returns (j: Journey)
    requires SafeLog(log) && LibraryBatch(files, batch)
    ensures Relocated(files, j, PutBack(UndoMoves(files, log).0, batch))
  {
    var first := UndoMovesKeepsFiles(files, log);
    var undone := UndoMoves(files, log).0;
    UndoneBatch(files, undone, batch);
    var second := PutBackKeepsFiles(undone, batch);
    Compose(files, first, undone, second, PutBack(undone, batch));
    j := After(first, second);
  }

  /** Whatever the log says and whatever is in the way, putting a batch back overwrites
      nothing and deletes nothing: the batch's folder only goes when it holds no file. */
  lemma RestoreKeepsFiles<C>(files: map<Place, C>, batch: string, log: seq<(Parts, Parts)>) returns (j: Journey)
    requires SafeLog(log) && CleanBatch(files, batch)
    ensures Relocated(files, j, Restored(files, batch, log).files)
  {
    j := BackKeepsFiles(files, batch, log);
    var _ := UndoMovesKeepsFiles(files, log);
    UndoneBatch(files, UndoMoves(files, log).0, batch);
    NothingToSweep(files, batch, log);
  }

  lemma NoteStays<C>(files: map<Place, C>, batch: string) returns (note: Place)
    requires LibraryBatch(files, batch) && !CleanBatch(files, batch)
    ensures note in PutBack(files, batch) && InBatch(note, batch)
  {
    note :| note in files && InBatch(note, batch) && IsRecord(Inside(note));
  }

  lemma SweptLess<C>(files: map<Place, C>, batch: string, p: Place)
    requires p in files && InBatch(p, batch)
    ensures |Swept(files, batch)| < |files|
  {
    SubsetSize(Swept(files, batch).Keys, files.Keys - {p});
  }

  /** A file that looks like a note stays in the batch, and goes when its folder is deleted. */
  lemma NotesAreSwept<C>(files: map<Place, C>, batch: string, log: seq<(Parts, Parts)>)
    requires SafeLog(log) && LibraryBatch(files, batch) && !CleanBatch(files, batch)
    requires Restored(files, batch, log).left == {}
    ensures |Restored(files, batch, log).files| < |files|
  {
    var j := BackKeepsFiles(files, batch, log);
    var _ := UndoMovesKeepsFiles(files, log);
    var undone := UndoMoves(files, log).0;
    UndoneBatch(files, undone, batch);
    RelocatedSize(files, j, PutBack(undone, batch));
    var note := NoteStays(undone, batch);
    SweptLess(PutBack(undone, batch), batch, note);
  }

  lemma {:induction false} SubsetSize<T>(a: set<T>, b: set<T>)
    requires a <= b
    ensures |a| <= |b|
    decreases |a|
  {
    if a != {} {
      var x :| x in a;
      SubsetSize(a - {x}, b - {x});
    }
  }

  /** Putting a batch back loses a file if and only if everything it reports on goes back and
      something that looks like its own note is among its files. */
  lemma RestoreKeepsFilesIff<C>(files: map<Place, C>, batch: string, log: seq<(Parts, Parts)>)
    requires SafeLog(log) && LibraryBatch(files, batch)
    ensures EveryFileKept(files, Restored(files, batch, log).files) <==>
      (Restored(files, batch, log).left == {} ==> CleanBatch(files, batch))
  {
    var restored := Restored(files, batch, log);
    if CleanBatch(files, batch) {
      var j := RestoreKeepsFiles(files, batch, log);
    } else if restored.left == {} {
      NotesAreSwept(files, batch, log);
      if EveryFileKept(files, restored.files) {
        var j :| Relocated(files, j, restored.files);
        RelocatedSize(files, j, restored.files);
      }
    } else {
      var j := BackKeepsFiles(files, batch, log);
    }
  }
}
