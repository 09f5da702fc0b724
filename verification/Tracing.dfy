/** A merge of folders, followed from track to track (`crates/delune-library/src/health.rs`). */
module Tracing {
  // After every track the kept folder has just the copies that are in, the trash those that have made
  // way, and the tracks still to come are where they were. So the whole run can be undone, and keeps
  // every file, exactly when the folders allow it.

  import opened Text
  import opened Paths
  import opened Relocation
  import opened Batches
  import opened Trash
  import opened Health
  import opened Copies

  // ---- what puts and moves leave ----

  /** Everything that comes in keeps its name. */
  ghost predicate NamesKept(moves: seq<Op>, file: Parts, target: Parts) {
    forall op :: op in moves ==> op.MoveTo? && Accompanies(file, op.from) && op.to == target + [FileName(op.from)]
  }

  /** The place in the other folder that `p` was filled from. */
  function Source(file: Parts, p: Parts): Parts {
    Folder(file) + [FileName(p)]
  }

  predicate FilledAt<C(==)>(files: map<Place, C>, file: Parts, target: Parts, moves: seq<Op>, now: map<Place, C>, p: Parts) {
    && (Library(p) in now <==> Library(p) in files || WasMoved(moves, Source(file, p)))
    && (Library(p) in files ==> now[Library(p)] == files[Library(p)])
    && (Library(p) !in files && WasMoved(moves, Source(file, p)) ==>
          Library(Source(file, p)) in files && now[Library(p)] == files[Library(Source(file, p))])
  }

  predicate LeftAt<C(==)>(files: map<Place, C>, moves: seq<Op>, now: map<Place, C>, p: Parts) {
    && (Library(p) in now <==> Library(p) in files && !WasMoved(moves, p))
    && (Library(p) in now ==> now[Library(p)] == files[Library(p)])
  }

  lemma WasMovedLast(rest: seq<Op>, last: Op, q: Parts)
    requires last.MoveTo?
    ensures WasMoved(rest + [last], q) <==> WasMoved(rest, q) || last.from == q
  {
    assert last in rest + [last];
    assert forall op :: op in rest + [last] <==> op in rest || op == last;
  }

  lemma FillOne<C>(files: map<Place, C>, file: Parts, target: Parts, rest: seq<Op>, now: map<Place, C>, last: Op, p: Parts)
    requires FilledAt(files, file, target, rest, now, p) && p != [] && Folder(p) == target
    requires Legal(now, last) && NamesKept([last], file, target) && LeftAt(files, rest, now, last.from) && Folder(file) != target
    ensures FilledAt(files, file, target, rest + [last], Move(now, Library(last.from), Library(last.to)), p)
  {
    assert last in [last];
    WasMovedLast(rest, last, Source(file, p));
    AtName(Folder(last.from), last.from);
    AtName(target, p);
    assert last.to == p <==> last.from == Source(file, p);
  }

  lemma LeaveOne<C>(files: map<Place, C>, file: Parts, target: Parts, rest: seq<Op>, now: map<Place, C>, last: Op, p: Parts)
    requires LeftAt(files, rest, now, p) && p != [] && Folder(p) != target
    requires Legal(now, last) && NamesKept([last], file, target)
    ensures LeftAt(files, rest + [last], Move(now, Library(last.from), Library(last.to)), p)
  {
    assert last in [last];
    WasMovedLast(rest, last, p);
    assert Folder(last.to) == target;
  }

  lemma {:induction false} AfterMoves<C>(files: map<Place, C>, batch: string, file: Parts, target: Parts, moves: seq<Op>, p: Parts)
    requires LegalRun(files, batch, moves) && NamesKept(moves, file, target) && Folder(file) != target && p != []
    ensures Folder(p) == target ==> FilledAt(files, file, target, moves, Run(files, batch, moves), p)
    ensures Folder(p) != target ==> LeftAt(files, moves, Run(files, batch, moves), p)
  {
    if moves != [] {
      var rest, last := moves[..|moves| - 1], moves[|moves| - 1];
      assert moves == rest + [last] && last in moves && forall op :: op in rest ==> op in moves;
      AfterMoves(files, batch, file, target, rest, p);
      if Folder(p) == target {
        AfterMoves(files, batch, file, target, rest, last.from);
        FillOne(files, file, target, rest, Run(files, batch, rest), last, p);
      } else {
        LeaveOne(files, file, target, rest, Run(files, batch, rest), last, p);
      }
    }
  }

  /** Nothing in the kept folder is named like the file. */
  ghost predicate NoNamesake<C>(files: map<Place, C>, file: Parts, target: Parts) {
    forall p :: p != [] && Folder(p) == target && Stem(FileName(p)) == Stem(FileName(file)) ==> Library(p) !in files
  }

  lemma NameIsFree<C>(files: map<Place, C>, file: Parts, target: Parts, q: Parts)
    requires NoNamesake(files, file, target) && Accompanies(file, q)
    ensures Library(target + [FileName(q)]) !in files
  {
    var p := target + [FileName(q)];
    assert p != [] && Folder(p) == target && FileName(p) == FileName(q);
  }

  lemma NotNumbered<C>(files: map<Place, C>, batch: string, file: Parts, target: Parts, rest: seq<Op>, last: Op)
    requires LegalRun(files, batch, rest) && NamesKept(rest, file, target) && Folder(file) != target
    requires Legal(Run(files, batch, rest), last) && BringsIn(last, file, target) && IfTaken(Run(files, batch, rest), last, target)
    requires Library(target + [FileName(last.from)]) !in files
    ensures NamesKept([last], file, target)
  {
    var p := target + [FileName(last.from)];
    assert p != [] && Folder(p) == target && FileName(p) == FileName(last.from);
    AtName(Folder(last.from), last.from);
    AfterMoves(files, batch, file, target, rest, p);
    AfterMoves(files, batch, file, target, rest, last.from);
    AtName(target, last.to);
  }

  lemma LastComesIn<C>(files: map<Place, C>, batch: string, file: Parts, target: Parts, moves: seq<Op>)
    requires moves != []
    requires LegalRun(files, batch, moves) && MovesIn(moves, file, target) && NumberedIfTaken(files, batch, moves, target)
    ensures var rest, last := moves[..|moves| - 1], moves[|moves| - 1];
      && moves == rest + [last] && LegalRun(files, batch, rest) && MovesIn(rest, file, target)
      && NumberedIfTaken(files, batch, rest, target) && Legal(Run(files, batch, rest), last)
      && BringsIn(last, file, target) && IfTaken(Run(files, batch, rest), last, target)
  {
    var rest, last := moves[..|moves| - 1], moves[|moves| - 1];
    assert moves == rest + [last] && last in moves && forall op :: op in rest ==> op in moves;
  }

  lemma OneMoreKept(rest: seq<Op>, last: Op, file: Parts, target: Parts)
    requires NamesKept(rest, file, target) && NamesKept([last], file, target)
    ensures NamesKept(rest + [last], file, target)
  {
    assert last in [last];
  }

  /** With no file of its name in the kept folder, nothing that comes in needs a number. */
  lemma {:induction false} NoneNumbered<C>(files: map<Place, C>, batch: string, file: Parts, target: Parts, moves: seq<Op>)
    requires LegalRun(files, batch, moves) && MovesIn(moves, file, target) && NumberedIfTaken(files, batch, moves, target)
    requires Folder(file) != target && NoNamesake(files, file, target)
    ensures NamesKept(moves, file, target)
  {
    if moves != [] {
      var rest, last := moves[..|moves| - 1], moves[|moves| - 1];
      LastComesIn(files, batch, file, target, moves);
      NoneNumbered(files, batch, file, target, rest);
      NameIsFree(files, file, target, last.from);
      NotNumbered(files, batch, file, target, rest, last);
      OneMoreKept(rest, last, file, target);
    }
  }

  // ---- a track that is taken in ----

  /** The copy of `f` that is in has `p`. */
  ghost predicate InItsPlace<C>(m: Folders<C>, seen: set<Parts>, f: Parts, p: Parts) {
    exists x :: m.IsIn(seen, x) && m.Key(x) == m.Key(f) && m.Holds(x, p)
  }

  /** Taking `f` in: the copy that is in makes way whole, and `f` comes in under its name. */
  ghost predicate TookIn<C>(m: Folders<C>, seen: set<Parts>, f: Parts, puts: seq<Op>, moves: seq<Op>) {
    && m.TakenIn(f)
    && (forall op :: op in puts ==> op.PutAway? && m.InTarget(op.parts))
    && (forall p :: m.InTarget(p) ==> (PutAway(p) in puts <==> InItsPlace(m, seen, f, p)))
    && NamesKept(moves, f, m.target) && (forall q :: WasMoved(moves, q) <==> m.Brings(f, q))
  }

  lemma PutsOfTwin<C>(m: Folders<C>, seen: set<Parts>, f: Parts, now: map<Place, C>, t: Parts, puts: seq<Op>, done: bool) returns (x: Parts)
    requires m.Orderly() && m.ComesNext(seen, f) && m.BestIsIn(seen) && m.Shelved(seen, now) && IsTwin(now, m.target, m.key, f, t)
    requires MakesWay(now, t, puts, done)
    ensures m.IsIn(seen, x) && m.Key(x) == m.Key(f) && (m.TakenIn(f) <==> Outranks(m.Rank(f), RankOf(m.rank, now, t)))
    ensures forall op :: op in puts ==> op.PutAway? && m.InTarget(op.parts) && m.Holds(x, op.parts)
    ensures done ==> forall p :: m.InTarget(p) ==> (PutAway(p) in puts <==> InItsPlace(m, seen, f, p))
  {
    x := TwinIsIn(m, seen, f, now, t);
    TakenIff(m, seen, f, x);
    forall p ensures p in PutSet(now, t) <==> m.Holds(x, p) {
      AllMakeWay(m, seen, f, now, x, t, p);
    }
    if done {
      forall p | m.InTarget(p) ensures PutAway(p) in puts <==> InItsPlace(m, seen, f, p) {
        if InItsPlace(m, seen, f, p) {
          var y :| m.IsIn(seen, y) && m.Key(y) == m.Key(f) && m.Holds(y, p);
          assert y == x;
        }
      }
    }
  }

  lemma RoomIsMade<C>(m: Folders<C>, seen: set<Parts>, f: Parts, now: map<Place, C>, batch: string, puts: seq<Op>, p: Parts)
    requires m.Orderly() && m.IsOther(f) && m.Shelved(seen, now) && LegalRun(now, batch, puts)
    requires forall op :: op in puts ==> op.PutAway? && m.InTarget(op.parts)
    requires m.InTarget(p) ==> (InItsPlace(m, seen, f, p) ==> PutAway(p) in puts)
    requires m.InTarget(p) && m.Key(p) == m.Key(f)
    ensures Library(p) !in Run(now, batch, puts)
  {
    InFolderInLibrary(p, m.target);
    AfterPuts(now, batch, puts, p);
    if Library(p) in now {
      assert m.Held(seen, p);
      var x :| m.IsIn(seen, x) && m.Holds(x, p);
      HolderHasKey(m, x, p);
      assert InItsPlace(m, seen, f, p);
    }
  }

  lemma TookAlongIff<C>(m: Folders<C>, seen: set<Parts>, f: Parts)
    requires m.ComesNext(seen, f)
    ensures m.TookAlong(seen, f) <==> exists h :: m.TakenIn(h) && m.Beside(h, f) && MergedBefore(m.sources, h, f)
  {
    if m.TookAlong(seen, f) {
      var h :| h in seen && m.TakenIn(h) && m.Beside(h, f);
      assert MergedBefore(m.sources, h, f);
    }
    if h :| m.TakenIn(h) && m.Beside(h, f) && MergedBefore(m.sources, h, f) {
      assert h in seen;
    }
  }

  /** What goes along with a track when its turn comes. */
  lemma BringsWhatIsLeft<C>(m: Folders<C>, seen: set<Parts>, f: Parts, now: map<Place, C>, q: Parts)
    requires m.ComesNext(seen, f) && m.Waiting(seen, now)
    ensures m.Brings(f, q) <==> Accompanies(f, q) && Library(q) in now
  {
    TookAlongIff(m, seen, f);
  }

  lemma SourceOf(f: Parts, q: Parts, target: Parts)
    requires Accompanies(f, q)
    ensures Source(f, target + [FileName(q)]) == q && Folder(target + [FileName(q)]) == target
    ensures Stem(FileName(target + [FileName(q)])) == Stem(FileName(f))
  {
    AtName(Folder(q), q);
  }

  /** With room made, `f` and all that goes with it come in under their names. */
  lemma AllComeIn<C>(m: Folders<C>, seen: set<Parts>, f: Parts, now: map<Place, C>, batch: string, puts: seq<Op>, moves: seq<Op>)
    requires m.Orderly() && m.ComesNext(seen, f) && m.Waiting(seen, now) && LegalRun(now, batch, puts)
    requires forall op :: op in puts ==> op.PutAway? && m.InTarget(op.parts)
    requires forall p :: m.InTarget(p) && m.Key(p) == m.Key(f) ==> Library(p) !in Run(now, batch, puts)
    requires LegalRun(Run(now, batch, puts), batch, moves) && ComesIn(Run(now, batch, puts), batch, f, m.target, moves, true)
    ensures NamesKept(moves, f, m.target) && forall q :: WasMoved(moves, q) <==> m.Brings(f, q)
  {
    var middle := Run(now, batch, puts);
    OtherIsElsewhere(m, f);
    assert NoNamesake(middle, f, m.target);
    NoneNumbered(middle, batch, f, m.target, moves);
    forall q ensures WasMoved(moves, q) <==> m.Brings(f, q) {
      BringsWhatIsLeft(m, seen, f, now, q);
      if Accompanies(f, q) {
        InFolderInLibrary(q, Folder(f));
        AfterPuts(now, batch, puts, q);
        SourceOf(f, q, m.target);
        AfterMoves(middle, batch, f, m.target, moves, m.target + [FileName(q)]);
      }
    }
  }

  lemma NoMoveNoPut<C>(m: Folders<C>, seen: set<Parts>, f: Parts, now: map<Place, C>)
    requires m.Orderly() && m.ComesNext(seen, f) && m.BestIsIn(seen) && m.Shelved(seen, now)
    requires forall t :: !IsTwin(now, m.target, m.key, f, t)
    ensures m.TakenIn(f) && forall p :: !InItsPlace(m, seen, f, p)
  {
    forall x | m.IsIn(seen, x) ensures m.Key(x) != m.Key(f) {
      NoTwinNoneIn(m, seen, f, now, x);
    }
    TakenAsFirst(m, seen, f);
  }

  lemma TakenWhole<C>(m: Folders<C>, seen: set<Parts>, f: Parts, now: map<Place, C>, batch: string, twin: Option<Parts>,
                      puts: seq<Op>, moves: seq<Op>)
    requires m.Orderly() && m.ComesNext(seen, f) && m.BestIsIn(seen) && m.Shelved(seen, now) && m.Waiting(seen, now)
    requires MergesOne(now, batch, m.target, m.key, f, twin, IsBetter(m.rank, now, f, twin), puts, moves, true)
    requires LegalRun(now, batch, puts) && LegalRun(Run(now, batch, puts), batch, moves)
    requires m.TakenIn(f)
    ensures TookIn(m, seen, f, puts, moves)
  {
    assert RankOf(m.rank, now, f) == m.Rank(f);
    if twin.None? {
      NoMoveNoPut(m, seen, f, now);
    } else {
      var x := TwinIsIn(m, seen, f, now, twin.value);
      TakenIff(m, seen, f, x);
      var _ := PutsOfTwin(m, seen, f, now, twin.value, puts, true);
    }
    forall p | m.InTarget(p) && m.Key(p) == m.Key(f) ensures Library(p) !in Run(now, batch, puts) {
      RoomIsMade(m, seen, f, now, batch, puts, p);
    }
    AllComeIn(m, seen, f, now, batch, puts, moves);
  }

  /** What is where after `f` was taken in. */
  lemma TargetAfter<C>(m: Folders<C>, seen: set<Parts>, f: Parts, now: map<Place, C>, batch: string, puts: seq<Op>, moves: seq<Op>,
                       p: Parts)
    requires m.Orderly() && TookIn(m, seen, f, puts, moves) && m.InTarget(p)
    requires LegalRun(now, batch, puts) && LegalRun(Run(now, batch, puts), batch, moves)
    ensures var after := Run(Run(now, batch, puts), batch, moves);
      && (Library(p) in after <==> (Library(p) in now && !InItsPlace(m, seen, f, p)) || m.Holds(f, p))
      && (Library(p) in now && !InItsPlace(m, seen, f, p) ==> after[Library(p)] == now[Library(p)])
  {
    OtherIsElsewhere(m, f);
    InFolderInLibrary(p, m.target);
    AfterPuts(now, batch, puts, p);
    AfterMoves(Run(now, batch, puts), batch, f, m.target, moves, p);
  }

  lemma HeldAfterTaken<C>(m: Folders<C>, seen: set<Parts>, f: Parts, p: Parts)
    requires m.Orderly() && m.ComesNext(seen, f) && m.TakenIn(f)
    ensures m.Held(seen + {f}, p) <==> m.Holds(f, p) || (m.Held(seen, p) && m.Key(p) != m.Key(f))
  {
    if m.Held(seen + {f}, p) {
      var x :| m.IsIn(seen + {f}, x) && m.Holds(x, p);
      TakenPushes(m, seen, f, x);
      HolderHasKey(m, x, p);
    }
    if m.Holds(f, p) {
      TakenPushes(m, seen, f, f);
      assert m.IsIn(seen + {f}, f);
    } else if m.Held(seen, p) && m.Key(p) != m.Key(f) {
      var x :| m.IsIn(seen, x) && m.Holds(x, p);
      HolderHasKey(m, x, p);
      TakenPushes(m, seen, f, x);
    }
  }

  lemma InPlaceIff<C>(m: Folders<C>, seen: set<Parts>, f: Parts, p: Parts)
    ensures InItsPlace(m, seen, f, p) <==> m.Held(seen, p) && m.Key(p) == m.Key(f)
  {
    if InItsPlace(m, seen, f, p) {
      var x :| m.IsIn(seen, x) && m.Key(x) == m.Key(f) && m.Holds(x, p);
      HolderHasKey(m, x, p);
    } else if m.Held(seen, p) && m.Key(p) == m.Key(f) {
      var x :| m.IsIn(seen, x) && m.Holds(x, p);
      HolderHasKey(m, x, p);
    }
  }

  lemma ShelvedAfterTaken<C>(m: Folders<C>, seen: set<Parts>, f: Parts, now: map<Place, C>, batch: string, puts: seq<Op>, moves: seq<Op>)
    requires m.Orderly() && m.ComesNext(seen, f) && m.Shelved(seen, now) && m.Waiting(seen, now) && TookIn(m, seen, f, puts, moves)
    requires LegalRun(now, batch, puts) && LegalRun(Run(now, batch, puts), batch, moves)
    ensures m.Shelved(seen + {f}, Run(Run(now, batch, puts), batch, moves))
  {
    var after := Run(Run(now, batch, puts), batch, moves);
    forall p, g | m.IsOther(g) && m.InTarget(p) && m.Key(p) == m.Key(g) ensures Library(p) in after <==> m.Held(seen + {f}, p) {
      TargetAfter(m, seen, f, now, batch, puts, moves, p);
      HeldAfterTaken(m, seen, f, p);
      InPlaceIff(m, seen, f, p);
    }
    forall x, g | m.IsOther(g) && m.IsIn(seen + {f}, x) && m.Key(x) == m.Key(g)
      ensures Library(m.Spot(x)) in after && after[Library(m.Spot(x))] == m.files[Library(x)]
    {
      TakenPushes(m, seen, f, x);
      HoldsItsSpot(m, x);
      if x == f {
        SpotOfTaken(m, seen, f, now, batch, puts, moves);
      } else {
        TargetAfter(m, seen, f, now, batch, puts, moves, m.Spot(x));
        InPlaceIff(m, seen, f, m.Spot(x));
        HolderHasKey(m, x, m.Spot(x));
      }
    }
  }

  lemma SpotOfTaken<C>(m: Folders<C>, seen: set<Parts>, f: Parts, now: map<Place, C>, batch: string, puts: seq<Op>, moves: seq<Op>)
    requires m.Orderly() && m.ComesNext(seen, f) && m.Shelved(seen, now) && m.Waiting(seen, now) && TookIn(m, seen, f, puts, moves)
    requires LegalRun(now, batch, puts) && LegalRun(Run(now, batch, puts), batch, moves)
    ensures var after := Run(Run(now, batch, puts), batch, moves);
      Library(m.Spot(f)) in after && after[Library(m.Spot(f))] == m.files[Library(f)]
  {
    var middle := Run(now, batch, puts);
    HoldsItsSpot(m, f);
    OtherIsElsewhere(m, f);
    InFolderInLibrary(f, Folder(f));
    AfterPuts(now, batch, puts, f);
    assert m.Key(m.Spot(f)) == m.Key(f);
    RoomIsMade(m, seen, f, now, batch, puts, m.Spot(f));
    assert Accompanies(f, f);
    SourceOf(f, f, m.target);
    AfterMoves(middle, batch, f, m.target, moves, m.Spot(f));
  }

  lemma WasHeldAfterTaken<C>(m: Folders<C>, seen: set<Parts>, f: Parts, p: Parts)
    requires m.Orderly() && m.ComesNext(seen, f) && m.TakenIn(f)
    ensures m.WasHeld(seen + {f}, p) <==> m.WasHeld(seen, p) || InItsPlace(m, seen, f, p)
  {
    if m.WasHeld(seen + {f}, p) {
      var x :| m.PushedOut(seen + {f}, x) && m.Holds(x, p);
      TakenPushes(m, seen, f, x);
    }
    if m.WasHeld(seen, p) {
      var x :| m.PushedOut(seen, x) && m.Holds(x, p);
      TakenPushes(m, seen, f, x);
    }
    if InItsPlace(m, seen, f, p) {
      var x :| m.IsIn(seen, x) && m.Key(x) == m.Key(f) && m.Holds(x, p);
      TakenPushes(m, seen, f, x);
    }
  }

  lemma WasBroughtAfterTaken<C>(m: Folders<C>, seen: set<Parts>, f: Parts, p: Parts)
    requires m.TakenIn(f)
    ensures m.WasBrought(seen + {f}, p) <==> m.WasBrought(seen, p) || m.Holds(f, p)
  {
    assert f in seen + {f};
    if m.WasBrought(seen, p) {
      var g :| g in seen && m.TakenIn(g) && m.Holds(g, p);
      assert g in seen + {f};
    }
  }

  lemma TargetOfMove<C>(m: Folders<C>, f: Parts, moves: seq<Op>, p: Parts)
    requires m.target !in m.sources && m.TakenIn(f) && NamesKept(moves, f, m.target) && m.InTarget(p)
    requires forall q :: WasMoved(moves, q) <==> m.Brings(f, q)
    ensures IsTarget(moves, p) <==> m.Holds(f, p)
  {
    OtherIsElsewhere(m, f);
    AtName(m.target, p);
    if IsTarget(moves, p) {
      var op :| op in moves && op.MoveTo? && op.to == p;
      AtName(Folder(op.from), op.from);
      assert WasMoved(moves, op.from);
    }
    if m.Holds(f, p) {
      assert WasMoved(moves, Source(f, p));
      var op :| op in moves && op.MoveTo? && op.from == Source(f, p);
    }
  }

  lemma BookedAfterTaken<C>(m: Folders<C>, seen: set<Parts>, f: Parts, ops: seq<Op>, puts: seq<Op>, moves: seq<Op>)
    requires m.Orderly() && m.ComesNext(seen, f) && m.Booked(seen, ops) && TookIn(m, seen, f, puts, moves)
    ensures m.Booked(seen + {f}, ops + (puts + moves))
  {
    var more := ops + (puts + moves);
    assert forall op :: op in more <==> op in ops || op in puts || op in moves;
    forall op | op in moves ensures op.to != [] && Folder(op.to) == m.target {}
    forall p | m.InTarget(p) ensures PutAway(p) in more <==> m.WasHeld(seen + {f}, p) {
      WasHeldAfterTaken(m, seen, f, p);
    }
    forall p | m.InTarget(p) ensures IsTarget(more, p) <==> m.WasBrought(seen + {f}, p) {
      WasBroughtAfterTaken(m, seen, f, p);
      TargetOfMove(m, f, moves, p);
      assert IsTarget(more, p) <==> IsTarget(ops, p) || IsTarget(moves, p);
    }
  }

  lemma TookAlongNext<C>(m: Folders<C>, seen: set<Parts>, f: Parts, g: Parts)
    ensures m.TookAlong(seen + {f}, g) <==> m.TookAlong(seen, g) || (m.TakenIn(f) && m.Beside(f, g))
  {
    assert f in seen + {f};
    if m.TookAlong(seen, g) {
      var h :| h in seen && m.TakenIn(h) && m.Beside(h, g);
      assert h in seen + {f};
    }
  }

  lemma BesideTakesAlong<C>(m: Folders<C>, seen: set<Parts>, f: Parts, g: Parts)
    requires m.Beside(f, g) && g != []
    ensures m.TookAlong(seen, f) <==> m.TookAlong(seen, g)
  {
    assert forall h :: m.Beside(h, f) <==> m.Beside(h, g);
    if m.TookAlong(seen, f) {
      var h :| h in seen && m.TakenIn(h) && m.Beside(h, f);
      assert m.Beside(h, g);
    }
    if m.TookAlong(seen, g) {
      var h :| h in seen && m.TakenIn(h) && m.Beside(h, g);
      assert m.Beside(h, f);
    }
  }

  /** Files of the other folders stay but for those taken along. */
  lemma SourceAfter<C>(m: Folders<C>, seen: set<Parts>, f: Parts, now: map<Place, C>, batch: string, puts: seq<Op>, moves: seq<Op>,
                       q: Parts)
    requires m.Orderly() && TookIn(m, seen, f, puts, moves) && q != [] && Folder(q) in m.sources
    requires LegalRun(now, batch, puts) && LegalRun(Run(now, batch, puts), batch, moves)
    ensures var after := Run(Run(now, batch, puts), batch, moves);
      && (Library(q) in after <==> Library(q) in now && !m.Brings(f, q))
      && (Library(q) in after ==> after[Library(q)] == now[Library(q)])
  {
    OtherIsElsewhere(m, f);
    InFolderInLibrary(q, Folder(q));
    AfterPuts(now, batch, puts, q);
    AfterMoves(Run(now, batch, puts), batch, f, m.target, moves, q);
  }

  lemma WaitingAfterTaken<C>(m: Folders<C>, seen: set<Parts>, f: Parts, now: map<Place, C>, batch: string, puts: seq<Op>, moves: seq<Op>)
    requires m.Orderly() && m.ComesNext(seen, f) && m.Waiting(seen, now) && TookIn(m, seen, f, puts, moves)
    requires LegalRun(now, batch, puts) && LegalRun(Run(now, batch, puts), batch, moves)
    ensures m.Waiting(seen + {f}, Run(Run(now, batch, puts), batch, moves))
  {
    var after := Run(Run(now, batch, puts), batch, moves);
    forall g | m.IsOther(g) && g !in seen + {f} ensures Library(g) in after && after[Library(g)] == m.files[Library(g)] {
      OtherIsElsewhere(m, g);
      SourceAfter(m, seen, f, now, batch, puts, moves, g);
    }
    forall g, q | m.IsOther(g) && g !in seen + {f} && Accompanies(g, q) && q != g
      ensures Library(q) in after <==> Library(q) in m.files && !m.TookAlong(seen + {f}, g)
    {
      StillGoesAlong(m, seen, f, now, batch, puts, moves, g, q);
    }
  }

  lemma StillGoesAlong<C>(m: Folders<C>, seen: set<Parts>, f: Parts, now: map<Place, C>, batch: string, puts: seq<Op>, moves: seq<Op>,
                          g: Parts, q: Parts)
    requires m.Orderly() && m.ComesNext(seen, f) && m.Waiting(seen, now) && TookIn(m, seen, f, puts, moves)
    requires LegalRun(now, batch, puts) && LegalRun(Run(now, batch, puts), batch, moves)
    requires m.IsOther(g) && g !in seen + {f} && Accompanies(g, q) && q != g
    ensures Library(q) in Run(Run(now, batch, puts), batch, moves) <==> Library(q) in m.files && !m.TookAlong(seen + {f}, g)
  {
    OtherIsElsewhere(m, g);
    OtherIsElsewhere(m, f);
    SourceAfter(m, seen, f, now, batch, puts, moves, q);
    TookAlongNext(m, seen, f, g);
    if m.Beside(f, g) {
      BesideTakesAlong(m, seen, f, g);
      BringsWhatIsLeft(m, seen, f, now, q);
    } else {
      assert !Accompanies(f, q);
    }
  }

  // ---- whether the run can be undone, and keeps all files ----

  lemma {:induction false} SettledInTwo(ops: seq<Op>, puts: seq<Op>)
    requires forall op :: op in puts ==> op.PutAway?
    ensures PutsOnlySettled(ops + puts) <==> PutsOnlySettled(ops) && forall op :: op in puts ==> !IsTarget(ops, op.parts)
  {
    if puts == [] {
      assert ops + puts == ops;
    } else {
      var rest, last := puts[..|puts| - 1], puts[|puts| - 1];
      assert puts == rest + [last] && last in puts;
      assert (ops + puts)[..|ops + puts| - 1] == ops + rest;
      SettledInTwo(ops, rest);
      assert IsTarget(ops + rest, last.parts) <==> IsTarget(ops, last.parts);
    }
  }

  lemma {:induction false} OnceInTwo(ops: seq<Op>, puts: seq<Op>)
    requires PutsOnce(puts) && forall op :: op in puts ==> op.PutAway?
    ensures PutsOnce(ops + puts) <==> PutsOnce(ops) && forall op :: op in puts ==> op !in ops
  {
    if puts == [] {
      assert ops + puts == ops;
    } else {
      var rest, last := puts[..|puts| - 1], puts[|puts| - 1];
      assert puts == rest + [last] && last in puts;
      assert (ops + puts)[..|ops + puts| - 1] == ops + rest;
      OnceInTwo(ops, rest);
      assert (ops + puts)[|ops + puts| - 1] == last && (last in ops + rest <==> last in ops || last in rest);
    }
  }

  predicate AllSettled(ops: seq<Op>, puts: seq<Op>) {
    forall op :: op in puts && op.PutAway? ==> !IsTarget(ops, op.parts)
  }

  /** A run goes on with puts, each of another file, and then moves. */
  lemma SettledMore(ops: seq<Op>, puts: seq<Op>, moves: seq<Op>)
    requires (forall op :: op in puts ==> op.PutAway?) && forall op :: op in moves ==> op.MoveTo?
    ensures PutsOnlySettled(ops + (puts + moves)) <==> PutsOnlySettled(ops) && AllSettled(ops, puts)
  {
    SettledInTwo(ops, puts);
    MovesChangeNeither(ops + puts, moves);
    assert (ops + puts) + moves == ops + (puts + moves);
  }

  predicate NoneRepeated(ops: seq<Op>, puts: seq<Op>) {
    forall op :: op in puts ==> op !in ops
  }

  lemma OnceMore<C>(files: map<Place, C>, batch: string, ops: seq<Op>, puts: seq<Op>, moves: seq<Op>)
    requires LegalRun(files, batch, puts) && (forall op :: op in puts ==> op.PutAway?) && forall op :: op in moves ==> op.MoveTo?
    ensures PutsOnce(ops + (puts + moves)) <==> PutsOnce(ops) && NoneRepeated(ops, puts)
  {
    NoMoves(puts);
    SettledPutsOnce(files, batch, puts);
    OnceInTwo(ops, puts);
    MovesChangeNeither(ops + puts, moves);
    assert (ops + puts) + moves == ops + (puts + moves);
  }

  ghost predicate FirstOfItsKey<C>(m: Folders<C>, seen: set<Parts>, f: Parts) {
    forall g :: g in seen && m.TakenIn(g) ==> m.Key(g) != m.Key(f)
  }

  lemma FirstMeansSettled<C>(m: Folders<C>, seen: set<Parts>, f: Parts, ops: seq<Op>, puts: seq<Op>, moves: seq<Op>)
    requires m.Booked(seen, ops) && TookIn(m, seen, f, puts, moves) && FirstOfItsKey(m, seen, f)
    ensures AllSettled(ops, puts)
  {
    forall op | op in puts ensures !IsTarget(ops, op.parts) {
      var p := op.parts;
      InPlaceIff(m, seen, f, p);
      if m.WasBrought(seen, p) {
        var g :| g in seen && m.TakenIn(g) && m.Holds(g, p);
        HolderHasKey(m, g, p);
      }
    }
  }

  /** With another copy taken in before, it is a taken one that is in now, at its spot. */
  lemma TakenIsIn<C>(m: Folders<C>, seen: set<Parts>, f: Parts, g: Parts) returns (x: Parts)
    requires m.ComesNext(seen, f) && m.BestIsIn(seen) && g in seen && m.TakenIn(g) && m.Key(g) == m.Key(f)
    ensures x in seen && m.TakenIn(x) && m.IsIn(seen, x) && m.Key(x) == m.Key(f)
  {
    BestHasKey(m, seen, f, g);
    x :| m.IsIn(seen, x) && m.Key(x) == m.Key(f);
    assert m.IsKeptTrack(x) ==> m.Earlier(x, g);
  }

  lemma SettledMeansFirst<C>(m: Folders<C>, seen: set<Parts>, f: Parts, ops: seq<Op>, puts: seq<Op>, moves: seq<Op>)
    requires m.Orderly() && m.ComesNext(seen, f) && m.BestIsIn(seen) && m.Booked(seen, ops) && TookIn(m, seen, f, puts, moves)
    requires AllSettled(ops, puts)
    ensures FirstOfItsKey(m, seen, f)
  {
    forall g | g in seen && m.TakenIn(g) ensures m.Key(g) != m.Key(f) {
      if m.Key(g) == m.Key(f) {
        var x := TakenIsIn(m, seen, f, g);
        TakenUnsettles(m, seen, f, ops, puts, moves, x);
      }
    }
  }

  lemma TakenUnsettles<C>(m: Folders<C>, seen: set<Parts>, f: Parts, ops: seq<Op>, puts: seq<Op>, moves: seq<Op>, x: Parts)
    requires m.target !in m.sources && m.Booked(seen, ops) && TookIn(m, seen, f, puts, moves)
    requires x in seen && m.TakenIn(x) && m.IsIn(seen, x) && m.Key(x) == m.Key(f)
    ensures !AllSettled(ops, puts)
  {
    HoldsItsSpot(m, x);
    var put := PutAway(m.Spot(x));
    assert InItsPlace(m, seen, f, put.parts) && m.WasBrought(seen, put.parts);
    assert put in puts && IsTarget(ops, put.parts);
  }

  /** What makes way for `f` was moved in before if and only if another copy was taken in. */
  lemma SettledIffFirst<C>(m: Folders<C>, seen: set<Parts>, f: Parts, ops: seq<Op>, puts: seq<Op>, moves: seq<Op>)
    requires m.Orderly() && m.ComesNext(seen, f) && m.BestIsIn(seen) && m.Booked(seen, ops) && TookIn(m, seen, f, puts, moves)
    ensures AllSettled(ops, puts) <==> FirstOfItsKey(m, seen, f)
  {
    if FirstOfItsKey(m, seen, f) {
      FirstMeansSettled(m, seen, f, ops, puts, moves);
    }
    if AllSettled(ops, puts) {
      SettledMeansFirst(m, seen, f, ops, puts, moves);
    }
  }

  lemma OneTakenNext<C>(m: Folders<C>, seen: set<Parts>, f: Parts)
    requires m.TakenIn(f) && f !in seen
    ensures m.OneTaken(seen + {f}) <==> m.OneTaken(seen) && FirstOfItsKey(m, seen, f)
  {
    assert f in seen + {f} && forall g :: g in seen ==> g in seen + {f};
  }

  /** Nothing that makes way for `f` is where something made way before. */
  ghost predicate NewlyHeld<C>(m: Folders<C>, seen: set<Parts>, f: Parts) {
    forall p :: InItsPlace(m, seen, f, p) ==> !m.WasHeld(seen, p)
  }

  lemma ApartThenNew<C>(m: Folders<C>, seen: set<Parts>, f: Parts)
    requires m.ComesNext(seen, f) && m.TakenIn(f) && m.Apart(seen + {f})
    ensures m.Apart(seen) && NewlyHeld(m, seen, f)
  {
    forall y ensures m.PushedOut(seen, y) || (m.IsIn(seen, y) && m.Key(y) == m.Key(f)) ==> m.PushedOut(seen + {f}, y) {
      TakenPushes(m, seen, f, y);
    }
    forall p | InItsPlace(m, seen, f, p) ensures !m.WasHeld(seen, p) {
      var x :| m.IsIn(seen, x) && m.Key(x) == m.Key(f) && m.Holds(x, p);
      forall y | m.PushedOut(seen, y) ensures !m.Holds(y, p) {
        assert x != y;
      }
    }
  }

  lemma NewThenApart<C>(m: Folders<C>, seen: set<Parts>, f: Parts)
    requires m.ComesNext(seen, f) && m.BestIsIn(seen) && m.TakenIn(f) && m.Apart(seen) && NewlyHeld(m, seen, f)
    ensures m.Apart(seen + {f})
  {
    forall x, y, p | m.PushedOut(seen + {f}, x) && m.PushedOut(seen + {f}, y) && x != y ensures !(m.Holds(x, p) && m.Holds(y, p)) {
      TakenPushes(m, seen, f, x);
      TakenPushes(m, seen, f, y);
      if m.PushedOut(seen, x) && !m.PushedOut(seen, y) {
        assert m.Holds(y, p) ==> InItsPlace(m, seen, f, p);
      } else if m.PushedOut(seen, y) && !m.PushedOut(seen, x) {
        assert m.Holds(x, p) ==> InItsPlace(m, seen, f, p);
      }
    }
  }

  lemma ApartNext<C>(m: Folders<C>, seen: set<Parts>, f: Parts)
    requires m.ComesNext(seen, f) && m.BestIsIn(seen) && m.TakenIn(f)
    ensures m.Apart(seen + {f}) <==> m.Apart(seen) && NewlyHeld(m, seen, f)
  {
    if m.Apart(seen + {f}) {
      ApartThenNew(m, seen, f);
    } else if m.Apart(seen) && NewlyHeld(m, seen, f) {
      NewThenApart(m, seen, f);
    }
  }

  lemma RepeatedIff<C>(m: Folders<C>, seen: set<Parts>, f: Parts, ops: seq<Op>, puts: seq<Op>, moves: seq<Op>)
    requires m.Booked(seen, ops) && TookIn(m, seen, f, puts, moves)
    ensures NoneRepeated(ops, puts) <==> NewlyHeld(m, seen, f)
  {
    forall p | InItsPlace(m, seen, f, p) ensures m.InTarget(p) && PutAway(p) in puts {}
    forall op | op in puts ensures op == PutAway(op.parts) && InItsPlace(m, seen, f, op.parts) {}
  }

  lemma SettledAfterTaken<C>(m: Folders<C>, seen: set<Parts>, f: Parts, ops: seq<Op>, puts: seq<Op>, moves: seq<Op>)
    requires m.Orderly() && m.ComesNext(seen, f) && m.BestIsIn(seen) && m.Booked(seen, ops) && TookIn(m, seen, f, puts, moves)
    requires PutsOnlySettled(ops) <==> m.OneTaken(seen)
    ensures PutsOnlySettled(ops + (puts + moves)) <==> m.OneTaken(seen + {f})
  {
    OneTakenNext(m, seen, f);
    SettledIffOne(m, seen, f, ops, puts, moves);
  }

  lemma SettledIffOne<C>(m: Folders<C>, seen: set<Parts>, f: Parts, ops: seq<Op>, puts: seq<Op>, moves: seq<Op>)
    requires m.Orderly() && m.ComesNext(seen, f) && m.BestIsIn(seen) && m.Booked(seen, ops) && TookIn(m, seen, f, puts, moves)
    ensures PutsOnlySettled(ops + (puts + moves)) <==> PutsOnlySettled(ops) && FirstOfItsKey(m, seen, f)
  {
    SettledMore(ops, puts, moves);
    SettledIffFirst(m, seen, f, ops, puts, moves);
  }

  lemma OnceIffNew<C>(m: Folders<C>, seen: set<Parts>, f: Parts, now: map<Place, C>, batch: string, ops: seq<Op>,
                      puts: seq<Op>, moves: seq<Op>)
    requires m.Booked(seen, ops) && TookIn(m, seen, f, puts, moves) && LegalRun(now, batch, puts)
    ensures PutsOnce(ops + (puts + moves)) <==> PutsOnce(ops) && NewlyHeld(m, seen, f)
  {
    OnceMore(now, batch, ops, puts, moves);
    RepeatedIff(m, seen, f, ops, puts, moves);
  }

  lemma OnceAfterTaken<C>(m: Folders<C>, seen: set<Parts>, f: Parts, now: map<Place, C>, batch: string, ops: seq<Op>,
                          puts: seq<Op>, moves: seq<Op>)
    requires m.Orderly() && m.ComesNext(seen, f) && m.BestIsIn(seen) && m.Booked(seen, ops) && TookIn(m, seen, f, puts, moves)
    requires LegalRun(now, batch, puts) && (PutsOnce(ops) <==> m.Apart(seen))
    ensures PutsOnce(ops + (puts + moves)) <==> m.Apart(seen + {f})
  {
    OnceIffNew(m, seen, f, now, batch, ops, puts, moves);
    ApartNext(m, seen, f);
  }

  // ---- puts from the other folders ----

  /** They change nothing in the kept folder, and none puts away what was put away or moved in. */
  lemma SourcePuts<C>(m: Folders<C>, seen: set<Parts>, batch: string, ops: seq<Op>, now: map<Place, C>, folder: Parts, puts: seq<Op>)
    requires m.Orderly() && folder in m.sources && m.Shelved(seen, now) && m.Booked(seen, ops) && m.Judged(seen, ops)
    requires LegalRun(m.files, batch, ops) && now == Run(m.files, batch, ops)
    requires LegalRun(now, batch, puts) && PutsFrom(puts, folder)
    ensures m.Shelved(seen, Run(now, batch, puts)) && m.Booked(seen, ops + puts) && m.Judged(seen, ops + puts)
  {
    var more := ops + puts;
    assert forall op :: op in more <==> op in ops || op in puts;
    forall p | m.InTarget(p)
      ensures Library(p) in Run(now, batch, puts) <==> Library(p) in now
      ensures Library(p) in now ==> Run(now, batch, puts)[Library(p)] == now[Library(p)]
      ensures PutAway(p) in more <==> PutAway(p) in ops
      ensures IsTarget(more, p) <==> IsTarget(ops, p)
    {
      InFolderInLibrary(p, m.target);
      AfterPuts(now, batch, puts, p);
    }
    forall x, g | m.IsOther(g) && m.IsIn(seen, x) && m.Key(x) == m.Key(g) ensures m.InTarget(m.Spot(x)) {
      HoldsItsSpot(m, x);
    }
    SourcePutsJudged(m, seen, batch, ops, now, folder, puts);
  }

  lemma SourcePutsAreNew<C>(m: Folders<C>, batch: string, ops: seq<Op>, folder: Parts, puts: seq<Op>)
    requires m.target !in m.sources && folder in m.sources && OnlyFills(ops, m.target)
    requires LegalRun(m.files, batch, ops) && LegalRun(Run(m.files, batch, ops), batch, puts) && PutsFrom(puts, folder)
    ensures NoneRepeated(ops, puts) && forall op :: op in puts ==> !IsTarget(ops, op.parts)
  {
    forall op | op in puts ensures !IsTarget(ops, op.parts) && op !in ops {
      PutWasThere(Run(m.files, batch, ops), batch, puts, op.parts);
      if op in ops {
        PutIsGone(m.files, batch, ops, op.parts);
      }
    }
  }

  lemma SourcePutsJudged<C>(m: Folders<C>, seen: set<Parts>, batch: string, ops: seq<Op>, now: map<Place, C>, folder: Parts, puts: seq<Op>)
    requires m.Orderly() && folder in m.sources && m.Booked(seen, ops) && m.Judged(seen, ops)
    requires LegalRun(m.files, batch, ops) && now == Run(m.files, batch, ops)
    requires LegalRun(now, batch, puts) && PutsFrom(puts, folder)
    ensures m.Judged(seen, ops + puts)
  {
    SourcePutsAreNew(m, batch, ops, folder, puts);
    SettledMore(ops, puts, []);
    OnceMore(now, batch, ops, puts, []);
    assert puts + [] == puts;
  }

  // ---- a track that is left out ----

  lemma PutsOfFile<C>(now: map<Place, C>, f: Parts, puts: seq<Op>, done: bool)
    requires MakesWay(now, f, puts, done)
    ensures PutsFrom(puts, Folder(f))
  {
  }

  lemma WaitingAfterLeft<C>(m: Folders<C>, seen: set<Parts>, f: Parts, now: map<Place, C>, batch: string, puts: seq<Op>)
    requires m.Orderly() && m.ComesNext(seen, f) && m.Waiting(seen, now) && !m.TakenIn(f)
    requires MakesWay(now, f, puts, true) && LegalRun(now, batch, puts)
    ensures m.Waiting(seen + {f}, Run(now, batch, puts))
  {
    var after := Run(now, batch, puts);
    forall g | m.IsOther(g) && g !in seen + {f} ensures Library(g) in after && after[Library(g)] == m.files[Library(g)] {
      OtherIsElsewhere(m, g);
      InFolderInLibrary(g, Folder(g));
      AfterPuts(now, batch, puts, g);
    }
    forall g, q | m.IsOther(g) && g !in seen + {f} && Accompanies(g, q) && q != g
      ensures Library(q) in after <==> Library(q) in m.files && !m.TookAlong(seen + {f}, g)
    {
      OtherIsElsewhere(m, g);
      InFolderInLibrary(q, Folder(g));
      AfterPuts(now, batch, puts, q);
      TookAlongNext(m, seen, f, g);
      StaysForOthers(m, seen, f, now, g, q);
    }
  }

  /** What goes with a track to come isn't put away with a copy in another format. */
  lemma StaysForOthers<C>(m: Folders<C>, seen: set<Parts>, f: Parts, now: map<Place, C>, g: Parts, q: Parts)
    requires m.Orderly() && m.ComesNext(seen, f) && m.Waiting(seen, now) && f != []
    requires m.IsOther(g) && g !in seen + {f} && Accompanies(g, q) && q != g
    ensures q !in PutSet(now, f)
  {
    if Stem(FileName(g)) == Stem(FileName(f)) && Folder(g) == Folder(f) {
      assert g in Namesakes(now, f) && IsAudio(FileName(g));
    }
  }

  /** A track left out changes nothing in the tally. */
  lemma SameAfterLeft<C>(m: Folders<C>, seen: set<Parts>, f: Parts)
    requires !m.TakenIn(f)
    ensures forall y :: m.PushedOut(seen + {f}, y) <==> m.PushedOut(seen, y)
    ensures forall y :: m.IsIn(seen + {f}, y) <==> m.IsIn(seen, y)
    ensures forall g :: g in seen + {f} && m.TakenIn(g) <==> g in seen && m.TakenIn(g)
  {
    forall y ensures m.PushedOut(seen + {f}, y) <==> m.PushedOut(seen, y)
      ensures m.IsIn(seen + {f}, y) <==> m.IsIn(seen, y)
    {
      LeftPushesNone(m, seen, f, y);
    }
  }

  lemma ShelvedAsBefore<C>(m: Folders<C>, seen: set<Parts>, seen': set<Parts>, now: map<Place, C>)
    requires m.Shelved(seen, now) && forall y :: m.IsIn(seen', y) <==> m.IsIn(seen, y)
    ensures m.Shelved(seen', now)
  {
    forall p ensures m.Held(seen', p) <==> m.Held(seen, p) {}
  }

  lemma BookedAsBefore<C>(m: Folders<C>, seen: set<Parts>, seen': set<Parts>, ops: seq<Op>)
    requires m.Booked(seen, ops) && forall y :: m.PushedOut(seen', y) <==> m.PushedOut(seen, y)
    requires forall g :: g in seen' && m.TakenIn(g) <==> g in seen && m.TakenIn(g)
    ensures m.Booked(seen', ops)
  {
    forall p ensures (m.WasHeld(seen', p) <==> m.WasHeld(seen, p)) && (m.WasBrought(seen', p) <==> m.WasBrought(seen, p)) {}
  }

  lemma JudgedAsBefore<C>(m: Folders<C>, seen: set<Parts>, seen': set<Parts>, ops: seq<Op>)
    requires m.Judged(seen, ops) && forall y :: m.PushedOut(seen', y) <==> m.PushedOut(seen, y)
    requires forall g :: g in seen' && m.TakenIn(g) <==> g in seen && m.TakenIn(g)
    ensures m.Judged(seen', ops)
  {
    assert m.OneTaken(seen') <==> m.OneTaken(seen);
    assert m.Apart(seen') <==> m.Apart(seen);
  }

  // ---- a whole merge, followed ----

  /** A merge that has gone through the tracks in `seen`. */
  ghost predicate Following<C>(m: Folders<C>, seen: set<Parts>, batch: string, ops: seq<Op>, now: map<Place, C>) {
    LegalRun(m.files, batch, ops) && now == Run(m.files, batch, ops) && m.Followed(seen, ops, now)
  }

  /** Putting back restores places, so nothing has been put away or moved that wasn't booked. */
  lemma FollowTaken<C>(m: Folders<C>, seen: set<Parts>, f: Parts, batch: string, ops: seq<Op>, now: map<Place, C>,
                       puts: seq<Op>, moves: seq<Op>)
    requires m.Orderly() && m.ComesNext(seen, f) && m.Followed(seen, ops, now) && TookIn(m, seen, f, puts, moves)
    requires LegalRun(now, batch, puts) && LegalRun(Run(now, batch, puts), batch, moves)
    ensures m.Followed(seen + {f}, ops + (puts + moves), Run(Run(now, batch, puts), batch, moves))
  {
    BestAfterTaken(m, seen, f);
    ShelvedAfterTaken(m, seen, f, now, batch, puts, moves);
    BookedAfterTaken(m, seen, f, ops, puts, moves);
    WaitingAfterTaken(m, seen, f, now, batch, puts, moves);
    SettledAfterTaken(m, seen, f, ops, puts, moves);
    OnceAfterTaken(m, seen, f, now, batch, ops, puts, moves);
  }

  lemma FollowLeft<C>(m: Folders<C>, seen: set<Parts>, f: Parts, x: Parts, batch: string, ops: seq<Op>, now: map<Place, C>, puts: seq<Op>)
    requires m.Orderly() && m.ComesNext(seen, f) && Following(m, seen, batch, ops, now) && !m.TakenIn(f)
    requires m.IsIn(seen, x) && m.Key(x) == m.Key(f)
    requires MakesWay(now, f, puts, true) && LegalRun(now, batch, puts)
    ensures m.Followed(seen + {f}, ops + puts, Run(now, batch, puts))
  {
    OtherIsElsewhere(m, f);
    PutsOfFile(now, f, puts, true);
    SourcePuts(m, seen, batch, ops, now, Folder(f), puts);
    BestAfterLeft(m, seen, f, x);
    WaitingAfterLeft(m, seen, f, now, batch, puts);
    SeenWithoutTaking(m, seen, f, ops + puts, Run(now, batch, puts));
  }

  lemma SeenWithoutTaking<C>(m: Folders<C>, seen: set<Parts>, f: Parts, ops: seq<Op>, now: map<Place, C>)
    requires !m.TakenIn(f) && m.Shelved(seen, now) && m.Booked(seen, ops) && m.Judged(seen, ops)
    ensures m.Shelved(seen + {f}, now) && m.Booked(seen + {f}, ops) && m.Judged(seen + {f}, ops)
  {
    SameAfterLeft(m, seen, f);
    ShelvedAsBefore(m, seen, seen + {f}, now);
    BookedAsBefore(m, seen, seen + {f}, ops);
    JudgedAsBefore(m, seen, seen + {f}, ops);
  }

  /** One more track merged. */
  lemma FollowOne<C>(m: Folders<C>, seen: set<Parts>, f: Parts, batch: string, ops: seq<Op>, now: map<Place, C>, twin: Option<Parts>,
                     puts: seq<Op>, moves: seq<Op>)
    requires m.Orderly() && m.ComesNext(seen, f) && Following(m, seen, batch, ops, now)
    requires MergesOne(now, batch, m.target, m.key, f, twin, IsBetter(m.rank, now, f, twin), puts, moves, true) && LegalRun(now, batch, puts + moves)
    ensures Following(m, seen + {f}, batch, ops + (puts + moves), Run(now, batch, puts + moves))
  {
    RunInTwo(m.files, batch, ops, puts + moves);
    RunInTwo(now, batch, puts, moves);
    if m.TakenIn(f) {
      TakenWhole(m, seen, f, now, batch, twin, puts, moves);
      FollowTaken(m, seen, f, batch, ops, now, puts, moves);
    } else {
      var x := LeftWhole(m, seen, f, now, batch, twin, puts, moves);
      FollowLeft(m, seen, f, x, batch, ops, now, puts);
      assert puts + [] == puts;
    }
  }

  lemma LeftWhole<C>(m: Folders<C>, seen: set<Parts>, f: Parts, now: map<Place, C>, batch: string, twin: Option<Parts>,
                     puts: seq<Op>, moves: seq<Op>) returns (x: Parts)
    requires m.Orderly() && m.ComesNext(seen, f) && m.BestIsIn(seen) && m.Shelved(seen, now) && m.Waiting(seen, now) && !m.TakenIn(f)
    requires MergesOne(now, batch, m.target, m.key, f, twin, IsBetter(m.rank, now, f, twin), puts, moves, true)
    ensures m.IsIn(seen, x) && m.Key(x) == m.Key(f) && moves == [] && MakesWay(now, f, puts, true)
  {
    if twin.None? {
      NoMoveNoPut(m, seen, f, now);
    } else {
      x := TwinIsIn(m, seen, f, now, twin.value);
      TakenIff(m, seen, f, x);
    }
  }

  /** What is left of a folder whose tracks are all merged is put away. */
  lemma FollowSweep<C>(m: Folders<C>, seen: set<Parts>, batch: string, ops: seq<Op>, now: map<Place, C>, folder: Parts, puts: seq<Op>)
    requires m.Orderly() && Following(m, seen, batch, ops, now) && folder in m.sources
    requires forall g :: m.IsOther(g) && Folder(g) == folder ==> g in seen
    requires LegalRun(now, batch, puts) && PutsFrom(puts, folder)
    ensures Following(m, seen, batch, ops + puts, Run(now, batch, puts))
  {
    RunInTwo(m.files, batch, ops, puts);
    SourcePuts(m, seen, batch, ops, now, folder, puts);
    forall q | q != [] && Folder(q) in m.sources && Folder(q) != folder
      ensures Library(q) in Run(now, batch, puts) <==> Library(q) in now
      ensures Library(q) in now ==> Run(now, batch, puts)[Library(q)] == now[Library(q)]
    {
      InFolderInLibrary(q, Folder(q));
      AfterPuts(now, batch, puts, q);
    }
    WaitingElsewhere(m, seen, now, Run(now, batch, puts), folder);
  }

  lemma WaitingElsewhere<C>(m: Folders<C>, seen: set<Parts>, now: map<Place, C>, after: map<Place, C>, folder: Parts)
    requires m.target !in m.sources && m.Waiting(seen, now) && forall g :: m.IsOther(g) && Folder(g) == folder ==> g in seen
    requires forall q :: q != [] && Folder(q) in m.sources && Folder(q) != folder ==> (Library(q) in after <==> Library(q) in now)
    requires forall q :: q != [] && Folder(q) in m.sources && Folder(q) != folder && Library(q) in now ==>
      after[Library(q)] == now[Library(q)]
    ensures m.Waiting(seen, after)
  {
    forall g | m.IsOther(g) && g !in seen
      ensures g != [] && Folder(g) in m.sources && Folder(g) != folder
      ensures forall q :: Accompanies(g, q) ==> q != [] && Folder(q) == Folder(g)
    {
      OtherIsElsewhere(m, g);
    }
  }

  // ---- a merge that stops ----

  lemma OneTakenSoFar<C>(m: Folders<C>, seen: set<Parts>, ops: seq<Op>)
    requires m.Judged(seen, ops)
    ensures m.Allowed(ops)
  {
    if m.DisplacedApart() {
      forall x ensures m.PushedOut(seen, x) ==> m.Displaced(x) {}
      assert m.Apart(seen);
    }
  }

  /** Half a step of taking `f` in. */
  lemma TakenInPart<C>(m: Folders<C>, seen: set<Parts>, f: Parts, x: Parts, now: map<Place, C>, batch: string, ops: seq<Op>,
                       puts: seq<Op>, moves: seq<Op>)
    requires m.Orderly() && m.ComesNext(seen, f) && m.Booked(seen, ops) && m.Judged(seen, ops) && m.TakenIn(f)
    requires m.IsIn(seen, x) && m.Key(x) == m.Key(f) && LegalRun(now, batch, puts)
    requires forall op :: op in puts ==> op.PutAway? && m.InTarget(op.parts) && m.Holds(x, op.parts)
    requires forall op :: op in moves ==> op.MoveTo?
    ensures m.Allowed(ops + (puts + moves))
  {
    OneTakenSoFar(m, seen, ops);
    SettledMore(ops, puts, moves);
    OnceMore(now, batch, ops, puts, moves);
    forall op | op in puts
      ensures m.OneTakenIn() ==> !IsTarget(ops, op.parts)
      ensures m.DisplacedApart() ==> op !in ops
    {
      if m.OneTakenIn() {
        MakesWayUnmoved(m, seen, f, x, ops, op.parts);
      }
      if m.DisplacedApart() {
        MakesWayOnce(m, seen, f, x, ops, op.parts);
      }
    }
  }

  lemma MakesWayUnmoved<C>(m: Folders<C>, seen: set<Parts>, f: Parts, x: Parts, ops: seq<Op>, p: Parts)
    requires m.ComesNext(seen, f) && m.Booked(seen, ops) && m.TakenIn(f) && m.OneTakenIn()
    requires m.Key(x) == m.Key(f) && m.InTarget(p) && m.Holds(x, p)
    ensures !IsTarget(ops, p)
  {
    HolderHasKey(m, x, p);
    if IsTarget(ops, p) {
      var g :| g in seen && m.TakenIn(g) && m.Holds(g, p);
      HolderHasKey(m, g, p);
    }
  }

  lemma MakesWayOnce<C>(m: Folders<C>, seen: set<Parts>, f: Parts, x: Parts, ops: seq<Op>, p: Parts)
    requires m.ComesNext(seen, f) && m.Booked(seen, ops) && m.TakenIn(f) && m.DisplacedApart()
    requires m.IsIn(seen, x) && m.Key(x) == m.Key(f) && m.InTarget(p) && m.Holds(x, p)
    ensures PutAway(p) !in ops
  {
    assert m.Earlier(x, f) && m.Displaced(x);
    forall y | m.PushedOut(seen, y) ensures m.Displaced(y) && x != y {}
  }

  lemma LeftInPart<C>(m: Folders<C>, seen: set<Parts>, f: Parts, batch: string, ops: seq<Op>, now: map<Place, C>, puts: seq<Op>,
                      done: bool)
    requires m.Orderly() && m.ComesNext(seen, f) && Following(m, seen, batch, ops, now)
    requires MakesWay(now, f, puts, done) && LegalRun(now, batch, puts)
    ensures m.Allowed(ops + puts)
  {
    OtherIsElsewhere(m, f);
    PutsOfFile(now, f, puts, done);
    SourcePuts(m, seen, batch, ops, now, Folder(f), puts);
    OneTakenSoFar(m, seen, ops + puts);
  }

  lemma NewInPart<C>(m: Folders<C>, seen: set<Parts>, ops: seq<Op>, moves: seq<Op>)
    requires m.Judged(seen, ops) && forall op :: op in moves ==> op.MoveTo?
    ensures m.Allowed(ops + moves)
  {
    OneTakenSoFar(m, seen, ops);
    MovesChangeNeither(ops, moves);
  }

  lemma HalfTaken<C>(m: Folders<C>, seen: set<Parts>, f: Parts, batch: string, ops: seq<Op>, now: map<Place, C>, twin: Parts,
                     puts: seq<Op>, moves: seq<Op>, done: bool)
    requires m.Orderly() && m.ComesNext(seen, f) && m.Followed(seen, ops, now) && LegalRun(now, batch, puts)
    requires IsTwin(now, m.target, m.key, f, twin) && Outranks(RankOf(m.rank, now, f), RankOf(m.rank, now, twin))
    requires MakesWay(now, twin, puts, done) && forall op :: op in moves ==> op.MoveTo?
    ensures m.Allowed(ops + (puts + moves))
  {
    assert RankOf(m.rank, now, f) == m.Rank(f);
    var x := PutsOfTwin(m, seen, f, now, twin, puts, done);
    TakenInPart(m, seen, f, x, now, batch, ops, puts, moves);
  }

  lemma OnlyOneKind(puts: seq<Op>, moves: seq<Op>)
    ensures (puts == [] ==> puts + moves == moves) && (moves == [] ==> puts + moves == puts)
  {
  }

  /** A track merged in part. */
  lemma FollowPart<C>(m: Folders<C>, seen: set<Parts>, f: Parts, batch: string, ops: seq<Op>, now: map<Place, C>, twin: Option<Parts>,
                      puts: seq<Op>, moves: seq<Op>, done: bool)
    requires m.Orderly() && m.ComesNext(seen, f) && Following(m, seen, batch, ops, now)
    requires MergesOne(now, batch, m.target, m.key, f, twin, IsBetter(m.rank, now, f, twin), puts, moves, done) && LegalRun(now, batch, puts + moves)
    ensures m.Allowed(ops + (puts + moves))
  {
    RunInTwo(now, batch, puts, moves);
    OnlyOneKind(puts, moves);
    if twin.None? {
      NewInPart(m, seen, ops, moves);
    } else if Outranks(RankOf(m.rank, now, f), RankOf(m.rank, now, twin.value)) {
      HalfTaken(m, seen, f, batch, ops, now, twin.value, puts, moves, done || moves != []);
    } else {
      LeftInPart(m, seen, f, batch, ops, now, puts, done);
    }
  }

  // ---- from start to end ----

  lemma NonePushed<C>(m: Folders<C>, x: Parts)
    ensures !m.PushedOut({}, x) && (m.IsIn({}, x) <==> m.IsKeptTrack(x)) && !m.TookAlong({}, x)
  {
  }

  lemma KeptAreBest<C>(m: Folders<C>)
    requires m.Orderly()
    ensures m.BestIsIn({})
  {
    forall x ensures m.IsIn({}, x) <==> m.IsKeptTrack(x) {
      NonePushed(m, x);
    }
    forall c, g | m.IsOther(g) && m.IsKeptTrack(c) && m.Key(c) == m.Key(g) ensures m.HasBest({}, c) {
      OutranksTotally(m.Rank(c), m.Rank(c), m.Rank(c));
    }
  }

  lemma KeptAreShelved<C>(m: Folders<C>)
    requires m.Orderly()
    ensures m.Shelved({}, m.files)
  {
    forall x ensures m.IsIn({}, x) <==> m.IsKeptTrack(x) {
      NonePushed(m, x);
    }
    forall p, g | m.IsOther(g) && m.InTarget(p) && m.Key(p) == m.Key(g) ensures Library(p) in m.files <==> m.Held({}, p) {
      if Library(p) in m.files {
        assert m.GoesWithKept(p);
        var c :| m.IsKeptTrack(c) && Accompanies(c, p);
        assert m.IsIn({}, c) && m.Holds(c, p);
      }
    }
  }

  lemma FollowNothing<C>(m: Folders<C>, batch: string)
    requires m.Orderly()
    ensures Following(m, {}, batch, [], m.files)
  {
    forall x ensures !m.TookAlong({}, x) {
      NonePushed(m, x);
    }
    KeptAreBest(m);
    KeptAreShelved(m);
    NothingBooked(m);
  }

  lemma NothingBooked<C>(m: Folders<C>)
    ensures m.Booked({}, []) && m.Judged({}, [])
  {
    forall x ensures !m.PushedOut({}, x) {
      NonePushed(m, x);
    }
  }

  /** With every track of the other folders seen, the whole merge is judged. */
  lemma FollowedToTheEnd<C>(m: Folders<C>, seen: set<Parts>, ops: seq<Op>)
    requires m.Judged(seen, ops) && m.AreOthers(seen) && forall g :: m.IsOther(g) ==> g in seen
    ensures PutsOnlySettled(ops) <==> m.OneTakenIn()
    ensures PutsOnce(ops) <==> m.DisplacedApart()
  {
    assert m.OneTaken(seen) <==> m.OneTakenIn();
    forall x ensures m.PushedOut(seen, x) <==> m.Displaced(x) {}
    assert m.Apart(seen) <==> m.DisplacedApart();
  }
}
