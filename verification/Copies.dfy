/** Which copy of a track a merge of folders keeps (`crates/delune-library/src/health.rs`). */
module Copies {
  // The other folders' tracks are gone through in order. One that the kept folder hasn't got moves in;
  // one that outranks the copy it has moves in too, and the copy makes way; any other goes to the trash.
  // Here the copies of a track are followed through a whole merge: when putting the batch back undoes
  // it, and when it loses a file, is decided by the folders alone.

  import opened Text
  import opened Paths
  import opened Relocation
  import opened Batches
  import opened Trash
  import opened Health
  import opened Listings

  /** How good a file is: its quality, then its size. A file that can't be read is worst. */
  type Ranking<!C> = C -> (nat, nat)

  function RankOf<C>(rank: Ranking<C>, files: map<Place, C>, parts: Parts): (nat, nat) {
    if Library(parts) in files then rank(files[Library(parts)]) else (0, 0)
  }

  predicate Outranks(a: (nat, nat), b: (nat, nat)) {
    b.0 < a.0 || (a.0 == b.0 && b.1 < a.1)
  }

  /** A track of the kept folder that is the same track. */
  predicate IsTwin<C>(files: map<Place, C>, target: Parts, key: string -> string, file: Parts, twin: Parts) {
    Library(twin) in files && IsTrackOf(twin, target) && Telling(TrackKey(key, file)) && TrackKey(key, twin) == TrackKey(key, file)
  }

  /** The first twin, by name. */
  ghost predicate IsFirstTwin<C>(files: map<Place, C>, target: Parts, key: string -> string, file: Parts, twin: Parts) {
    IsTwin(files, target, key, file, twin) && forall t :: IsTwin(files, target, key, file, t) ==> NamedBefore(twin, t)
  }

  /** Nothing but the kept folder and the trash gets files. */
  ghost predicate OnlyFills(ops: seq<Op>, target: Parts) {
    forall op :: op in ops && op.MoveTo? ==> op.to != [] && Folder(op.to) == target
  }

  /** Only files of one folder are put away. */
  ghost predicate PutsFrom(ops: seq<Op>, folder: Parts) {
    forall op :: op in ops ==> op.PutAway? && op.parts != [] && Folder(op.parts) == folder
  }

  // ---- one track ----

  /** A file and what goes with it make way; all of it, when done. */
  ghost predicate MakesWay<C>(files: map<Place, C>, parts: Parts, ops: seq<Op>, done: bool) {
    && parts != [] && PutsOf(ops, PutSet(files, parts))
    && (done ==> forall q :: q in PutSet(files, parts) ==> PutAway(q) in ops)
  }

  /** A file and what goes with it move in; all of it, when done. */
  ghost predicate ComesIn<C>(files: map<Place, C>, batch: string, file: Parts, target: Parts, ops: seq<Op>, done: bool) {
    && MovesIn(ops, file, target) && NumberedIfTaken(files, batch, ops, target)
    && (done ==> forall q :: q in MoveSet(files, file) ==> WasMoved(ops, q))
  }

  ghost predicate TakesOver<C>(files: map<Place, C>, batch: string, file: Parts, twin: Parts, target: Parts,
                               puts: seq<Op>, moves: seq<Op>, done: bool) {
    && MakesWay(files, twin, puts, done || moves != [])
    && ComesIn(Run(files, batch, puts), batch, file, target, moves, done)
  }

  /** What merging one track does: the better copy of it ends in the kept folder. */
  ghost predicate MergesOne<C>(files: map<Place, C>, batch: string, target: Parts, key: string -> string, file: Parts,
                               twin: Option<Parts>, better: bool, puts: seq<Op>, moves: seq<Op>, done: bool) {
    match twin
    case None =>
      (forall t :: !IsTwin(files, target, key, file, t)) && puts == [] && ComesIn(files, batch, file, target, moves, done)
    case Some(t) =>
      && IsFirstTwin(files, target, key, file, t)
      && if better then TakesOver(files, batch, file, t, target, puts, moves, done)
         else moves == [] && MakesWay(files, file, puts, done)
  }

  /** The file outranks its twin. */
  predicate IsBetter<C>(rank: Ranking<C>, files: map<Place, C>, file: Parts, twin: Option<Parts>) {
    twin.Some? && Outranks(RankOf(rank, files, file), RankOf(rank, files, twin.value))
  }

  // ---- the folders ----

  /** Tracks are merged folder by folder, and by name in a folder. */
  ghost predicate MergedBefore(sources: seq<Parts>, h: Parts, g: Parts) {
    || (Folder(h) == Folder(g) && h != g && NamedBefore(h, g))
    || (exists i, j :: 0 <= i < j < |sources| && Folder(h) == sources[i] && Folder(g) == sources[j])
  }

  /** The folders to be merged, as they are before. */
  datatype Folders<!C> = Folders(files: map<Place, C>, target: Parts, sources: seq<Parts>, key: string -> string, rank: Ranking<C>) {
    predicate IsKeptTrack(c: Parts) {
      Library(c) in files && IsTrackOf(c, target)
    }

    predicate IsOther(g: Parts) {
      Library(g) in files && IsSourceTrack(g, sources)
    }

    function Key(parts: Parts): string {
      TrackKey(key, parts)
    }

    function Rank(parts: Parts): (nat, nat) {
      RankOf(rank, files, parts)
    }

    /** A copy of `g` that the merge comes across before it. */
    ghost predicate Earlier(c: Parts, g: Parts) {
      IsOther(g) && Key(c) == Key(g) && (IsKeptTrack(c) || (IsOther(c) && MergedBefore(sources, c, g)))
    }

    /** A track of the other folders that is better than every copy before it. */
    ghost predicate TakenIn(g: Parts) {
      IsOther(g) && forall c :: Earlier(c, g) ==> Outranks(Rank(g), Rank(c))
    }

    /** Of the other folders' copies of a track, no more than one gets in. */
    ghost predicate OneTakenIn() {
      forall g, h :: TakenIn(g) && TakenIn(h) && Key(g) == Key(h) ==> g == h
    }

    /** A copy that is in the kept folder for a while and then makes way for a better one. */
    ghost predicate Displaced(x: Parts) {
      (IsKeptTrack(x) || TakenIn(x)) && exists g :: TakenIn(g) && Earlier(x, g)
    }

    /** `g` takes `q` along: itself, and files sharing its name that aren't audio, unless a track
        of that name took them along before. */
    ghost predicate Brings(g: Parts, q: Parts) {
      && Library(q) in files && Accompanies(g, q)
      && (q == g || forall h :: TakenIn(h) && Beside(h, g) ==> !MergedBefore(sources, h, g))
    }

    predicate Beside(h: Parts, g: Parts) {
      h != [] && Folder(h) == Folder(g) && Stem(FileName(h)) == Stem(FileName(g))
    }

    predicate InTarget(p: Parts) {
      p != [] && Folder(p) == target
    }

    /** While `x` is in the kept folder, it or what goes with it is at `p`. */
    ghost predicate Holds(x: Parts, p: Parts) {
      InTarget(p) &&
      if IsKeptTrack(x) then Library(p) in files && Key(p) == Key(x) else Brings(x, Folder(x) + [FileName(p)])
    }

    /** No two of the copies that make way were in one place, nor was what went with them. */
    ghost predicate DisplacedApart() {
      forall x, y, p :: Displaced(x) && Displaced(y) && x != y ==> !(Holds(x, p) && Holds(y, p))
    }

    /** Where `x` is when it is in the kept folder. */
    function Spot(x: Parts): Parts {
      if IsKeptTrack(x) then x else target + [FileName(x)]
    }

    /** The other folders' tracks have keys that tell something. Of each of them the kept folder
        has one copy at most, and any other file there with its key goes with that copy. */
    ghost predicate Orderly() {
      && IsLibrary(target) && target !in sources && (forall folder :: folder in sources ==> IsLibrary(folder))
      && (forall i, j :: 0 <= i < j < |sources| ==> sources[i] != sources[j])
      && (forall g :: IsOther(g) ==> Telling(Key(g)))
      && (forall c, d, g :: IsOther(g) && IsKeptTrack(c) && IsKeptTrack(d) && Key(c) == Key(g) && Key(d) == Key(g) ==> c == d)
      && (forall p, g :: IsOther(g) && InTarget(p) && Library(p) in files && Key(p) == Key(g) ==> GoesWithKept(p))
    }

    ghost predicate GoesWithKept(p: Parts) {
      exists c :: IsKeptTrack(c) && Accompanies(c, p)
    }

    // -- with some tracks merged --

    predicate AreOthers(seen: set<Parts>) {
      forall g :: g in seen ==> IsOther(g)
    }

    /** The tracks merged so far, up to `g`. */
    ghost predicate UpTo(seen: set<Parts>, g: Parts) {
      && IsOther(g) && g !in seen && AreOthers(seen)
      && (forall h :: IsOther(h) ==> (MergedBefore(sources, h, g) <==> h in seen))
      && (forall h :: h in seen ==> !MergedBefore(sources, g, h))
    }

    /** It is `g`'s turn: the copies before it are those merged so far and the kept folder's. */
    ghost predicate ComesNext(seen: set<Parts>, g: Parts) {
      && IsOther(g) && g !in seen && !IsKeptTrack(g) && AreOthers(seen)
      && (forall c :: Earlier(c, g) <==> Key(c) == Key(g) && (IsKeptTrack(c) || c in seen))
      && (forall h :: h in seen ==> !Earlier(g, h))
      && (forall h :: TakenIn(h) && Beside(h, g) ==> (MergedBefore(sources, h, g) <==> h in seen))
    }

    /** Has been in the kept folder. */
    ghost predicate HasBeenIn(seen: set<Parts>, x: Parts) {
      IsKeptTrack(x) || (x in seen && TakenIn(x))
    }

    ghost predicate PushedOut(seen: set<Parts>, x: Parts) {
      HasBeenIn(seen, x) && exists g :: g in seen && TakenIn(g) && Earlier(x, g)
    }

    ghost predicate IsIn(seen: set<Parts>, x: Parts) {
      HasBeenIn(seen, x) && !PushedOut(seen, x)
    }

    ghost predicate OneTaken(seen: set<Parts>) {
      forall g, h :: g in seen && h in seen && TakenIn(g) && TakenIn(h) && Key(g) == Key(h) ==> g == h
    }

    ghost predicate Apart(seen: set<Parts>) {
      forall x, y, p :: PushedOut(seen, x) && PushedOut(seen, y) && x != y ==> !(Holds(x, p) && Holds(y, p))
    }

    /** The copy of each track that is in is one of the best so far. */
    ghost predicate BestIsIn(seen: set<Parts>) {
      && (forall x, y, g :: IsOther(g) && IsIn(seen, x) && IsIn(seen, y) && Key(x) == Key(g) && Key(y) == Key(g) ==> x == y)
      && (forall c, g :: IsOther(g) && (IsKeptTrack(c) || c in seen) && Key(c) == Key(g) ==> HasBest(seen, c))
    }

    ghost predicate HasBest(seen: set<Parts>, c: Parts) {
      exists x :: IsIn(seen, x) && Key(x) == Key(c) && !Outranks(Rank(c), Rank(x))
    }

    // -- what it looks like --

    ghost predicate Held(seen: set<Parts>, p: Parts) {
      exists x :: IsIn(seen, x) && Holds(x, p)
    }

    /** The kept folder has the copies that are in and what goes with them, and nothing else of
        their keys. */
    ghost predicate Shelved(seen: set<Parts>, now: map<Place, C>) {
      && (forall p, g :: IsOther(g) && InTarget(p) && Key(p) == Key(g) ==> (Library(p) in now <==> Held(seen, p)))
      && (forall x, g :: IsOther(g) && IsIn(seen, x) && Key(x) == Key(g) ==>
            Library(Spot(x)) in now && now[Library(Spot(x))] == files[Library(x)])
    }

    ghost predicate WasHeld(seen: set<Parts>, p: Parts) {
      exists x :: PushedOut(seen, x) && Holds(x, p)
    }

    ghost predicate WasBrought(seen: set<Parts>, p: Parts) {
      exists g :: g in seen && TakenIn(g) && Holds(g, p)
    }

    /** What was put away from the kept folder, and what was moved there. */
    ghost predicate Booked(seen: set<Parts>, ops: seq<Op>) {
      && OnlyFills(ops, target)
      && (forall p :: InTarget(p) ==> (PutAway(p) in ops <==> WasHeld(seen, p)))
      && (forall p :: InTarget(p) ==> (IsTarget(ops, p) <==> WasBrought(seen, p)))
    }

    ghost predicate TookAlong(seen: set<Parts>, g: Parts) {
      exists h :: h in seen && TakenIn(h) && Beside(h, g)
    }

    /** The tracks still to come are where they were, with what still goes with them. */
    ghost predicate Waiting(seen: set<Parts>, now: map<Place, C>) {
      && (forall g :: IsOther(g) && g !in seen ==> Library(g) in now && now[Library(g)] == files[Library(g)])
      && (forall g, q :: IsOther(g) && g !in seen && Accompanies(g, q) && q != g ==>
            (Library(q) in now <==> Library(q) in files && !TookAlong(seen, g)))
    }

    /** So far the run can be undone, and keeps all files, exactly when these allow it. */
    ghost predicate Judged(seen: set<Parts>, ops: seq<Op>) {
      (PutsOnlySettled(ops) <==> OneTaken(seen)) && (PutsOnce(ops) <==> Apart(seen))
    }

    ghost predicate Followed(seen: set<Parts>, ops: seq<Op>, now: map<Place, C>) {
      BestIsIn(seen) && Shelved(seen, now) && Booked(seen, ops) && Waiting(seen, now) && Judged(seen, ops)
    }

    /** However far the merge got. */
    ghost predicate Allowed(ops: seq<Op>) {
      (OneTakenIn() ==> PutsOnlySettled(ops)) && (DisplacedApart() ==> PutsOnce(ops))
    }
  }

  // ---- what holds what ----

  lemma OtherIsElsewhere<C>(m: Folders<C>, g: Parts)
    requires m.target !in m.sources && IsSourceTrack(g, m.sources)
    ensures g != [] && Folder(g) in m.sources && Folder(g) != m.target && !m.IsKeptTrack(g)
  {
  }

  lemma AtName(folder: Parts, p: Parts)
    requires p != [] && Folder(p) == folder
    ensures p == folder + [FileName(p)]
  {
  }

  /** What `x` holds is named like it; of audio only itself. */
  lemma HeldIsLike<C>(m: Folders<C>, g: Parts, x: Parts, p: Parts)
    requires m.Orderly() && m.IsOther(g) && m.Key(x) == m.Key(g) && (m.IsKeptTrack(x) || m.TakenIn(x)) && m.Holds(x, p)
    ensures Stem(FileName(p)) == Stem(FileName(x)) && m.Key(p) == m.Key(x)
    ensures IsAudio(FileName(p)) ==> p == m.Spot(x)
  {
    if m.IsKeptTrack(x) {
      assert m.GoesWithKept(p);
      var c :| m.IsKeptTrack(c) && Accompanies(c, p);
      assert m.Key(c) == m.Key(p);
    } else {
      var q := Folder(x) + [FileName(p)];
      assert Accompanies(x, q) && FileName(q) == FileName(p);
      AtName(m.target, p);
    }
  }

  lemma HoldsItsSpot<C>(m: Folders<C>, x: Parts)
    requires m.target !in m.sources && (m.IsKeptTrack(x) || m.TakenIn(x))
    ensures m.Holds(x, m.Spot(x)) && IsTrackOf(m.Spot(x), m.target) && FileName(m.Spot(x)) == FileName(x)
  {
    if !m.IsKeptTrack(x) {
      OtherIsElsewhere(m, x);
      AtName(Folder(x), x);
      assert Accompanies(x, x);
    }
  }

  // ---- one more track seen ----

  lemma UpToIsNext<C>(m: Folders<C>, seen: set<Parts>, f: Parts)
    requires m.Orderly() && m.UpTo(seen, f)
    ensures m.ComesNext(seen, f)
  {
    OtherIsElsewhere(m, f);
  }

  lemma TakenPushes<C>(m: Folders<C>, seen: set<Parts>, f: Parts, y: Parts)
    requires m.ComesNext(seen, f) && m.TakenIn(f)
    ensures m.PushedOut(seen + {f}, y) <==> m.PushedOut(seen, y) || (m.HasBeenIn(seen, y) && m.Key(y) == m.Key(f))
    ensures m.IsIn(seen + {f}, y) <==> y == f || (m.IsIn(seen, y) && m.Key(y) != m.Key(f))
  {
    assert f in seen + {f};
    if m.PushedOut(seen, y) {
      var g :| g in seen && m.TakenIn(g) && m.Earlier(y, g);
      assert g in seen + {f};
    }
  }

  lemma LeftPushesNone<C>(m: Folders<C>, seen: set<Parts>, f: Parts, y: Parts)
    requires !m.TakenIn(f)
    ensures m.PushedOut(seen + {f}, y) <==> m.PushedOut(seen, y)
    ensures m.IsIn(seen + {f}, y) <==> m.IsIn(seen, y)
  {
    if m.PushedOut(seen, y) {
      var g :| g in seen && m.TakenIn(g) && m.Earlier(y, g);
      assert g in seen + {f};
    }
  }

  lemma OutranksTotally(a: (nat, nat), b: (nat, nat), c: (nat, nat))
    ensures !Outranks(a, a)
    ensures Outranks(a, b) && !Outranks(c, b) ==> Outranks(a, c)
    ensures Outranks(a, b) ==> !Outranks(b, a)
  {
  }

  /** A track better than the copy that is in is better than all before it. */
  lemma TakenIff<C>(m: Folders<C>, seen: set<Parts>, f: Parts, x: Parts)
    requires m.ComesNext(seen, f) && m.BestIsIn(seen) && m.IsIn(seen, x) && m.Key(x) == m.Key(f)
    ensures m.TakenIn(f) <==> Outranks(m.Rank(f), m.Rank(x))
  {
    if Outranks(m.Rank(f), m.Rank(x)) {
      forall c | m.Earlier(c, f) ensures Outranks(m.Rank(f), m.Rank(c)) {
        assert m.HasBest(seen, c);
        var y :| m.IsIn(seen, y) && m.Key(y) == m.Key(c) && !Outranks(m.Rank(c), m.Rank(y));
        OutranksTotally(m.Rank(f), m.Rank(x), m.Rank(c));
      }
    }
  }

  lemma BestHasKey<C>(m: Folders<C>, seen: set<Parts>, f: Parts, c: Parts)
    requires m.BestIsIn(seen) && m.IsOther(f) && (m.IsKeptTrack(c) || c in seen) && m.Key(c) == m.Key(f)
    ensures exists x :: m.IsIn(seen, x) && m.Key(x) == m.Key(f)
  {
    assert m.HasBest(seen, c);
  }

  /** A track of which none is in is taken in. */
  lemma TakenAsFirst<C>(m: Folders<C>, seen: set<Parts>, f: Parts)
    requires m.ComesNext(seen, f) && m.BestIsIn(seen)
    requires forall x :: m.IsIn(seen, x) ==> m.Key(x) != m.Key(f)
    ensures m.TakenIn(f)
  {
    forall c ensures !m.Earlier(c, f) {
      if m.Key(c) == m.Key(f) && (m.IsKeptTrack(c) || c in seen) {
        BestHasKey(m, seen, f, c);
      }
    }
  }

  lemma BestAfterTaken<C>(m: Folders<C>, seen: set<Parts>, f: Parts)
    requires m.ComesNext(seen, f) && m.BestIsIn(seen) && m.TakenIn(f)
    ensures m.BestIsIn(seen + {f})
  {
    forall y ensures m.IsIn(seen + {f}, y) <==> y == f || (m.IsIn(seen, y) && m.Key(y) != m.Key(f)) {
      TakenPushes(m, seen, f, y);
    }
    forall c, g | m.IsOther(g) && (m.IsKeptTrack(c) || c in seen + {f}) && m.Key(c) == m.Key(g) ensures m.HasBest(seen + {f}, c) {
      if m.Key(c) == m.Key(f) {
        assert m.IsIn(seen + {f}, f);
        OutranksTotally(m.Rank(f), m.Rank(c), m.Rank(f));
      } else {
        assert m.HasBest(seen, c);
        var x :| m.IsIn(seen, x) && m.Key(x) == m.Key(c) && !Outranks(m.Rank(c), m.Rank(x));
        assert m.IsIn(seen + {f}, x);
      }
    }
  }

  lemma BestAfterLeft<C>(m: Folders<C>, seen: set<Parts>, f: Parts, x: Parts)
    requires m.ComesNext(seen, f) && m.BestIsIn(seen) && !m.TakenIn(f) && m.IsIn(seen, x) && m.Key(x) == m.Key(f)
    ensures m.BestIsIn(seen + {f})
  {
    forall y ensures m.IsIn(seen + {f}, y) <==> m.IsIn(seen, y) {
      LeftPushesNone(m, seen, f, y);
    }
    TakenIff(m, seen, f, x);
    forall c, g | m.IsOther(g) && (m.IsKeptTrack(c) || c in seen + {f}) && m.Key(c) == m.Key(g) ensures m.HasBest(seen + {f}, c) {
      if c == f {
        assert m.IsIn(seen + {f}, x);
      } else {
        assert m.HasBest(seen, c);
        var y :| m.IsIn(seen, y) && m.Key(y) == m.Key(c) && !Outranks(m.Rank(c), m.Rank(y));
        assert m.IsIn(seen + {f}, y);
      }
    }
  }

  // ---- the twin ----

  /** The twin found is the copy that is in. */
  lemma TwinIsIn<C>(m: Folders<C>, seen: set<Parts>, f: Parts, now: map<Place, C>, t: Parts) returns (x: Parts)
    requires m.Orderly() && m.IsOther(f) && m.Shelved(seen, now) && IsTwin(now, m.target, m.key, f, t)
    ensures m.IsIn(seen, x) && m.Key(x) == m.Key(f) && t == m.Spot(x) && RankOf(m.rank, now, t) == m.Rank(x)
  {
    assert m.InTarget(t) && m.Key(t) == m.Key(f);
    assert m.Held(seen, t);
    x :| m.IsIn(seen, x) && m.Holds(x, t);
    HolderHasKey(m, x, t);
    HeldIsLike(m, f, x, t);
  }

  lemma HolderHasKey<C>(m: Folders<C>, x: Parts, p: Parts)
    requires m.Holds(x, p)
    ensures m.Key(x) == m.Key(p)
  {
    if !m.IsKeptTrack(x) {
      assert Accompanies(x, Folder(x) + [FileName(p)]);
    }
  }

  lemma NoTwinNoneIn<C>(m: Folders<C>, seen: set<Parts>, f: Parts, now: map<Place, C>, x: Parts)
    requires m.Orderly() && m.IsOther(f) && m.Shelved(seen, now) && m.IsIn(seen, x)
    requires forall t :: !IsTwin(now, m.target, m.key, f, t)
    ensures m.Key(x) != m.Key(f)
  {
    if m.Key(x) == m.Key(f) {
      HoldsItsSpot(m, x);
      assert IsTwin(now, m.target, m.key, f, m.Spot(x));
    }
  }

  lemma HeldByIt<C>(m: Folders<C>, seen: set<Parts>, f: Parts, now: map<Place, C>, x: Parts, q: Parts)
    requires m.Orderly() && m.IsOther(f) && m.BestIsIn(seen) && m.Shelved(seen, now) && m.IsIn(seen, x) && m.Key(x) == m.Key(f)
    requires m.InTarget(q) && Library(q) in now && m.Key(q) == m.Key(f)
    ensures m.Holds(x, q)
  {
    assert m.Held(seen, q);
    var y :| m.IsIn(seen, y) && m.Holds(y, q);
    HolderHasKey(m, y, q);
  }

  /** Everything of its key in the kept folder is named like it, and it is the only audio. */
  lemma NamesakesAreHeld<C>(m: Folders<C>, seen: set<Parts>, f: Parts, now: map<Place, C>, x: Parts, q: Parts)
    requires m.Orderly() && m.IsOther(f) && m.BestIsIn(seen) && m.Shelved(seen, now) && m.IsIn(seen, x) && m.Key(x) == m.Key(f)
    requires m.InTarget(q)
    ensures m.Holds(x, q) <==> Library(q) in now && Stem(FileName(q)) == Stem(FileName(x))
    ensures m.Holds(x, q) && IsAudio(FileName(q)) ==> q == m.Spot(x)
  {
    if m.Holds(x, q) {
      HeldIsLike(m, f, x, q);
      assert m.Held(seen, q);
    } else if Library(q) in now && Stem(FileName(q)) == Stem(FileName(x)) {
      assert m.Key(q) == m.Key(x);
      HeldByIt(m, seen, f, now, x, q);
    }
  }

  /** With the copy that is in goes all that the kept folder has of its key. */
  lemma AllMakeWay<C>(m: Folders<C>, seen: set<Parts>, f: Parts, now: map<Place, C>, x: Parts, t: Parts, p: Parts)
    requires m.Orderly() && m.IsOther(f) && m.BestIsIn(seen) && m.Shelved(seen, now) && m.IsIn(seen, x) && m.Key(x) == m.Key(f)
    requires t != [] && t == m.Spot(x)
    ensures p in PutSet(now, t) <==> m.Holds(x, p)
  {
    HoldsItsSpot(m, x);
    NamesakesGoAlong(m, seen, f, now, x, t);
    GoesIff(now, t, p);
    if m.InTarget(p) {
      NamesakesAreHeld(m, seen, f, now, x, p);
    }
  }

  lemma GoesIff<C>(files: map<Place, C>, t: Parts, p: Parts)
    requires t != [] && NoneAudio(Namesakes(files, t))
    ensures p in PutSet(files, t) <==>
      p == t || (Library(p) in files && p != [] && Folder(p) == Folder(t) && Stem(FileName(p)) == Stem(FileName(t)))
  {
  }

  predicate NoneAudio(all: set<Parts>) {
    forall q :: q in all ==> !IsAudio(FileName(q))
  }

  lemma NamesakesGoAlong<C>(m: Folders<C>, seen: set<Parts>, f: Parts, now: map<Place, C>, x: Parts, t: Parts)
    requires m.Orderly() && m.IsOther(f) && m.BestIsIn(seen) && m.Shelved(seen, now) && m.IsIn(seen, x) && m.Key(x) == m.Key(f)
    requires t == m.Spot(x) && IsTrackOf(t, m.target) && FileName(t) == FileName(x)
    ensures NoneAudio(Namesakes(now, t))
  {
    forall q | q in Namesakes(now, t) ensures !IsAudio(FileName(q)) {
      NamesakesAreHeld(m, seen, f, now, x, q);
    }
  }

  // ---- whose turn it is ----

  /** All tracks of the first `n` other folders, and of the next those not among `left`, which
      come by name after them. */
  ghost predicate UpToFolder<C>(m: Folders<C>, seen: set<Parts>, n: nat, left: set<Parts>)
    requires n <= |m.sources|
  {
    && m.AreOthers(seen)
    && (forall g :: m.IsOther(g) ==> (g in seen <==> Folder(g) in m.sources[..n] || (n < |m.sources| && Folder(g) == m.sources[n] && g !in left)))
    && (forall g :: g in left ==> n < |m.sources| && m.IsOther(g) && Folder(g) == m.sources[n])
    && (forall g, h :: g in seen && h in left && Folder(g) == Folder(h) ==> NamedBefore(g, h))
  }

  lemma FolderAt(sources: seq<Parts>, folder: Parts, n: nat) returns (i: nat)
    requires n <= |sources| && folder in sources[..n]
    ensures i < n && sources[i] == folder
  {
    i :| 0 <= i < |sources[..n]| && sources[..n][i] == folder;
  }

  lemma NotBoth(a: Parts, b: Parts)
    requires a != b && a != [] && b != [] && Folder(a) == Folder(b)
    ensures !(NamedBefore(a, b) && NamedBefore(b, a))
  {
    AtName(Folder(a), a);
    AtName(Folder(b), b);
    LessIsStrict(FileName(a), FileName(b));
  }

  /** The first of those left is next. */
  lemma NextUp<C>(m: Folders<C>, seen: set<Parts>, n: nat, left: set<Parts>, f: Parts)
    requires m.Orderly() && n < |m.sources| && UpToFolder(m, seen, n, left)
    requires f in left && forall g :: g in left ==> NamedBefore(f, g)
    ensures m.UpTo(seen, f)
  {
    forall h | m.IsOther(h)
      ensures MergedBefore(m.sources, h, f) <==> h in seen
      ensures h in seen ==> !MergedBefore(m.sources, f, h)
    {
      OtherIsElsewhere(m, h);
      OtherIsElsewhere(m, f);
      if Folder(h) == Folder(f) {
        NotFromItself(m, n, Folder(f));
        SameFolderTurn(m, seen, n, left, f, h);
      } else {
        OtherFolderTurn(m, seen, n, left, f, h);
      }
    }
    assert f !in seen by {
      NotFromItself(m, n, Folder(f));
    }
  }

  lemma NotFromItself<C>(m: Folders<C>, n: nat, folder: Parts)
    requires m.Orderly() && n < |m.sources| && folder == m.sources[n]
    ensures folder !in m.sources[..n] && forall i, j :: 0 <= i < j < |m.sources| ==> !(m.sources[i] == folder && m.sources[j] == folder)
  {
    if folder in m.sources[..n] {
      var i := FolderAt(m.sources, folder, n);
    }
  }

  lemma SameFolderTurn<C>(m: Folders<C>, seen: set<Parts>, n: nat, left: set<Parts>, f: Parts, h: Parts)
    requires n < |m.sources| && UpToFolder(m, seen, n, left) && m.IsOther(h) && h != []
    requires f in left && (forall g :: g in left ==> NamedBefore(f, g)) && f != [] && Folder(h) == Folder(f)
    requires Folder(f) !in m.sources[..n]
    requires forall i, j :: 0 <= i < j < |m.sources| ==> !(m.sources[i] == Folder(f) && m.sources[j] == Folder(f))
    ensures MergedBefore(m.sources, h, f) <==> h in seen
    ensures h in seen ==> !MergedBefore(m.sources, f, h)
  {
    if h != f {
      NotBoth(h, f);
    }
  }

  lemma OtherFolderTurn<C>(m: Folders<C>, seen: set<Parts>, n: nat, left: set<Parts>, f: Parts, h: Parts)
    requires m.Orderly() && n < |m.sources| && UpToFolder(m, seen, n, left) && m.IsOther(h) && Folder(h) in m.sources
    requires f in left && Folder(h) != Folder(f)
    ensures MergedBefore(m.sources, h, f) <==> h in seen
    ensures h in seen ==> !MergedBefore(m.sources, f, h)
  {
    var k :| 0 <= k < |m.sources| && m.sources[k] == Folder(h);
    assert Folder(h) in m.sources[..n] <==> k < n by {
      if Folder(h) in m.sources[..n] {
        var i := FolderAt(m.sources, Folder(h), n);
      }
      assert k < n ==> m.sources[k] in m.sources[..n];
    }
  }

  lemma TurnTaken<C>(m: Folders<C>, seen: set<Parts>, n: nat, left: set<Parts>, f: Parts)
    requires n < |m.sources| && UpToFolder(m, seen, n, left) && f in left && forall g :: g in left ==> NamedBefore(f, g)
    ensures UpToFolder(m, seen + {f}, n, left - {f})
  {
  }

  /** All tracks of the first `n` other folders. */
  ghost predicate AtFolder<C>(m: Folders<C>, seen: set<Parts>, n: nat)
    requires n <= |m.sources|
  {
    m.AreOthers(seen) && forall g :: m.IsOther(g) ==> (g in seen <==> Folder(g) in m.sources[..n])
  }

  lemma FolderBegun<C>(m: Folders<C>, seen: set<Parts>, n: nat, todo: set<Parts>)
    requires m.Orderly() && n < |m.sources| && AtFolder(m, seen, n)
    requires forall g :: g in todo <==> m.IsOther(g) && Folder(g) == m.sources[n]
    ensures UpToFolder(m, seen, n, todo)
  {
    NotFromItself(m, n, m.sources[n]);
  }

  lemma FolderDone<C>(m: Folders<C>, seen: set<Parts>, n: nat)
    requires n < |m.sources| && UpToFolder(m, seen, n, {})
    ensures AtFolder(m, seen, n + 1)
  {
    assert m.sources[..n + 1] == m.sources[..n] + [m.sources[n]];
  }

  lemma AllFoldersDone<C>(m: Folders<C>, seen: set<Parts>)
    requires AtFolder(m, seen, |m.sources|)
    ensures forall g :: m.IsOther(g) ==> g in seen
  {
    assert m.sources[..|m.sources|] == m.sources;
  }
}
