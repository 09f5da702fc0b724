/** A merge that can't be undone (`crates/delune-library/src/health.rs`). */
module LostLyrics {
  // Every track has a key of its own. Still the lyrics of one track arrive under a number, and are put
  // away with the kept copy of another track that has that number in its name.

  import opened Text
  import opened Paths
  import opened Relocation
  import opened Batches
  import opened Trash
  import opened Health
  import opened Copies
  import opened Merging
  import Listings
  import opened AlbumKeys

  /** The folders `first` and `second` are merged into `target`. The first has a track with its
      lyrics, the second a better copy of a track of the kept folder, whose name is the first
      track's with a number. The kept folder has lyrics by the name of the first track's, too. */
  datatype Scene = Scene(target: Parts, first: Parts, second: Parts, kept: Parts, keptLyrics: Parts, track: Parts, lyrics: Parts,
                         better: Parts, arrived: Parts, arrivedLyrics: Parts) {
    predicate InFolders() {
      && IsLibrary(target) && IsLibrary(first) && IsLibrary(second)
      && target != first && target != second && first != second
      && In(kept, target) && In(keptLyrics, target) && In(arrived, target) && In(arrivedLyrics, target)
      && In(track, first) && In(lyrics, first) && In(better, second)
    }

    predicate In(parts: Parts, folder: Parts) {
      parts != [] && Folder(parts) == folder
    }

    predicate Distinct() {
      && kept != keptLyrics && kept != arrived && kept != arrivedLyrics
      && keptLyrics != arrived && keptLyrics != arrivedLyrics && arrived != arrivedLyrics
      && track != lyrics && track != better && lyrics != better
      && kept != track && kept != lyrics && kept != better
      && keptLyrics != track && keptLyrics != lyrics && keptLyrics != better
      && arrived != track && arrived != lyrics && arrived != better
      && arrivedLyrics != track && arrivedLyrics != lyrics && arrivedLyrics != better
    }

    predicate InLibrary() {
      && IsLibrary(kept) && IsLibrary(keptLyrics) && IsLibrary(track) && IsLibrary(lyrics) && IsLibrary(better)
      && IsLibrary(arrived) && IsLibrary(arrivedLyrics)
    }

    predicate Named() {
      && FileName(kept) == FileName(better) && FileName(keptLyrics) == FileName(lyrics) && FileName(arrived) == FileName(track)
      && Stem(FileName(track)) == Stem(FileName(lyrics))
      && HasNumber(lyrics, arrivedLyrics, 2)
      && Stem(FileName(kept)) == NumberedStem(lyrics, 2) == Stem(FileName(arrivedLyrics))
      && IsAudio(FileName(track)) && !IsHidden(FileName(track)) && IsAudio(FileName(kept)) && !IsHidden(FileName(kept))
      && !IsAudio(FileName(lyrics)) && !IsAudio(FileName(arrivedLyrics))
    }

    ghost predicate Begins<C>(files: map<Place, C>) {
      files.Keys == {Library(kept), Library(keptLyrics), Library(track), Library(lyrics), Library(better)}
    }

    /** The first folder's track and its lyrics move in. */
    function FirstOps(): seq<Op> {
      [MoveTo(track, arrived), MoveTo(lyrics, arrivedLyrics)]
    }

    ghost predicate Goes<C>(files: map<Place, C>) {
      files.Keys == {Library(kept), Library(keptLyrics), Library(arrived), Library(arrivedLyrics), Library(better)}
    }

    /** The kept copy and what goes with it make way. */
    function Puts(): seq<Op> {
      [PutAway(kept), PutAway(arrivedLyrics)]
    }

    /** The better copy moves in. */
    function Takes(): seq<Op> {
      [MoveTo(better, kept)]
    }
  }

  lemma StemsDiffer(parts: Parts)
    ensures Stem(FileName(parts)) != NumberedStem(parts, 2)
  {
    assert |NumberedStem(parts, 2)| == |Stem(FileName(parts))| + 2 + |Decimal(2)| + 1;
  }

  lemma AllDiffer(s: Scene)
    requires s.InFolders() && s.Named()
    ensures s.Distinct()
  {
    StemsDiffer(s.lyrics);
  }

  lemma AllInLibrary(s: Scene)
    requires s.InFolders()
    ensures s.InLibrary()
  {
    InFolderInLibrary(s.kept, s.target);
    InFolderInLibrary(s.keptLyrics, s.target);
    InFolderInLibrary(s.arrived, s.target);
    InFolderInLibrary(s.arrivedLyrics, s.target);
    InFolderInLibrary(s.track, s.first);
    InFolderInLibrary(s.lyrics, s.first);
    InFolderInLibrary(s.better, s.second);
  }

  // ---- what each folder has ----

  lemma FirstHas<C>(s: Scene, files: map<Place, C>, q: Parts)
    requires s.InFolders() && s.Begins(files) && Library(q) in files && q != []
    ensures Folder(q) == s.target ==> q == s.kept || q == s.keptLyrics
    ensures Folder(q) == s.first ==> q == s.track || q == s.lyrics
    ensures Folder(q) == s.second ==> q == s.better
  {
    assert Library(q) in files.Keys;
  }

  lemma ThenHas<C>(s: Scene, files: map<Place, C>, q: Parts)
    requires s.InFolders() && s.Goes(files) && Library(q) in files && q != []
    ensures Folder(q) == s.target ==> q == s.kept || q == s.keptLyrics || q == s.arrived || q == s.arrivedLyrics
    ensures Folder(q) == s.second ==> q == s.better
  {
    assert Library(q) in files.Keys;
  }

  lemma LyricsAreNoTracks(s: Scene)
    requires s.Named()
    ensures !IsAudio(FileName(s.keptLyrics)) && !IsAudio(FileName(s.arrivedLyrics)) && !IsAudio(FileName(s.lyrics))
  {
  }

  // ---- the first track ----

  lemma TwoMoves<C>(files: map<Place, C>, batch: string, a: Op, b: Op)
    requires a.MoveTo? && b.MoveTo? && Legal(files, a) && Legal(Step(files, batch, a), b)
    ensures Stepped(files, batch, [a, b], Step(Step(files, batch, a), batch, b))
    ensures Log([a, b]) == [(a.from, a.to), (b.from, b.to)]
  {
    assert [] + [a] == [a] && [a] + [b] == [a, b];
    RunMore(files, batch, [], a);
    RunMore(files, batch, [a], b);
    Unsnoc([], a);
    Unsnoc([a], b);
  }

  lemma FirstStepped<C>(s: Scene, files: map<Place, C>, batch: string)
    requires s.Distinct() && s.InLibrary() && s.Begins(files)
    ensures LegalRun(files, batch, s.FirstOps()) && s.Goes(Run(files, batch, s.FirstOps()))
    ensures forall p :: p in {Library(s.kept), Library(s.better)} ==>
      p in files && p in Run(files, batch, s.FirstOps()) && Run(files, batch, s.FirstOps())[p] == files[p]
  {
    assert Library(s.track) in files.Keys && Library(s.arrived) !in files.Keys;
    var now := Move(files, Library(s.track), Library(s.arrived));
    assert now.Keys == files.Keys - {Library(s.track)} + {Library(s.arrived)};
    TwoMoves(files, batch, s.FirstOps()[0], s.FirstOps()[1]);
    var after := Move(now, Library(s.lyrics), Library(s.arrivedLyrics));
    assert after.Keys == now.Keys - {Library(s.lyrics)} + {Library(s.arrivedLyrics)};
  }

  lemma NoTwinOfTrack<C>(s: Scene, files: map<Place, C>, key: string -> string, t: Parts)
    requires s.InFolders() && s.Named() && s.Begins(files)
    requires key(Stem(FileName(s.track))) != key(Stem(FileName(s.kept)))
    ensures !IsTwin(files, s.target, key, s.track, t)
  {
    if Library(t) in files && IsTrackOf(t, s.target) {
      FirstHas(s, files, t);
      LyricsAreNoTracks(s);
    }
  }

  lemma FirstMoveSet<C>(s: Scene, files: map<Place, C>, q: Parts)
    requires s.InFolders() && s.Named() && s.Begins(files) && q in MoveSet(files, s.track)
    ensures q == s.track || q == s.lyrics
  {
    FirstHas(s, files, q);
  }

  lemma FirstArrive(s: Scene)
    requires s.InFolders() && s.Named()
    ensures MovesIn(s.FirstOps(), s.track, s.target)
    ensures WasMoved(s.FirstOps(), s.track) && WasMoved(s.FirstOps(), s.lyrics)
  {
    var ops := s.FirstOps();
    assert ops[0] in ops && ops[1] in ops;
    assert ArrivesAs(s.lyrics, s.arrivedLyrics, s.target) && ArrivesAs(s.track, s.arrived, s.target);
  }

  lemma FirstNumbered<C>(s: Scene, files: map<Place, C>, batch: string)
    requires s.InFolders() && s.Named() && s.Distinct() && s.Begins(files)
    ensures NumberedIfTaken(files, batch, s.FirstOps(), s.target)
  {
    var first, second := MoveTo(s.track, s.arrived), MoveTo(s.lyrics, s.arrivedLyrics);
    NumberedMore(files, batch, [], files, [first], s.target);
    assert [] + [first] == [first] && [first] + [second] == s.FirstOps();
    RunMore(files, batch, [], first);
    NamedAlike(s.target, s.keptLyrics, FileName(s.lyrics));
    LyricsStillThere(s, files);
    NumberedMore(files, batch, [first], Move(files, Library(s.track), Library(s.arrived)), [second], s.target);
  }

  lemma LyricsStillThere<C>(s: Scene, files: map<Place, C>)
    requires s.Distinct() && s.Begins(files) && s.keptLyrics == s.target + [FileName(s.lyrics)]
    ensures IfTaken(Move(files, Library(s.track), Library(s.arrived)), MoveTo(s.lyrics, s.arrivedLyrics), s.target)
  {
    assert Library(s.keptLyrics) in files.Keys;
  }

  lemma NamedAlike(folder: Parts, p: Parts, name: string)
    requires p != [] && Folder(p) == folder && FileName(p) == name
    ensures p == folder + [name]
  {
  }

  /** It has no twin, so it and its lyrics move in: the track under its own name, the lyrics,
      whose name is taken, with a number. */
  lemma FirstMerged<C>(s: Scene, files: map<Place, C>, batch: string, key: string -> string)
    requires s.InFolders() && s.Named() && s.Begins(files)
    requires key(Stem(FileName(s.track))) != key(Stem(FileName(s.kept)))
    ensures MergesOne(files, batch, s.target, key, s.track, None, false, [], s.FirstOps(), true)
  {
    AllDiffer(s);
    FirstArrive(s);
    FirstNumbered(s, files, batch);
    forall t ensures !IsTwin(files, s.target, key, s.track, t) {
      NoTwinOfTrack(s, files, key, t);
    }
    forall q | q in MoveSet(files, s.track) ensures WasMoved(s.FirstOps(), q) {
      FirstMoveSet(s, files, q);
    }
  }

  // ---- the second track ----

  lemma OnlyTwin<C>(s: Scene, files: map<Place, C>, key: string -> string, t: Parts)
    requires s.InFolders() && s.Named() && s.Goes(files)
    requires key(Stem(FileName(s.track))) != key(Stem(FileName(s.kept)))
    ensures IsTwin(files, s.target, key, s.better, t) ==> t == s.kept
  {
    if Library(t) in files && IsTrackOf(t, s.target) {
      ThenHas(s, files, t);
      LyricsAreNoTracks(s);
    }
  }

  lemma KeptIsTwin<C>(s: Scene, files: map<Place, C>, key: string -> string)
    requires s.InFolders() && s.Named() && s.Goes(files) && Telling(key(Stem(FileName(s.kept))))
    requires key(Stem(FileName(s.track))) != key(Stem(FileName(s.kept)))
    ensures IsFirstTwin(files, s.target, key, s.better, s.kept)
  {
    assert Library(s.kept) in files.Keys;
    forall t | IsTwin(files, s.target, key, s.better, t) ensures Listings.NamedBefore(s.kept, t) {
      OnlyTwin(s, files, key, t);
    }
  }

  lemma NamesakeIs<C>(s: Scene, files: map<Place, C>, q: Parts)
    requires s.InFolders() && s.Named() && s.Goes(files)
    requires Library(q) in files && q != s.kept && Folder(q) == s.target && Stem(FileName(q)) == NumberedStem(s.lyrics, 2)
    ensures q == s.arrivedLyrics
  {
    ThenHas(s, files, q);
    StemsDiffer(s.lyrics);
  }

  lemma LyricsAreNamesake<C>(s: Scene, files: map<Place, C>)
    requires s.InFolders() && s.Named() && s.Distinct() && s.Goes(files)
    ensures s.arrivedLyrics in Namesakes(files, s.kept)
  {
    assert Library(s.arrivedLyrics) in files.Keys;
  }

  /** The arrived lyrics go with the kept copy. */
  lemma LyricsGoAlong<C>(s: Scene, files: map<Place, C>)
    requires s.InFolders() && s.Named() && s.Distinct() && s.Goes(files)
    ensures PutSet(files, s.kept) == {s.kept, s.arrivedLyrics}
  {
    LyricsAreNamesake(s, files);
    forall q | q in Namesakes(files, s.kept) ensures q == s.arrivedLyrics {
      NamesakeIs(s, files, q);
    }
  }

  lemma TwoPuts<C>(files: map<Place, C>, batch: string, a: Parts, b: Parts)
    requires Legal(files, PutAway(a)) && Legal(Step(files, batch, PutAway(a)), PutAway(b))
    ensures LegalRun(files, batch, [PutAway(a), PutAway(b)])
    ensures Run(files, batch, [PutAway(a), PutAway(b)]) == Step(Step(files, batch, PutAway(a)), batch, PutAway(b))
  {
    assert [] + [PutAway(a)] == [PutAway(a)] && [PutAway(a)] + [PutAway(b)] == [PutAway(a), PutAway(b)];
    RunMore(files, batch, [], PutAway(a));
    RunMore(files, batch, [PutAway(a)], PutAway(b));
  }

  lemma PutsStepped<C>(s: Scene, files: map<Place, C>, batch: string)
    requires s.Distinct() && s.InLibrary() && s.Goes(files)
    ensures LegalRun(files, batch, s.Puts())
    ensures var now := Run(files, batch, s.Puts()); Library(s.better) in now && Library(s.kept) !in now
  {
    KeptInside({}, batch);
    assert Library(s.kept) in files.Keys && Library(s.arrivedLyrics) in files.Keys && Library(s.better) in files.Keys;
    TwoPuts(files, batch, s.kept, s.arrivedLyrics);
  }

  lemma SecondStepped<C>(s: Scene, files: map<Place, C>, batch: string)
    requires s.Distinct() && s.InLibrary() && s.Goes(files)
    ensures LegalRun(files, batch, s.Puts()) && LegalRun(files, batch, s.Puts() + s.Takes())
  {
    PutsStepped(s, files, batch);
    RunMore(files, batch, s.Puts(), s.Takes()[0]);
  }

  lemma PutsAre(s: Scene)
    ensures PutsOf(s.Puts(), {s.kept, s.arrivedLyrics}) && PutAway(s.kept) in s.Puts() && PutAway(s.arrivedLyrics) in s.Puts()
  {
    assert s.Puts()[0] in s.Puts() && s.Puts()[1] in s.Puts();
  }

  lemma SecondMoveSet<C>(s: Scene, files: map<Place, C>, batch: string, q: Parts)
    requires s.InFolders() && s.Named() && s.Goes(files) && LegalRun(files, batch, s.Puts())
    requires q in MoveSet(Run(files, batch, s.Puts()), s.better)
    ensures q == s.better
  {
    InFolderInLibrary(q, s.second);
    PutsAre(s);
    ThereFromTheStart(files, batch, s.Puts(), q);
    ThenHas(s, files, q);
  }

  /** With the kept copy gone the better one moves in under its own name. */
  lemma SecondComesIn<C>(s: Scene, files: map<Place, C>, batch: string)
    requires s.InFolders() && s.Named() && s.Goes(files) && LegalRun(files, batch, s.Puts())
    ensures ComesIn(Run(files, batch, s.Puts()), batch, s.better, s.target, s.Takes(), true)
  {
    var takes := s.Takes();
    assert takes[0] in takes && takes[..0] == [];
    assert ArrivesAs(s.better, s.kept, s.target);
    forall q | q in MoveSet(Run(files, batch, s.Puts()), s.better) ensures WasMoved(takes, q) {
      SecondMoveSet(s, files, batch, q);
    }
  }

  /** It is a better copy of the kept one, which makes way with all that goes with it: the
      arrived lyrics. */
  lemma SecondMerged<C>(s: Scene, files: map<Place, C>, batch: string, key: string -> string)
    requires s.InFolders() && s.Named() && s.Goes(files) && Telling(key(Stem(FileName(s.kept))))
    requires key(Stem(FileName(s.track))) != key(Stem(FileName(s.kept)))
    ensures PutSet(files, s.kept) == {s.kept, s.arrivedLyrics}
    ensures MergesOne(files, batch, s.target, key, s.better, Some(s.kept), true, s.Puts(), s.Takes(), true)
  {
    KeptIsTwin(s, files, key);
    SecondTakesOver(s, files, batch);
  }

  lemma SecondTakesOver<C>(s: Scene, files: map<Place, C>, batch: string)
    requires s.InFolders() && s.Named() && s.Goes(files)
    ensures PutSet(files, s.kept) == {s.kept, s.arrivedLyrics}
    ensures TakesOver(files, batch, s.better, s.kept, s.target, s.Puts(), s.Takes(), true)
  {
    AllDiffer(s);
    AllInLibrary(s);
    KeptGoesWhole(s, files);
    PutsStepped(s, files, batch);
    SecondComesIn(s, files, batch);
  }

  lemma KeptGoesWhole<C>(s: Scene, files: map<Place, C>)
    requires s.InFolders() && s.Named() && s.Distinct() && s.Goes(files)
    ensures PutSet(files, s.kept) == {s.kept, s.arrivedLyrics} && MakesWay(files, s.kept, s.Puts(), true)
  {
    LyricsGoAlong(s, files);
    PutsAre(s);
  }

  // ---- the merge ----

  function MergeOps(s: Scene): seq<Op> {
    s.FirstOps() + (s.Puts() + s.Takes())
  }

  lemma {:induction false} PrefixSettled(ops: seq<Op>, more: seq<Op>)
    requires PutsOnlySettled(ops + more)
    ensures PutsOnlySettled(ops)
  {
    if more == [] {
      assert ops + more == ops;
    } else {
      assert (ops + more)[..|ops + more| - 1] == ops + more[..|more| - 1];
      PrefixSettled(ops, more[..|more| - 1]);
    }
  }

  lemma NotSettled(s: Scene)
    ensures !PutsOnlySettled(MergeOps(s))
  {
    var first := s.FirstOps() + [PutAway(s.kept)];
    var second := first + [PutAway(s.arrivedLyrics)];
    assert s.FirstOps()[1] in first && IsTarget(first, s.arrivedLyrics);
    RunMore<int>(map[], "", first, PutAway(s.arrivedLyrics));
    assert MergeOps(s) == second + s.Takes();
    if PutsOnlySettled(MergeOps(s)) {
      PrefixSettled(second, s.Takes());
      assert false;
    }
  }

  lemma OnlyLibrary<C>(s: Scene, files: map<Place, C>, batch: string)
    requires s.InLibrary() && s.Begins(files)
    ensures FreshBatch(files, batch)
  {
    forall p | p in files ensures !InBatch(p, batch) {
      assert p in files.Keys;
    }
  }

  /** The merge of the two tracks is legal, and putting its batch back doesn't undo it. */
  lemma CantBeUndone<C>(s: Scene, files: map<Place, C>, batch: string)
    requires s.InFolders() && s.Named() && s.Begins(files)
    ensures LegalRun(files, batch, MergeOps(s))
    ensures !Undoable(files, batch, Run(files, batch, MergeOps(s)), Log(MergeOps(s)))
  {
    AllDiffer(s);
    AllInLibrary(s);
    OnlyLibrary(s, files, batch);
    FirstStepped(s, files, batch);
    SecondStepped(s, Run(files, batch, s.FirstOps()), batch);
    RunInTwo(files, batch, s.FirstOps(), s.Puts() + s.Takes());
    NotSettled(s);
    UndoIsExactIff(files, batch, MergeOps(s));
  }

  lemma SourceTrackIs<C>(s: Scene, files: map<Place, C>, g: Parts)
    requires s.InFolders() && s.Named() && s.Begins(files)
    requires Library(g) in files && IsSourceTrack(g, [s.first, s.second])
    ensures g == s.track || g == s.better
  {
    var folder :| folder in [s.first, s.second] && IsTrackOf(g, folder);
    assert folder == s.first || folder == s.second;
    TrackIs(s, files, folder, g);
  }

  /** Each folder has one track, so none is fuller than the others. */
  lemma OneTrackEach<C>(s: Scene, files: map<Place, C>)
    requires s.InFolders() && s.Named() && s.Begins(files)
    ensures TracksOf(files, s.target) == {s.kept} && TracksOf(files, s.first) == {s.track} && TracksOf(files, s.second) == {s.better}
  {
    TracksAreThere(s, files);
    forall q ensures (q in TracksOf(files, s.target) ==> q == s.kept) && (q in TracksOf(files, s.first) ==> q == s.track)
      ensures q in TracksOf(files, s.second) ==> q == s.better
    {
      TracksAre(s, files, q);
    }
  }

  lemma TracksAre<C>(s: Scene, files: map<Place, C>, q: Parts)
    requires s.InFolders() && s.Named() && s.Begins(files)
    ensures (q in TracksOf(files, s.target) ==> q == s.kept) && (q in TracksOf(files, s.first) ==> q == s.track)
    ensures q in TracksOf(files, s.second) ==> q == s.better
  {
    if q in TracksOf(files, s.target) {
      TrackIs(s, files, s.target, q);
    }
    if q in TracksOf(files, s.first) {
      TrackIs(s, files, s.first, q);
    }
    if q in TracksOf(files, s.second) {
      TrackIs(s, files, s.second, q);
    }
  }

  lemma TracksAreThere<C>(s: Scene, files: map<Place, C>)
    requires s.InFolders() && s.Named() && s.Begins(files)
    ensures s.kept in TracksOf(files, s.target) && s.track in TracksOf(files, s.first) && s.better in TracksOf(files, s.second)
  {
    assert Library(s.kept) in files.Keys && Library(s.track) in files.Keys && Library(s.better) in files.Keys;
  }

  lemma TrackIs<C>(s: Scene, files: map<Place, C>, folder: Parts, q: Parts)
    requires s.InFolders() && s.Named() && s.Begins(files) && q in TracksOf(files, folder)
    requires folder == s.target || folder == s.first || folder == s.second
    ensures (folder == s.target && q == s.kept) || (folder == s.first && q == s.track) || (folder == s.second && q == s.better)
  {
    FirstHas(s, files, q);
    LyricsAreNoTracks(s);
  }

  /** The other folders' tracks have keys of their own. */
  lemma KeysDiffer<C>(s: Scene, files: map<Place, C>, key: string -> string, g: Parts, h: Parts)
    requires s.InFolders() && s.Named() && s.Begins(files)
    requires key(Stem(FileName(s.track))) != key(Stem(FileName(s.kept)))
    requires Library(g) in files && IsSourceTrack(g, [s.first, s.second])
    requires Library(h) in files && IsSourceTrack(h, [s.first, s.second]) && g != h
    ensures TrackKey(key, g) != TrackKey(key, h)
  {
    SourceTrackIs(s, files, g);
    SourceTrackIs(s, files, h);
  }

  lemma AllKeysDiffer<C>(s: Scene, files: map<Place, C>, key: string -> string)
    requires s.InFolders() && s.Named() && s.Begins(files)
    requires key(Stem(FileName(s.track))) != key(Stem(FileName(s.kept)))
    ensures forall g, h :: IsSourceTrack(g, [s.first, s.second]) && IsSourceTrack(h, [s.first, s.second]) ==>
      Library(g) in files && Library(h) in files && g != h ==> TrackKey(key, g) != TrackKey(key, h)
  {
    forall g, h | IsSourceTrack(g, [s.first, s.second]) && IsSourceTrack(h, [s.first, s.second])
      ensures Library(g) in files && Library(h) in files && g != h ==> TrackKey(key, g) != TrackKey(key, h)
    {
      if Library(g) in files && Library(h) in files && g != h {
        KeysDiffer(s, files, key, g, h);
      }
    }
  }

  /** But the number the lyrics get gives them the key of the second track. */
  lemma NotMergeable<C>(s: Scene, files: map<Place, C>, key: string -> string)
    requires s.InFolders() && s.Named() && s.Begins(files) && Telling(key(Stem(FileName(s.kept))))
    ensures !Mergeable(files, s.target, [s.first, s.second], key)
  {
    BetterIsMerged(s, files, key);
    LyricsNameTaken(s, files);
    assert key(NumberedStem(s.lyrics, 2)) == TrackKey(key, s.better);
  }

  lemma BetterIsMerged<C>(s: Scene, files: map<Place, C>, key: string -> string)
    requires s.InFolders() && s.Named() && s.Begins(files) && Telling(key(Stem(FileName(s.kept))))
    ensures IsMergedTrack(files, [s.first, s.second], key, s.better)
  {
    var sources := [s.first, s.second];
    assert sources[1] in sources && Library(s.better) in files.Keys;
    assert IsTrackOf(s.better, s.second);
  }

  lemma LyricsNameTaken<C>(s: Scene, files: map<Place, C>)
    requires s.InFolders() && s.Named() && s.Begins(files)
    ensures Library(s.lyrics) in files && InSources(s.lyrics, [s.first, s.second])
    ensures NameMayBeTaken(files, s.target, [s.first, s.second], s.lyrics)
  {
    AllDiffer(s);
    NamedAlike(s.target, s.keptLyrics, FileName(s.lyrics));
    LyricsInFolders(s, files);
  }

  lemma LyricsInFolders<C>(s: Scene, files: map<Place, C>)
    requires s.InFolders() && s.Distinct() && s.Begins(files) && s.keptLyrics == s.target + [FileName(s.lyrics)]
    ensures Library(s.lyrics) in files && InSources(s.lyrics, [s.first, s.second])
    ensures NameMayBeTaken(files, s.target, [s.first, s.second], s.lyrics)
  {
    var sources := [s.first, s.second];
    assert sources[0] in sources && Library(s.lyrics) in files.Keys && Library(s.keptLyrics) in files.Keys;
    assert MayTakeName(files, s.keptLyrics, s.target, sources, s.lyrics);
  }

  lemma SecondIsBetter<C>(s: Scene, files: map<Place, C>, batch: string, rank: Ranking<C>)
    requires s.InFolders() && s.Named() && s.Begins(files)
    requires Outranks(RankOf(rank, files, s.better), RankOf(rank, files, s.kept))
    ensures s.Goes(Run(files, batch, s.FirstOps())) && IsBetter(rank, Run(files, batch, s.FirstOps()), s.better, Some(s.kept))
  {
    AllDiffer(s);
    AllInLibrary(s);
    FirstStepped(s, files, batch);
    assert Library(s.kept) in files.Keys && Library(s.better) in files.Keys;
  }

  /** The merge takes the first track, which has no twin, in with its lyrics, then the second in
      place of the kept copy, which takes the lyrics to the trash: all as it should. The other
      folders' tracks have keys of their own. Still the merge can't be undone, and the folders
      aren't mergeable. */
  lemma UniqueKeysAreNotEnough<C>(s: Scene, files: map<Place, C>, batch: string, key: string -> string, rank: Ranking<C>)
    requires s.InFolders() && s.Named() && s.Begins(files)
    requires Telling(key(Stem(FileName(s.kept)))) && key(Stem(FileName(s.track))) != key(Stem(FileName(s.kept)))
    requires Outranks(RankOf(rank, files, s.better), RankOf(rank, files, s.kept))
    ensures forall g, h :: IsSourceTrack(g, [s.first, s.second]) && IsSourceTrack(h, [s.first, s.second]) ==>
      Library(g) in files && Library(h) in files && g != h ==> TrackKey(key, g) != TrackKey(key, h)
    ensures MergesOne(files, batch, s.target, key, s.track, None, IsBetter(rank, files, s.track, None), [], s.FirstOps(), true)
    ensures var now := Run(files, batch, s.FirstOps());
      MergesOne(now, batch, s.target, key, s.better, Some(s.kept), IsBetter(rank, now, s.better, Some(s.kept)), s.Puts(), s.Takes(), true)
    ensures LegalRun(files, batch, MergeOps(s)) && !Undoable(files, batch, Run(files, batch, MergeOps(s)), Log(MergeOps(s)))
    ensures !Mergeable(files, s.target, [s.first, s.second], key)
  {
    AllKeysDiffer(s, files, key);
    FirstMerged(s, files, batch, key);
    SecondIsBetter(s, files, batch, rank);
    SecondMerged(s, Run(files, batch, s.FirstOps()), batch, key);
    CantBeUndone(s, files, batch);
    NotMergeable(s, files, key);
  }

  // ---- with names of its own ----

  /** The folders are those of one album, by their names; the one to keep is first. */
  const TWINS: Scene := Scene(["a", "x"], ["a", "x (2020)"], ["a", "x (2021)"], ["a", "x", "xy (2).flac"], ["a", "x", "xy.lrc"],
    ["a", "x (2020)", "xy.flac"], ["a", "x (2020)", "xy.lrc"], ["a", "x (2021)", "xy (2).flac"],
    ["a", "x", "xy.flac"], ["a", "x", "xy (2).lrc"])

  lemma {:induction false} DigitsStay(digits: string, script: Script)
    requires DigitsAreThemselves(script) && AllDigits(digits)
    ensures Lower(digits, script.fold) == digits
  {
    if digits != "" {
      assert digits[0] in digits && SaysItself(digits[0], script);
      assert forall c :: c in digits[1..] ==> c in digits;
      DigitsStay(digits[1..], script);
    }
  }

  lemma YearDecorates(year: string, script: Script)
    requires DigitsAreThemselves(script) && |year| == 4 && AllDigits(year)
    ensures IsDecoration(year, script)
  {
    assert year[0] in year && year[3] in year;
    assert Trim(year) == year;
    DigitsStay(year, script);
    DigitBytes(year);
  }

  lemma YearIsDigits(s: string)
    requires JustAYear(s)
    ensures IsDigit(s[0])
  {
    assert s[..4][0] == s[0];
  }

  lemma NoYear(name: string, spaces: string)
    requires name != "" && !IsSpace(name[0]) && !IsDigit(name[0])
    ensures !JustAYear(TrimStart(name + spaces))
  {
    assert TrimStart(name + spaces) == name + spaces;
    if JustAYear(name + spaces) {
      YearIsDigits(name + spaces);
    }
  }

  function InBrackets(name: string, year: string): string {
    name + " " + Decoration(" ", false, year).Bracketed()
  }

  /** A year in brackets behind a name that doesn't begin with one doesn't count. */
  lemma YearInBrackets(name: string, year: string, script: Script)
    requires SpacesSayNothing(script) && DigitsAreThemselves(script) && |year| == 4 && AllDigits(year)
    requires name != "" && !IsSpace(name[0]) && !IsDigit(name[0])
    ensures AlbumKey(InBrackets(name, year), script) == AlbumKey(name, script)
  {
    YearDecorates(year, script);
    NoYear(name, " ");
    OneDecoration(name, Decoration(" ", false, year), script);
  }

  lemma {:induction false} LessAfter(start: string, a: string, b: string)
    requires Less(a, b)
    ensures Less(start + a, start + b)
  {
    if start == "" {
      assert start + a == a && start + b == b;
    } else {
      LessAfter(start[1..], a, b);
      assert (start + a)[1..] == start[1..] + a && (start + b)[1..] == start[1..] + b;
    }
  }

  lemma Spelled()
    ensures InBrackets("x", "2020") == "x (2020)" && InBrackets("x", "2021") == "x (2021)"
  {
  }

  /** So the three folders would be merged. */
  lemma OneAlbum(script: Script)
    requires SpacesSayNothing(script) && DigitsAreThemselves(script)
    ensures AlbumKey("x (2020)", script) == AlbumKey("x", script) == AlbumKey("x (2021)", script)
  {
    Spelled();
    YearInBrackets("x", "2020", script);
    YearInBrackets("x", "2021", script);
  }

  /** The one to keep is the first by name, and the other two are merged in this order. */
  lemma InOrder()
    ensures Less("x", "x (2020)") && Less("x (2020)", "x (2021)")
  {
    assert "x" + "" == "x" && "x" + " (2020)" == "x (2020)";
    LessAfter("x", "", " (2020)");
    assert "x (202" + "0)" == "x (2020)" && "x (202" + "1)" == "x (2021)";
    LessAfter("x (202", "0)", "1)");
  }

  lemma PlainNames()
    ensures Stem("xy.lrc") == "xy" == Stem("xy.flac") && Extension("xy.lrc") == Some("lrc") && Extension("xy.flac") == Some("flac")
  {
    NameParts("xy", "lrc");
    NameParts("xy", "flac");
    assert "xy.lrc" == "xy" + "." + "lrc" && "xy.flac" == "xy" + "." + "flac";
  }

  lemma NumberedNames()
    ensures Stem("xy (2).flac") == "xy (2)" == Stem("xy (2).lrc")
    ensures Extension("xy (2).lrc") == Some("lrc") && Extension("xy (2).flac") == Some("flac")
  {
    NameParts("xy (2)", "lrc");
    NameParts("xy (2)", "flac");
    assert "xy (2).flac" == "xy (2)" + "." + "flac" && "xy (2).lrc" == "xy (2)" + "." + "lrc";
  }

  lemma LyricsAreNoAudio(name: string)
    requires Extension(name) == Some("lrc")
    ensures !IsAudio(name)
  {
    var lower := ToAsciiLower("lrc");
    assert |lower| == 3 && lower[1] == 'r' && lower[0] == 'l';
    forall i | 0 <= i < |AUDIO| ensures AUDIO[i] != lower {
      assert AUDIO[i][0] != 'l';
    }
  }

  lemma FlacIsAudio(name: string)
    requires Extension(name) == Some("flac")
    ensures IsAudio(name)
  {
    assert ToAsciiLower("flac") == "flac" == AUDIO[0];
  }

  lemma SecondNumber(parts: Parts)
    requires Stem(FileName(parts)) == "xy"
    ensures NumberedStem(parts, 2) == "xy (2)"
  {
    assert Decimal(2) == "2";
    assert "xy" + " (" + "2" + ")" == "xy (2)";
  }

  lemma NumberedBy(from: Parts, to: Parts)
    requires Extension(FileName(from)) == Some("lrc") && FileName(to) == NumberedStem(from, 2) + "." + "lrc"
    ensures HasNumber(from, to, 2)
  {
    var stem := Stem(FileName(from));
    assert stem + " (" + Decimal(2) + ")." + "lrc" == stem + " (" + Decimal(2) + ")" + "." + "lrc";
  }

  lemma TwinsInFolders()
    ensures TWINS.InFolders()
  {
    assert TWINS.target[1] != TWINS.first[1] && TWINS.target[1] != TWINS.second[1] && TWINS.first[1][6] != TWINS.second[1][6];
    assert TWINS.target[0] != TRASH;
  }

  lemma TwinsNamed()
    ensures TWINS.Named()
  {
    PlainNames();
    NumberedNames();
    LyricsAreNoAudio("xy.lrc");
    LyricsAreNoAudio("xy (2).lrc");
    FlacIsAudio("xy.flac");
    FlacIsAudio("xy (2).flac");
    assert FileName(TWINS.lyrics) == "xy.lrc";
    SecondNumber(TWINS.lyrics);
    assert "xy (2)" + "." + "lrc" == "xy (2).lrc";
    NumberedBy(TWINS.lyrics, TWINS.arrivedLyrics);
  }
}
