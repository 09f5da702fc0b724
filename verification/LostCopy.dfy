/** A merge that loses a file (`crates/delune-library/src/health.rs`, `crates/delune-library/src/trash.rs`). */
module LostCopy {
  // Two folders are merged into a third, and all three have a copy of one track under one name, each
  // better than the one before. The kept copy makes way for the second, and the second, now in its
  // place, for the third. Both are put in the batch under the same path, so the second replaces the
  // first there.

  import opened Text
  import opened Paths
  import opened Relocation
  import opened Batches
  import opened Trash
  import opened Unnoted
  import opened Health
  import opened Listings
  import opened Copies
  import opened Tracing
  import opened Merging
  import LostLyrics

  datatype Scene = Scene(target: Parts, first: Parts, second: Parts, name: string) {
    function Kept(): Parts { target + [name] }
    function Better(): Parts { first + [name] }
    function Best(): Parts { second + [name] }

    predicate Proper() {
      && IsLibrary(target) && IsLibrary(first) && IsLibrary(second) && target != first && target != second && first != second
      && IsAudio(name) && !IsHidden(name)
    }

    ghost predicate Begins<C>(files: map<Place, C>) {
      files.Keys == {Library(Kept()), Library(Better()), Library(Best())}
    }

    /** One step: the copy in the kept folder makes way for `file`. */
    function Swap(file: Parts): seq<Op> {
      [PutAway(Kept()), MoveTo(file, Kept())]
    }

    function Ops(): seq<Op> {
      Swap(Better()) + Swap(Best())
    }

    function Sources(): seq<Parts> {
      [first, second]
    }
  }

  lemma AreApart(s: Scene)
    requires s.Proper()
    ensures Folder(s.Kept()) == s.target && Folder(s.Better()) == s.first && Folder(s.Best()) == s.second
    ensures s.Kept() != s.Better() && s.Kept() != s.Best() && s.Better() != s.Best()
    ensures IsLibrary(s.Kept()) && IsLibrary(s.Better()) && IsLibrary(s.Best())
    ensures FileName(s.Kept()) == FileName(s.Better()) == FileName(s.Best()) == s.name
  {
  }

  /** A folder has `file` and nothing else. */
  ghost predicate HasOnly<C>(files: map<Place, C>, folder: Parts, file: Parts) {
    file != [] && Folder(file) == folder && Library(file) in files &&
    forall q :: q != [] && Folder(q) == folder && Library(q) in files ==> q == file
  }

  // ---- one step ----

  lemma SwapSteps<C>(s: Scene, files: map<Place, C>, batch: string, file: Parts)
    requires s.Proper() && file != s.Kept() && IsLibrary(file) && Library(s.Kept()) in files && Library(file) in files
    ensures LegalRun(files, batch, [PutAway(s.Kept())]) && LegalRun(files, batch, s.Swap(file))
    ensures Run(files, batch, [PutAway(s.Kept())]) == Move(files, Library(s.Kept()), Kept(batch, s.Kept()))
    ensures Run(files, batch, s.Swap(file)) ==
      Move(Move(files, Library(s.Kept()), Kept(batch, s.Kept())), Library(file), Library(s.Kept()))
  {
    var put := PutAway(s.Kept());
    AreApart(s);
    assert [] + [put] == [put] && [put] + [MoveTo(file, s.Kept())] == s.Swap(file);
    RunMore(files, batch, [], put);
    RunMore(files, batch, [put], MoveTo(file, s.Kept()));
  }

  lemma KeptIsFirstTwin<C>(s: Scene, files: map<Place, C>, key: string -> string, file: Parts)
    requires s.Proper() && HasOnly(files, s.target, s.Kept()) && FileName(file) == s.name && Telling(key(Stem(s.name)))
    ensures IsFirstTwin(files, s.target, key, file, s.Kept())
  {
    AreApart(s);
    assert IsTwin(files, s.target, key, file, s.Kept());
  }

  lemma KeptMakesWay<C>(s: Scene, files: map<Place, C>)
    requires s.Proper() && HasOnly(files, s.target, s.Kept())
    ensures MakesWay(files, s.Kept(), [PutAway(s.Kept())], true)
  {
    assert Namesakes(files, s.Kept()) == {};
    assert PutAway(s.Kept()) in [PutAway(s.Kept())];
  }

  lemma FileComesIn<C>(s: Scene, files: map<Place, C>, batch: string, file: Parts)
    requires s.Proper() && file != [] && HasOnly(files, Folder(file), file) && FileName(file) == s.name
    ensures ComesIn(files, batch, file, s.target, [MoveTo(file, s.Kept())], true)
  {
    var moves := [MoveTo(file, s.Kept())];
    assert moves[0] in moves && moves[..0] == [];
    assert ArrivesAs(file, s.Kept(), s.target);
    forall q | q in MoveSet(files, file) ensures WasMoved(moves, q) {
      assert q == file;
    }
  }

  /** Merging a better copy is this step. */
  lemma Swaps<C>(s: Scene, files: map<Place, C>, batch: string, key: string -> string, file: Parts)
    requires s.Proper() && IsLibrary(file) && IsLibrary(Folder(file)) && FileName(file) == s.name && Folder(file) != s.target
    requires HasOnly(files, s.target, s.Kept()) && HasOnly(files, Folder(file), file) && Telling(key(Stem(s.name)))
    ensures MergesOne(files, batch, s.target, key, file, Some(s.Kept()), true, [PutAway(s.Kept())], [MoveTo(file, s.Kept())], true)
  {
    var middle := Move(files, Library(s.Kept()), Kept(batch, s.Kept()));
    KeptIsFirstTwin(s, files, key, file);
    KeptMakesWay(s, files);
    AreApart(s);
    SwapSteps(s, files, batch, file);
    OnlyStill(s, files, batch, file);
    FileComesIn(s, middle, batch, file);
  }

  lemma OnlyStill<C>(s: Scene, files: map<Place, C>, batch: string, file: Parts)
    requires s.Proper() && IsLibrary(Folder(file)) && Folder(file) != s.target && HasOnly(files, Folder(file), file)
    requires Library(s.Kept()) in files
    ensures HasOnly(Move(files, Library(s.Kept()), Kept(batch, s.Kept())), Folder(file), file)
  {
    AreApart(s);
    var middle := Move(files, Library(s.Kept()), Kept(batch, s.Kept()));
    forall q | q != [] && Folder(q) == Folder(file) && Library(q) in middle ensures q == file {
      InFolderInLibrary(q, Folder(file));
    }
  }

  // ---- both steps ----

  lemma BeginsWith<C>(s: Scene, files: map<Place, C>, batch: string)
    requires s.Proper() && s.Begins(files)
    ensures HasOnly(files, s.target, s.Kept()) && HasOnly(files, s.first, s.Better()) && HasOnly(files, s.second, s.Best())
    ensures FreshBatch(files, batch)
  {
    AreApart(s);
    forall p | p in files ensures !InBatch(p, batch) {
      assert p in files.Keys;
    }
    forall q | Library(q) in files ensures q == s.Kept() || q == s.Better() || q == s.Best() {
      assert Library(q) in files.Keys;
    }
    assert Library(s.Kept()) in files.Keys && Library(s.Better()) in files.Keys && Library(s.Best()) in files.Keys;
  }

  lemma ThenHasBetter<C>(s: Scene, files: map<Place, C>, batch: string)
    requires s.Proper() && s.Begins(files)
    ensures var now := Run(files, batch, s.Swap(s.Better()));
      && LegalRun(files, batch, s.Swap(s.Better()))
      && HasOnly(now, s.target, s.Kept()) && HasOnly(now, s.second, s.Best())
      && now[Library(s.Kept())] == files[Library(s.Better())] && now[Library(s.Best())] == files[Library(s.Best())]
  {
    AreApart(s);
    BeginsWith(s, files, batch);
    SwapSteps(s, files, batch, s.Better());
    var now := Run(files, batch, s.Swap(s.Better()));
    forall q | q != [] && Folder(q) in [s.target, s.second] && Library(q) in now ensures q == s.Kept() || q == s.Best() {
      InFolderInLibrary(q, Folder(q));
      assert Library(q) in files.Keys + {Library(s.Kept())};
    }
  }

  lemma PutTwice(s: Scene)
    ensures !PutsOnce(s.Ops())
  {
    var start, put := s.Swap(s.Better()), PutAway(s.Kept());
    var middle := start + [put];
    assert s.Ops() == middle + [MoveTo(s.Best(), s.Kept())];
    MovesChangeNeither(middle, [MoveTo(s.Best(), s.Kept())]);
    assert middle[..|middle| - 1] == start && start[0] == put;
  }

  // ---- what the folders say ----

  function FoldersOf<C>(s: Scene, files: map<Place, C>, key: string -> string, rank: Ranking<C>): Folders<C> {
    Folders(files, s.target, s.Sources(), key, rank)
  }

  lemma TracksAre<C>(s: Scene, files: map<Place, C>, key: string -> string, rank: Ranking<C>, g: Parts)
    requires s.Proper() && s.Begins(files)
    ensures FoldersOf(s, files, key, rank).IsKeptTrack(g) <==> g == s.Kept()
    ensures FoldersOf(s, files, key, rank).IsOther(g) <==> g == s.Better() || g == s.Best()
  {
    AreApart(s);
    BeginsWith(s, files, "");
    assert s.Sources()[0] in s.Sources() && s.Sources()[1] in s.Sources();
    assert IsTrackOf(s.Better(), s.first) && IsTrackOf(s.Best(), s.second);
    if FoldersOf(s, files, key, rank).IsOther(g) {
      var folder :| folder in s.Sources() && IsTrackOf(g, folder);
    }
  }

  lemma InOrder(s: Scene)
    requires s.Proper()
    ensures MergedBefore(s.Sources(), s.Better(), s.Best())
    ensures !MergedBefore(s.Sources(), s.Best(), s.Better()) && !MergedBefore(s.Sources(), s.Best(), s.Best())
    ensures !MergedBefore(s.Sources(), s.Better(), s.Better())
  {
    AreApart(s);
    assert s.Sources()[0] == s.first && s.Sources()[1] == s.second;
  }

  lemma SameKeys<C>(s: Scene, files: map<Place, C>, key: string -> string, rank: Ranking<C>)
    requires s.Proper()
    ensures var m := FoldersOf(s, files, key, rank);
      m.Key(s.Kept()) == m.Key(s.Better()) == m.Key(s.Best()) == key(Stem(s.name))
  {
    AreApart(s);
  }

  lemma TargetHas<C>(s: Scene, files: map<Place, C>, key: string -> string, rank: Ranking<C>, p: Parts)
    requires s.Proper() && s.Begins(files)
    ensures var m := FoldersOf(s, files, key, rank); m.InTarget(p) && Library(p) in files ==> m.GoesWithKept(p)
  {
    BeginsWith(s, files, "");
    TracksAre(s, files, key, rank, s.Kept());
    assert Accompanies(s.Kept(), s.Kept());
  }

  lemma OthersTell<C>(s: Scene, files: map<Place, C>, key: string -> string, rank: Ranking<C>, g: Parts)
    requires s.Proper() && s.Begins(files) && Telling(key(Stem(s.name)))
    ensures var m := FoldersOf(s, files, key, rank); m.IsOther(g) ==> Telling(m.Key(g))
  {
    TracksAre(s, files, key, rank, g);
    SameKeys(s, files, key, rank);
  }

  lemma IsOrderly<C>(s: Scene, files: map<Place, C>, key: string -> string, rank: Ranking<C>)
    requires s.Proper() && s.Begins(files) && Telling(key(Stem(s.name)))
    ensures FoldersOf(s, files, key, rank).Orderly()
  {
    var m := FoldersOf(s, files, key, rank);
    forall g ensures (m.IsKeptTrack(g) ==> g == s.Kept()) && (m.IsOther(g) ==> Telling(m.Key(g))) {
      TracksAre(s, files, key, rank, g);
      OthersTell(s, files, key, rank, g);
    }
    assert forall folder :: folder in m.sources ==> folder == s.first || folder == s.second;
    forall p | m.InTarget(p) && Library(p) in files ensures m.GoesWithKept(p) {
      TargetHas(s, files, key, rank, p);
    }
  }

  lemma GetsIn<C>(s: Scene, files: map<Place, C>, key: string -> string, rank: Ranking<C>)
    requires s.Proper() && s.Begins(files)
    requires Outranks(RankOf(rank, files, s.Better()), RankOf(rank, files, s.Kept()))
    requires Outranks(RankOf(rank, files, s.Best()), RankOf(rank, files, s.Better()))
    ensures FoldersOf(s, files, key, rank).TakenIn(s.Better()) && FoldersOf(s, files, key, rank).TakenIn(s.Best())
  {
    var m := FoldersOf(s, files, key, rank);
    TracksAre(s, files, key, rank, s.Better());
    TracksAre(s, files, key, rank, s.Best());
    forall c | m.Earlier(c, s.Better()) ensures Outranks(m.Rank(s.Better()), m.Rank(c)) {
      EarlierIs(s, files, key, rank, c);
    }
    forall c | m.Earlier(c, s.Best()) ensures Outranks(m.Rank(s.Best()), m.Rank(c)) {
      EarlierIs(s, files, key, rank, c);
    }
  }

  lemma EarlierIs<C>(s: Scene, files: map<Place, C>, key: string -> string, rank: Ranking<C>, c: Parts)
    requires s.Proper() && s.Begins(files)
    ensures var m := FoldersOf(s, files, key, rank);
      && (m.Earlier(c, s.Better()) ==> c == s.Kept())
      && (m.Earlier(c, s.Best()) ==> c == s.Kept() || c == s.Better())
  {
    InOrder(s);
    TracksAre(s, files, key, rank, c);
  }

  lemma BothTakenIn<C>(s: Scene, files: map<Place, C>, key: string -> string, rank: Ranking<C>)
    requires s.Proper() && s.Begins(files) && Telling(key(Stem(s.name)))
    requires Outranks(RankOf(rank, files, s.Better()), RankOf(rank, files, s.Kept()))
    requires Outranks(RankOf(rank, files, s.Best()), RankOf(rank, files, s.Better()))
    ensures var m := FoldersOf(s, files, key, rank); m.Orderly() && !m.OneTakenIn() && !m.DisplacedApart()
  {
    var m := FoldersOf(s, files, key, rank);
    IsOrderly(s, files, key, rank);
    GetsIn(s, files, key, rank);
    SameKeys(s, files, key, rank);
    AreApart(s);
    InOrder(s);
    TracksAre(s, files, key, rank, s.Kept());
    TracksAre(s, files, key, rank, s.Better());
    assert m.Displaced(s.Kept()) by {
      assert m.Earlier(s.Kept(), s.Better());
    }
    assert m.Displaced(s.Better()) by {
      assert m.Earlier(s.Better(), s.Best());
    }
    assert Accompanies(s.Better(), s.Better());
    assert m.Holds(s.Kept(), s.Kept()) && m.Holds(s.Better(), s.Kept());
  }

  /** The two copies are merged as they should be, one step after the other, and a file is lost. The
      folders are such that their copies can be followed; both copies get in, and the two that
      made way were in one place. */
  lemma CopyIsLost<C>(s: Scene, files: map<Place, C>, batch: string, key: string -> string, rank: Ranking<C>)
    requires s.Proper() && s.Begins(files) && Telling(key(Stem(s.name)))
    requires Outranks(RankOf(rank, files, s.Better()), RankOf(rank, files, s.Kept()))
    requires Outranks(RankOf(rank, files, s.Best()), RankOf(rank, files, s.Better()))
    ensures MergesOne(files, batch, s.target, key, s.Better(), Some(s.Kept()), IsBetter(rank, files, s.Better(), Some(s.Kept())),
                      [PutAway(s.Kept())], [MoveTo(s.Better(), s.Kept())], true)
    ensures var now := Run(files, batch, s.Swap(s.Better()));
      MergesOne(now, batch, s.target, key, s.Best(), Some(s.Kept()), IsBetter(rank, now, s.Best(), Some(s.Kept())),
                [PutAway(s.Kept())], [MoveTo(s.Best(), s.Kept())], true)
    ensures LegalRun(files, batch, s.Ops()) && |Run(files, batch, s.Ops())| < |files|
    ensures !EveryFileKept(files, Run(files, batch, s.Ops()))
    ensures var m := FoldersOf(s, files, key, rank); m.Orderly() && !m.OneTakenIn() && !m.DisplacedApart()
  {
    AreApart(s);
    BeginsWith(s, files, batch);
    ThenHasBetter(s, files, batch);
    var now := Run(files, batch, s.Swap(s.Better()));
    Swaps(s, files, batch, key, s.Better());
    Swaps(s, now, batch, key, s.Best());
    SwapSteps(s, now, batch, s.Best());
    RunInTwo(files, batch, s.Swap(s.Better()), s.Swap(s.Best()));
    PutTwice(s);
    RunKeepsFilesIff(files, batch, s.Ops());
    RunNeverGrows(files, batch, s.Ops());
    BothTakenIn(s, files, key, rank);
  }

  // ---- with names of its own ----

  /** The folders are those of one album, by their names; the one to keep is first. */
  const SONG: Scene := Scene(LostLyrics.TWINS.target, LostLyrics.TWINS.first, LostLyrics.TWINS.second, "song.flac")

  lemma SongIsProper()
    ensures SONG.Proper() && Stem(SONG.name) == "song"
  {
    LostLyrics.TwinsInFolders();
    NameParts("song", "flac");
    assert "song" + "." + "flac" == "song.flac";
    LostLyrics.FlacIsAudio("song.flac");
  }
}
