/** The destinations of a plan are plain paths of the library, and suit the import
    (`crates/delune-library/src/import.rs`, `crates/delune-library/src/naming.rs`). This joins the
    rendering of names, the planning and the carrying out: what rendering makes of any values can
    be resolved, inside the album's folder when there is one, and a plan meets the conditions that
    carrying it out puts on its destinations. */
module Destinations {
  import opened Text
  import opened Paths
  import opened Relocation
  import opened Batches
  import opened FreeNames
  import opened Templates
  import opened Rendering
  import opened Trash
  import opened Plans
  import opened Renaming
  import opened Renumbering
  import opened Replacing
  import opened Planning
  import opened Arrivals
  import opened Importing

  lemma {:induction false} JoinLast(names: seq<string>, suffix: string)
    requires names != []
    ensures Join(names, "/") + suffix == Join(names[..|names| - 1] + [names[|names| - 1] + suffix], "/")
  {
    var last := names[|names| - 1];
    if |names| == 1 {
      assert names[..0] + [last + suffix] == [last + suffix];
    } else {
      JoinLast(names[1..], suffix);
      var rest := names[1..];
      var changed := names[..|names| - 1] + [last + suffix];
      assert changed[1..] == rest[..|rest| - 1] + [last + suffix] && changed[0] == names[0];
      assert (names[0] + "/" + Join(rest, "/")) + suffix == names[0] + "/" + (Join(rest, "/") + suffix);
    }
  }

  /** What is added to a rendered path: a number when the name is taken, and the extension. */
  function Ending(extension: string, n: nat): string {
    if n < 2 then "." + extension else " (" + Decimal(n) + ")." + extension
  }

  lemma TriedEnds(stem: string, extension: string, n: nat)
    ensures Tried(stem, extension, n) == stem + Ending(extension, n)
  {
    if 2 <= n {
      assert stem + " (" + Decimal(n) + ")." + extension == stem + (" (" + Decimal(n) + ")." + extension);
    }
  }

  lemma EndingHasNoSlash(extension: string, n: nat)
    requires '/' !in extension
    ensures '/' !in Ending(extension, n)
  {
  }

  /** A name with an ending is a name, unless the name and the ending's extension are both
      empty. */
  lemma EndedIsName(name: string, extension: string, n: nat)
    requires (name == "" || IsName(name)) && '/' !in extension && '.' !in extension
    ensures IsName(name + Ending(extension, n)) <==> name != "" || extension != "" || 2 <= n
  {
    var whole := name + Ending(extension, n);
    EndingHasNoSlash(extension, n);
    if 2 <= n {
      assert whole[|name|] == ' ';
    } else if name == "" {
      assert whole == "." + extension;
      if extension != "" {
        assert extension[0] in extension && whole[1] == extension[0];
      }
    } else if |name| == 1 {
      assert name == [name[0]] && whole[0] == name[0];
    }
  }

  lemma NothingRendered(extension: string, n: nat)
    requires '/' !in extension && '.' !in extension
    ensures Resolve(Ending(extension, n)).Some? <==> extension != "" || 2 <= n
  {
    EndedIsName("", extension, n);
    assert "" + Ending(extension, n) == Ending(extension, n);
    if IsName(Ending(extension, n)) {
      ResolveJoin([Ending(extension, n)]);
    } else {
      SplitOne(".", '/');
    }
  }

  lemma SomethingRendered(names: seq<string>, extension: string, n: nat)
    requires names != [] && (forall name :: name in names ==> IsName(name)) && '/' !in extension && '.' !in extension
    ensures Resolve(Join(names, "/") + Ending(extension, n)) == Some(names[..|names| - 1] + [names[|names| - 1] + Ending(extension, n)])
  {
    var last := names[|names| - 1];
    assert last in names;
    JoinLast(names, Ending(extension, n));
    EndedIsName(last, extension, n);
    ResolveJoin(names[..|names| - 1] + [last + Ending(extension, n)]);
  }

  /** A rendered path with an ending resolves, unless nothing was rendered and there is no
      extension either. */
  lemma RenderedResolves(names: seq<string>, extension: string, n: nat)
    requires (forall name :: name in names ==> IsName(name)) && '/' !in extension && '.' !in extension
    ensures Resolve(Tried(Join(names, "/"), extension, n)).Some? <==> names != [] || extension != "" || 2 <= n
  {
    TriedEnds(Join(names, "/"), extension, n);
    if names == [] {
      NothingRendered(extension, n);
      assert "" + Ending(extension, n) == Ending(extension, n);
    } else {
      SomethingRendered(names, extension, n);
    }
  }

  /** Whatever the template and the track, the destinations tried for it resolve, unless the
      template renders to nothing and the file has no extension. */
  lemma DestinationsResolve(parts: seq<Part>, values: Values, options: Options, extension: string, n: nat)
    requires SafeReplacement(options.replacement) && '/' !in extension && '.' !in extension
    ensures var names := PathOf(parts, values, options);
      Resolve(Tried(Join(names, "/"), extension, n)).Some? <==> names != [] || extension != "" || 2 <= n
  {
    RenderedIsSafe(parts, values, options);
    RenderedResolves(PathOf(parts, values, options), extension, n);
  }

  lemma LastOf(names: seq<string>)
    requires forall name :: name in names ==> IsName(name)
    ensures LastName(Join(names, "/")) == if names == [] then "" else names[|names| - 1]
  {
    if names != [] {
      SplitJoin(names, '/');
    }
  }

  lemma {:induction false} JoinMore(names: seq<string>, last: string)
    requires names != []
    ensures Join(names, "/") + "/" + last == Join(names + [last], "/")
  {
    if |names| == 1 {
      assert (names + [last])[1..] == [last];
    } else {
      JoinMore(names[1..], last);
      assert (names + [last])[1..] == names[1..] + [last];
      assert (names[0] + "/" + Join(names[1..], "/")) + "/" + last == names[0] + "/" + (Join(names[1..], "/") + "/" + last);
    }
  }

  lemma InFolderResolves(folder: Parts, last: string, extension: string, n: nat)
    requires AreNames(folder) && (last == "" || IsName(last)) && '/' !in extension && '.' !in extension
    requires last != "" || extension != "" || 2 <= n
    ensures Resolve(Join(folder, "/") + "/" + (last + Ending(extension, n))) == Some(folder + [last + Ending(extension, n)])
  {
    EndedIsName(last, extension, n);
    JoinMore(folder, last + Ending(extension, n));
    ResolveJoin(folder + [last + Ending(extension, n)]);
  }

  lemma TriedInFolder(album: ExistingAlbum, rendered: string, extension: string, n: nat)
    ensures Tried(StemOf(Some(album), rendered), extension, n) == album.folder + "/" + (LastName(rendered) + Ending(extension, n))
  {
    TriedEnds(StemOf(Some(album), rendered), extension, n);
    Regroup(album.folder, LastName(rendered), Ending(extension, n));
  }

  lemma Regroup(folder: string, name: string, ending: string)
    ensures (folder + "/" + name) + ending == folder + "/" + (name + ending)
  {
  }

  lemma FolderIs(folder: Parts, name: string)
    ensures Folder(folder + [name]) == folder
  {
  }

  /** So do those in an album's existing folder, and they stay in that folder. */
  lemma FolderDestinationsResolve(names: seq<string>, album: ExistingAlbum, folder: Parts, extension: string, n: nat)
    requires (forall name :: name in names ==> IsName(name)) && '/' !in extension && '.' !in extension
    requires AreNames(folder) && album.folder == Join(folder, "/") && (names != [] || extension != "" || 2 <= n)
    ensures var place := Resolve(Tried(StemOf(Some(album), Join(names, "/")), extension, n));
      place.Some? && Folder(place.value) == folder
  {
    LastOf(names);
    var last := if names == [] then "" else names[|names| - 1];
    assert names != [] ==> last in names;
    TriedInFolder(album, Join(names, "/"), extension, n);
    InFolderResolves(folder, last, extension, n);
    FolderIs(folder, last + Ending(extension, n));
  }

  // ---- and keep out of the trash ----

  lemma EndingHasDot(extension: string, n: nat)
    ensures '.' in Ending(extension, n)
  {
    if 2 <= n {
      assert Ending(extension, n)[|" (" + Decimal(n) + ")"|] == '.';
    } else {
      assert Ending(extension, n)[0] == '.';
    }
  }

  /** A name with an ending isn't the trash's: that has no dot but its first character. */
  lemma EndedIsNoTrash(name: string, extension: string, n: nat)
    requires name != ""
    ensures name + Ending(extension, n) != TRASH
  {
    EndingHasDot(extension, n);
    var k :| 0 <= k < |Ending(extension, n)| && Ending(extension, n)[k] == '.';
    assert (name + Ending(extension, n))[|name| + k] == '.';
    assert forall j :: 0 < j < |TRASH| ==> TRASH[j] != '.';
  }

  /** The destinations of a path that isn't empty are proper if and only if the path doesn't
      begin with the trash. */
  lemma ProperIff(names: seq<string>, extension: string, n: nat)
    requires names != [] && (forall name :: name in names ==> IsName(name)) && '/' !in extension && '.' !in extension
    ensures IsProper(Tried(Join(names, "/"), extension, n)) <==> !(2 <= |names| && names[0] == TRASH)
  {
    TriedEnds(Join(names, "/"), extension, n);
    SomethingRendered(names, extension, n);
    JoinLast(names, Ending(extension, n));
    assert names[|names| - 1] in names;
    EndedIsNoTrash(names[|names| - 1], extension, n);
  }

  /** In an album's folder they are if and only if the folder isn't in the trash. */
  lemma ProperInFolderIff(folder: Parts, names: seq<string>, album: ExistingAlbum, extension: string, n: nat)
    requires names != [] && (forall name :: name in names ==> IsName(name)) && '/' !in extension && '.' !in extension
    requires AreNames(folder) && album.folder == Join(folder, "/")
    ensures IsProper(Tried(StemOf(Some(album), Join(names, "/")), extension, n)) <==> folder[0] != TRASH
  {
    LastOf(names);
    var last := names[|names| - 1];
    assert last in names;
    TriedInFolder(album, Join(names, "/"), extension, n);
    InFolderResolves(folder, last, extension, n);
    JoinMore(folder, last + Ending(extension, n));
  }

  /** A file of the album's folder has a proper name, and doesn't look like a batch's note. */
  lemma FileInFolder(folder: Parts, file: string)
    requires AreNames(folder) && folder[0] != TRASH && IsName(file)
    ensures IsProper(Join(folder, "/") + "/" + file)
    ensures !IsRecord(Resolve(Join(folder, "/") + "/" + file).value)
  {
    JoinMore(folder, file);
    ResolveJoin(folder + [file]);
  }

  // ---- the plan suits the import ----

  /** What the template makes of each track, and the album's folder when there is one. */
  ghost predicate RenderedAs(tracks: seq<StagedTrack>, existing: Option<ExistingAlbum>, paths: seq<seq<string>>, folder: Parts) {
    && |paths| == |tracks|
    && (forall i :: 0 <= i < |tracks| ==>
          && paths[i] != [] && tracks[i].rendered == Join(paths[i], "/")
          && (forall name :: name in paths[i] ==> IsName(name))
          && '/' !in tracks[i].extension && '.' !in tracks[i].extension)
    && (existing.Some? ==> AreNames(folder) && existing.value.folder == Join(folder, "/"))
  }

  /** Rendering a template gives such paths, as long as it gives something. */
  lemma TemplatesRender(tracks: seq<StagedTrack>, parts: seq<Part>, values: seq<Values>, options: Options, paths: seq<seq<string>>)
    requires SafeReplacement(options.replacement) && |values| == |tracks| == |paths|
    requires forall i :: 0 <= i < |tracks| ==>
      && paths[i] == PathOf(parts, values[i], options) && paths[i] != [] && tracks[i].rendered == Join(paths[i], "/")
      && '/' !in tracks[i].extension && '.' !in tracks[i].extension
    ensures RenderedAs(tracks, None, paths, [])
  {
    forall i | 0 <= i < |tracks| ensures forall name :: name in paths[i] ==> IsName(name) {
      RenderedIsSafe(parts, values[i], options);
    }
  }

  /** Nothing of it is in the trash. */
  predicate OutOfTrash(existing: Option<ExistingAlbum>, paths: seq<seq<string>>, folder: Parts) {
    if existing.Some? then folder != [] && folder[0] != TRASH
    else forall i :: 0 <= i < |paths| ==> !(2 <= |paths[i]| && paths[i][0] == TRASH)
  }

  lemma DestinationTried(used: set<string>, stem: string, extension: string, fold: Folding, name: string) returns (n: nat)
    requires IsFirstFree(used, stem, extension, fold, name)
    ensures name == Tried(stem, extension, n)
  {
    if name == Tried(stem, extension, 1) {
      n := 1;
    } else {
      n :| IsNthFree(used, stem, extension, fold, n) && name == Numbered(stem, n, extension);
    }
  }

  lemma SamePlaceSameName(a: string, b: string)
    requires IsProper(a) && IsProper(b)
    ensures PlaceOf(a) == PlaceOf(b) <==> a == b
  {
  }

  lemma {:induction false} ArrivingFrom(tracks: seq<PlannedFile>, k: nat) returns (i: nat)
    requires k < |ArrivingTracks(tracks)|
    ensures i < |tracks| && !tracks[i].skip && tracks[i] == ArrivingTracks(tracks)[k]
    ensures k == |ArrivingTracks(tracks[..i])|
  {
    if tracks[0].skip {
      var j := ArrivingFrom(tracks[1..], k);
      i := j + 1;
      assert tracks[..i][0] == tracks[0] && tracks[..i][1..] == tracks[1..][..j];
    } else if k == 0 {
      i := 0;
      assert tracks[..0] == [];
    } else {
      var j := ArrivingFrom(tracks[1..], k - 1);
      i := j + 1;
      assert tracks[..i][0] == tracks[0] && tracks[..i][1..] == tracks[1..][..j];
    }
  }

  lemma DestinationProperIff(plan: Plan, tracks: seq<StagedTrack>, existing: Option<ExistingAlbum>, alike: Alike, fold: Folding,
                             names: seq<string>, matches: seq<Option<nat>>, paths: seq<seq<string>>, folder: Parts, i: nat)
    requires IsPlanFor(plan, tracks, existing, alike, fold, names, matches) && RenderedAs(tracks, existing, paths, folder)
    requires i < |tracks|
    ensures IsProper(plan.tracks[i].destination) <==>
      if existing.Some? then folder[0] != TRASH else !(2 <= |paths[i]| && paths[i][0] == TRASH)
  {
    var extension := tracks[i].extension;
    var n := DestinationTried(LowerNames(names[..i], fold), StemOf(existing, tracks[i].rendered), extension, fold, names[i]);
    if existing.Some? {
      ProperInFolderIff(folder, paths[i], existing.value, extension, n);
    } else {
      ProperIff(paths[i], extension, n);
    }
  }

  /** A plan's destinations are proper if and only if the template, or the album's folder, keeps
      out of the trash. */
  lemma PlanIsProperIff(plan: Plan, tracks: seq<StagedTrack>, existing: Option<ExistingAlbum>, alike: Alike, fold: Folding,
                        names: seq<string>, matches: seq<Option<nat>>, paths: seq<seq<string>>, folder: Parts)
    requires IsPlanFor(plan, tracks, existing, alike, fold, names, matches) && RenderedAs(tracks, existing, paths, folder)
    requires tracks != []
    ensures (forall t :: t in plan.tracks ==> IsProper(t.destination)) <==> OutOfTrash(existing, paths, folder)
  {
    if OutOfTrash(existing, paths, folder) {
      forall t | t in plan.tracks ensures IsProper(t.destination) {
        var i :| 0 <= i < |plan.tracks| && plan.tracks[i] == t;
        DestinationProperIff(plan, tracks, existing, alike, fold, names, matches, paths, folder, i);
      }
    } else {
      var i :| 0 <= i < |tracks| && (existing.None? ==> 2 <= |paths[i]| && paths[i][0] == TRASH);
      assert plan.tracks[i] in plan.tracks;
      DestinationProperIff(plan, tracks, existing, alike, fold, names, matches, paths, folder, i);
    }
  }

  lemma PlanIsProper(plan: Plan, tracks: seq<StagedTrack>, existing: Option<ExistingAlbum>, alike: Alike, fold: Folding,
                     names: seq<string>, matches: seq<Option<nat>>, paths: seq<seq<string>>, folder: Parts)
    requires IsPlanFor(plan, tracks, existing, alike, fold, names, matches) && RenderedAs(tracks, existing, paths, folder)
    requires OutOfTrash(existing, paths, folder)
    ensures forall t :: t in plan.tracks ==> IsProper(t.destination)
  {
    if tracks != [] {
      PlanIsProperIff(plan, tracks, existing, alike, fold, names, matches, paths, folder);
    }
  }

  /** The plan's arriving tracks have places of their own, a skipped track replaces nothing,
      and no rename starts at a replaced file. */
  lemma PlanSuitsImport(plan: Plan, tracks: seq<StagedTrack>, existing: Option<ExistingAlbum>, alike: Alike, fold: Folding,
                        names: seq<string>, matches: seq<Option<nat>>, paths: seq<seq<string>>, folder: Parts)
    requires IsPlanFor(plan, tracks, existing, alike, fold, names, matches)
    requires RenderedAs(tracks, existing, paths, folder) && OutOfTrash(existing, paths, folder)
    ensures forall t :: t in plan.tracks ==> IsProper(t.destination)
    ensures DistinctDestinations(ArrivingTracks(plan.tracks))
    ensures forall t :: t in plan.tracks && t.skip ==> t.replaced.None?
    ensures forall r, t :: r in plan.renumber && t in plan.tracks && t.replaced.Some? ==> r.from != t.replaced.value
  {
    PlanIsProper(plan, tracks, existing, alike, fold, names, matches, paths, folder);
    PlacesOfTheirOwn(plan, tracks, existing, alike, fold, names, matches);
    forall r, t | r in plan.renumber && t in plan.tracks && t.replaced.Some? ensures r.from != t.replaced.value {
      RenumberedIsKept(plan, tracks, existing, alike, fold, names, matches, r, t);
    }
  }

  lemma PlacesOfTheirOwn(plan: Plan, tracks: seq<StagedTrack>, existing: Option<ExistingAlbum>, alike: Alike, fold: Folding,
                         names: seq<string>, matches: seq<Option<nat>>)
    requires IsPlanFor(plan, tracks, existing, alike, fold, names, matches)
    requires forall t :: t in plan.tracks ==> IsProper(t.destination)
    ensures DistinctDestinations(ArrivingTracks(plan.tracks))
  {
    var arriving := ArrivingTracks(plan.tracks);
    forall a, b | 0 <= a < b < |arriving| ensures PlaceOf(arriving[a].destination) != PlaceOf(arriving[b].destination) {
      var i := ArrivingFrom(plan.tracks, a);
      var j := ArrivingFrom(plan.tracks, b);
      assert i != j && plan.tracks[i] in plan.tracks && plan.tracks[j] in plan.tracks;
      SamePlaceSameName(arriving[a].destination, arriving[b].destination);
    }
  }

  // ---- from the template to the library ----

  /** The files of the album have plain names, and so do the names rendered for them. */
  predicate AlbumIsNamed(existing: Option<ExistingAlbum>) {
    existing.Some? ==> forall t :: t in existing.value.tracks ==> IsName(t.file) && IsName(LastName(t.rendered))
  }

  lemma NewNameIsName(track: ExistingTrack)
    requires IsName(track.file) && IsName(LastName(track.rendered))
    ensures IsName(NewName(track))
  {
    var extension := AfterDot(track.file);
    LowerAsciiOnce(extension);
    assert '/' !in extension && '.' !in extension;
    assert forall i :: 0 <= i < |extension| ==> extension[i] in extension;
    EndedIsName(LastName(track.rendered), ToAsciiLower(extension), 1);
    assert NewName(track) == LastName(track.rendered) + Ending(ToAsciiLower(extension), 1);
  }

  lemma RenumberedTrack(plan: Plan, existing: Option<ExistingAlbum>, fold: Folding, r: Renumber) returns (k: nat)
    requires AreRenumbered(existing, Leaving(plan.tracks, fold), fold, plan.renumber) && r in plan.renumber
    ensures existing.Some? && k < |existing.value.tracks| && r == RenumberOf(existing.value, k)
  {
    var album := existing.value;
    var ks :| ListsRenumbers(album, Leaving(plan.tracks, fold), fold, |album.tracks|, ks, plan.renumber);
    var i :| 0 <= i < |plan.renumber| && plan.renumber[i] == r;
    k := ks[i];
  }

  lemma RenumberIsProper(album: ExistingAlbum, folder: Parts, k: nat)
    requires AreNames(folder) && album.folder == Join(folder, "/") && folder[0] != TRASH && k < |album.tracks|
    requires IsName(album.tracks[k].file) && IsName(LastName(album.tracks[k].rendered))
    ensures IsProper(RenumberOf(album, k).from) && IsProper(RenumberOf(album, k).to)
  {
    FileInFolder(folder, album.tracks[k].file);
    NewNameIsName(album.tracks[k]);
    FileInFolder(folder, NewName(album.tracks[k]));
  }

  lemma RenumbersAreProper(plan: Plan, existing: Option<ExistingAlbum>, fold: Folding, folder: Parts, r: Renumber)
    requires AreRenumbered(existing, Leaving(plan.tracks, fold), fold, plan.renumber) && AlbumIsNamed(existing)
    requires existing.Some? ==> AreNames(folder) && existing.value.folder == Join(folder, "/") && folder[0] != TRASH
    requires r in plan.renumber
    ensures IsProper(r.from) && IsProper(r.to)
  {
    var k := RenumberedTrack(plan, existing, fold, r);
    assert existing.value.tracks[k] in existing.value.tracks;
    RenumberIsProper(existing.value, folder, k);
  }

  lemma ReplacedAreReplaceable(plan: Plan, tracks: seq<StagedTrack>, existing: Option<ExistingAlbum>, alike: Alike, fold: Folding,
                               names: seq<string>, matches: seq<Option<nat>>, folder: Parts, name: string)
    requires IsPlanFor(plan, tracks, existing, alike, fold, names, matches) && AlbumIsNamed(existing)
    requires existing.Some? ==> AreNames(folder) && existing.value.folder == Join(folder, "/") && folder[0] != TRASH
    requires name in ReplacedFiles(plan.tracks)
    ensures IsProper(name) && !IsRecord(Resolve(name).value)
  {
    ReplacedAre(plan.tracks);
    var t :| t in plan.tracks && !t.skip && t.replaced == Some(name);
    var i :| 0 <= i < |plan.tracks| && plan.tracks[i] == t;
    ReplacedIsWorse(plan, tracks, existing, alike, fold, names, matches, i);
    var track := existing.value.tracks[matches[i].value];
    assert track in existing.value.tracks;
    FileInFolder(folder, track.file);
  }

  lemma AllProper(plan: Plan, d: (string, bool))
    requires (forall t :: t in plan.tracks ==> IsProper(t.destination)) && (forall r :: r in plan.renumber ==> IsProper(r.to))
    requires d in Destinations(plan)
    ensures IsProper(d.0)
  {
    ArrivingAre(plan.tracks);
  }

  lemma AllSafe(names: seq<string>)
    requires forall name :: name in names ==> IsProper(name) && !IsRecord(Resolve(name).value)
    ensures AreReplaceable(names) && FirstUnsafe(names).None?
  {
    assert forall i :: 0 <= i < |names| ==> names[i] in names;
  }

  /** A plan for rendered names is well made, but for what depends on the other files of the
      library: names that differ only in case, and the names the renames use. */
  lemma PlanIsWellMade<C>(plan: Plan, tracks: seq<StagedTrack>, existing: Option<ExistingAlbum>, alike: Alike, fold: Folding,
                          names: seq<string>, matches: seq<Option<nat>>, paths: seq<seq<string>>, folder: Parts,
                          files: map<Place, C>, batch: string, lower: string -> string)
    requires IsPlanFor(plan, tracks, existing, alike, fold, names, matches) && AlbumIsNamed(existing)
    requires RenderedAs(tracks, existing, paths, folder) && OutOfTrash(existing, paths, folder)
    requires FreshBatch(files, batch) && CaseAgrees(plan, files, lower) && RenamesApart(plan, files)
    ensures WellMade(plan, files, batch, lower) && FirstUnsafe(ReplacedFiles(plan.tracks)).None?
  {
    PlanSuitsImport(plan, tracks, existing, alike, fold, names, matches, paths, folder);
    forall r | r in plan.renumber ensures IsProper(r.from) && IsProper(r.to) {
      RenumbersAreProper(plan, existing, fold, folder, r);
    }
    forall d | d in Destinations(plan) ensures IsProper(d.0) {
      AllProper(plan, d);
    }
    forall name | name in ReplacedFiles(plan.tracks) ensures IsProper(name) && !IsRecord(Resolve(name).value) {
      ReplacedAreReplaceable(plan, tracks, existing, alike, fold, names, matches, folder, name);
    }
    AllSafe(ReplacedFiles(plan.tracks));
  }

  /** Plan an import and carry it out. */
  method Import<C>(disk: Disk<C>, tracks: seq<StagedTrack>, existing: Option<ExistingAlbum>, image: Option<(string, string)>,
                   alike: Alike, fold: Folding, lower: string -> string, batch: string,
                   ghost paths: seq<seq<string>>, ghost folder: Parts)
      returns (r: Result<seq<Place>, ImportError>, ghost plan: Plan)
    requires KeepsDigits(fold) && AlbumIsNamed(existing)
    requires RenderedAs(tracks, existing, paths, folder) && OutOfTrash(existing, paths, folder)
    modifies disk
    ensures exists names, matches :: IsPlanFor(plan, tracks, existing, alike, fold, names, matches)
    ensures !NoConflicts(plan, old(disk.files), lower) ==> r.Err? && disk.files == old(disk.files)
    ensures FreshBatch(old(disk.files), batch) && CaseAgrees(plan, old(disk.files), lower) && RenamesApart(plan, old(disk.files)) ==>
      && (r.Ok? ==> Realised(plan, batch, old(disk.files), disk.files))
      && (r.Err? && UndoSafe(LegsOf(plan.renumber)) && old(disk.MovesOf(batch)) == [] && disk.stuck == old(disk.stuck) ==>
            disk.files == old(disk.files) || CoverFailed(plan, batch, old(disk.files), r.error, disk.files))
  {
    var made, names, matches := MakePlan(tracks, existing, image, alike, fold);
    plan := made;
    ghost var before := disk.files;
    if FreshBatch(before, batch) && CaseAgrees(plan, before, lower) && RenamesApart(plan, before) {
      PlanIsWellMade(plan, tracks, existing, alike, fold, names, matches, paths, folder, before, batch, lower);
    }
    r := Execute(disk, made, batch, lower);
  }
}
