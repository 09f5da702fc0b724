/** Deciding where every file of an import goes (`crates/delune-library/src/import.rs`). */
module Planning {
  import opened Text
  import opened Paths
  import opened FreeNames
  import opened Qualities
  import opened Plans

  /** A downloaded track: the key of its title, and the path its name is rendered to. */
  datatype StagedTrack = StagedTrack(source: string, key: string, quality: Quality, rendered: string, extension: string)

  /** A track of the album already in the library: its number, where the track list now has its
      title, and the path its name is rendered to with that number. */
  datatype ExistingTrack = ExistingTrack(file: string, key: string, quality: Option<Quality>, number: Option<nat>,
                                         listed: Option<nat>, rendered: string)

  datatype ExistingAlbum = ExistingAlbum(folder: string, tracks: seq<ExistingTrack>)

  // ---- lower case ----

  ghost predicate KeepsDigits(fold: Folding) {
    forall c :: IsDigit(c) ==> fold(c) == [c]
  }

  lemma {:induction false} DigitsStay(digits: string, fold: Folding)
    requires KeepsDigits(fold) && forall c :: c in digits ==> IsDigit(c)
    ensures Lower(digits, fold) == digits
  {
    if digits != "" {
      assert digits[0] in digits;
      DigitsStay(digits[1..], fold);
    }
  }

  /** Numbered names are told apart even ignoring case. */
  lemma NumberedDiffer(stem: string, m: nat, n: nat, extension: string, fold: Folding)
    requires KeepsDigits(fold)
    requires Lower(Numbered(stem, m, extension), fold) == Lower(Numbered(stem, n, extension), fold)
    ensures m == n
  {
    var head, tail := Lower(stem + " (", fold), Lower(")." + extension, fold);
    LowerNumbered(stem, m, extension, fold);
    LowerNumbered(stem, n, extension, fold);
    assert Decimal(m) == (head + Decimal(m) + tail)[|head|..|head| + |Decimal(m)|];
    assert |Decimal(m)| == |Decimal(n)|;
    assert Decimal(n) == (head + Decimal(n) + tail)[|head|..|head| + |Decimal(n)|];
    DecimalIsInjective(m, n);
  }

  lemma LowerNumbered(stem: string, n: nat, extension: string, fold: Folding)
    requires KeepsDigits(fold)
    ensures Lower(Numbered(stem, n, extension), fold) ==
      Lower(stem + " (", fold) + Decimal(n) + Lower(")." + extension, fold)
  {
    assert Numbered(stem, n, extension) == (stem + " (" + Decimal(n)) + (")." + extension);
    LowerAdd(stem + " (" + Decimal(n), ")." + extension, fold);
    LowerAdd(stem + " (", Decimal(n), fold);
    DigitsStay(Decimal(n), fold);
  }

  // ---- destinations ----

  function LastName(path: string): string {
    var names := Split(path, '/');
    names[|names| - 1]
  }

  /** A track's path without extension: of the rendered one only the last name is used when there is
      a folder to join. */
  function StemOf(existing: Option<ExistingAlbum>, rendered: string): string {
    if existing.Some? then existing.value.folder + "/" + LastName(rendered) else rendered
  }

  /** The `n`th name tried: the plain one is the first. */
  function Tried(stem: string, extension: string, n: nat): string {
    if n < 2 then stem + "." + extension else Numbered(stem, n, extension)
  }

  /** The first name nothing else of the plan uses, ignoring case. */
  ghost predicate IsFirstFree(used: set<string>, stem: string, extension: string, fold: Folding, name: string) {
    Lower(name, fold) !in used &&
    (name == Tried(stem, extension, 1) ||
     exists n: nat :: IsNthFree(used, stem, extension, fold, n) && name == Numbered(stem, n, extension))
  }

  ghost predicate IsNthFree(used: set<string>, stem: string, extension: string, fold: Folding, n: nat) {
    2 <= n && forall m :: 1 <= m < n ==> Lower(Tried(stem, extension, m), fold) in used
  }

  method FreeDestination(used: set<string>, stem: string, extension: string, fold: Folding) returns (name: string)
    requires KeepsDigits(fold)
    ensures IsFirstFree(used, stem, extension, fold, name)
  {
    name := stem + "." + extension;
    var n := 2;
    ghost var tried := (k: nat) => Lower(Numbered(stem, k, extension), fold);
    while Lower(name, fold) in used
      invariant 2 <= n && name == Tried(stem, extension, n - 1)
      invariant forall m :: 1 <= m < n - 1 ==> Lower(Tried(stem, extension, m), fold) in used
      decreases |used| + 3 - n
    {
      forall a, b | 2 <= a < b < n ensures tried(a) != tried(b) {
        if tried(a) == tried(b) {
          NumberedDiffer(stem, a, b, extension, fold);
        }
      }
      forall k | 2 <= k < n ensures tried(k) in used {
        assert Tried(stem, extension, k) == Numbered(stem, k, extension);
      }
      TakenAreFew(used, tried, 2, n);
      name := Numbered(stem, n, extension);
      n := n + 1;
    }
    if 2 < n {
      assert IsNthFree(used, stem, extension, fold, n - 1);
    }
  }

  /** No two names are the same ignoring case. */
  predicate ApartIgnoringCase(names: seq<string>, fold: Folding) {
    forall i, j :: 0 <= i < j < |names| ==> Lower(names[i], fold) != Lower(names[j], fold)
  }

  function LowerNames(names: seq<string>, fold: Folding): set<string> {
    set name | name in names :: Lower(name, fold)
  }

  lemma OneMoreName(names: seq<string>, name: string, fold: Folding)
    requires ApartIgnoringCase(names, fold)
    ensures LowerNames(names + [name], fold) == LowerNames(names, fold) + {Lower(name, fold)}
    ensures Lower(name, fold) !in LowerNames(names, fold) ==> ApartIgnoringCase(names + [name], fold)
    ensures forall k :: 0 <= k <= |names| ==> (names + [name])[..k] == names[..k]
  {
    assert forall k :: 0 <= k < |names| ==> names[k] in names;
    assert forall n :: n in names + [name] <==> n in names || n == name;
  }

  /** Each track goes where its name is rendered to, or to the first free numbered name, none the
      same ignoring case. */
  ghost predicate AreChosen(tracks: seq<StagedTrack>, existing: Option<ExistingAlbum>, fold: Folding, names: seq<string>) {
    && |names| == |tracks| && ApartIgnoringCase(names, fold)
    && forall i :: 0 <= i < |names| ==>
        IsFirstFree(LowerNames(names[..i], fold), StemOf(existing, tracks[i].rendered), tracks[i].extension, fold, names[i])
  }

  /** Where every track goes. */
  method ChooseDestinations(tracks: seq<StagedTrack>, existing: Option<ExistingAlbum>, fold: Folding) returns (names: seq<string>)
    requires KeepsDigits(fold)
    ensures AreChosen(tracks, existing, fold, names)
  {
    names := [];
    var used: set<string> := {};
    for i := 0 to |tracks|
      invariant |names| == i && used == LowerNames(names, fold) && ApartIgnoringCase(names, fold)
      invariant forall k :: 0 <= k < i ==>
        IsFirstFree(LowerNames(names[..k], fold), StemOf(existing, tracks[k].rendered), tracks[k].extension, fold, names[k])
    {
      var name := FreeDestination(used, StemOf(existing, tracks[i].rendered), tracks[i].extension, fold);
      OneMoreName(names, name, fold);
      used := used + {Lower(name, fold)};
      names := names + [name];
    }
  }

  // ---- which tracks are already there ----

  /** A looser comparison of keys, given. */
  type Alike = (string, string) -> bool

  predicate IsOpen(album: seq<ExistingTrack>, claimed: set<nat>, k: nat) {
    k < |album| && k !in claimed
  }

  predicate NoneExact(album: seq<ExistingTrack>, claimed: set<nat>, key: string, before: nat) {
    forall j :: 0 <= j < before && IsOpen(album, claimed, j) ==> album[j].key != key
  }

  predicate NoneAlike(album: seq<ExistingTrack>, claimed: set<nat>, key: string, alike: Alike, but: nat) {
    forall j :: 0 <= j < |album| && j != but && IsOpen(album, claimed, j) ==> !alike(album[j].key, key)
  }

  /** The only track that may be the same song. */
  predicate IsOnlyAlike(album: seq<ExistingTrack>, claimed: set<nat>, key: string, alike: Alike, k: nat) {
    IsOpen(album, claimed, k) && alike(album[k].key, key) && NoneAlike(album, claimed, key, alike, k)
  }

  /** The first open track with exactly this key; failing that, the only open one alike. */
  predicate IsMatch(album: seq<ExistingTrack>, claimed: set<nat>, key: string, alike: Alike, found: Option<nat>) {
    match found
    case Some(k) =>
      IsOpen(album, claimed, k) &&
      ((album[k].key == key && NoneExact(album, claimed, key, k)) ||
       (NoneExact(album, claimed, key, |album|) && IsOnlyAlike(album, claimed, key, alike, k)))
    case None =>
      NoneExact(album, claimed, key, |album|) && forall k :: 0 <= k < |album| ==> !IsOnlyAlike(album, claimed, key, alike, k)
  }

  method FindMatch(album: seq<ExistingTrack>, claimed: set<nat>, key: string, alike: Alike) returns (found: Option<nat>)
    ensures IsMatch(album, claimed, key, alike, found)
  {
    for k := 0 to |album|
      invariant NoneExact(album, claimed, key, k)
    {
      if k !in claimed && album[k].key == key {
        return Some(k);
      }
    }
    var loose: Option<nat> := None;
    for k := 0 to |album|
      invariant loose.None? ==> forall j :: 0 <= j < k && IsOpen(album, claimed, j) ==> !alike(album[j].key, key)
      invariant loose.Some? ==> loose.value < k && IsOpen(album, claimed, loose.value) && alike(album[loose.value].key, key)
      invariant loose.Some? ==> forall j :: 0 <= j < k && j != loose.value && IsOpen(album, claimed, j) ==> !alike(album[j].key, key)
    {
      if k !in claimed && alike(album[k].key, key) {
        if loose.Some? {
          assert IsOpen(album, claimed, k) && IsOpen(album, claimed, loose.value);
          return None;
        }
        loose := Some(k);
      }
    }
    return loose;
  }

  function Claimed(matches: seq<Option<nat>>): set<nat> {
    set m | m in matches && m.Some? :: m.value
  }

  /** Each staged track's match among the tracks not matched before it. */
  predicate AreMatches(album: seq<ExistingTrack>, tracks: seq<StagedTrack>, alike: Alike, matches: seq<Option<nat>>)
    requires |matches| <= |tracks|
  {
    forall i :: 0 <= i < |matches| ==> IsMatch(album, Claimed(matches[..i]), tracks[i].key, alike, matches[i])
  }

  method AlreadyThere(tracks: seq<StagedTrack>, album: seq<ExistingTrack>, alike: Alike) returns (matches: seq<Option<nat>>)
    ensures |matches| == |tracks| && AreMatches(album, tracks, alike, matches)
  {
    matches := [];
    var claimed: set<nat> := {};
    for i := 0 to |tracks|
      invariant |matches| == i && claimed == Claimed(matches) && AreMatches(album, tracks, alike, matches)
    {
      var found := FindMatch(album, claimed, tracks[i].key, alike);
      forall k | 0 <= k < i ensures (matches + [found])[..k] == matches[..k] {}
      assert (matches + [found])[..i] == matches;
      matches := matches + [found];
      claimed := if found.Some? then claimed + {found.value} else claimed;
    }
  }

  /** No two tracks claim one track of the album. */
  lemma ClaimedOnce(album: seq<ExistingTrack>, tracks: seq<StagedTrack>, alike: Alike, matches: seq<Option<nat>>, i: nat, j: nat)
    requires |matches| == |tracks| && AreMatches(album, tracks, alike, matches)
    requires i < j < |matches| && matches[i].Some? && matches[j].Some?
    ensures matches[i].value != matches[j].value
  {
    assert IsMatch(album, Claimed(matches[..j]), tracks[j].key, alike, matches[j]);
    assert matches[..j][i] == matches[i];
  }

  // ---- the plan ----

  function FileOf(album: ExistingAlbum, k: nat): string
    requires k < |album.tracks|
  {
    album.folder + "/" + album.tracks[k].file
  }

  /** A copy already there is replaced only when the new one is better, or nothing is known
      of it; otherwise the track isn't imported. */
  predicate IsPlanned(existing: Option<ExistingAlbum>, track: StagedTrack, found: Option<nat>, planned: PlannedFile) {
    && planned.source == track.source
    && if existing.None? || found.None? || |existing.value.tracks| <= found.value then planned.replaced.None? && !planned.skip
       else
         var had := existing.value.tracks[found.value].quality;
         if had.None? || Beats(track.quality, had.value) then
           planned.replaced == Some(FileOf(existing.value, found.value)) && !planned.skip
         else planned.replaced.None? && planned.skip
  }

  function CoverName(image: Option<(string, string)>, tracks: seq<PlannedFile>): Option<(string, string)> {
    if image.None? || tracks == [] || '/' !in tracks[0].destination then None
    else
      var names := Split(tracks[0].destination, '/');
      Some((image.value.0, Join(names[..|names| - 1], "/") + "/cover." + image.value.1))
  }

  /** The files the plan replaces, in lower case. */
  function Leaving(tracks: seq<PlannedFile>, fold: Folding): set<string> {
    set t | t in tracks && t.replaced.Some? :: Lower(t.replaced.value, fold)
  }

  /** The plan gives the existing tracks whose number has changed their new names, in the album's
      order, unless they are replaced. */
  ghost predicate AreRenumbered(existing: Option<ExistingAlbum>, leaving: set<string>, fold: Folding, renumber: seq<Renumber>) {
    if existing.None? then renumber == []
    else exists ks :: ListsRenumbers(existing.value, leaving, fold, |existing.value.tracks|, ks, renumber)
  }

  /** `ks` are the renumbered ones among the first `n` tracks. */
  ghost predicate ListsRenumbers(album: ExistingAlbum, leaving: set<string>, fold: Folding, n: nat, ks: seq<nat>, renumber: seq<Renumber>)
    requires n <= |album.tracks|
  {
    && |ks| == |renumber|
    && (forall i, j :: 0 <= i < j < |ks| ==> ks[i] < ks[j])
    && (forall i :: 0 <= i < |ks| ==>
          ks[i] < n && IsRenumbered(album, leaving, fold, ks[i]) && renumber[i] == RenumberOf(album, ks[i]))
    && (forall k :: 0 <= k < n && IsRenumbered(album, leaving, fold, k) ==> k in ks)
  }

  /** The track list has it under another number than it bears. */
  predicate HasMoved(track: ExistingTrack) {
    track.listed.Some? && track.number != track.listed
  }

  function AfterDot(file: string): string {
    var dot := LastDot(file);
    if dot.None? then "" else file[dot.value + 1..]
  }

  /** The rendered name, with the file's extension in lower case. */
  function NewName(track: ExistingTrack): string {
    LastName(track.rendered) + "." + ToAsciiLower(AfterDot(track.file))
  }

  lemma LowerAsciiOnce(s: string)
    ensures ToAsciiLower(ToAsciiLower(s)) == ToAsciiLower(s)
    ensures '.' !in s ==> '.' !in ToAsciiLower(s)
  {
    assert forall i :: 0 <= i < |s| ==> s[i] in s;
  }

  /** A renumbered track is still an audio file. */
  lemma NewNameIsAudio(track: ExistingTrack)
    requires IsAudio(track.file) && LastName(track.rendered) != ""
    ensures IsAudio(NewName(track))
  {
    var extension := AfterDot(track.file);
    LowerAsciiOnce(extension);
    NameParts(LastName(track.rendered), ToAsciiLower(extension));
  }

  function RenumberOf(album: ExistingAlbum, k: nat): Renumber
    requires k < |album.tracks|
  {
    Renumber(FileOf(album, k), album.folder + "/" + NewName(album.tracks[k]))
  }

  predicate IsRenumbered(album: ExistingAlbum, leaving: set<string>, fold: Folding, k: nat)
    requires k < |album.tracks|
  {
    HasMoved(album.tracks[k]) && Lower(FileOf(album, k), fold) !in leaving
  }

  lemma ListsOneMore(album: ExistingAlbum, leaving: set<string>, fold: Folding, n: nat, ks: seq<nat>, renumber: seq<Renumber>)
    requires n < |album.tracks| && ListsRenumbers(album, leaving, fold, n, ks, renumber)
    ensures if IsRenumbered(album, leaving, fold, n)
      then ListsRenumbers(album, leaving, fold, n + 1, ks + [n], renumber + [RenumberOf(album, n)])
      else ListsRenumbers(album, leaving, fold, n + 1, ks, renumber)
  {
    InMore(ks, n);
  }

  lemma InMore(ks: seq<nat>, n: nat)
    ensures forall k :: k in ks + [n] <==> k in ks || k == n
  {
  }

  method Renumberings(existing: Option<ExistingAlbum>, leaving: set<string>, fold: Folding) returns (renumber: seq<Renumber>)
    ensures AreRenumbered(existing, leaving, fold, renumber)
  {
    renumber := [];
    if existing.None? {
      return;
    }
    var album := existing.value;
    ghost var ks: seq<nat> := [];
    for k := 0 to |album.tracks|
      invariant ListsRenumbers(album, leaving, fold, k, ks, renumber)
    {
      ListsOneMore(album, leaving, fold, k, ks, renumber);
      if HasMoved(album.tracks[k]) && Lower(FileOf(album, k), fold) !in leaving {
        renumber := renumber + [RenumberOf(album, k)];
        ks := ks + [k];
      }
    }
  }

  ghost predicate ArePlanned(existing: Option<ExistingAlbum>, tracks: seq<StagedTrack>, found: seq<Option<nat>>, names: seq<string>,
                             planned: seq<PlannedFile>) {
    && |planned| <= |tracks| && |planned| <= |found| && |planned| <= |names|
    && forall i :: 0 <= i < |planned| ==> planned[i].destination == names[i] && IsPlanned(existing, tracks[i], found[i], planned[i])
  }

  /** Everything a plan promises. */
  ghost predicate IsPlanFor(plan: Plan, tracks: seq<StagedTrack>, existing: Option<ExistingAlbum>, alike: Alike, fold: Folding,
                            names: seq<string>, matches: seq<Option<nat>>) {
    && |plan.tracks| == |tracks| == |names| == |matches|
    && AreChosen(tracks, existing, fold, names)
    && AreMatches(if existing.Some? then existing.value.tracks else [], tracks, alike, matches)
    && ArePlanned(existing, tracks, matches, names, plan.tracks)
    && AreRenumbered(existing, Leaving(plan.tracks, fold), fold, plan.renumber)
  }

  method PlanTrack(existing: Option<ExistingAlbum>, track: StagedTrack, found: Option<nat>, destination: string)
      returns (planned: PlannedFile)
    ensures IsPlanned(existing, track, found, planned) && planned.destination == destination
  {
    if existing.None? || found.None? || |existing.value.tracks| <= found.value {
      return PlannedFile(track.source, destination, None, false);
    }
    var had := existing.value.tracks[found.value].quality;
    if had.None? || Beats(track.quality, had.value) {
      return PlannedFile(track.source, destination, Some(FileOf(existing.value, found.value)), false);
    }
    return PlannedFile(track.source, destination, None, true);
  }

  method PlanTracks(existing: Option<ExistingAlbum>, tracks: seq<StagedTrack>, found: seq<Option<nat>>, names: seq<string>)
      returns (planned: seq<PlannedFile>)
    requires |tracks| == |found| == |names|
    ensures |planned| == |tracks| && ArePlanned(existing, tracks, found, names, planned)
  {
    planned := [];
    for i := 0 to |tracks|
      invariant |planned| == i && ArePlanned(existing, tracks, found, names, planned)
    {
      var next := PlanTrack(existing, tracks[i], found[i], names[i]);
      planned := planned + [next];
    }
  }

  /** The whole plan: a destination for each track, what it replaces, and the renames. */
  method MakePlan(tracks: seq<StagedTrack>, existing: Option<ExistingAlbum>, image: Option<(string, string)>, alike: Alike, fold: Folding)
      returns (plan: Plan, ghost names: seq<string>, ghost matches: seq<Option<nat>>)
    requires KeepsDigits(fold)
    ensures IsPlanFor(plan, tracks, existing, alike, fold, names, matches)
    ensures plan.cover == CoverName(image, plan.tracks)
  {
    var found := AlreadyThere(tracks, if existing.Some? then existing.value.tracks else [], alike);
    var destinations := ChooseDestinations(tracks, existing, fold);
    var planned := PlanTracks(existing, tracks, found, destinations);
    var renumber := Renumberings(existing, Leaving(planned, fold), fold);
    names, matches := destinations, found;
    plan := Plan(planned, renumber, CoverName(image, planned));
  }

  // ---- what follows ----

  /** A replaced file is an existing track the new one was matched with, and one of known
      quality ranks strictly lower. */
  lemma ReplacedIsWorse(plan: Plan, tracks: seq<StagedTrack>, existing: Option<ExistingAlbum>, alike: Alike, fold: Folding,
                        names: seq<string>, matches: seq<Option<nat>>, i: nat)
    requires IsPlanFor(plan, tracks, existing, alike, fold, names, matches) && i < |tracks| && plan.tracks[i].replaced.Some?
    ensures existing.Some? && matches[i].Some? && matches[i].value < |existing.value.tracks|
    ensures plan.tracks[i].replaced.value == FileOf(existing.value, matches[i].value)
    ensures var had := existing.value.tracks[matches[i].value].quality;
      had.Some? ==> Rank(had.value) < Rank(tracks[i].quality)
  {
  }

  /** No file is replaced twice, as long as the album's files have names of their own. */
  lemma ReplacedOnce(plan: Plan, tracks: seq<StagedTrack>, existing: Option<ExistingAlbum>, alike: Alike, fold: Folding,
                     names: seq<string>, matches: seq<Option<nat>>, i: nat, j: nat)
    requires IsPlanFor(plan, tracks, existing, alike, fold, names, matches) && i < j < |tracks|
    requires plan.tracks[i].replaced.Some? && plan.tracks[j].replaced.Some?
    requires existing.Some? ==> forall k, l :: 0 <= k < l < |existing.value.tracks| ==>
      existing.value.tracks[k].file != existing.value.tracks[l].file
    ensures plan.tracks[i].replaced != plan.tracks[j].replaced
  {
    ReplacedIsWorse(plan, tracks, existing, alike, fold, names, matches, i);
    ReplacedIsWorse(plan, tracks, existing, alike, fold, names, matches, j);
    ClaimedOnce(existing.value.tracks, tracks, alike, matches, i, j);
    FilesTellApart(existing.value, matches[i].value, matches[j].value);
  }

  lemma FilesTellApart(album: ExistingAlbum, k: nat, l: nat)
    requires k < |album.tracks| && l < |album.tracks|
    ensures FileOf(album, k) == FileOf(album, l) <==> album.tracks[k].file == album.tracks[l].file
  {
    assert album.tracks[k].file == FileOf(album, k)[|album.folder| + 1..];
    assert album.tracks[l].file == FileOf(album, l)[|album.folder| + 1..];
  }

  /** No renumbered file is also replaced. */
  lemma RenumberedIsKept(plan: Plan, tracks: seq<StagedTrack>, existing: Option<ExistingAlbum>, alike: Alike, fold: Folding,
                         names: seq<string>, matches: seq<Option<nat>>, r: Renumber, t: PlannedFile)
    requires IsPlanFor(plan, tracks, existing, alike, fold, names, matches)
    requires r in plan.renumber && t in plan.tracks && t.replaced.Some?
    ensures Lower(r.from, fold) != Lower(t.replaced.value, fold)
  {
    assert Lower(t.replaced.value, fold) in Leaving(plan.tracks, fold);
  }
}
