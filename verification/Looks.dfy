/** Looking a folder over for tracks that disagree about the album, and when retagging them
    settles it (`crates/delune-library/src/tidy.rs`). The look names the main album, its artist, its
    dates and its release; tracks of another album are strays, and members that disagree are to be
    retagged. The question is whether a second look at the retagged folder finds nothing to do, and the
    answer is an exact condition on the album's name and on the artist that was chosen. */
module Looks {
  import opened Text
  import opened Tags
  import opened Albums

  type Field = Identity -> Option<string>

  const ALBUM: Field := (id: Identity) => id.album
  const DATE: Field := (id: Identity) => id.date
  const RELEASE_DATE: Field := (id: Identity) => id.releaseDate
  const YEAR: Field := (id: Identity) => id.year
  const RELEASE_ID: Field := (id: Identity) => id.releaseId
  const RELEASE_ARTIST_ID: Field := (id: Identity) => id.releaseArtistId
  const ARTIST: Field := (id: Identity) => AlbumArtist(id)

  /** U+001F, which no tag is expected to hold. */
  const UNIT_SEPARATOR: char := 31 as char

  /** The values the tracks have for a field. */
  function Present(ids: seq<Identity>, f: Field): (r: seq<string>)
    ensures forall v :: v in r <==> exists id :: id in ids && f(id) == Some(v)
  {
    if ids == [] then []
    else
      var rest := Present(ids[1..], f);
      assert ids == [ids[0]] + ids[1..];
      if f(ids[0]).Some? then [f(ids[0]).value] + rest else rest
  }

  function Keys(ids: seq<Identity>, key: Keying): (r: seq<string>)
    ensures forall id :: id in ids && id.album.Some? ==> key(id.album.value) in r
    ensures forall k :: k in r ==> exists id :: id in ids && id.album.Some? && key(id.album.value) == k
  {
    if ids == [] then []
    else
      var rest := Keys(ids[1..], key);
      assert ids == [ids[0]] + ids[1..];
      if ids[0].album.Some? then [key(ids[0].album.value)] + rest else rest
  }

  predicate IsMember(main: string, key: Keying, id: Identity) {
    id.album.Some? ==> key(id.album.value) == main
  }

  function Members(ids: seq<Identity>, main: string, key: Keying): (r: seq<Identity>)
    ensures forall id :: id in r <==> id in ids && IsMember(main, key, id)
  {
    if ids == [] then []
    else
      var rest := Members(ids[1..], main, key);
      assert ids == [ids[0]] + ids[1..];
      if IsMember(main, key, ids[0]) then [ids[0]] + rest else rest
  }

  /** The value every track has, or nothing. */
  function Shared(ids: seq<Identity>, f: Field): Option<string> {
    if ids != [] && (forall id :: id in ids ==> f(id) == f(ids[0])) then f(ids[0]) else None
  }

  function CommonDates(ids: seq<Identity>): seq<string> {
    var joined := MostCommon(Joined(ids));
    if joined.None? then [] else Split(joined.value, UNIT_SEPARATOR)
  }

  function Joined(ids: seq<Identity>): (r: seq<string>)
    ensures forall j :: j in r <==> exists id :: id in ids && id.originalDates != [] && j == Join(id.originalDates, [UNIT_SEPARATOR])
  {
    if ids == [] then []
    else
      var rest := Joined(ids[1..]);
      assert ids == [ids[0]] + ids[1..];
      if ids[0].originalDates == [] then rest else [Join(ids[0].originalDates, [UNIT_SEPARATOR])] + rest
  }

  /** The tags a tidied folder's tracks agree on. */
  datatype Look = Look(album: string, albumArtist: Option<string>, date: Option<string>, releaseDate: Option<string>,
                       year: Option<string>, originalDates: seq<string>, releaseId: Option<string>,
                       releaseArtistId: Option<string>)

  function MainKeyOf(folder: string, key: Keying, ids: seq<Identity>): string {
    MainKey(Keys(ids, key), key(folder))
  }

  function Named(value: Option<string>, fallback: string): string {
    if value.Some? then value.value else fallback
  }

  /** What the members of a folder's album should all say. */
  function LookOf(folder: string, members: seq<Identity>): Look {
    Look(Named(MostCommon(Present(members, ALBUM)), folder), MostCommon(Present(members, ARTIST)),
         MostCommon(Present(members, DATE)), MostCommon(Present(members, RELEASE_DATE)), MostCommon(Present(members, YEAR)),
         CommonDates(members), Shared(members, RELEASE_ID), Shared(members, RELEASE_ARTIST_ID))
  }

  function LookAt(folder: string, key: Keying, ids: seq<Identity>): Look {
    LookOf(folder, Members(ids, MainKeyOf(folder, key, ids), key))
  }

  predicate Disagrees(look: Look, id: Identity) {
    || id.album != Some(look.album)
    || AlbumArtist(id) != look.albumArtist
    || (look.date.Some? && id.date != look.date)
    || (look.releaseDate.Some? && id.releaseDate != look.releaseDate)
    || (look.year.Some? && id.year != look.year)
    || (look.originalDates != [] && id.originalDates != look.originalDates)
    || id.releaseId != look.releaseId
    || (look.releaseId.None? && id.releaseGroupId.Some?)
    || id.releaseArtistId != look.releaseArtistId
  }

  /** Nothing to retag, and no strays. */
  predicate Settled(folder: string, key: Keying, ids: seq<Identity>) {
    forall id :: id in ids ==> IsMember(MainKeyOf(folder, key, ids), key, id) && !Disagrees(LookAt(folder, key, ids), id)
  }

  // ---- retagging ----

  function OrElse(value: Option<string>, other: Option<string>): Option<string> {
    if value.Some? then value else other
  }

  /** The tags a member that disagrees is given. */
  function Wanted(look: Look, before: Identity): Identity {
    Identity(Some(look.album), if look.albumArtist.Some? then [look.albumArtist.value] else [], before.artist,
             OrElse(look.date, before.date), OrElse(look.releaseDate, before.releaseDate), OrElse(look.year, before.year),
             if look.originalDates == [] then before.originalDates else look.originalDates, look.releaseId,
             if look.releaseId.Some? then before.releaseGroupId else None, look.releaseArtistId)
  }

  /** What a track whose tags read as `before` reads as, once `wanted` is written to it. */
  function Rewritten(before: Identity, wanted: Identity): Identity {
    Identity(Clean(wanted.album), Values(wanted.albumArtists), before.artist, Clean(wanted.date), Clean(wanted.releaseDate),
             Clean(wanted.year), Values(wanted.originalDates), Clean(wanted.releaseId), Clean(wanted.releaseGroupId),
             Clean(wanted.releaseArtistId))
  }

  lemma WriteRewrites(tags: Stored, wanted: Identity)
    ensures Read(Write(tags, wanted, true)) == Rewritten(Read(tags), wanted)
  {
  }

  /** A member that disagrees always gets other tags. */
  lemma RetaggingChanges(look: Look, id: Identity)
    requires IsRead(id) && Disagrees(look, id) && (look.albumArtist.None? ==> AlbumArtist(id).None?)
    ensures Wanted(look, id) != id
  {
    if Wanted(look, id).albumArtists == id.albumArtists && look.albumArtist.Some? {
      DistinctStay([look.albumArtist.value]);
      assert id.albumArtists == [look.albumArtist.value];
    }
  }

  function Retagged(look: Look, id: Identity): Identity {
    if Disagrees(look, id) then Rewritten(id, Wanted(look, id)) else id
  }

  function RetaggedAll(look: Look, members: seq<Identity>): (r: seq<Identity>)
    ensures |r| == |members| && forall i :: 0 <= i < |r| ==> r[i] == Retagged(look, members[i])
  {
    seq(|members|, i requires 0 <= i < |members| => Retagged(look, members[i]))
  }

  /** The folder once its strays have left and its members are retagged. */
  function Tidied(folder: string, key: Keying, ids: seq<Identity>): seq<Identity> {
    RetaggedAll(LookAt(folder, key, ids), Members(ids, MainKeyOf(folder, key, ids), key))
  }

  // ---- what the retagged members say ----

  predicate AllRead(ids: seq<Identity>) {
    forall id :: id in ids ==> IsRead(id)
  }

  /** A field's value in the look: none of the members' own, or one of them. */
  lemma FieldOf(members: seq<Identity>, f: Field, id: Identity)
    requires id in members
    ensures MostCommon(Present(members, f)).None? ==> f(id).None?
    ensures MostCommon(Present(members, f)).Some? ==> exists m :: m in members && f(m) == MostCommon(Present(members, f))
  {
    if f(id).Some? {
      assert f(id).value in Present(members, f);
    }
  }

  /** What a member's album artist reads as afterwards. */
  function Credited(look: Look, id: Identity): Option<string> {
    if Disagrees(look, id) then AlbumArtist(Rewritten(id, Wanted(look, id))) else look.albumArtist
  }

  lemma DatesRead(members: seq<Identity>, id: Identity)
    requires id in members && AllRead(members)
    ensures CommonDates(members) == [] ==> id.originalDates == []
  {
    if id.originalDates != [] {
      assert Join(id.originalDates, [UNIT_SEPARATOR]) in Joined(members);
    }
  }

  lemma PlainFieldRead(members: seq<Identity>, f: Field, id: Identity)
    requires id in members && forall m :: m in members ==> MaybeClean(f(m))
    ensures var v := MostCommon(Present(members, f));
      MaybeClean(v) && Clean(OrElse(v, f(id))) == (if v.Some? then v else f(id)) && (v.None? ==> f(id).None?)
  {
    FieldOf(members, f, id);
  }

  /** Every retagged member says what the look does, but for what reading cleans up. */
  predicate Says(look: Look, n: Identity) {
    && n.album == Clean(Some(look.album)) && n.date == look.date && n.releaseDate == look.releaseDate && n.year == look.year
    && n.originalDates == Values(look.originalDates) && n.releaseId == look.releaseId
    && (look.releaseId.None? ==> n.releaseGroupId.None?) && n.releaseArtistId == look.releaseArtistId
  }

  lemma RetaggedSays(folder: string, members: seq<Identity>, id: Identity)
    requires id in members && AllRead(members)
    ensures Says(LookOf(folder, members), Retagged(LookOf(folder, members), id))
    ensures AlbumArtist(Retagged(LookOf(folder, members), id)) == Credited(LookOf(folder, members), id)
  {
    var look := LookOf(folder, members);
    PlainFieldRead(members, DATE, id);
    PlainFieldRead(members, RELEASE_DATE, id);
    PlainFieldRead(members, YEAR, id);
    DatesRead(members, id);
    assert members[0] in members;
    if !Disagrees(look, id) {
      ValuesReadBack(id.originalDates);
    }
  }

  // ---- looking again ----

  lemma SameField(ids: seq<Identity>, f: Field, v: Option<string>)
    requires ids != [] && forall id :: id in ids ==> f(id) == v
    ensures MostCommon(Present(ids, f)) == v
  {
    assert ids[0] in ids;
    var present := Present(ids, f);
    if present != [] {
      assert present[0] in present;
    }
    if v.Some? {
      assert v.value in present;
    }
  }

  lemma {:induction false} SplitLacks(stored: seq<string>, c: char)
    requires forall s :: s in stored ==> c !in s
    ensures forall v :: v in Values(stored) ==> c !in v
  {
    if stored != [] {
      assert stored[0] in stored;
      SplitChars(stored[0], ';');
      SplitLacks(stored[1..], c);
    }
  }

  lemma SameDates(ids: seq<Identity>, dates: seq<string>)
    requires ids != [] && (forall id :: id in ids ==> id.originalDates == dates)
    requires forall d :: d in dates ==> UNIT_SEPARATOR !in d
    ensures CommonDates(ids) == dates
  {
    var joined := Joined(ids);
    assert ids[0] in ids;
    if dates == [] {
      if joined != [] {
        assert joined[0] in joined;
      }
    } else {
      assert Join(ids[0].originalDates, [UNIT_SEPARATOR]) in joined;
      SplitJoin(dates, UNIT_SEPARATOR);
    }
  }

  lemma {:induction false} AllMembers(ids: seq<Identity>, main: string, key: Keying)
    requires forall id :: id in ids ==> IsMember(main, key, id)
    ensures Members(ids, main, key) == ids
  {
    if ids != [] {
      assert ids[0] in ids;
      AllMembers(ids[1..], main, key);
      assert ids == [ids[0]] + ids[1..];
    }
  }

  /** All the tracks name the same album, or none names any: they are all members. */
  lemma OneAlbum(folder: string, key: Keying, ids: seq<Identity>, album: Option<string>)
    requires ids != [] && forall id :: id in ids ==> id.album == album
    ensures Members(ids, MainKeyOf(folder, key, ids), key) == ids
    ensures forall id :: id in ids ==> IsMember(MainKeyOf(folder, key, ids), key, id)
  {
    var keys, main := Keys(ids, key), MainKeyOf(folder, key, ids);
    assert ids[0] in ids;
    if album.Some? {
      assert main in keys;
    }
    AllMembers(ids, main, key);
  }

  lemma DatesLackSeparator(members: seq<Identity>)
    ensures forall d :: d in Values(CommonDates(members)) ==> UNIT_SEPARATOR !in d
  {
    SplitLacks(CommonDates(members), UNIT_SEPARATOR);
  }

  /** Looking again at members that say what the look did, the look is the same, apart from
      what reading cleans up. */
  lemma SecondLook(folder: string, members: seq<Identity>, ns: seq<Identity>)
    requires ns != [] && forall n :: n in ns ==> Says(LookOf(folder, members), n)
    ensures var look, again := LookOf(folder, members), LookOf(folder, ns);
      && again.date == look.date && again.releaseDate == look.releaseDate && again.year == look.year
      && again.originalDates == Values(look.originalDates) && again.releaseId == look.releaseId
      && again.releaseArtistId == look.releaseArtistId
      && again.album == Named(Clean(Some(look.album)), folder)
  {
    var look := LookOf(folder, members);
    SameField(ns, ALBUM, Clean(Some(look.album)));
    SameField(ns, DATE, look.date);
    SameField(ns, RELEASE_DATE, look.releaseDate);
    SameField(ns, YEAR, look.year);
    DatesLackSeparator(members);
    SameDates(ns, Values(look.originalDates));
    assert ns[0] in ns;
  }

  lemma DisagreeingAgain(folder: string, members: seq<Identity>, ns: seq<Identity>, n: Identity)
    requires n in ns && forall n :: n in ns ==> Says(LookOf(folder, members), n)
    ensures Disagrees(LookOf(folder, ns), n) <==>
      n.album != Some(LookOf(folder, ns).album) || AlbumArtist(n) != LookOf(folder, ns).albumArtist
  {
    SecondLook(folder, members, ns);
  }

  predicate OneArtist(ns: seq<Identity>) {
    forall i, j :: 0 <= i < |ns| && 0 <= j < |ns| ==> AlbumArtist(ns[i]) == AlbumArtist(ns[j])
  }

  /** Looking again finds nothing exactly when the album's name isn't blank and the tracks
      now agree on the artist. */
  lemma SettledIff(folder: string, key: Keying, members: seq<Identity>, ns: seq<Identity>)
    requires ns != [] && forall n :: n in ns ==> Says(LookOf(folder, members), n)
    ensures Settled(folder, key, ns) <==> Trim(LookOf(folder, members).album) != "" && OneArtist(ns)
  {
    var look, again := LookOf(folder, members), LookOf(folder, ns);
    OneAlbum(folder, key, ns, Clean(Some(look.album)));
    SecondLook(folder, members, ns);
    forall n | n in ns
      ensures Disagrees(again, n) <==> Trim(look.album) == "" || AlbumArtist(n) != again.albumArtist
    {
      DisagreeingAgain(folder, members, ns, n);
    }
    assert ns[0] in ns;
    if OneArtist(ns) {
      SameField(ns, ARTIST, AlbumArtist(ns[0]));
    } else {
      var i, j :| 0 <= i < |ns| && 0 <= j < |ns| && AlbumArtist(ns[i]) != AlbumArtist(ns[j]);
      assert ns[i] in ns && ns[j] in ns;
    }
  }

  // ---- the artist ----

  /** What an album artist written as one value reads as; nothing when it holds no name. */
  function ReadArtist(artist: string): string {
    Join(Distinct(Values([artist])), "; ")
  }

  /** The artist that was chosen reads back as it was written, or everything was written
      anew, or nothing was. */
  predicate ArtistKept(look: Look, members: seq<Identity>) {
    look.albumArtist.Some? ==>
      var a := look.albumArtist.value;
      if Values([a]) == [] then forall m :: m in members && Disagrees(look, m) ==> m.artist == Some(a)
      else
        || ReadArtist(a) == a
        || (forall m :: m in members ==> Disagrees(look, m))
        || (forall m :: m in members ==> !Disagrees(look, m))
  }

  lemma CreditedIs(look: Look, id: Identity)
    ensures look.albumArtist.None? && AlbumArtist(id).None? ==> Credited(look, id).None?
    ensures look.albumArtist.Some? && Disagrees(look, id) ==>
      Credited(look, id) == if Values([look.albumArtist.value]) == [] then id.artist else Some(ReadArtist(look.albumArtist.value))
  {
  }

  /** Names credited together hold at least one name. */
  lemma CreditHoldsNames(names: seq<string>)
    requires AreValues(names) && names != []
    ensures Values([Join(names, "; ")]) == names
  {
    JoinedValuesComeApart(names);
    assert [Join(names, "; ")][1..] == [];
  }

  /** When the chosen artist holds no name, it is some track's own artist tag. */
  lemma NamelessIsPlain(members: seq<Identity>, a: string) returns (m: Identity)
    requires AllRead(members) && MostCommon(Present(members, ARTIST)) == Some(a) && Values([a]) == []
    ensures m in members && m.artist == Some(a) && AlbumArtist(m) == Some(a)
  {
    assert a in Present(members, ARTIST);
    m :| m in members && ARTIST(m) == Some(a);
    if Distinct(m.albumArtists) != [] {
      CreditHoldsNames(Distinct(m.albumArtists));
    }
  }

  predicate CreditedAlike(look: Look, members: seq<Identity>) {
    forall m, o :: m in members && o in members ==> Credited(look, m) == Credited(look, o)
  }

  lemma NoArtistAlike(folder: string, members: seq<Identity>)
    requires LookOf(folder, members).albumArtist.None?
    ensures CreditedAlike(LookOf(folder, members), members)
  {
    forall m | m in members ensures Credited(LookOf(folder, members), m).None? {
      FieldOf(members, ARTIST, m);
      CreditedIs(LookOf(folder, members), m);
    }
  }

  lemma NamelessAlikeIff(folder: string, members: seq<Identity>, a: string)
    requires AllRead(members) && LookOf(folder, members).albumArtist == Some(a) && Values([a]) == []
    ensures CreditedAlike(LookOf(folder, members), members) <==> ArtistKept(LookOf(folder, members), members)
  {
    var look := LookOf(folder, members);
    forall m | m in members ensures Credited(look, m) == if Disagrees(look, m) then m.artist else Some(a) {
      CreditedIs(look, m);
    }
    var m := NamelessIsPlain(members, a);
    assert Credited(look, m) == Some(a);
  }

  lemma NamedAlikeIff(look: Look, members: seq<Identity>, a: string)
    requires look.albumArtist == Some(a) && Values([a]) != []
    ensures CreditedAlike(look, members) <==> ArtistKept(look, members)
  {
    forall m | m in members ensures Credited(look, m) == Some(if Disagrees(look, m) then ReadArtist(a) else a) {
      CreditedIs(look, m);
    }
  }

  lemma CreditedAlikeIff(folder: string, members: seq<Identity>)
    requires AllRead(members)
    ensures CreditedAlike(LookOf(folder, members), members) <==> ArtistKept(LookOf(folder, members), members)
  {
    var artist := LookOf(folder, members).albumArtist;
    if artist.None? {
      NoArtistAlike(folder, members);
    } else if Values([artist.value]) == [] {
      NamelessAlikeIff(folder, members, artist.value);
    } else {
      NamedAlikeIff(LookOf(folder, members), members, artist.value);
    }
  }

  // ---- tidying reaches a fixed point ----

  lemma OneArtistIff(look: Look, members: seq<Identity>)
    requires forall m :: m in members ==> AlbumArtist(Retagged(look, m)) == Credited(look, m)
    ensures OneArtist(RetaggedAll(look, members)) <==> CreditedAlike(look, members)
  {
    var ns := RetaggedAll(look, members);
    forall i | 0 <= i < |ns| ensures AlbumArtist(ns[i]) == Credited(look, members[i]) {
      assert members[i] in members;
    }
    if OneArtist(ns) {
      forall m, o | m in members && o in members ensures Credited(look, m) == Credited(look, o) {
        var i :| 0 <= i < |members| && members[i] == m;
        var j :| 0 <= j < |members| && members[j] == o;
        assert AlbumArtist(ns[i]) == AlbumArtist(ns[j]);
      }
    }
    if CreditedAlike(look, members) {
      forall i, j | 0 <= i < |ns| && 0 <= j < |ns| ensures AlbumArtist(ns[i]) == AlbumArtist(ns[j]) {
        assert members[i] in members && members[j] in members;
      }
    }
  }

  lemma SomeMember(folder: string, key: Keying, ids: seq<Identity>)
    requires ids != []
    ensures Members(ids, MainKeyOf(folder, key, ids), key) != []
  {
    var keys, main := Keys(ids, key), MainKeyOf(folder, key, ids);
    if keys == [] {
      assert ids[0] in ids && IsMember(main, key, ids[0]);
    } else {
      var id :| id in ids && id.album.Some? && key(id.album.value) == main;
      assert id in Members(ids, main, key);
    }
  }

  /** Once a folder is tidied, its strays gone and its members retagged, looking at it again
      finds nothing to do if and only if the album's name isn't blank and the album artist
      that was chosen survives being written and read. */
  lemma TidySettlesIff(folder: string, key: Keying, ids: seq<Identity>)
    requires ids != [] && AllRead(ids)
    ensures var look, members := LookAt(folder, key, ids), Members(ids, MainKeyOf(folder, key, ids), key);
      Settled(folder, key, Tidied(folder, key, ids)) <==> Trim(look.album) != "" && ArtistKept(look, members)
  {
    var members := Members(ids, MainKeyOf(folder, key, ids), key);
    var look := LookOf(folder, members);
    var ns := Tidied(folder, key, ids);
    SomeMember(folder, key, ids);
    forall m | m in members
      ensures Says(look, Retagged(look, m)) && AlbumArtist(Retagged(look, m)) == Credited(look, m)
    {
      RetaggedSays(folder, members, m);
    }
    forall n | n in ns ensures Says(look, n) {
      var i :| 0 <= i < |ns| && ns[i] == n;
      assert members[i] in members;
    }
    SettledIff(folder, key, members, ns);
    OneArtistIff(look, members);
    CreditedAlikeIff(folder, members);
  }

  /** In particular when the artist holds no `;`, or was put together from several names. */
  lemma PlainArtistsSettle(folder: string, key: Keying, ids: seq<Identity>)
    requires ids != [] && AllRead(ids) && Trim(folder) != ""
    requires forall id :: id in ids && id.artist.Some? ==> ';' !in id.artist.value
    ensures Settled(folder, key, Tidied(folder, key, ids))
  {
    var members := Members(ids, MainKeyOf(folder, key, ids), key);
    var look := LookOf(folder, members);
    var album := MostCommon(Present(members, ALBUM));
    assert Trim(look.album) != "" by {
      if album.Some? {
        var m :| m in members && ALBUM(m) == album;
        assert Clean(m.album) == m.album;
      }
    }
    assert ArtistKept(look, members) by {
      if look.albumArtist.Some? {
        var m :| m in members && ARTIST(m) == look.albumArtist;
        CreditReadsBack(m);
      }
    }
    TidySettlesIff(folder, key, ids);
  }

  lemma CreditReadsBack(id: Identity)
    requires IsRead(id) && (id.artist.Some? ==> ';' !in id.artist.value) && AlbumArtist(id).Some?
    ensures var a := AlbumArtist(id).value; Values([a]) != [] && ReadArtist(a) == a
  {
    var names := Distinct(id.albumArtists);
    DistinctAre(id.albumArtists);
    if names == [] {
      names := [id.artist.value];
    }
    CreditHoldsNames(names);
    DistinctStay(names);
  }
}
