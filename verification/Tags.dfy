/** The tags that say which album a track is on, as they are stored and as delune reads and
    writes them (`crates/delune-library/src/tidy.rs`). Reading trims values, drops blank ones and
    takes several artists apart at semicolons; writing stores what it is given. What was written
    is what is read, which is where the fixed point of tidying and the undoing of it start from:
    only what has been read is ever written. */
module Tags {
  import opened Text

  // ---- cleaning values ----

  /** A value as delune keeps it: trimmed, and not empty. */
  predicate IsClean(s: string) {
    s != "" && IsTrimmed(s)
  }

  function Clean(value: Option<string>): (r: Option<string>)
    ensures r.Some? ==> IsClean(r.value)
    ensures value.Some? && IsClean(value.value) ==> r == value
  {
    if value.None? || Trim(value.value) == "" then None else Some(Trim(value.value))
  }

  // ---- lists of values ----

  /** One value of a list, as delune keeps it: clean, and not itself a list. */
  predicate IsValue(s: string) {
    IsClean(s) && ';' !in s
  }

  predicate AreValues(values: seq<string>) {
    forall v :: v in values ==> IsValue(v)
  }

  function CleanAll(pieces: seq<string>): (r: seq<string>)
    ensures forall v :: v in r ==> IsClean(v) && exists piece :: piece in pieces && v == Trim(piece)
  {
    if pieces == [] then []
    else
      var rest := CleanAll(pieces[1..]);
      if Trim(pieces[0]) == "" then rest else [Trim(pieces[0])] + rest
  }

  /** Every value stored, with those that hold several taken apart at `;`. */
  function Values(stored: seq<string>): (r: seq<string>)
    ensures AreValues(r)
  {
    if stored == [] then [] else CleanAll(Split(stored[0], ';')) + Values(stored[1..])
  }

  /** Values written come back as they were. */
  lemma {:induction false} ValuesReadBack(values: seq<string>)
    requires AreValues(values)
    ensures Values(values) == values
  {
    if values != [] {
      assert values[0] in values;
      SplitOne(values[0], ';');
      assert CleanAll([values[0]]) == [values[0]] + CleanAll([]);
      ValuesReadBack(values[1..]);
    }
  }

  lemma LeadingSpace(s: string)
    ensures CleanAll(Split(" " + s, ';')) == CleanAll(Split(s, ';'))
  {
    var pieces := Split(s, ';');
    assert (" " + s)[1..] == s;
    assert Split(" " + s, ';') == [" " + pieces[0]] + pieces[1..];
    assert (" " + pieces[0])[1..] == pieces[0];
    assert Trim(" " + pieces[0]) == Trim(pieces[0]);
    assert ([" " + pieces[0]] + pieces[1..])[1..] == pieces[1..];
  }

  /** Several values written as one come back apart. */
  lemma {:induction false} JoinedValuesComeApart(values: seq<string>)
    requires AreValues(values)
    ensures CleanAll(Split(Join(values, "; "), ';')) == values
  {
    if values == [] {
      assert CleanAll([""]) == CleanAll([]);
    } else {
      assert values[0] in values;
      if |values| == 1 {
        SplitOne(values[0], ';');
        assert CleanAll([values[0]]) == [values[0]] + CleanAll([]);
      } else {
        JoinedValuesComeApart(values[1..]);
        OneMoreComesApart(values[0], Join(values[1..], "; "));
        assert Join(values, "; ") == values[0] + "; " + Join(values[1..], "; ");
      }
    }
  }

  lemma OneMoreComesApart(value: string, rest: string)
    requires IsValue(value)
    ensures CleanAll(Split(value + "; " + rest, ';')) == [value] + CleanAll(Split(rest, ';'))
  {
    LeadingSpace(rest);
    SplitPrefix(value, " " + rest, ';');
    assert value + "; " + rest == value + [';'] + (" " + rest);
    assert ([value] + Split(" " + rest, ';'))[1..] == Split(" " + rest, ';');
  }

  // ---- tags ----

  /** What the file itself holds. */
  datatype Stored = Stored(album: Option<string>, albumArtists: seq<string>, artist: Option<string>, date: Option<string>,
                           releaseDate: Option<string>, year: Option<string>, originalDates: seq<string>,
                           releaseId: Option<string>, releaseGroupId: Option<string>, releaseArtistId: Option<string>)

  /** The part of a track's tags by which it is told to belong to an album. */
  datatype Identity = Identity(album: Option<string>, albumArtists: seq<string>, artist: Option<string>, date: Option<string>,
                               releaseDate: Option<string>, year: Option<string>, originalDates: seq<string>,
                               releaseId: Option<string>, releaseGroupId: Option<string>, releaseArtistId: Option<string>)

  predicate MaybeClean(value: Option<string>) {
    value.Some? ==> IsClean(value.value)
  }

  predicate IsRead(id: Identity) {
    && MaybeClean(id.album) && AreValues(id.albumArtists) && MaybeClean(id.artist) && MaybeClean(id.date)
    && MaybeClean(id.releaseDate) && MaybeClean(id.year) && AreValues(id.originalDates) && MaybeClean(id.releaseId)
    && MaybeClean(id.releaseGroupId) && MaybeClean(id.releaseArtistId)
  }

  function Read(tags: Stored): (id: Identity)
    ensures IsRead(id)
  {
    Identity(Clean(tags.album), Values(tags.albumArtists), Clean(tags.artist), Clean(tags.date), Clean(tags.releaseDate),
             Clean(tags.year), Values(tags.originalDates), Clean(tags.releaseId), Clean(tags.releaseGroupId),
             Clean(tags.releaseArtistId))
  }

  /** The album tags become those of `id`. The track's artist is never written, nor is the
      year unless `withYear`. */
  function Write(tags: Stored, id: Identity, withYear: bool): Stored {
    Stored(id.album, id.albumArtists, tags.artist, id.date, id.releaseDate, if withYear then id.year else tags.year,
           id.originalDates, id.releaseId, id.releaseGroupId, id.releaseArtistId)
  }

  /** What was read from one file and written to another is read from that one. */
  lemma WrittenIsRead(tags: Stored, id: Identity, withYear: bool)
    requires IsRead(id)
    ensures Read(Write(tags, id, withYear)) ==
      id.(artist := Read(tags).artist, year := if withYear then id.year else Read(tags).year)
  {
    ValuesReadBack(id.albumArtists);
    ValuesReadBack(id.originalDates);
  }
}
