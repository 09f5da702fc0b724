/** Tags changed as part of a batch, and putting them back before its files
    (`crates/delune-library/src/tidy.rs`). */
module Retags {
  import opened Text
  import opened Paths
  import opened Relocation
  import opened Batches
  import opened Tags
  import opened Tracks

  // ---- writing tags ----

  predicate Readable<B>(files: map<Place, Track<B>>, parts: Parts) {
    Library(parts) in files && files[Library(parts)].tags.Some?
  }

  function IdAt<B>(files: map<Place, Track<B>>, parts: Parts): Identity
    requires Readable(files, parts)
  {
    Read(files[Library(parts)].tags.value)
  }

  function WriteAt<B>(files: map<Place, Track<B>>, parts: Parts, id: Identity, withYear: bool): (r: map<Place, Track<B>>)
    ensures r.Keys == files.Keys
  {
    if !Readable(files, parts) then files
    else
      var track := files[Library(parts)];
      files[Library(parts) := track.(tags := Some(Write(track.tags.value, id, withYear)))]
  }

  /** The identity a track had before a change. Without `withYear` its year is unknown. */
  datatype Before = Before(parts: Parts, id: Identity, withYear: bool)

  /** Putting recorded tags back, newest first. */
  function TagsBack<B>(files: map<Place, Track<B>>, records: seq<Before>): (r: map<Place, Track<B>>)
    ensures r.Keys == files.Keys
    decreases |records|
  {
    if records == [] then files
    else
      var last := records[|records| - 1];
      TagsBack(WriteAt(files, last.parts, last.id, last.withYear), records[..|records| - 1])
  }

  /** One recorded change, which may have failed to be written. */
  datatype Change = Change(parts: Parts, wanted: Identity, written: bool)

  function Retag<B>(files: map<Place, Track<B>>, change: Change): (r: map<Place, Track<B>>)
    ensures r.Keys == files.Keys
  {
    if change.written then WriteAt(files, change.parts, change.wanted, true) else files
  }

  function RetagAll<B>(files: map<Place, Track<B>>, changes: seq<Change>): (r: map<Place, Track<B>>)
    ensures r.Keys == files.Keys
  {
    if changes == [] then files else Retag(RetagAll(files, changes[..|changes| - 1]), changes[|changes| - 1])
  }

  predicate CanRetagAll<B>(files: map<Place, Track<B>>, changes: seq<Change>) {
    forall change :: change in changes ==> Readable(files, change.parts)
  }

  lemma {:induction false} StaysReadable<B>(files: map<Place, Track<B>>, changes: seq<Change>, parts: Parts)
    ensures Readable(RetagAll(files, changes), parts) <==> Readable(files, parts)
  {
    if changes != [] {
      StaysReadable(files, changes[..|changes| - 1], parts);
    }
  }

  /** The records of a run of changes: what each track's tags read as before its change. */
  function Records<B>(files: map<Place, Track<B>>, changes: seq<Change>): seq<Before>
    requires CanRetagAll(files, changes)
  {
    if changes == [] then []
    else
      var rest, last := changes[..|changes| - 1], changes[|changes| - 1];
      assert changes == rest + [last];
      StaysReadable(files, rest, last.parts);
      Records(files, rest) + [Before(last.parts, IdAt(RetagAll(files, rest), last.parts), true)]
  }

  lemma WriteKeepsBodies<B>(files: map<Place, Track<B>>, parts: Parts, id: Identity, withYear: bool)
    ensures Bodies(WriteAt(files, parts, id, withYear)) == Bodies(files)
  {
  }

  lemma {:induction false} RetagsKeepBodies<B>(files: map<Place, Track<B>>, changes: seq<Change>)
    ensures Bodies(RetagAll(files, changes)) == Bodies(files)
  {
    if changes != [] {
      var rest, last := changes[..|changes| - 1], changes[|changes| - 1];
      RetagsKeepBodies(files, rest);
      WriteKeepsBodies(RetagAll(files, rest), last.parts, last.wanted, true);
    }
  }

  // ---- putting them back ----

  /** What a write makes of a file depends only on what is seen of it. */
  lemma WriteSeen<B>(files: map<Place, Track<B>>, others: map<Place, Track<B>>, parts: Parts, id: Identity, withYear: bool)
    requires SeenAll(files, Seen) == SeenAll(others, Seen)
    ensures SeenAll(WriteAt(files, parts, id, withYear), Seen) == SeenAll(WriteAt(others, parts, id, withYear), Seen)
  {
    assert files.Keys == others.Keys by {
      assert SeenAll(files, Seen).Keys == SeenAll(others, Seen).Keys;
    }
    forall p | p in files ensures Seen(files[p]) == Seen(others[p]) {
      assert SeenAll(files, Seen)[p] == SeenAll(others, Seen)[p];
    }
    var a, b := WriteAt(files, parts, id, withYear), WriteAt(others, parts, id, withYear);
    forall p | p in a ensures Seen(a[p]) == Seen(b[p]) {
      assert Seen(files[p]) == Seen(others[p]);
    }
  }

  lemma {:induction false} TagsBackSeen<B>(files: map<Place, Track<B>>, others: map<Place, Track<B>>, records: seq<Before>)
    requires SeenAll(files, Seen) == SeenAll(others, Seen)
    ensures SeenAll(TagsBack(files, records), Seen) == SeenAll(TagsBack(others, records), Seen)
    decreases |records|
  {
    if records != [] {
      var last := records[|records| - 1];
      WriteSeen(files, others, last.parts, last.id, last.withYear);
      TagsBackSeen(WriteAt(files, last.parts, last.id, last.withYear), WriteAt(others, last.parts, last.id, last.withYear),
                   records[..|records| - 1]);
    }
  }

  /** Writing back what was read undoes one change. */
  lemma ChangeUndone<B>(files: map<Place, Track<B>>, change: Change)
    requires Readable(files, change.parts)
    ensures SeenAll(WriteAt(Retag(files, change), change.parts, IdAt(files, change.parts), true), Seen) == SeenAll(files, Seen)
  {
    var tags := files[Library(change.parts)].tags.value;
    WrittenIsRead(tags, Read(tags), true);
    WrittenIsRead(Write(tags, change.wanted, true), Read(tags), true);
  }

  /** Putting back every recorded tag, newest first, leaves every file with the identity it
      had, however often it was changed and whether or not every change was written. */
  lemma {:induction false} TagsUndone<B>(files: map<Place, Track<B>>, changes: seq<Change>)
    requires CanRetagAll(files, changes)
    ensures SeenAll(TagsBack(RetagAll(files, changes), Records(files, changes)), Seen) == SeenAll(files, Seen)
  {
    if changes != [] {
      var rest, last := changes[..|changes| - 1], changes[|changes| - 1];
      assert changes == rest + [last];
      TagsUndone(files, rest);
      StaysReadable(files, rest, last.parts);
      var before := RetagAll(files, rest);
      ChangeUndone(before, last);
      var records := Records(files, changes);
      assert records[..|records| - 1] == Records(files, rest);
      TagsBackSeen(WriteAt(Retag(before, last), last.parts, IdAt(before, last.parts), true), before, Records(files, rest));
    }
  }

  // ---- the oldest record wins ----

  function Oldest(records: seq<Before>, parts: Parts): Option<Before> {
    if records == [] then None
    else if records[0].parts == parts then Some(records[0])
    else Oldest(records[1..], parts)
  }

  /** The oldest record of the track that kept the year. */
  function OldestWithYear(records: seq<Before>, parts: Parts): Option<Before> {
    if records == [] then None
    else if records[0].parts == parts && records[0].withYear then Some(records[0])
    else OldestWithYear(records[1..], parts)
  }

  lemma {:induction false} OldestNext(records: seq<Before>, last: Before, parts: Parts)
    ensures Oldest(records + [last], parts) ==
      if Oldest(records, parts).Some? then Oldest(records, parts) else if last.parts == parts then Some(last) else None
    ensures OldestWithYear(records + [last], parts) ==
      if OldestWithYear(records, parts).Some? then OldestWithYear(records, parts)
      else if last.parts == parts && last.withYear then Some(last) else None
  {
    if records == [] {
      assert ([] + [last])[1..] == [];
    } else {
      assert (records + [last])[1..] == records[1..] + [last];
      OldestNext(records[1..], last, parts);
    }
  }

  predicate AllReadFrom(records: seq<Before>) {
    forall b :: b in records ==> IsRead(b.id)
  }

  /** A file recorded several times ends with its oldest recorded tags. Its artist is its own
      still, and so is its year unless a record kept one. */
  function OldestTags(records: seq<Before>, parts: Parts, now: Identity): Identity {
    var year := if OldestWithYear(records, parts).Some? then OldestWithYear(records, parts).value.id.year else now.year;
    if Oldest(records, parts).None? then now
    else Oldest(records, parts).value.id.(artist := now.artist, year := year)
  }

  lemma {:induction false} OldestTagsWin<B>(files: map<Place, Track<B>>, records: seq<Before>, parts: Parts)
    requires Readable(files, parts) && AllReadFrom(records)
    ensures Readable(TagsBack(files, records), parts)
    ensures IdAt(TagsBack(files, records), parts) == OldestTags(records, parts, IdAt(files, parts))
    decreases |records|
  {
    if records != [] {
      var rest, last := records[..|records| - 1], records[|records| - 1];
      assert records == rest + [last];
      OldestNext(rest, last, parts);
      var next := WriteAt(files, last.parts, last.id, last.withYear);
      if last.parts == parts {
        WrittenIsRead(files[Library(parts)].tags.value, last.id, last.withYear);
      }
      OldestTagsWin(next, rest, parts);
      NeverWithoutYear(rest, parts);
    }
  }

  lemma {:induction false} NeverWithoutYear(records: seq<Before>, parts: Parts)
    ensures OldestWithYear(records, parts).Some? ==> Oldest(records, parts).Some?
  {
    if records != [] {
      NeverWithoutYear(records[1..], parts);
    }
  }

  // ---- a whole batch ----

  /** Undoing a batch, its tags first and then its files, gives every file back its place,
      its identity and the rest of what it held. */
  lemma BatchUndone<B>(files: map<Place, Track<B>>, batch: string, ops: seq<Op>, changes: seq<Change>)
    requires FreshBatch(files, batch) && LegalRun(files, batch, ops) && NoRecords(ops) && PutsOnlySettled(ops)
    requires CanRetagAll(Run(files, batch, ops), changes)
    ensures var moved := Run(files, batch, ops);
      var undone := Restored(TagsBack(RetagAll(moved, changes), Records(moved, changes)), batch, Log(ops));
      SeenAll(undone.files, Seen) == SeenAll(files, Seen) && undone.left == {}
  {
    var moved := Run(files, batch, ops);
    UndoIsExact(files, batch, ops);
    TagsUndone(moved, changes);
    RestoredSees(TagsBack(RetagAll(moved, changes), Records(moved, changes)), batch, Log(ops), Seen);
    RestoredSees(moved, batch, Log(ops), Seen);
  }
}
