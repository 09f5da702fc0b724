/** Files with tags. Where files go doesn't depend on what they hold. */
module Tracks {
  import opened Text
  import opened Paths
  import opened Relocation
  import opened Batches
  import opened Tags

  /** A file: its tags, if it can be read as tagged audio, and the rest of it. */
  datatype Track<B> = Track(body: B, tags: Option<Stored>)

  /** What of a file delune sees: its identity, and the rest of it. */
  datatype Known<B> = Known(body: B, id: Option<Identity>)

  function Seen<B>(track: Track<B>): Known<B> {
    Known(track.body, if track.tags.Some? then Some(Read(track.tags.value)) else None)
  }

  function SeenAll<C, D>(files: map<Place, C>, see: C -> D): (r: map<Place, D>)
    ensures r.Keys == files.Keys
  {
    map p | p in files :: see(files[p])
  }

  // ---- putting back doesn't look at what files hold ----

  lemma {:induction false} UndoMovesSees<C, D>(files: map<Place, C>, log: seq<(Parts, Parts)>, see: C -> D)
    ensures UndoMoves(SeenAll(files, see), log) == (SeenAll(UndoMoves(files, log).0, see), UndoMoves(files, log).1)
    decreases |log|
  {
    if log != [] {
      var (was, now) := log[|log| - 1];
      var rest := log[..|log| - 1];
      if Library(now) !in files || Library(was) in files {
        UndoMovesSees(files, rest, see);
      } else {
        assert Move(SeenAll(files, see), Library(now), Library(was)) == SeenAll(Move(files, Library(now), Library(was)), see);
        UndoMovesSees(Move(files, Library(now), Library(was)), rest, see);
      }
    }
  }

  lemma PutBackSees<C, D>(files: map<Place, C>, batch: string, see: C -> D)
    ensures Contents(SeenAll(files, see), batch) == Contents(files, batch)
    ensures Returning(SeenAll(files, see), batch) == Returning(files, batch)
    ensures PutBack(SeenAll(files, see), batch) == SeenAll(PutBack(files, batch), see)
  {
    assert Contents(SeenAll(files, see), batch) == Contents(files, batch);
    assert Returning(SeenAll(files, see), batch) == Returning(files, batch);
  }

  /** Putting a batch back gives the same places whatever the files hold. */
  lemma RestoredSees<C, D>(files: map<Place, C>, batch: string, log: seq<(Parts, Parts)>, see: C -> D)
    ensures Restored(SeenAll(files, see), batch, log) ==
      Outcome(SeenAll(Restored(files, batch, log).files, see), Restored(files, batch, log).left)
  {
    UndoMovesSees(files, log, see);
    PutBackSees(UndoMoves(files, log).0, batch, see);
    var back := PutBack(UndoMoves(files, log).0, batch);
    assert Swept(SeenAll(back, see), batch) == SeenAll(Swept(back, batch), see);
  }

  // ---- nor does a run ----

  lemma {:induction false} RunSees<C, D>(files: map<Place, C>, batch: string, ops: seq<Op>, see: C -> D)
    ensures LegalRun(SeenAll(files, see), batch, ops) <==> LegalRun(files, batch, ops)
    ensures LegalRun(files, batch, ops) ==> Run(SeenAll(files, see), batch, ops) == SeenAll(Run(files, batch, ops), see)
  {
    if ops != [] {
      var rest, last := ops[..|ops| - 1], ops[|ops| - 1];
      RunSees(files, batch, rest, see);
      if LegalRun(files, batch, rest) {
        var now := Run(files, batch, rest);
        assert SeenAll(now, see).Keys == now.Keys;
        if Legal(now, last) {
          assert Step(SeenAll(now, see), batch, last) == SeenAll(Step(now, batch, last), see);
        }
      }
    }
  }

  // ---- bodies ----

  function Body<B>(track: Track<B>): B {
    track.body
  }

  /** The files without their tags. */
  function Bodies<B>(files: map<Place, Track<B>>): (r: map<Place, B>)
    ensures r.Keys == files.Keys
  {
    SeenAll(files, Body)
  }

  lemma BodiesMove<B>(files: map<Place, Track<B>>, from: Place, to: Place)
    requires from in files
    ensures Bodies(Move(files, from, to)) == Move(Bodies(files), from, to)
  {
  }

  /** The album a moved track is tagged for. */
  datatype AlbumTags = AlbumTags(album: Option<string>, albumArtist: Option<string>)

  /** Tagging a track as an album's; one that can't be read stays as it is. */
  function TaggedAs<B>(track: Track<B>, tags: AlbumTags): (r: Track<B>)
    ensures r.body == track.body
  {
    if track.tags.None? || tags.album.None? then track
    else
      var stored := track.tags.value.(album := tags.album);
      track.(tags := Some(if tags.albumArtist.Some? then stored.(albumArtists := [tags.albumArtist.value]) else stored))
  }
}
