/** Whole histories of the trash: any batches, filled and put back in any order
    (`crates/delune-library/src/trash.rs`). */
module Histories {
  import opened Text
  import opened Paths
  import opened Relocation
  import opened Batches

  /** A file put in a batch, a file moved within the library (and noted in a batch, unless the
      note failed), or a batch put back. */
  datatype Event = Put(batch: string, parts: Parts) | MoveIn(batch: string, from: Parts, to: Parts, noted: bool) | Restore(batch: string)

  /** The files, and what each batch has noted. */
  datatype State<C> = State(files: map<Place, C>, logs: map<string, seq<(Parts, Parts)>>) {
    function LogOf(batch: string): seq<(Parts, Parts)> {
      if batch in logs then logs[batch] else []
    }
  }

  predicate CanHappen<C>(s: State<C>, event: Event) {
    match event
    case Put(_, parts) => Legal(s.files, PutAway(parts))
    case MoveIn(_, from, to, _) => Legal(s.files, MoveTo(from, to))
    case Restore(_) => true
  }

  function Next<C>(s: State<C>, event: Event): State<C> {
    match event
    case Put(batch, parts) => s.(files := Step(s.files, batch, PutAway(parts)))
    case MoveIn(batch, from, to, noted) =>
      State(Step(s.files, batch, MoveTo(from, to)), if noted then s.logs[batch := s.LogOf(batch) + [(from, to)]] else s.logs)
    case Restore(batch) =>
      var outcome := Restored(s.files, batch, s.LogOf(batch));
      State(outcome.files, if outcome.left == {} then s.logs - {batch} else s.logs)
  }

  function Happened<C>(s: State<C>, events: seq<Event>): State<C> {
    if events == [] then s else Next(Happened(s, events[..|events| - 1]), events[|events| - 1])
  }

  predicate CanAllHappen<C>(s: State<C>, events: seq<Event>) {
    events == [] ||
    (CanAllHappen(s, events[..|events| - 1]) && CanHappen(Happened(s, events[..|events| - 1]), events[|events| - 1]))
  }

  // ---- what every event keeps ----

  /** Logs and batches speak of the library proper. */
  ghost predicate InOrder<C>(s: State<C>) {
    && (forall batch :: SafeLog(s.LogOf(batch)))
    && (forall batch :: LibraryBatch(s.files, batch))
  }

  /** No batch holds anything that looks like its own notes. */
  ghost predicate AllClean<C>(files: map<Place, C>) {
    forall batch :: CleanBatch(files, batch)
  }

  /** Nothing new in the trash. */
  ghost predicate TrashShrinks<C>(files: map<Place, C>, after: map<Place, C>) {
    forall p :: IsAside(p) && p in after ==> p in files
  }

  lemma TrashStays<C>(files: map<Place, C>, after: map<Place, C>)
    requires TrashShrinks(files, after)
    ensures forall batch :: LibraryBatch(files, batch) ==> LibraryBatch(after, batch)
    ensures forall batch :: CleanBatch(files, batch) ==> CleanBatch(after, batch)
  {
    forall batch, p | p in after && InBatch(p, batch) ensures p in files {
      assert IsAside(p);
    }
  }

  lemma ReturningIsLibrary<C>(files: map<Place, C>, batch: string)
    requires LibraryBatch(files, batch)
    ensures TrashShrinks(files, PutBack(files, batch))
  {
    KeptInside(files.Keys, batch);
    forall parts | parts in Returning(files, batch) ensures !IsAside(Library(parts)) {
      assert InBatch(Kept(batch, parts), batch) && IsLibrary(Inside(Kept(batch, parts)));
    }
  }

  lemma RestoreShrinksTrash<C>(files: map<Place, C>, batch: string, log: seq<(Parts, Parts)>)
    requires SafeLog(log) && LibraryBatch(files, batch)
    ensures TrashShrinks(files, Restored(files, batch, log).files)
  {
    var _ := UndoMovesKeepsFiles(files, log);
    var undone := UndoMoves(files, log).0;
    UndoneBatch(files, undone, batch);
    ReturningIsLibrary(undone, batch);
  }

  /** Putting a file away adds one place to the trash. */
  lemma PutKeepsOrder<C>(files: map<Place, C>, batch: string, parts: Parts, b: string)
    requires Legal(files, PutAway(parts)) && LibraryBatch(files, b)
    ensures LibraryBatch(Step(files, batch, PutAway(parts)), b)
    ensures CleanBatch(files, b) && !IsRecord(parts) ==> CleanBatch(Step(files, batch, PutAway(parts)), b)
  {
    assert Kept(batch, parts).parts[2..] == parts;
  }

  lemma NextInOrder<C>(s: State<C>, event: Event)
    requires InOrder(s) && CanHappen(s, event)
    ensures InOrder(Next(s, event))
  {
    var next := Next(s, event);
    match event
    case Put(batch, parts) =>
      forall b ensures LibraryBatch(next.files, b) {
        PutKeepsOrder(s.files, batch, parts, b);
      }
      assert forall b :: next.LogOf(b) == s.LogOf(b);
    case MoveIn(batch, from, to, noted) =>
      TrashStays(s.files, next.files);
      forall b ensures SafeLog(next.LogOf(b)) {
        assert SafeLog(s.LogOf(b)) && SafeLog(s.LogOf(batch));
      }
    case Restore(batch) =>
      assert SafeLog(s.LogOf(batch)) && LibraryBatch(s.files, batch);
      RestoreShrinksTrash(s.files, batch, s.LogOf(batch));
      TrashStays(s.files, next.files);
      forall b ensures SafeLog(next.LogOf(b)) {
        assert SafeLog(s.LogOf(b));
      }
  }

  // ---- which events lose a file ----

  /** A put loses a file when the batch has a copy from that place already; putting back, when
      all that is reported on went back and the folder goes with something in it that looks
      like a note. */
  predicate Keeps<C>(s: State<C>, event: Event) {
    match event
    case Put(batch, parts) => Kept(batch, parts) !in s.files
    case MoveIn(_, _, _, _) => true
    case Restore(batch) => Restored(s.files, batch, s.LogOf(batch)).left == {} ==> CleanBatch(s.files, batch)
  }

  predicate AllKeep<C>(s: State<C>, events: seq<Event>) {
    events == [] || (AllKeep(s, events[..|events| - 1]) && Keeps(Happened(s, events[..|events| - 1]), events[|events| - 1]))
  }

  lemma MoveKeeps<C>(files: map<Place, C>, from: Place, to: Place)
    requires from in files && to !in files
    ensures EveryFileKept(files, Move(files, from, to))
  {
    NothingMoved(files);
    JourneyKeeps(files, Nowhere(files), files);
    FilesStayKept(files, files, from, to);
  }

  lemma OverwritingLoses<C>(files: map<Place, C>, from: Place, to: Place)
    requires from in files && to in files && from != to
    ensures |Move(files, from, to)| < |files|
  {
    assert Move(files, from, to).Keys == files.Keys - {from};
  }

  /** An event that keeps all files keeps all files; one that doesn't loses some. */
  lemma NextKeepsIff<C>(s: State<C>, event: Event)
    requires InOrder(s) && CanHappen(s, event)
    ensures Keeps(s, event) ==> EveryFileKept(s.files, Next(s, event).files)
    ensures !Keeps(s, event) ==> |Next(s, event).files| < |s.files|
  {
    match event
    case Put(batch, parts) =>
      assert Library(parts) != Kept(batch, parts);
      if Kept(batch, parts) in s.files {
        OverwritingLoses(s.files, Library(parts), Kept(batch, parts));
      } else {
        MoveKeeps(s.files, Library(parts), Kept(batch, parts));
      }
    case MoveIn(_, from, to, _) =>
      MoveKeeps(s.files, Library(from), Library(to));
    case Restore(batch) =>
      assert SafeLog(s.LogOf(batch)) && LibraryBatch(s.files, batch);
      RestoreKeepsFilesIff(s.files, batch, s.LogOf(batch));
      if !Keeps(s, event) {
        NotesAreSwept(s.files, batch, s.LogOf(batch));
      }
  }

  lemma SameCount<C>(files: map<Place, C>, after: map<Place, C>)
    requires EveryFileKept(files, after)
    ensures |files| == |after|
  {
    var j :| Relocated(files, j, after);
    RelocatedSize(files, j, after);
  }

  lemma {:induction false} HistoryInOrder<C>(s: State<C>, events: seq<Event>)
    requires InOrder(s) && CanAllHappen(s, events)
    ensures InOrder(Happened(s, events))
  {
    if events != [] {
      HistoryInOrder(s, events[..|events| - 1]);
      NextInOrder(Happened(s, events[..|events| - 1]), events[|events| - 1]);
    }
  }

  lemma NextCount<C>(s: State<C>, event: Event)
    requires InOrder(s) && CanHappen(s, event)
    ensures if Keeps(s, event) then |Next(s, event).files| == |s.files| else |Next(s, event).files| < |s.files|
  {
    NextKeepsIff(s, event);
    if Keeps(s, event) {
      SameCount(s.files, Next(s, event).files);
    }
  }

  lemma {:induction false} HistoryCount<C>(s: State<C>, events: seq<Event>)
    requires InOrder(s) && CanAllHappen(s, events)
    ensures |Happened(s, events).files| <= |s.files|
    ensures !AllKeep(s, events) ==> |Happened(s, events).files| < |s.files|
  {
    if events != [] {
      HistoryCount(s, events[..|events| - 1]);
      HistoryInOrder(s, events[..|events| - 1]);
      NextCount(Happened(s, events[..|events| - 1]), events[|events| - 1]);
    }
  }

  lemma NextKept<C>(files: map<Place, C>, now: State<C>, event: Event)
    requires InOrder(now) && CanHappen(now, event) && Keeps(now, event) && EveryFileKept(files, now.files)
    ensures EveryFileKept(files, Next(now, event).files)
  {
    NextKeepsIff(now, event);
    KeptAgain(files, now.files, Next(now, event).files);
  }

  lemma {:induction false} HistoryKeeps<C>(s: State<C>, events: seq<Event>)
    requires InOrder(s) && CanAllHappen(s, events) && AllKeep(s, events)
    ensures EveryFileKept(s.files, Happened(s, events).files)
  {
    if events == [] {
      NothingMoved(s.files);
      JourneyKeeps(s.files, Nowhere(s.files), s.files);
    } else {
      HistoryKeeps(s, events[..|events| - 1]);
      HistoryInOrder(s, events[..|events| - 1]);
      NextKept(s.files, Happened(s, events[..|events| - 1]), events[|events| - 1]);
    }
  }

  /** A history of any batches, filled, half filled and put back in any order, keeps every
      file, once and unchanged, if and only if none of its events is one that loses a file. */
  lemma NothingLostIff<C>(s: State<C>, events: seq<Event>)
    requires InOrder(s) && CanAllHappen(s, events)
    ensures EveryFileKept(s.files, Happened(s, events).files) <==> AllKeep(s, events)
  {
    HistoryCount(s, events);
    if AllKeep(s, events) {
      HistoryKeeps(s, events);
    } else if EveryFileKept(s.files, Happened(s, events).files) {
      SameCount(s.files, Happened(s, events).files);
    }
  }

  // ---- no path twice into one batch ----

  /** No path is put into one batch twice, nor one that looks like a note. */
  predicate PutsApart(events: seq<Event>) {
    && (forall i, j :: 0 <= i < j < |events| && events[i].Put? ==> events[j] != events[i])
    && (forall i :: 0 <= i < |events| && events[i].Put? ==> !IsRecord(events[i].parts))
  }

  /** The trash to begin with holds none of what the history puts there. */
  predicate TrashReady<C>(files: map<Place, C>, events: seq<Event>) {
    forall event :: event in events && event.Put? ==> Kept(event.batch, event.parts) !in files
  }

  lemma {:induction false} TrashHoldsPuts<C>(s: State<C>, events: seq<Event>, batch: string, parts: Parts)
    requires InOrder(s) && CanAllHappen(s, events) && Put(batch, parts) !in events && Kept(batch, parts) !in s.files
    ensures Kept(batch, parts) !in Happened(s, events).files
  {
    if events != [] {
      var rest, last := events[..|events| - 1], events[|events| - 1];
      assert events == rest + [last];
      TrashHoldsPuts(s, rest, batch, parts);
      HistoryInOrder(s, rest);
      var now := Happened(s, rest);
      NothingElsePut(now, last, batch, parts);
    }
  }

  lemma NothingElsePut<C>(s: State<C>, event: Event, batch: string, parts: Parts)
    requires InOrder(s) && CanHappen(s, event) && event != Put(batch, parts) && Kept(batch, parts) !in s.files
    ensures Kept(batch, parts) !in Next(s, event).files
  {
    assert IsAside(Kept(batch, parts));
    match event
    case Put(b, q) =>
      assert Kept(b, q).parts[1] == b && Kept(b, q).parts[2..] == q;
      assert Kept(batch, parts).parts[1] == batch && Kept(batch, parts).parts[2..] == parts;
    case MoveIn(_, from, to, _) =>
      assert !IsAside(Library(to));
    case Restore(b) =>
      assert SafeLog(s.LogOf(b)) && LibraryBatch(s.files, b);
      RestoreShrinksTrash(s.files, b, s.LogOf(b));
  }

  lemma NextStaysClean<C>(s: State<C>, event: Event)
    requires InOrder(s) && CanHappen(s, event) && AllClean(s.files) && (event.Put? ==> !IsRecord(event.parts))
    ensures AllClean(Next(s, event).files)
  {
    match event
    case Put(batch, parts) =>
      forall b ensures CleanBatch(Next(s, event).files, b) {
        assert LibraryBatch(s.files, b) && CleanBatch(s.files, b);
        PutKeepsOrder(s.files, batch, parts, b);
      }
    case MoveIn(_, _, _, _) =>
      TrashStays(s.files, Next(s, event).files);
    case Restore(batch) =>
      assert SafeLog(s.LogOf(batch)) && LibraryBatch(s.files, batch);
      RestoreShrinksTrash(s.files, batch, s.LogOf(batch));
      TrashStays(s.files, Next(s, event).files);
  }

  lemma ReadyBefore<C>(files: map<Place, C>, events: seq<Event>)
    requires events != [] && PutsApart(events) && TrashReady(files, events)
    ensures var rest, last := events[..|events| - 1], events[|events| - 1];
      PutsApart(rest) && TrashReady(files, rest)
      && (last.Put? ==> last !in rest && !IsRecord(last.parts) && Kept(last.batch, last.parts) !in files)
  {
  }

  lemma {:induction false} ApartKeeps<C>(s: State<C>, events: seq<Event>)
    requires InOrder(s) && CanAllHappen(s, events) && AllClean(s.files) && PutsApart(events) && TrashReady(s.files, events)
    ensures AllKeep(s, events) && AllClean(Happened(s, events).files)
  {
    if events != [] {
      var rest, last := events[..|events| - 1], events[|events| - 1];
      ReadyBefore(s.files, events);
      ApartKeeps(s, rest);
      HistoryInOrder(s, rest);
      if last.Put? {
        TrashHoldsPuts(s, rest, last.batch, last.parts);
      }
      CleanKeeps(Happened(s, rest), last);
    }
  }

  lemma CleanKeeps<C>(s: State<C>, event: Event)
    requires InOrder(s) && CanHappen(s, event) && AllClean(s.files)
    requires event.Put? ==> !IsRecord(event.parts) && Kept(event.batch, event.parts) !in s.files
    ensures Keeps(s, event) && AllClean(Next(s, event).files)
  {
    if event.Restore? {
      assert CleanBatch(s.files, event.batch);
    }
    NextStaysClean(s, event);
  }

  /** Nothing is deleted: whatever is put away, moved and put back, as long as no path is put
      into one batch twice and none looks like a batch's own notes. */
  lemma NothingIsDeleted<C>(s: State<C>, events: seq<Event>)
    requires InOrder(s) && CanAllHappen(s, events) && AllClean(s.files) && PutsApart(events) && TrashReady(s.files, events)
    ensures EveryFileKept(s.files, Happened(s, events).files)
  {
    ApartKeeps(s, events);
    HistoryKeeps(s, events);
  }

  /** A library that has never had a trash is a place to start from. */
  lemma StartsInOrder<C>(files: map<Place, C>)
    requires forall p :: p in files && p.Library? ==> IsLibrary(p.parts)
    ensures InOrder(State(files, map[])) && AllClean(files) && forall events :: TrashReady(files, events)
  {
  }
}
