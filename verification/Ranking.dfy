/** The order search results are listed in (`crates/delune-core/src/api.rs`). */
module Ranking {
  import opened Text
  import opened Qualities

  datatype Peer = Peer(filesDone: nat, filesFailed: nat)

  /** A folder one peer shares. */
  datatype Candidate = Candidate(id: string, audioFiles: nat, quality: Option<Quality>, qualityRank: nat, mixedQuality: bool,
                                 freeSlot: bool, avgSpeed: nat, queueLength: nat, peer: Option<Peer>)

  datatype Tier = Unknown | Lossy | Lossless | HiRes

  function TierOf(quality: Option<Quality>): Tier {
    match quality
    case None => Unknown
    case Some(q) =>
      if !IsLossless(q.codec) then Lossy
      else if (q.bitDepth.Some? && 16 < q.bitDepth.value) || (q.sampleRate.Some? && 48000 < q.sampleRate.value) then HiRes
      else Lossless
  }

  predicate AtLeastLossless(c: Candidate) {
    TierOf(c.quality).Lossless? || TierOf(c.quality).HiRes?
  }

  function Least(a: nat, b: nat): nat {
    if a < b then a else b
  }

  function Most(a: nat, b: nat): nat {
    if a < b then b else a
  }

  /** At least six tenths of the typical number of tracks. */
  predicate LooksComplete(c: Candidate, typical: nat) {
    Least(Most(typical * 6 / 10, 1), typical) <= c.audioFiles
  }

  const MAX: nat := 0xFFFF_FFFF

  /** Nought for a peer with more failures than successes, two for one with few failures among several
      successes, one for the rest. */
  function TrackRecord(c: Candidate): nat {
    match c.peer
    case None => 1
    case Some(p) =>
      if p.filesDone < p.filesFailed then 0
      else if 3 <= p.filesDone && Least(p.filesFailed * 5, MAX) <= p.filesDone then 2
      else 1
  }

  // ---- comparing ----

  datatype Ordering = Before | Same | After

  function Compare(a: int, b: int): Ordering {
    if a < b then Before else if a == b then Same else After
  }

  function CompareText(a: string, b: string): Ordering {
    if Less(a, b) then Before else if a == b then Same else After
  }

  function Then(first: Ordering, second: Ordering): Ordering {
    if first == Same then second else first
  }

  function Flag(b: bool): int {
    if b then 1 else 0
  }

  /** The first difference decides. */
  function CompareKeys(a: seq<int>, b: seq<int>): Ordering
    requires |a| == |b|
  {
    if a == [] then Same else Then(Compare(a[0], b[0]), CompareKeys(a[1..], b[1..]))
  }

  /** Of this more is better. */
  function More(n: int): int {
    -n
  }

  /** What is compared, in order; less is better. */
  function Keys(c: Candidate, typical: nat): seq<int> {
    [More(Flag(AtLeastLossless(c))), More(Flag(LooksComplete(c, typical))), More(c.qualityRank), Flag(c.mixedQuality), More(TrackRecord(c)),
     More(Flag(c.freeSlot)), c.queueLength, More(c.avgSpeed)]
  }

  /** Whether `a` is listed before `b`. */
  function CompareIn(a: Candidate, b: Candidate, typical: nat): Ordering {
    Then(CompareKeys(Keys(a, typical), Keys(b, typical)), CompareText(a.id, b.id))
  }

  function Reverse(o: Ordering): Ordering {
    match o
    case Before => After
    case Same => Same
    case After => Before
  }

  lemma {:induction false} KeysAreOrdered(a: seq<int>, b: seq<int>, c: seq<int>)
    requires |a| == |b| == |c|
    ensures CompareKeys(b, a) == Reverse(CompareKeys(a, b)) && (CompareKeys(a, b) == Same <==> a == b)
    ensures CompareKeys(a, b) == Before && CompareKeys(b, c) == Before ==> CompareKeys(a, c) == Before
  {
    if a != [] {
      KeysAreOrdered(a[1..], b[1..], c[1..]);
      assert a == [a[0]] + a[1..] && b == [b[0]] + b[1..];
    }
  }

  lemma TextIsOrdered(a: string, b: string, c: string)
    ensures CompareText(b, a) == Reverse(CompareText(a, b)) && (CompareText(a, b) == Same <==> a == b)
    ensures CompareText(a, b) == Before && CompareText(b, c) == Before ==> CompareText(a, c) == Before
  {
    LessIsTotal(a, b);
    LessIsStrict(a, b);
    if Less(a, b) && Less(b, c) {
      LessIsTransitive(a, b, c);
    }
  }

  /** The order of results is total: it has no cycles, and only the same candidate twice
      compares the same. */
  lemma CompareInIsTotalOrder(a: Candidate, b: Candidate, c: Candidate, typical: nat)
    ensures CompareIn(b, a, typical) == Reverse(CompareIn(a, b, typical))
    ensures CompareIn(a, b, typical) == Same ==> a.id == b.id
    ensures CompareIn(a, b, typical) != After && CompareIn(b, c, typical) != After ==> CompareIn(a, c, typical) != After
  {
    KeysAreOrdered(Keys(a, typical), Keys(b, typical), Keys(c, typical));
    KeysAreOrdered(Keys(b, typical), Keys(c, typical), Keys(a, typical));
    TextIsOrdered(a.id, b.id, c.id);
    TextIsOrdered(b.id, c.id, a.id);
  }

  // ---- sorting ----

  type Order<!T> = (T, T) -> bool

  ghost predicate IsOrder<T(!new)>(leq: Order<T>) {
    && (forall a, b :: leq(a, b) || leq(b, a))
    && (forall a, b, c :: leq(a, b) && leq(b, c) ==> leq(a, c))
  }

  predicate IsSorted<T>(items: seq<T>, leq: Order<T>) {
    forall i, j :: 0 <= i < j < |items| ==> leq(items[i], items[j])
  }

  /** After all those that are no greater, so that equals keep their order. */
  function Inserted<T>(items: seq<T>, item: T, leq: Order<T>): seq<T> {
    if items == [] || !leq(items[0], item) then [item] + items else [items[0]] + Inserted(items[1..], item, leq)
  }

  lemma {:induction false} InsertedIs<T(!new)>(items: seq<T>, item: T, leq: Order<T>)
    requires IsOrder(leq) && IsSorted(items, leq)
    ensures multiset(Inserted(items, item, leq)) == multiset(items) + multiset{item}
    ensures IsSorted(Inserted(items, item, leq), leq)
  {
    if items != [] {
      assert items == [items[0]] + items[1..];
      if leq(items[0], item) {
        InsertedIs(items[1..], item, leq);
        var rest := Inserted(items[1..], item, leq);
        forall i | 0 <= i < |rest| ensures leq(items[0], rest[i]) {
          assert rest[i] in multiset(rest);
          if rest[i] != item {
            assert rest[i] in items[1..];
          }
        }
      }
    }
  }

  method Sort<T(!new)>(items: seq<T>, leq: Order<T>) returns (sorted: seq<T>)
    requires IsOrder(leq)
    ensures IsSorted(sorted, leq) && multiset(sorted) == multiset(items)
  {
    sorted := [];
    for i := 0 to |items|
      invariant IsSorted(sorted, leq) && multiset(sorted) == multiset(items[..i])
    {
      InsertedIs(sorted, items[i], leq);
      assert items[..i + 1] == items[..i] + [items[i]];
      sorted := Inserted(sorted, items[i], leq);
    }
    assert items[..|items|] == items;
  }

  /** Different items never compare the same. */
  ghost predicate TellsApart<T>(items: seq<T>, leq: Order<T>) {
    forall a, b :: a in items && b in items && leq(a, b) && leq(b, a) ==> a == b
  }

  lemma {:induction false} OneSorting<T(!new)>(a: seq<T>, b: seq<T>, leq: Order<T>)
    requires IsOrder(leq) && IsSorted(a, leq) && IsSorted(b, leq) && multiset(a) == multiset(b) && TellsApart(a, leq)
    ensures a == b
  {
    SameLength(a, b);
    if a != [] {
      SameFirst(a, b, leq);
      SameTails(a, b);
      SortedTail(a, leq);
      SortedTail(b, leq);
      OneSorting(a[1..], b[1..], leq);
      assert a == [a[0]] + a[1..] && b == [b[0]] + b[1..];
    }
  }

  lemma SameLength<T>(a: seq<T>, b: seq<T>)
    requires multiset(a) == multiset(b)
    ensures |a| == |b|
  {
    assert |multiset(a)| == |a| && |multiset(b)| == |b|;
  }

  lemma SameTails<T>(a: seq<T>, b: seq<T>)
    requires a != [] && b != [] && a[0] == b[0] && multiset(a) == multiset(b)
    ensures multiset(a[1..]) == multiset(b[1..])
    ensures forall x :: x in a[1..] ==> x in a
  {
    assert a == [a[0]] + a[1..] && b == [b[0]] + b[1..];
    assert multiset(a[1..]) == multiset(a) - multiset{a[0]};
    assert multiset(b[1..]) == multiset(b) - multiset{b[0]};
  }

  lemma SortedTail<T>(a: seq<T>, leq: Order<T>)
    requires a != [] && IsSorted(a, leq)
    ensures IsSorted(a[1..], leq)
  {
  }

  lemma SameFirst<T(!new)>(a: seq<T>, b: seq<T>, leq: Order<T>)
    requires a != [] && b != [] && IsOrder(leq) && IsSorted(a, leq) && IsSorted(b, leq)
    requires multiset(a) == multiset(b) && TellsApart(a, leq)
    ensures a[0] == b[0]
  {
    assert a[0] in multiset(b) && b[0] in multiset(a);
    var i :| 0 <= i < |b| && b[i] == a[0];
    var j :| 0 <= j < |a| && a[j] == b[0];
    assert leq(a[0], a[j]) && leq(b[0], b[i]);
  }

  // ---- the median, and the ranking ----

  const ATMOST: Order<nat> := (a: nat, b: nat) => a <= b

  /** In the middle of the counts when they are put in order. */
  ghost predicate IsMedian(counts: seq<nat>, median: nat) {
    forall sorted: seq<nat> :: IsSorted(sorted, ATMOST) && multiset(sorted) == multiset(counts) ==>
      |sorted| == |counts| && (counts != [] ==> median == sorted[|sorted| / 2])
  }

  function Counts(results: seq<Candidate>): seq<nat> {
    seq(|results|, i requires 0 <= i < |results| => results[i].audioFiles)
  }

  /** The median number of audio files, at least one. */
  ghost predicate IsTypical(results: seq<Candidate>, typical: nat) {
    if results == [] then typical == 1 else exists median :: IsMedian(Counts(results), median) && typical == Most(median, 1)
  }

  method TypicalTracks(results: seq<Candidate>) returns (typical: nat)
    ensures IsTypical(results, typical)
  {
    if results == [] {
      return 1;
    }
    var counts := Counts(results);
    var sorted := Sort<nat>(counts, ATMOST);
    SameLength(sorted, counts);
    var median: nat := sorted[|sorted| / 2];
    forall other: seq<nat> | IsSorted(other, ATMOST) && multiset(other) == multiset(counts)
      ensures |other| == |counts| && median == other[|other| / 2]
    {
      OneSorting<nat>(sorted, other, ATMOST);
    }
    assert IsMedian(counts, median);
    return Most(median, 1);
  }

  ghost predicate Listed(ranked: seq<Candidate>, typical: nat) {
    forall i, j :: 0 <= i < j < |ranked| ==> CompareIn(ranked[i], ranked[j], typical) != After
  }

  ghost predicate DistinctIds(results: seq<Candidate>) {
    forall a, b :: a in results && b in results && a.id == b.id ==> a == b
  }

  function InOrder(typical: nat): Order<Candidate> {
    (a: Candidate, b: Candidate) => CompareIn(a, b, typical) != After
  }

  lemma OrderOfResults(typical: nat)
    ensures IsOrder(InOrder(typical))
  {
    forall a, b, c
      ensures InOrder(typical)(a, b) || InOrder(typical)(b, a)
      ensures InOrder(typical)(a, b) && InOrder(typical)(b, c) ==> InOrder(typical)(a, c)
    {
      CompareInIsTotalOrder(a, b, c, typical);
    }
  }

  /** The results, best first, as compared under the typical number of tracks. */
  method Rank(results: seq<Candidate>) returns (ranked: seq<Candidate>, ghost typical: nat)
    ensures IsTypical(results, typical)
    ensures multiset(ranked) == multiset(results) && Listed(ranked, typical)
    ensures DistinctIds(results) ==>
      forall other :: multiset(other) == multiset(results) && Listed(other, typical) ==> other == ranked
  {
    var tracks := TypicalTracks(results);
    typical := tracks;
    OrderOfResults(tracks);
    ranked := Sort(results, InOrder(tracks));
    if DistinctIds(results) {
      forall other | multiset(other) == multiset(results) && Listed(other, typical) ensures other == ranked {
        OneListing(results, ranked, other, typical);
      }
    }
  }

  lemma OneListing(results: seq<Candidate>, ranked: seq<Candidate>, other: seq<Candidate>, typical: nat)
    requires DistinctIds(results) && multiset(ranked) == multiset(results) == multiset(other)
    requires Listed(ranked, typical) && Listed(other, typical)
    ensures other == ranked
  {
    OrderOfResults(typical);
    forall a, b | a in ranked && b in ranked && InOrder(typical)(a, b) && InOrder(typical)(b, a) ensures a == b {
      CompareInIsTotalOrder(a, b, a, typical);
      assert a in multiset(results) && b in multiset(results);
    }
    OneSorting(ranked, other, InOrder(typical));
  }
}
