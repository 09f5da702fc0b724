/** Choosing the album of a folder from its tracks' tags (`crates/delune-library/src/tidy.rs`). A value is chosen by counting: the one said most often,
    the first of several said as often. The album the folder is mostly about is chosen by its
    key, where ties go to the key of the folder's own name, then to the smaller one. Both choices
    are shown to be the best there is and the only best, and the counting loops to make them. */
module Albums {
  import opened Text
  import opened Tags

  // ---- the album artist ----

  predicate SameIgnoringCase(a: string, b: string) {
    ToAsciiLower(a) == ToAsciiLower(b)
  }

  predicate Has(values: seq<string>, value: string) {
    exists v :: v in values && SameIgnoringCase(v, value)
  }

  /** The values without repeats, ignoring ASCII case. */
  function Distinct(values: seq<string>): (r: seq<string>)
    ensures forall v :: v in r ==> v in values
    ensures values != [] ==> r != []
  {
    if values == [] then []
    else
      var seen := Distinct(values[..|values| - 1]);
      if Has(seen, values[|values| - 1]) then seen else seen + [values[|values| - 1]]
  }

  predicate AllDistinct(values: seq<string>) {
    forall i, j :: 0 <= i < j < |values| ==> !SameIgnoringCase(values[i], values[j])
  }

  lemma {:induction false} DistinctAre(values: seq<string>)
    ensures AllDistinct(Distinct(values))
  {
    if values != [] {
      DistinctAre(values[..|values| - 1]);
      var seen, last := Distinct(values[..|values| - 1]), values[|values| - 1];
      if !Has(seen, last) {
        forall i | 0 <= i < |seen| ensures !SameIgnoringCase(seen[i], last) {
          assert seen[i] in seen;
        }
      }
    }
  }

  lemma {:induction false} DistinctStay(values: seq<string>)
    requires AllDistinct(values)
    ensures Distinct(values) == values
  {
    if values != [] {
      var rest, last := values[..|values| - 1], values[|values| - 1];
      DistinctStay(rest);
      assert values == rest + [last];
    }
  }

  method WithoutRepeats(values: seq<string>) returns (seen: seq<string>)
    ensures seen == Distinct(values)
  {
    seen := [];
    for i := 0 to |values|
      invariant seen == Distinct(values[..i])
    {
      assert values[..i + 1][..|values[..i + 1]| - 1] == values[..i];
      if !(exists v :: v in seen && SameIgnoringCase(v, values[i])) {
        seen := seen + [values[i]];
      }
    }
    assert values[..|values|] == values;
  }

  /** Who a track is credited to: its album artists without repetitions, else its artist. */
  function AlbumArtist(id: Identity): Option<string> {
    if Distinct(id.albumArtists) == [] then id.artist else Some(Join(Distinct(id.albumArtists), "; "))
  }

  // ---- the most common value ----

  function Count(values: seq<string>, value: string): nat {
    multiset(values)[value]
  }

  /** Of the first `n` values the one that occurs most often among all, the earliest of several. */
  function Commonest(values: seq<string>, n: nat): (r: string)
    requires 0 < n <= |values|
    ensures r in values
  {
    if n == 1 then values[0]
    else
      var best := Commonest(values, n - 1);
      if Count(values, best) < Count(values, values[n - 1]) then values[n - 1] else best
  }

  function MostCommon(values: seq<string>): (r: Option<string>)
    ensures r.None? <==> values == []
    ensures r.Some? ==> r.value in values
  {
    if values == [] then None else Some(Commonest(values, |values|))
  }

  /** No value is more common than the one at `i`, and those as common are first seen after it. */
  predicate IsFirstBest(values: seq<string>, n: nat, i: nat)
    requires i < |values|
  {
    && (forall k :: 0 <= k < i ==> Count(values, values[k]) < Count(values, values[i]))
    && (forall k :: i < k < n && k < |values| ==> Count(values, values[k]) <= Count(values, values[i]))
  }

  lemma {:induction false} CommonestWins(values: seq<string>, n: nat) returns (i: nat)
    requires 0 < n <= |values|
    ensures i < n && values[i] == Commonest(values, n) && IsFirstBest(values, n, i)
  {
    if n == 1 {
      i := 0;
    } else {
      i := CommonestWins(values, n - 1);
      if Count(values, values[i]) < Count(values, values[n - 1]) {
        i := n - 1;
      }
    }
  }

  lemma OneWinner(values: seq<string>, n: nat, i: nat, j: nat)
    requires i < n <= |values| && j < n && IsFirstBest(values, n, i) && IsFirstBest(values, n, j)
    ensures i == j
  {
    var a, b := Count(values, values[i]), Count(values, values[j]);
    assert i < j ==> a < b && b <= a;
    assert j < i ==> b < a && a <= b;
  }

  // ---- counting them, as the code does ----

  datatype Counted = Counted(value: string, n: nat)

  function Position(counts: seq<Counted>, value: string): (r: nat)
    ensures r <= |counts|
    ensures r < |counts| ==> counts[r].value == value
    ensures forall a :: 0 <= a < r ==> counts[a].value != value
  {
    if counts == [] || counts[0].value == value then 0 else 1 + Position(counts[1..], value)
  }

  lemma {:induction false} PositionIsFirst(counts: seq<Counted>, at: nat, value: string)
    requires at < |counts| && counts[at].value == value
    ensures Position(counts, value) <= at
  {
    if 0 < at && counts[0].value != value {
      PositionIsFirst(counts[1..], at - 1, value);
    }
  }

  /** Where a value is first seen. */
  function First(values: seq<string>, value: string): (r: nat)
    ensures r <= |values|
    ensures r < |values| ==> values[r] == value
    ensures forall k :: 0 <= k < r ==> values[k] != value
  {
    if values == [] || values[0] == value then 0 else 1 + First(values[1..], value)
  }

  /** The value is among the first `n`, and counted right. */
  ghost predicate IsTally(values: seq<string>, n: nat, seen: Counted)
    requires n <= |values|
  {
    First(values, seen.value) < n && seen.n == Count(values[..n], seen.value)
  }

  /** How often each value was seen, in the order they were first seen. */
  ghost predicate Tallied(values: seq<string>, n: nat, counts: seq<Counted>)
    requires n <= |values|
  {
    && (forall a :: 0 <= a < |counts| ==> IsTally(values, n, counts[a]))
    && (forall a, b :: 0 <= a < b < |counts| ==> First(values, counts[a].value) < First(values, counts[b].value))
    && (forall k :: 0 <= k < n ==> Position(counts, values[k]) < |counts|)
  }

  lemma CountNext(values: seq<string>, n: nat, value: string)
    requires n < |values|
    ensures Count(values[..n + 1], value) == Count(values[..n], value) + if values[n] == value then 1 else 0
  {
    assert values[..n + 1] == values[..n] + [values[n]];
  }

  lemma TallyStays(values: seq<string>, n: nat, seen: Counted)
    requires n < |values| && IsTally(values, n, seen)
    ensures IsTally(values, n + 1, if seen.value == values[n] then seen.(n := seen.n + 1) else seen)
  {
    CountNext(values, n, seen.value);
  }

  lemma TallyStarts(values: seq<string>, n: nat)
    requires n < |values| && forall k :: 0 <= k < n ==> values[k] != values[n]
    ensures First(values, values[n]) == n && IsTally(values, n + 1, Counted(values[n], 1))
  {
    CountNext(values, n, values[n]);
    assert values[n] !in values[..n];
  }

  lemma TallyCovers(values: seq<string>, n: nat, counts: seq<Counted>, next: seq<Counted>, at: nat)
    requires n < |values| && |counts| <= |next| && at < |next| && next[at].value == values[n]
    requires forall a :: 0 <= a < |counts| ==> next[a].value == counts[a].value
    requires forall k :: 0 <= k < n ==> Position(counts, values[k]) < |counts|
    ensures forall k :: 0 <= k < n + 1 ==> Position(next, values[k]) < |next|
  {
    forall k | 0 <= k < n + 1 ensures Position(next, values[k]) < |next| {
      PositionIsFirst(next, if k < n then Position(counts, values[k]) else at, values[k]);
    }
  }

  lemma TallyAgain(values: seq<string>, n: nat, counts: seq<Counted>, at: nat)
    requires n < |values| && Tallied(values, n, counts) && at < |counts| && counts[at].value == values[n]
    ensures Tallied(values, n + 1, counts[at := Counted(values[n], counts[at].n + 1)])
  {
    var next := counts[at := Counted(values[n], counts[at].n + 1)];
    TallyCovers(values, n, counts, next, at);
    TalliesAfterAgain(values, n, counts, at);
    assert forall a :: 0 <= a < |next| ==> next[a].value == counts[a].value;
  }

  lemma TalliesAfterAgain(values: seq<string>, n: nat, counts: seq<Counted>, at: nat)
    requires n < |values| && Tallied(values, n, counts) && at < |counts| && counts[at].value == values[n]
    ensures var next := counts[at := Counted(values[n], counts[at].n + 1)];
      forall a :: 0 <= a < |next| ==> IsTally(values, n + 1, next[a])
  {
    var next := counts[at := Counted(values[n], counts[at].n + 1)];
    forall a | 0 <= a < |next| ensures IsTally(values, n + 1, next[a]) {
      TallyStays(values, n, counts[a]);
      assert a != at ==> First(values, counts[a].value) != First(values, counts[at].value);
    }
  }

  lemma TallyNew(values: seq<string>, n: nat, counts: seq<Counted>)
    requires n < |values| && Tallied(values, n, counts) && Position(counts, values[n]) == |counts|
    ensures Tallied(values, n + 1, counts + [Counted(values[n], 1)])
  {
    var next := counts + [Counted(values[n], 1)];
    TallyCovers(values, n, counts, next, |counts|);
    NewIsNew(values, n, counts);
    TalliesAfterNew(values, n, counts);
  }

  lemma TalliesAfterNew(values: seq<string>, n: nat, counts: seq<Counted>)
    requires n < |values| && Tallied(values, n, counts) && Position(counts, values[n]) == |counts|
    ensures var next := counts + [Counted(values[n], 1)]; forall a :: 0 <= a < |next| ==> IsTally(values, n + 1, next[a])
  {
    TallyStarts(values, n);
    TalliesStay(values, n, counts);
  }

  lemma NewIsNew(values: seq<string>, n: nat, counts: seq<Counted>)
    requires n < |values| && Tallied(values, n, counts) && Position(counts, values[n]) == |counts|
    ensures forall k :: 0 <= k < n ==> values[k] != values[n]
  {
    forall k | 0 <= k < n ensures values[k] != values[n] {
      assert Position(counts, values[k]) < |counts|;
    }
  }

  lemma TalliesStay(values: seq<string>, n: nat, counts: seq<Counted>)
    requires n < |values| && Tallied(values, n, counts) && Position(counts, values[n]) == |counts|
    ensures forall a :: 0 <= a < |counts| ==> IsTally(values, n + 1, counts[a]) && First(values, counts[a].value) < n
  {
    forall a | 0 <= a < |counts| ensures IsTally(values, n + 1, counts[a]) && First(values, counts[a].value) < n {
      TallyStays(values, n, counts[a]);
    }
  }

  method Tally(values: seq<string>) returns (counts: seq<Counted>)
    ensures Tallied(values, |values|, counts)
  {
    counts := [];
    for n := 0 to |values|
      invariant Tallied(values, n, counts)
    {
      var at := Position(counts, values[n]);
      if at < |counts| {
        TallyAgain(values, n, counts, at);
        counts := counts[at := Counted(values[n], counts[at].n + 1)];
      } else {
        TallyNew(values, n, counts);
        counts := counts + [Counted(values[n], 1)];
      }
    }
  }

  lemma SomeTallied(values: seq<string>, counts: seq<Counted>)
    requires Tallied(values, |values|, counts)
    ensures values != [] ==> Position(counts, values[0]) < |counts|
  {
  }

  /** Counting the values and taking the largest count finds the most common one. */
  method FindMostCommon(values: seq<string>) returns (r: Option<string>)
    ensures r == MostCommon(values)
  {
    var counts := Tally(values);
    SomeTallied(values, counts);
    if counts == [] {
      return None;
    }
    var best := Fullest(counts);
    TalliedBest(values, counts, best);
    return Some(counts[best].value);
  }

  /** The first of the greatest counts. */
  method Fullest(counts: seq<Counted>) returns (best: nat)
    requires counts != []
    ensures best < |counts|
    ensures forall a :: 0 <= a < best ==> counts[a].n < counts[best].n
    ensures forall a :: best < a < |counts| ==> counts[a].n <= counts[best].n
  {
    best := 0;
    for i := 1 to |counts|
      invariant 0 <= best < i
      invariant forall a :: 0 <= a < best ==> counts[a].n < counts[best].n
      invariant forall a :: best < a < i ==> counts[a].n <= counts[best].n
    {
      if counts[best].n < counts[i].n {
        best := i;
      }
    }
  }

  lemma TalliedBest(values: seq<string>, counts: seq<Counted>, best: nat)
    requires Tallied(values, |values|, counts) && best < |counts|
    requires forall a :: 0 <= a < best ==> counts[a].n < counts[best].n
    requires forall a :: best < a < |counts| ==> counts[a].n <= counts[best].n
    ensures MostCommon(values) == Some(counts[best].value)
  {
    assert values[..|values|] == values;
    assert IsTally(values, |values|, counts[best]);
    var first := First(values, counts[best].value);
    forall k | 0 <= k < |values|
      ensures Count(values, values[k]) <= counts[best].n
      ensures k < first ==> Count(values, values[k]) < counts[best].n
    {
      var a := Position(counts, values[k]);
      assert IsTally(values, |values|, counts[a]);
    }
    var i := CommonestWins(values, |values|);
    OneWinner(values, |values|, i, first);
  }

  // ---- the folder's album ----

  /** The key of album title. */
  type Keying = string -> string

  /** `a` is a better key than `b` for the album of a folder: more tracks name it, or as many
      and it is the folder's own, or it comes first. */
  predicate Beats(keys: seq<string>, folderKey: string, a: string, b: string) {
    || Count(keys, a) > Count(keys, b)
    || (Count(keys, a) == Count(keys, b) &&
        ((a == folderKey && b != folderKey) || ((a == folderKey <==> b == folderKey) && Less(a, b))))
  }

  function BestKey(keys: seq<string>, folderKey: string, n: nat): (r: string)
    requires 0 < n <= |keys|
    ensures r in keys[..n]
  {
    if n == 1 then keys[0]
    else
      var best := BestKey(keys, folderKey, n - 1);
      if Beats(keys, folderKey, keys[n - 1], best) then keys[n - 1] else best
  }

  function MainKey(keys: seq<string>, folderKey: string): (r: string)
    ensures keys != [] ==> r in keys
  {
    if keys == [] then folderKey else BestKey(keys, folderKey, |keys|)
  }

  lemma BeatsIsOrder(keys: seq<string>, folderKey: string, a: string, b: string, c: string)
    ensures Beats(keys, folderKey, a, b) || Beats(keys, folderKey, b, a) || a == b
    ensures !(Beats(keys, folderKey, a, b) && Beats(keys, folderKey, b, a))
    ensures Beats(keys, folderKey, a, b) && Beats(keys, folderKey, b, c) ==> Beats(keys, folderKey, a, c)
  {
    LessIsTotal(a, b);
    LessIsStrict(a, b);
    if Less(a, b) && Less(b, c) {
      LessIsTransitive(a, b, c);
    }
  }

  lemma {:induction false} BestKeyBeats(keys: seq<string>, folderKey: string, n: nat)
    requires 0 < n <= |keys|
    ensures forall k :: 0 <= k < n ==>
      keys[k] == BestKey(keys, folderKey, n) || Beats(keys, folderKey, BestKey(keys, folderKey, n), keys[k])
  {
    if 1 < n {
      BestKeyBeats(keys, folderKey, n - 1);
      var before, best := BestKey(keys, folderKey, n - 1), BestKey(keys, folderKey, n);
      BeatsIsOrder(keys, folderKey, keys[n - 1], before, before);
      forall k | 0 <= k < n - 1 ensures keys[k] == best || Beats(keys, folderKey, best, keys[k]) {
        BeatsIsOrder(keys, folderKey, best, before, keys[k]);
      }
    }
  }

  /** The folder's key is the one that beats all the others, in whatever order they are
      looked at. */
  lemma MainKeyBeats(keys: seq<string>, folderKey: string, k: string)
    requires k in keys
    ensures k == MainKey(keys, folderKey) || Beats(keys, folderKey, MainKey(keys, folderKey), k)
    ensures (forall other :: other in keys ==> other == k || Beats(keys, folderKey, k, other)) ==> k == MainKey(keys, folderKey)
  {
    BestKeyBeats(keys, folderKey, |keys|);
    assert keys[..|keys|] == keys;
    BeatsIsOrder(keys, folderKey, k, MainKey(keys, folderKey), k);
  }
}
