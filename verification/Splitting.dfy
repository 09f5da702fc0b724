/** Turning a path component back into a template: the first text that matches a tag's value
    becomes a token (`crates/delune-library/src/layout.rs`). A component is a list of pieces, some of
    them text and some tokens with the text they stand for. Every replacement is shown to keep what the
    component spells, so that a detected template renders back to the path it was detected from, and
    the scans for digits and for disc and track numbers are shown to find exactly what there is. */
module Splitting {
  import opened Text
  import opened Templates
  import opened Layouts
  import opened Years

  // ---- what is looked for ----

  predicate IsLooseBreak(c: char) {
    IsControl(c) || c in "<>:\"/\\|?*_"
  }

  /** Characters that naming may have replaced are all alike, and case doesn't count. */
  function Loose(c: char, fold: char -> char): char {
    if IsLooseBreak(c) then '_' else fold(c)
  }

  /** The words are at `at`, whole. */
  predicate WordsAt(text: string, value: string, at: nat, fold: char -> char, alphanumeric: char -> bool) {
    && at + |value| <= |text|
    && (forall i :: 0 <= i < |value| ==> Loose(text[at + i], fold) == Loose(value[i], fold))
    && (at == 0 || !alphanumeric(text[at - 1]))
    && (at + |value| == |text| || !alphanumeric(text[at + |value|]))
  }

  method FindWords(text: string, value: string, fold: char -> char, alphanumeric: char -> bool) returns (at: Option<nat>)
    ensures at.Some? ==> WordsAt(text, value, at.value, fold, alphanumeric)
    ensures at.Some? ==> forall k :: 0 <= k < at.value ==> !WordsAt(text, value, k, fold, alphanumeric)
    ensures at.None? ==> forall k :: 0 <= k ==> !WordsAt(text, value, k, fold, alphanumeric)
  {
    var k := 0;
    while k + |value| <= |text|
      invariant forall j :: 0 <= j < k ==> !WordsAt(text, value, j, fold, alphanumeric)
    {
      if WordsAt(text, value, k, fold, alphanumeric) {
        return Some(k);
      }
      k := k + 1;
    }
    return None;
  }

  /** A stretch of ASCII digits that can't be made longer. */
  predicate IsRun(text: string, run: (nat, nat)) {
    && run.0 < run.1 <= |text|
    && (forall i :: run.0 <= i < run.1 ==> IsDigit(text[i]))
    && (run.0 == 0 || !IsDigit(text[run.0 - 1])) && (run.1 == |text| || !IsDigit(text[run.1]))
  }

  /** The runs of the text that end by `n`, in order. */
  ghost predicate AreRuns(text: string, n: nat, runs: seq<(nat, nat)>)
    requires n <= |text|
  {
    && (forall k :: 0 <= k < |runs| ==> IsRun(text, runs[k]) && runs[k].1 <= n)
    && (forall j, k :: 0 <= j < k < |runs| ==> runs[j].1 < runs[k].0)
    && (forall i :: 0 <= i < n && IsDigit(text[i]) ==> exists k :: 0 <= k < |runs| && runs[k].0 <= i < runs[k].1)
  }

  /** All the stretches of digits of a text. */
  method DigitRuns(text: string) returns (runs: seq<(nat, nat)>)
    ensures AreRuns(text, |text|, runs)
  {
    runs := [];
    var i := 0;
    while i < |text|
      invariant 0 <= i <= |text| && AreRuns(text, i, runs)
      invariant 0 < i < |text| && IsDigit(text[i]) ==> !IsDigit(text[i - 1])
    {
      if IsDigit(text[i]) {
        var start := i;
        while i < |text| && IsDigit(text[i])
          invariant start <= i <= |text| && forall j :: start <= j < i ==> IsDigit(text[j])
        {
          i := i + 1;
        }
        RunAdded(text, start, i, runs);
        runs := runs + [(start, i)];
      } else {
        i := i + 1;
      }
    }
  }

  lemma RunAdded(text: string, start: nat, end: nat, runs: seq<(nat, nat)>)
    requires start < end <= |text| && AreRuns(text, start, runs) && IsRun(text, (start, end))
    ensures AreRuns(text, end, runs + [(start, end)])
  {
    var more := runs + [(start, end)];
    forall k | 0 <= k < |runs| ensures runs[k].1 < start {
      assert IsRun(text, runs[k]) && IsDigit(text[start]);
    }
    forall i | 0 <= i < end && IsDigit(text[i]) ensures exists k :: 0 <= k < |more| && more[k].0 <= i < more[k].1 {
      if start <= i {
        assert more[|runs|] == (start, end);
      } else {
        var k :| 0 <= k < |runs| && runs[k].0 <= i < runs[k].1;
        assert more[k] == runs[k];
      }
    }
  }

  function DigitValue(c: char): nat
    requires IsDigit(c)
  {
    c as int - '0' as int
  }

  /** The number some digits spell. */
  function Number(digits: string): nat
    requires forall c :: c in digits ==> IsDigit(c)
  {
    if digits == "" then 0
    else
      var last := digits[|digits| - 1];
      assert last in digits;
      Number(digits[..|digits| - 1]) * 10 + DigitValue(last)
  }

  /** The run spells the number. One too long for 32 bits spells no number looked for. */
  predicate RunSpells(text: string, run: (nat, nat), value: nat)
    requires IsRun(text, run)
  {
    Number(text[run.0..run.1]) == value
  }

  predicate NumberAt(text: string, run: (nat, nat), value: nat, width: Option<nat>) {
    && IsRun(text, run) && RunSpells(text, run, value) && run.1 - run.0 <= 4
    && (width.Some? ==> run.1 - run.0 == width.value)
  }

  /** Two numbers with a hyphen or a dot between, as a disc's number and a track's. */
  predicate DiscTrackAt(text: string, disc: (nat, nat), track: (nat, nat), discNumber: nat, trackNumber: nat) {
    && IsRun(text, disc) && IsRun(text, track) && track.0 == disc.1 + 1 && (text[disc.1] == '-' || text[disc.1] == '.')
    && RunSpells(text, disc, discNumber) && RunSpells(text, track, trackNumber)
  }

  /** Every run is listed. */
  lemma RunIsListed(text: string, runs: seq<(nat, nat)>, run: (nat, nat)) returns (k: nat)
    requires AreRuns(text, |text|, runs) && IsRun(text, run)
    ensures k < |runs| && runs[k] == run
  {
    assert IsDigit(text[run.0]);
    k :| 0 <= k < |runs| && runs[k].0 <= run.0 < runs[k].1;
    OneRun(text, runs[k], run, run.0);
  }

  lemma OneRun(text: string, a: (nat, nat), b: (nat, nat), i: nat)
    requires IsRun(text, a) && IsRun(text, b) && a.0 <= i < a.1 && b.0 <= i < b.1
    ensures a == b
  {
  }

  method FindNumber(text: string, value: nat, width: Option<nat>) returns (found: Option<(nat, nat)>)
    ensures found.Some? ==> NumberAt(text, found.value, value, width)
    ensures found.Some? ==> forall run :: NumberAt(text, run, value, width) ==> found.value.0 <= run.0
    ensures found.None? ==> forall run :: !NumberAt(text, run, value, width)
  {
    var runs := DigitRuns(text);
    for k := 0 to |runs|
      invariant forall j :: 0 <= j < k ==> !NumberAt(text, runs[j], value, width)
    {
      if NumberAt(text, runs[k], value, width) {
        forall run | NumberAt(text, run, value, width) ensures runs[k].0 <= run.0 {
          var j := RunIsListed(text, runs, run);
          assert k < j ==> runs[k].1 < runs[j].0;
        }
        return Some(runs[k]);
      }
    }
    forall run ensures !NumberAt(text, run, value, width) {
      if NumberAt(text, run, value, width) {
        var j := RunIsListed(text, runs, run);
      }
    }
    return None;
  }

  lemma NextRun(text: string, runs: seq<(nat, nat)>, disc: (nat, nat), track: (nat, nat)) returns (k: nat)
    requires AreRuns(text, |text|, runs) && IsRun(text, disc) && IsRun(text, track) && track.0 == disc.1 + 1
    ensures k + 1 < |runs| && runs[k] == disc && runs[k + 1] == track
  {
    k := RunIsListed(text, runs, disc);
    var j := RunIsListed(text, runs, track);
    NothingBetween(text, runs, k, j);
  }

  lemma NothingBetween(text: string, runs: seq<(nat, nat)>, k: nat, j: nat)
    requires AreRuns(text, |text|, runs) && k < |runs| && j < |runs| && runs[j].0 == runs[k].1 + 1
    ensures j == k + 1
  {
    assert k < j;
    var next := runs[k + 1];
  }

  method FindDiscTrack(text: string, disc: nat, track: nat) returns (found: Option<((nat, nat), (nat, nat))>)
    ensures found.Some? ==> DiscTrackAt(text, found.value.0, found.value.1, disc, track)
    ensures found.Some? ==> forall a, b :: DiscTrackAt(text, a, b, disc, track) ==> found.value.0.0 <= a.0
    ensures found.None? ==> forall a, b :: !DiscTrackAt(text, a, b, disc, track)
  {
    var runs := DigitRuns(text);
    var k := 0;
    while k + 1 < |runs|
      invariant forall j :: 0 <= j < k && j + 1 < |runs| ==> !DiscTrackAt(text, runs[j], runs[j + 1], disc, track)
    {
      if DiscTrackAt(text, runs[k], runs[k + 1], disc, track) {
        forall a, b | DiscTrackAt(text, a, b, disc, track) ensures runs[k].0 <= a.0 {
          var j := NextRun(text, runs, a, b);
          assert k < j ==> runs[k].1 < runs[j].0;
        }
        return Some((runs[k], runs[k + 1]));
      }
      k := k + 1;
    }
    forall a, b ensures !DiscTrackAt(text, a, b, disc, track) {
      if DiscTrackAt(text, a, b, disc, track) {
        var j := NextRun(text, runs, a, b);
      }
    }
    return None;
  }

  // ---- a component taken apart ----

  function TextPiece(text: string): seq<Piece> {
    if text == "" then [] else [Plain(text)]
  }

  function Texts(text: string): seq<string> {
    if text == "" then [] else [text]
  }

  function Spelled(texts: seq<string>): string {
    if texts == [] then "" else texts[0] + Spelled(texts[1..])
  }

  lemma {:induction false} SpelledAdd(a: seq<string>, b: seq<string>)
    ensures Spelled(a + b) == Spelled(a) + Spelled(b)
  {
    if a == [] {
      assert a + b == b;
    } else {
      assert (a + b)[1..] == a[1..] + b;
      SpelledAdd(a[1..], b);
    }
  }

  lemma SplitSpells(text: string, from: nat, to: nat)
    requires from <= to <= |text|
    ensures Spelled(Texts(text[..from]) + ([text[from..to]] + Texts(text[to..]))) == text
  {
    SpelledAdd(Texts(text[..from]), [text[from..to]] + Texts(text[to..]));
    SpelledAdd([text[from..to]], Texts(text[to..]));
    assert Spelled(Texts(text[..from])) == text[..from] && Spelled([text[from..to]]) == text[from..to];
    assert Spelled(Texts(text[to..])) == text[to..];
    assert text == text[..from] + (text[from..to] + text[to..]);
  }

  /** Where in the pieces something was replaced. */
  datatype Spot = Spot(index: nat, from: nat, to: nat)

  predicate IsSpot(pieces: seq<Piece>, spot: Spot) {
    spot.index < |pieces| && pieces[spot.index].Plain? && spot.from <= spot.to <= |pieces[spot.index].text|
  }

  /** The pieces with the text at a spot replaced by a token. */
  function Spliced(pieces: seq<Piece>, spot: Spot, token: string): seq<Piece>
    requires IsSpot(pieces, spot)
  {
    var text := pieces[spot.index].text;
    pieces[..spot.index] + (TextPiece(text[..spot.from]) + ([Stands(token)] + TextPiece(text[spot.to..]))) + pieces[spot.index + 1..]
  }

  function SplicedTexts(pieces: seq<Piece>, texts: seq<string>, spot: Spot): seq<string>
    requires IsSpot(pieces, spot) && |texts| == |pieces|
  {
    var text := pieces[spot.index].text;
    texts[..spot.index] + (Texts(text[..spot.from]) + ([text[spot.from..spot.to]] + Texts(text[spot.to..]))) + texts[spot.index + 1..]
  }

  /** Each piece, text or token, stands for its text in `texts`; texts aren't empty, and no
      two of them are side by side. */
  predicate StandsFor(pieces: seq<Piece>, texts: seq<string>) {
    && |texts| == |pieces| && Alternates(pieces)
    && (forall i :: 0 <= i < |pieces| && pieces[i].Plain? ==> pieces[i].text == texts[i] && texts[i] != "")
  }

  lemma StandTogether(a: seq<Piece>, s: seq<string>, b: seq<Piece>, t: seq<string>)
    requires StandsFor(a, s) && StandsFor(b, t)
    requires a != [] && b != [] && b[0].Plain? ==> a[|a| - 1].Stands?
    ensures StandsFor(a + b, s + t)
  {
    forall i | 0 < i < |a + b| && (a + b)[i].Plain? ensures (a + b)[i - 1].Stands? {
      if i < |a| {
        assert a[i].Plain?;
      } else if |a| < i {
        assert b[i - |a|].Plain? && (a + b)[i - 1] == b[i - |a| - 1];
      }
    }
  }

  lemma PartsStand(pieces: seq<Piece>, texts: seq<string>, index: nat)
    requires StandsFor(pieces, texts) && index < |pieces| && pieces[index].Plain?
    ensures StandsFor(pieces[..index], texts[..index]) && StandsFor(pieces[index + 1..], texts[index + 1..])
    ensures 0 < index ==> pieces[index - 1].Stands?
    ensures index + 1 < |pieces| ==> pieces[index + 1].Stands?
  {
    var tail := pieces[index + 1..];
    forall i | 0 < i < |tail| && tail[i].Plain? ensures tail[i - 1].Stands? {
      assert pieces[index + 1 + i].Plain?;
    }
  }

  lemma SplicedStands(pieces: seq<Piece>, texts: seq<string>, spot: Spot, token: string)
    requires StandsFor(pieces, texts) && IsSpot(pieces, spot)
    ensures StandsFor(Spliced(pieces, spot, token), SplicedTexts(pieces, texts, spot))
  {
    var text := pieces[spot.index].text;
    var before, after := text[..spot.from], text[spot.to..];
    PartsStand(pieces, texts, spot.index);
    StandTogether([Stands(token)], [text[spot.from..spot.to]], TextPiece(after), Texts(after));
    StandTogether(TextPiece(before), Texts(before), [Stands(token)] + TextPiece(after), [text[spot.from..spot.to]] + Texts(after));
    var middle := TextPiece(before) + ([Stands(token)] + TextPiece(after));
    var spelled := Texts(before) + ([text[spot.from..spot.to]] + Texts(after));
    StandTogether(pieces[..spot.index], texts[..spot.index], middle, spelled);
    StandTogether(pieces[..spot.index] + middle, texts[..spot.index] + spelled, pieces[spot.index + 1..], texts[spot.index + 1..]);
  }

  /** Nothing is lost: with every token's text put back, the component is what it was. */
  lemma SplicedSpells(pieces: seq<Piece>, texts: seq<string>, spot: Spot)
    requires StandsFor(pieces, texts) && IsSpot(pieces, spot)
    ensures Spelled(SplicedTexts(pieces, texts, spot)) == Spelled(texts)
  {
    var text := pieces[spot.index].text;
    var middle := Texts(text[..spot.from]) + ([text[spot.from..spot.to]] + Texts(text[spot.to..]));
    var before, after := texts[..spot.index], texts[spot.index + 1..];
    SplitSpells(text, spot.from, spot.to);
    SpelledAdd(before + middle, after);
    SpelledAdd(before, middle);
    assert texts == (before + [text]) + after;
    SpelledAdd(before + [text], after);
    SpelledAdd(before, [text]);
    assert Spelled([text]) == text + "" == text;
  }

  /** A path component, turned piece by piece into a template. */
  class Component {
    var pieces: seq<Piece>
    /** The text each piece stands for. */
    ghost var texts: seq<string>

    ghost predicate Valid()
      reads this
    {
      StandsFor(pieces, texts)
    }

    /** The component as it was in the path. */
    ghost function Whole(): string
      reads this
    {
      Spelled(texts)
    }

    constructor (component: string)
      requires component != ""
      ensures Valid() && Whole() == component && pieces == [Plain(component)]
    {
      pieces, texts := [Plain(component)], [component];
      new;
      assert Spelled([component]) == component + "" == component;
    }

    /** Put a token in the place of some text. */
    method SplitIn(spot: Spot, token: string)
      requires Valid() && IsSpot(pieces, spot)
      modifies this
      ensures Valid() && Whole() == old(Whole())
      ensures pieces == Spliced(old(pieces), spot, token) && texts == SplicedTexts(old(pieces), old(texts), spot)
    {
      SplicedStands(pieces, texts, spot, token);
      SplicedSpells(pieces, texts, spot);
      var text := pieces[spot.index].text;
      var replacement := TextPiece(text[..spot.from]) + ([Stands(token)] + TextPiece(text[spot.to..]));
      texts := SplicedTexts(pieces, texts, spot);
      pieces := pieces[..spot.index] + replacement + pieces[spot.index + 1..];
    }

    /** In the first text where the value occurs as words of its own, whatever their case, the token
        stands for it. */
    method ReplaceWords(value: string, token: string, fold: char -> char, alphanumeric: char -> bool)
        returns (found: bool, ghost spot: Spot)
      requires Valid()
      modifies this
      ensures Valid() && Whole() == old(Whole())
      ensures found ==> IsSpot(old(pieces), spot) && pieces == Spliced(old(pieces), spot, token)
      ensures found ==> WordsAt(old(pieces)[spot.index].text, value, spot.from, fold, alphanumeric) && spot.to == spot.from + |value|
      ensures found ==> forall i, k :: 0 <= i < spot.index && old(pieces)[i].Plain? && 0 <= k ==>
        !WordsAt(old(pieces)[i].text, value, k, fold, alphanumeric)
      ensures found ==> forall k :: 0 <= k < spot.from ==> !WordsAt(old(pieces)[spot.index].text, value, k, fold, alphanumeric)
      ensures !found ==> pieces == old(pieces) && forall i, k :: 0 <= i < |pieces| && pieces[i].Plain? && 0 <= k ==>
        !WordsAt(pieces[i].text, value, k, fold, alphanumeric)
    {
      spot := Spot(0, 0, 0);
      for index := 0 to |pieces|
        invariant pieces == old(pieces) && texts == old(texts)
        invariant forall i, k :: 0 <= i < index && pieces[i].Plain? && 0 <= k ==>
          !WordsAt(pieces[i].text, value, k, fold, alphanumeric)
      {
        if pieces[index].Plain? {
          var at := FindWords(pieces[index].text, value, fold, alphanumeric);
          if at.Some? {
            spot := Spot(index, at.value, at.value + |value|);
            SplitIn(Spot(index, at.value, at.value + |value|), token);
            return true, spot;
          }
        }
      }
      return false, spot;
    }

    /** The first number that is `value`, with so many digits if given, becomes a token. */
    method ReplaceNumber(value: nat, width: Option<nat>, token: string) returns (digits: Option<nat>, ghost spot: Spot)
      requires Valid()
      modifies this
      ensures Valid() && Whole() == old(Whole())
      ensures digits.Some? ==> IsSpot(old(pieces), spot) && pieces == Spliced(old(pieces), spot, token)
      ensures digits.Some? ==> NumberAt(old(pieces)[spot.index].text, (spot.from, spot.to), value, width) && digits.value == spot.to - spot.from
      ensures digits.Some? ==> forall i, run :: 0 <= i < spot.index && old(pieces)[i].Plain? ==>
        !NumberAt(old(pieces)[i].text, run, value, width)
      ensures digits.Some? ==> forall run :: NumberAt(old(pieces)[spot.index].text, run, value, width) ==> spot.from <= run.0
      ensures digits.None? ==> pieces == old(pieces) && forall i, run :: 0 <= i < |pieces| && pieces[i].Plain? ==>
        !NumberAt(pieces[i].text, run, value, width)
    {
      spot := Spot(0, 0, 0);
      for index := 0 to |pieces|
        invariant pieces == old(pieces) && texts == old(texts)
        invariant forall i, run :: 0 <= i < index && pieces[i].Plain? ==> !NumberAt(pieces[i].text, run, value, width)
      {
        if pieces[index].Plain? {
          var found := FindNumber(pieces[index].text, value, width);
          if found.Some? {
            var (from, to) := found.value;
            spot := Spot(index, from, to);
            SplitIn(Spot(index, from, to), token);
            return Some(to - from), spot;
          }
        }
      }
      return None, spot;
    }

    /** `disc-track` numbering becomes the track's token. */
    method ReplaceDiscTrack(disc: nat, track: nat) returns (digits: Option<nat>, ghost spot: Spot, ghost middle: nat)
      requires Valid()
      modifies this
      ensures Valid() && Whole() == old(Whole())
      ensures digits.Some? ==> IsSpot(old(pieces), spot) && pieces == Spliced(old(pieces), spot, "track")
      ensures digits.Some? ==> DiscTrackAt(old(pieces)[spot.index].text, (spot.from, middle), (middle + 1, spot.to), disc, track)
      ensures digits.Some? ==> digits.value == spot.to - (middle + 1)
      ensures digits.Some? ==> forall i, a, b :: 0 <= i < spot.index && old(pieces)[i].Plain? ==>
        !DiscTrackAt(old(pieces)[i].text, a, b, disc, track)
      ensures digits.Some? ==> forall a, b :: DiscTrackAt(old(pieces)[spot.index].text, a, b, disc, track) ==> spot.from <= a.0
      ensures digits.None? ==> pieces == old(pieces) && forall i, a, b :: 0 <= i < |pieces| && pieces[i].Plain? ==>
        !DiscTrackAt(pieces[i].text, a, b, disc, track)
    {
      spot, middle := Spot(0, 0, 0), 0;
      for index := 0 to |pieces|
        invariant pieces == old(pieces) && texts == old(texts)
        invariant forall i, a, b :: 0 <= i < index && pieces[i].Plain? ==> !DiscTrackAt(pieces[i].text, a, b, disc, track)
      {
        if pieces[index].Plain? {
          var found := FindDiscTrack(pieces[index].text, disc, track);
          if found.Some? {
            var (a, b) := found.value;
            spot, middle := Spot(index, a.0, b.1), a.1;
            SplitIn(Spot(index, a.0, b.1), "track");
            return Some(b.1 - b.0), spot, middle;
          }
        }
      }
      return None, spot, middle;
    }
  }
}
