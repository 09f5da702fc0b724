/** Telling that two folder names are one album's (`crates/delune-library/src/merge.rs`). A key is
    made of what a title says, without brackets that are only notes; an album's key also leaves
    out a year in front and the year or format brackets that templates and rippers add behind.
    The module shows that whitespace says nothing, then what one bracket does to a key, and then
    what any number of them do. */
module AlbumKeys {
  import opened Text

  /** What the keys need to know of characters and notes: lower case, letters and digits,
      and which bracketed parts of a title are only notes. */
  datatype Script = Script(fold: Folding, alphanumeric: char -> bool, note: string -> bool)

  /** Accents don't count. */
  function Unaccent(c: char): char {
    var n := c as int;
    if 0xE0 <= n <= 0xE5 || n == 0x101 then 'a'
    else if n == 0xE7 || n == 0x10D then 'c'
    else if 0xE8 <= n <= 0xEB || n == 0x113 then 'e'
    else if 0xEC <= n <= 0xEF then 'i'
    else if n == 0xF1 then 'n'
    else if 0xF2 <= n <= 0xF6 || n == 0xF8 then 'o'
    else if 0xF9 <= n <= 0xFC then 'u'
    else if n == 0xFD || n == 0xFF then 'y'
    else c
  }

  /** What text says of a title: letters and digits, and "and" for "&". */
  function Said(lower: string, script: Script): string {
    if lower == "" then ""
    else
      (if lower[0] == '&' then "and" else if script.alphanumeric(lower[0]) then [Unaccent(lower[0])] else "") + Said(lower[1..], script)
  }

  function PushKey(text: string, script: Script): string {
    Said(Lower(text, script.fold), script)
  }

  /** Where the first of some characters is, or the length. */
  function FindAny(s: string, a: char, b: char): (at: nat)
    ensures at <= |s| && (at < |s| ==> s[at] == a || s[at] == b)
    ensures forall i :: 0 <= i < at ==> s[i] != a && s[i] != b
  {
    if s == "" || s[0] == a || s[0] == b then 0 else 1 + FindAny(s[1..], a, b)
  }

  function Closing(open: char): char {
    if open == '(' then ')' else ']'
  }

  /** What a title says up to and including its first bracketed part, and the rest of it. A
      bracket that is never closed is passed over. */
  function UpToBracket(s: string, start: nat, script: Script): (r: (string, string))
    requires start < |s|
    ensures |r.1| < |s|
  {
    var before, tail := PushKey(s[..start], script), s[start..];
    var end := FindAny(tail, Closing(s[start]), Closing(s[start]));
    if end == |tail| then (before, s[start + 1..])
    else if end == 0 || script.note(tail[1..end]) then (before, tail[end + 1..])
    else (before + PushKey(tail[1..end], script), tail[end + 1..])
  }

  /** What titles are compared by: folded letters and digits outside bracketed notes. */
  function TitleKey(s: string, script: Script): string
    decreases |s|
  {
    var start := FindAny(s, '(', '[');
    if start == |s| then PushKey(s, script)
    else UpToBracket(s, start, script).0 + TitleKey(UpToBracket(s, start, script).1, script)
  }

  method FindTitleKey(title: string, script: Script) returns (out: string)
    ensures out == TitleKey(title, script)
  {
    out := "";
    var rest := title;
    assert "" + TitleKey(rest, script) == TitleKey(rest, script);
    var start := FindAny(rest, '(', '[');
    while start < |rest|
      invariant start == FindAny(rest, '(', '[') && out + TitleKey(rest, script) == TitleKey(title, script)
      decreases |rest|
    {
      var (said, next) := UpToBracket(rest, start, script);
      Assoc(out, said, TitleKey(next, script));
      out, rest := out + said, next;
      start := FindAny(rest, '(', '[');
    }
    out := out + PushKey(rest, script);
  }

  lemma Assoc(a: string, b: string, c: string)
    ensures (a + b) + c == a + (b + c)
  {
  }

  // ---- decoration ----

  predicate AllDigits(s: string) {
    forall c :: c in s ==> IsDigit(c)
  }

  const FORMATS: seq<string> := ["flac", "mp3", "alac", "aac", "ogg", "opus", "wav", "web", "cd", "vinyl", "lossless", "hi-res",
                                 "hires", "24bit", "24-bit", "16bit", "320", "v0"]

  /** The words between what is neither a letter, a digit nor a dash. */
  function WordsOf(s: string, script: Script): (words: seq<string>)
    ensures words != []
  {
    if s == "" then [""]
    else
      var rest := WordsOf(s[1..], script);
      if !script.alphanumeric(s[0]) && s[0] != '-' then [""] + rest else [[s[0]] + rest[0]] + rest[1..]
  }

  /** The inside of brackets that says nothing of the title: a year's four digits, or a word
      of a format. */
  predicate IsDecoration(inner: string, script: Script) {
    var lower := Lower(Trim(inner), script.fold);
    || (Bytes(lower) == 4 && AllDigits(lower))
    || exists word :: word in WordsOf(lower, script) && word in FORMATS
  }

  function Added(script: Script): string -> bool {
    inner => IsDecoration(inner, script)
  }

  function FindLast(s: string, c: char): (at: Option<nat>)
    ensures at.Some? ==> at.value < |s| && s[at.value] == c && c !in s[at.value + 1..]
    ensures at.None? ==> c !in s
  {
    if s == "" then None
    else if s[|s| - 1] == c then Some(|s| - 1)
    else
      var at := FindLast(s[..|s| - 1], c);
      LastOne(s, if at.Some? then at.value + 1 else 0, c); at
  }

  lemma LastOne(s: string, from: nat, c: char)
    requires s != "" && from < |s| && c !in s[..|s| - 1][from..] && s[|s| - 1] != c
    ensures c !in s[from..]
  {
    assert s[from..] == s[..|s| - 1][from..] + [s[|s| - 1]];
  }

  /** The name up to its last `open`, if what follows but for the last character is an addition. */
  function WithoutFrom(t: string, open: char, added: string -> bool): (r: Option<string>)
    requires t != "" && t[|t| - 1] != open
    ensures r.Some? ==> |r.value| < |t|
  {
    var at := FindLast(t, open);
    if at.Some? && added(t[at.value + 1..|t| - 1]) then Some(t[..at.value]) else None
  }

  /** The name without the decoration at its end, if it has any. */
  function WithoutLast(s: string, added: string -> bool): (r: Option<string>)
    ensures r.Some? ==> |r.value| < |s|
  {
    var t := TrimEnd(s);
    if t == "" then None
    else if t[|t| - 1] == ')' then WithoutFrom(t, '(', added)
    else if t[|t| - 1] == ']' then WithoutFrom(t, '[', added)
    else None
  }

  function Undecorated(s: string, added: string -> bool): string
    decreases |s|
  {
    var less := WithoutLast(s, added);
    if less.None? then s else Undecorated(less.value, added)
  }

  /** Stripping ends: each round leaves a shorter name. */
  method StripDecoration(name: string, added: string -> bool) returns (s: string)
    ensures s == Undecorated(name, added)
  {
    s := name;
    while WithoutLast(s, added).Some?
      invariant Undecorated(s, added) == Undecorated(name, added)
      decreases |s|
    {
      s := WithoutLast(s, added).value;
    }
  }

  // ---- the key ----

  predicate IsAt(s: string, text: string, at: nat) {
    at + |text| <= |s| && s[at..at + |text|] == text
  }

  lemma AtInRest(s: string, text: string, at: nat)
    requires s != "" && IsAt(s[1..], text, at)
    ensures IsAt(s, text, at + 1)
  {
    assert s[at + 1..at + 1 + |text|] == s[1..][at..at + |text|];
  }

  /** Where `separator` first is. */
  function FindText(s: string, separator: string): (at: Option<nat>)
    ensures at.Some? ==> IsAt(s, separator, at.value)
  {
    if IsAt(s, separator, 0) then Some(0)
    else if s == "" then None
    else
      var rest := FindText(s[1..], separator);
      if rest.None? then None
      else
        AtInRest(s, separator, rest.value);
        Some(rest.value + 1)
  }

  /** Without a year and a dash in front. */
  function WithoutYear(s: string): string {
    var dash := FindText(s, " - ");
    if dash.Some? && Bytes(s[..dash.value]) == 4 && AllDigits(s[..dash.value]) then s[dash.value + 3..] else s
  }

  /** The key of a name once leading years and trailing decorations are off. */
  function AlbumKey(name: string, script: Script): string {
    KeyOf(WithoutYear(Trim(name)), Added(script), script)
  }

  function KeyOf(name: string, added: string -> bool, script: Script): string {
    TitleKey(Undecorated(name, added), script)
  }

  // ---- spaces at the end say nothing ----

  predicate AllSpaces(s: string) {
    forall c :: c in s ==> IsSpace(c)
  }

  /** Whitespace is no letter, in lower case either. */
  ghost predicate SpacesSayNothing(script: Script) {
    forall c :: IsSpace(c) ==> SaysNothing(c, script)
  }

  predicate SaysNothing(c: char, script: Script) {
    Said(script.fold(c), script) == ""
  }

  lemma {:induction false} SaidAdd(a: string, b: string, script: Script)
    ensures Said(a + b, script) == Said(a, script) + Said(b, script)
  {
    if a == "" {
      assert a + b == b;
    } else {
      assert (a + b)[1..] == a[1..] + b;
      SaidAdd(a[1..], b, script);
    }
  }

  lemma {:induction false} SpacesSay(spaces: string, script: Script)
    requires SpacesSayNothing(script) && AllSpaces(spaces)
    ensures PushKey(spaces, script) == ""
  {
    if spaces != "" {
      assert spaces[0] in spaces && SaysNothing(spaces[0], script);
      assert forall c :: c in spaces[1..] ==> c in spaces;
      SpacesSay(spaces[1..], script);
      SaidAdd(script.fold(spaces[0]), Lower(spaces[1..], script.fold), script);
    }
  }

  lemma PushSpaces(s: string, spaces: string, script: Script)
    requires SpacesSayNothing(script) && AllSpaces(spaces)
    ensures PushKey(s + spaces, script) == PushKey(s, script)
  {
    LowerAdd(s, spaces, script.fold);
    SaidAdd(Lower(s, script.fold), Lower(spaces, script.fold), script);
    SpacesSay(spaces, script);
  }

  lemma {:induction false} FindBeforeSpaces(s: string, spaces: string, a: char, b: char)
    requires AllSpaces(spaces) && !IsSpace(a) && !IsSpace(b)
    ensures FindAny(s + spaces, a, b) == if FindAny(s, a, b) < |s| then FindAny(s, a, b) else |s + spaces|
  {
    if s == "" {
      assert s + spaces == spaces;
      if FindAny(spaces, a, b) < |spaces| {
        assert spaces[FindAny(spaces, a, b)] in spaces;
      }
    } else {
      assert (s + spaces)[1..] == s[1..] + spaces;
      FindBeforeSpaces(s[1..], spaces, a, b);
    }
  }

  lemma UpToSpaces(s: string, start: nat, spaces: string, script: Script)
    requires SpacesSayNothing(script) && AllSpaces(spaces) && start < |s| && (s[start] == '(' || s[start] == '[')
    ensures UpToBracket(s + spaces, start, script) == (UpToBracket(s, start, script).0, UpToBracket(s, start, script).1 + spaces)
  {
    var tail := s[start..];
    assert (s + spaces)[start..] == tail + spaces && (s + spaces)[..start] == s[..start];
    FindBeforeSpaces(tail, spaces, Closing(s[start]), Closing(s[start]));
    var end := FindAny(tail, Closing(s[start]), Closing(s[start]));
    assert (s + spaces)[start + 1..] == s[start + 1..] + spaces;
    if end < |tail| {
      assert (tail + spaces)[1..end] == tail[1..end] && (tail + spaces)[end + 1..] == tail[end + 1..] + spaces;
    }
  }

  /** Whitespace after a title doesn't change its key. */
  lemma {:induction false} TitleKeyTrims(s: string, spaces: string, script: Script)
    requires SpacesSayNothing(script) && AllSpaces(spaces)
    ensures TitleKey(s + spaces, script) == TitleKey(s, script)
    decreases |s|
  {
    var start := FindAny(s, '(', '[');
    FindBeforeSpaces(s, spaces, '(', '[');
    if start < |s| {
      UpToSpaces(s, start, spaces, script);
      TitleKeyTrims(UpToBracket(s, start, script).1, spaces, script);
    } else {
      PushSpaces(s, spaces, script);
    }
  }

  // ---- decorating a name ----

  /** One bracketed decoration at the end of a name, and the spaces before it. */
  datatype Decoration = Decoration(spaces: string, square: bool, inner: string) {
    function Open(): char {
      if square then '[' else '('
    }

    function Bracketed(): string {
      [Open()] + inner + [Closing(Open())]
    }

    predicate Decorates(added: string -> bool) {
      AllSpaces(spaces) && Open() !in inner && added(inner)
    }
  }

  function Decorated(name: string, decorations: seq<Decoration>): string
    decreases |decorations|
  {
    if decorations == [] then name
    else Decorated(name + decorations[0].spaces + decorations[0].Bracketed(), decorations[1..])
  }

  // Trimming: what follows the trimmed name is whitespace.

  lemma {:induction false} TrimEndLeavesSpaces(s: string)
    ensures AllSpaces(s[|TrimEnd(s)|..])
  {
    if s != "" && IsSpace(s[|s| - 1]) {
      var t := s[..|s| - 1];
      TrimEndLeavesSpaces(t);
      assert s[|TrimEnd(t)|..] == t[|TrimEnd(t)|..] + [s[|s| - 1]];
    }
  }

  lemma {:induction false} TrimStartBefore(s: string, more: string)
    requires more != "" && !IsSpace(more[0])
    ensures TrimStart(s + more) == TrimStart(s) + more
  {
    if s == "" {
      assert s + more == more;
    } else {
      assert (s + more)[1..] == s[1..] + more;
      TrimStartBefore(s[1..], more);
    }
  }

  lemma {:induction false} TrimStartSpaces(s: string, spaces: string)
    requires AllSpaces(spaces)
    ensures TrimStart(s) != "" ==> TrimStart(s + spaces) == TrimStart(s) + spaces
    ensures TrimStart(s) == "" ==> TrimStart(s + spaces) == ""
  {
    if s == "" {
      assert s + spaces == spaces;
      if spaces != "" {
        assert spaces[0] in spaces && s + spaces[1..] == spaces[1..];
        TrimStartSpaces(s, spaces[1..]);
      }
    } else {
      assert (s + spaces)[1..] == s[1..] + spaces;
      TrimStartSpaces(s[1..], spaces);
    }
  }

  lemma {:induction false} TrimEndSpaces(s: string, spaces: string)
    requires AllSpaces(spaces)
    ensures TrimEnd(s + spaces) == TrimEnd(s)
  {
    if spaces == "" {
      assert s + spaces == s;
    } else {
      assert spaces[|spaces| - 1] in spaces && (s + spaces)[..|s + spaces| - 1] == s + spaces[..|spaces| - 1];
      TrimEndSpaces(s, spaces[..|spaces| - 1]);
    }
  }

  /** The whitespace between the trimmed name and a decoration after it. */
  function Between(name: string, spaces: string): string {
    TrimStart(name + spaces)[|TrimEnd(TrimStart(name + spaces))|..]
  }

  lemma TrimDecorated(name: string, d: Decoration)
    requires AllSpaces(d.spaces)
    ensures AllSpaces(Between(name, d.spaces))
    ensures TrimStart(name + d.spaces) == Trim(name) + Between(name, d.spaces)
    ensures Trim(name + d.spaces + d.Bracketed()) == Trim(name) + Between(name, d.spaces) + d.Bracketed()
  {
    var start := TrimStart(name + d.spaces);
    TrimSpaces(name, d.spaces);
    TrimEndLeavesSpaces(start);
    assert start == Trim(name) + Between(name, d.spaces);
    TrimStartBefore(name + d.spaces, d.Bracketed());
    BracketEnds(start, d);
  }

  lemma BracketEnds(s: string, d: Decoration)
    ensures TrimEnd(s + d.Bracketed()) == s + d.Bracketed()
  {
    assert (s + d.Bracketed())[|s + d.Bracketed()| - 1] == Closing(d.Open());
  }

  lemma TrimSpaces(name: string, spaces: string)
    requires AllSpaces(spaces)
    ensures TrimEnd(TrimStart(name + spaces)) == Trim(name)
  {
    TrimStartSpaces(name, spaces);
    TrimEndSpaces(TrimStart(name), spaces);
  }

  // The dash: the first " - " is the one before, or comes after a bracket.

  lemma {:induction false} FindTextFirst(s: string, separator: string, at: nat)
    requires at + |separator| <= |s| && s[at..at + |separator|] == separator
    ensures FindText(s, separator).Some? && FindText(s, separator).value <= at
  {
    if at > 0 && s[..|separator|] != separator {
      assert s[1..][at - 1..at - 1 + |separator|] == s[at..at + |separator|];
      FindTextFirst(s[1..], separator, at - 1);
    }
  }

  /** A name that is nothing but a year and a dash. */
  predicate JustAYear(s: string) {
    |s| >= 7 && AllDigits(s[..4]) && s[4..7] == " - " && AllSpaces(s[7..])
  }

  lemma SpaceAfter(y: string, spaces: string, more: string, at: nat)
    requires AllSpaces(spaces) && |y| <= at < |y + spaces|
    ensures IsSpace((y + spaces + more)[at])
  {
    assert (y + spaces + more)[at] in spaces;
  }

  lemma DashBeforeBracket(y: string, spaces: string, more: string, at: nat)
    requires AllSpaces(spaces) && more != "" && !IsSpace(more[0]) && more[0] != '-'
    requires at + 3 <= |y + spaces + more| && (y + spaces + more)[at..at + 3] == " - " && at <= |y + spaces|
    ensures at + 2 <= |y| && y[at] == ' ' && y[at + 1] == '-'
    ensures at + 3 <= |y| ==> y[at..at + 3] == " - "
    ensures at + 2 == |y| ==> spaces != "" && spaces[0] == ' '
  {
    var s := y + spaces + more;
    assert s[at] == s[at..at + 3][0] && s[at + 1] == s[at..at + 3][1] && s[at + 2] == s[at..at + 3][2];
    if |y| <= at + 1 < |y + spaces| {
      SpaceAfter(y, spaces, more, at + 1);
    }
    if at + 3 <= |y| {
      assert y[at..at + 3] == s[at..at + 3];
    }
  }

  lemma {:induction false} DigitBytes(s: string)
    requires AllDigits(s)
    ensures Bytes(s) == |s|
  {
    if s != "" {
      assert s[0] in s && forall c :: c in s[1..] ==> c in s;
      DigitBytes(s[1..]);
    }
  }

  predicate IsYear(s: string) {
    Bytes(s) == 4 && AllDigits(s)
  }

  /** A year ends before the first bracket. */
  lemma YearBeforeBracket(y: string, spaces: string, more: string, at: nat)
    requires more != "" && !IsDigit(more[0]) && |y + spaces| < at <= |y + spaces + more|
    ensures !AllDigits((y + spaces + more)[..at])
  {
    assert (y + spaces + more)[..at][|y + spaces|] == more[0];
  }

  lemma DashKept(y: string, spaces: string, more: string, at: nat)
    requires AllSpaces(spaces) && more != "" && !IsSpace(more[0]) && more[0] != '-'
    requires FindText(y, " - ") == Some(at)
    ensures FindText(y + spaces + more, " - ") == Some(at)
  {
    var s := y + spaces + more;
    assert s[at..at + 3] == y[at..at + 3];
    FindTextFirst(s, " - ", at);
    var dash := FindText(s, " - ").value;
    DashBeforeBracket(y, spaces, more, dash);
    FindTextFirst(y, " - ", dash);
  }

  /** A dash that only the decoration makes comes after a bracket, or after nothing but a year. */
  lemma DashMade(y: string, spaces: string, more: string, at: nat)
    requires AllSpaces(spaces) && more != "" && !IsSpace(more[0]) && more[0] != '-' && !IsDigit(more[0])
    requires FindText(y, " - ").None? && FindText(y + spaces + more, " - ") == Some(at)
    requires IsYear((y + spaces + more)[..at])
    ensures JustAYear(y + spaces)
  {
    var s := y + spaces + more;
    if at > |y + spaces| {
      YearBeforeBracket(y, spaces, more, at);
    } else {
      DashBeforeBracket(y, spaces, more, at);
      if at + 3 <= |y| {
        FindTextFirst(y, " - ", at);
      } else {
        DigitBytes(s[..at]);
        JustTheYear(y, spaces, more);
      }
    }
  }

  lemma JustTheYear(y: string, spaces: string, more: string)
    requires AllSpaces(spaces) && spaces != "" && |y| == 6 && AllDigits((y + spaces + more)[..4])
    requires (y + spaces + more)[4..7] == " - "
    ensures JustAYear(y + spaces)
  {
    var s, t := y + spaces + more, y + spaces;
    assert t[..4] == s[..4] && t[4..7] == s[4..7];
    assert t[7..] == spaces[1..];
    assert forall c :: c in spaces[1..] ==> c in spaces;
  }

  lemma SameAround(y: string, spaces: string, more: string, at: nat)
    requires at + 3 <= |y|
    ensures (y + spaces + more)[..at] == y[..at] && (y + spaces + more)[at + 3..] == y[at + 3..] + spaces + more
  {
  }

  lemma WithoutYearDecorated(y: string, spaces: string, more: string)
    requires AllSpaces(spaces) && more != "" && (more[0] == '(' || more[0] == '[') && !JustAYear(y + spaces)
    ensures WithoutYear(y + spaces + more) == WithoutYear(y) + spaces + more
  {
    if FindText(y, " - ").Some? {
      YearStaysDecorated(y, spaces, more, FindText(y, " - ").value);
    } else {
      NoYearDecorated(y, spaces, more);
    }
  }

  lemma YearStaysDecorated(y: string, spaces: string, more: string, at: nat)
    requires AllSpaces(spaces) && more != "" && (more[0] == '(' || more[0] == '[') && FindText(y, " - ") == Some(at)
    ensures WithoutYear(y + spaces + more) == WithoutYear(y) + spaces + more
  {
    DashKept(y, spaces, more, at);
    SameAround(y, spaces, more, at);
    WithoutYearAt(y, at);
    WithoutYearAt(y + spaces + more, at);
  }

  lemma WithoutYearAt(s: string, at: nat)
    requires FindText(s, " - ") == Some(at)
    ensures WithoutYear(s) == if IsYear(s[..at]) then s[at + 3..] else s
  {
  }

  lemma NoYearDecorated(y: string, spaces: string, more: string)
    requires AllSpaces(spaces) && more != "" && (more[0] == '(' || more[0] == '[') && !JustAYear(y + spaces)
    requires FindText(y, " - ").None?
    ensures WithoutYear(y + spaces + more) == y + spaces + more
  {
    var s := y + spaces + more;
    var dash := FindText(s, " - ");
    if dash.Some? && IsYear(s[..dash.value]) {
      DashMade(y, spaces, more, dash.value);
    }
  }

  // Stripping: one decoration goes, and the whitespace before it says nothing.

  lemma {:induction false} FindLastAfter(s: string, inner: string, c: char)
    requires c !in inner
    ensures FindLast(s + [c] + inner, c) == Some(|s|)
  {
    var whole := s + [c] + inner;
    if inner != "" {
      assert inner[|inner| - 1] in inner;
      assert whole[..|whole| - 1] == s + [c] + inner[..|inner| - 1];
      FindLastAfter(s, inner[..|inner| - 1], c);
    }
  }

  lemma WithoutFromBracket(s: string, open: char, after: string, added: string -> bool)
    requires after != "" && open !in after && added(after[..|after| - 1])
    ensures WithoutFrom(s + [open] + after, open, added) == Some(s)
  {
    var whole := s + [open] + after;
    FindLastAfter(s, after, open);
    assert whole[|s| + 1..|whole| - 1] == after[..|after| - 1] && whole[..|s|] == s;
  }

  lemma WithoutLastBracket(s: string, open: char, inner: string, added: string -> bool)
    requires (open == '(' || open == '[') && open !in inner && added(inner)
    ensures WithoutLast(s + [open] + (inner + [Closing(open)]), added) == Some(s)
  {
    var after := inner + [Closing(open)];
    assert after[..|after| - 1] == inner;
    WithoutFromBracket(s, open, after, added);
    ClosedEnds(s + [open], inner, Closing(open));
  }

  lemma ClosedEnds(s: string, inner: string, close: char)
    requires close == ')' || close == ']'
    ensures s + (inner + [close]) == TrimEnd(s + (inner + [close])) && (s + (inner + [close]))[|s + inner|] == close
  {
  }

  lemma WithoutLastDecoration(s: string, d: Decoration, added: string -> bool)
    requires d.Decorates(added)
    ensures WithoutLast(s + d.Bracketed(), added) == Some(s)
  {
    WithoutLastBracket(s, d.Open(), d.inner, added);
    Assoc(s, [d.Open()], d.inner + [Closing(d.Open())]);
    Assoc([d.Open()], d.inner, [Closing(d.Open())]);
  }

  lemma KeyOfSpaces(s: string, spaces: string, added: string -> bool, script: Script)
    requires SpacesSayNothing(script) && AllSpaces(spaces)
    ensures KeyOf(s + spaces, added, script) == KeyOf(s, added, script)
  {
    WithoutLastSpaces(s, spaces, added);
    if WithoutLast(s, added).None? {
      TitleKeyTrims(s, spaces, script);
    }
  }

  lemma WithoutLastSpaces(s: string, spaces: string, added: string -> bool)
    requires AllSpaces(spaces)
    ensures WithoutLast(s + spaces, added) == WithoutLast(s, added)
  {
    TrimEndSpaces(s, spaces);
  }

  lemma KeyOfDecorated(s: string, spaces: string, d: Decoration, added: string -> bool, script: Script)
    requires SpacesSayNothing(script) && AllSpaces(spaces) && d.Decorates(added)
    ensures KeyOf(s + spaces + d.Bracketed(), added, script) == KeyOf(s, added, script)
  {
    WithoutLastDecoration(s + spaces, d, added);
    KeyOfSpaces(s, spaces, added, script);
  }

  lemma OneDecoration(name: string, d: Decoration, script: Script)
    requires SpacesSayNothing(script) && d.Decorates(Added(script))
    requires !JustAYear(TrimStart(name + d.spaces))
    ensures AlbumKey(name + d.spaces + d.Bracketed(), script) == AlbumKey(name, script)
  {
    var y, spaces := Trim(name), Between(name, d.spaces);
    TrimDecorated(name, d);
    WithoutYearDecorated(y, spaces, d.Bracketed());
    KeyOfDecorated(WithoutYear(y), spaces, d, Added(script), script);
  }

  // ---- and the one name whose key does change ----

  /** Digits are digits in lower case. */
  ghost predicate DigitsAreThemselves(script: Script) {
    forall c :: IsDigit(c) ==> SaysItself(c, script)
  }

  predicate SaysItself(c: char, script: Script) {
    script.fold(c) == [c] && script.alphanumeric(c)
  }

  lemma YearKeepsDigits(year: string, script: Script)
    requires DigitsAreThemselves(script) && |year| == 4 && AllDigits(year)
    ensures TitleKey(year + " -", script) != ""
  {
    var c := year[0];
    assert c in year && SaysItself(c, script);
    NoBracket(year, script);
    assert (year + " -")[0] == c;
    assert Lower(year + " -", script.fold)[0] == c;
  }

  lemma {:induction false} FindNone(s: string, a: char, b: char)
    requires a !in s && b !in s
    ensures FindAny(s, a, b) == |s|
  {
    if s != "" {
      assert s[0] in s && forall c :: c in s[1..] ==> c in s;
      FindNone(s[1..], a, b);
    }
  }

  lemma NoBracket(year: string, script: Script)
    requires AllDigits(year)
    ensures TitleKey(year + " -", script) == PushKey(year + " -", script)
  {
    FindNone(year + " -", '(', '[');
  }

  lemma DigitAt(s: string, n: nat, at: nat)
    requires at < n <= |s| && AllDigits(s[..n])
    ensures IsDigit(s[at])
  {
    assert s[..n][at] == s[at];
  }

  lemma NoDashInDigits(s: string, n: nat, at: nat)
    requires n <= |s| && AllDigits(s[..n]) && at + 3 <= |s| && s[at..at + 3] == " - "
    ensures n <= at
  {
    if at < n {
      assert s[at] == s[at..at + 3][0];
      DigitAt(s, n, at);
    }
  }

  lemma TrimmedYear(start: string)
    requires JustAYear(start)
    ensures TrimEnd(start) == start[..6] && start[4..6] == " -"
  {
    assert start[4..6] == start[4..7][..2] && start[5] == start[4..7][1] && start[6] == start[4..7][2];
    assert start == start[..6] + start[6..] && start[6..] == [start[6]] + start[7..];
    TrimEndSpaces(start[..6], start[6..]);
  }

  /** A year alone is its own key. */
  lemma YearsKey(y: string, added: string -> bool, script: Script)
    requires DigitsAreThemselves(script) && |y| == 6 && AllDigits(y[..4]) && y[4..6] == " -"
    ensures KeyOf(WithoutYear(y), added, script) != ""
  {
    if FindText(y, " - ").Some? {
      NoDashInDigits(y, 4, FindText(y, " - ").value);
    }
    assert y == y[..4] + " -";
    assert y[5] == y[4..6][1];
    YearKeepsDigits(y[..4], script);
  }

  lemma YearTaken(start: string, more: string)
    requires JustAYear(start)
    ensures WithoutYear(start + more) == start[7..] + more
  {
    var s := start + more;
    assert s[4..7] == start[4..7] && s[..4] == start[..4];
    FindTextFirst(s, " - ", 4);
    NoDashInDigits(s, 4, FindText(s, " - ").value);
    DigitBytes(s[..4]);
    assert s[7..] == start[7..] + more;
  }

  /** With a decoration after it, it is taken for the year in front of an empty name. */
  lemma DecoratedYearsKey(start: string, d: Decoration, added: string -> bool, script: Script)
    requires JustAYear(start) && SpacesSayNothing(script) && d.Decorates(added)
    ensures KeyOf(WithoutYear(start + d.Bracketed()), added, script) == ""
  {
    YearTaken(start, d.Bracketed());
    assert "" + start[7..] == start[7..];
    KeyOfDecorated("", start[7..], d, added, script);
    assert WithoutLast("", added).None?;
  }

  /** One decoration leaves the key alone, unless the name is nothing but a year and a dash:
      then the year is taken for a prefix, and nothing is left. */
  lemma OneDecorationIff(name: string, d: Decoration, script: Script)
    requires SpacesSayNothing(script) && DigitsAreThemselves(script) && d.Decorates(Added(script))
    ensures AlbumKey(name + d.spaces + d.Bracketed(), script) == AlbumKey(name, script) <==> !JustAYear(TrimStart(name + d.spaces))
  {
    var start := TrimStart(name + d.spaces);
    if JustAYear(start) {
      TrimDecorated(name, d);
      TrimmedYear(start);
      TrimSpaces(name, d.spaces);
      assert start[..6][..4] == start[..4] && start[..6][4..6] == start[4..6];
      YearsKey(start[..6], Added(script), script);
      DecoratedYearsKey(start, d, Added(script), script);
    } else {
      OneDecoration(name, d, script);
    }
  }

  // ---- any number of decorations ----

  /** After one decoration a name is never just a year. */
  lemma DecoratedIsNoYear(name: string, d: Decoration, spaces: string)
    requires AllSpaces(spaces)
    ensures !JustAYear(TrimStart(name + d.spaces + d.Bracketed() + spaces))
  {
    TrimStartBefore(name + d.spaces, d.Bracketed());
    TrimStartSpaces(name + d.spaces + d.Bracketed(), spaces);
    ClosedIsNoYear(TrimStart(name + d.spaces) + d.Bracketed(), spaces);
  }

  lemma ClosedIsNoYear(s: string, spaces: string)
    requires AllSpaces(spaces) && s != "" && (s[|s| - 1] == ')' || s[|s| - 1] == ']')
    ensures !JustAYear(s + spaces)
  {
    TrimEndSpaces(s, spaces);
    if JustAYear(s + spaces) {
      TrimmedYear(s + spaces);
    }
  }

  /** Any number of decorations leaves an album's key alone, unless the name was nothing but a
      year and a dash. */
  lemma {:induction false} KeysIgnoreDecorationIff(name: string, decorations: seq<Decoration>, script: Script)
    requires SpacesSayNothing(script) && DigitsAreThemselves(script)
    requires forall d :: d in decorations ==> d.Decorates(Added(script))
    ensures AlbumKey(Decorated(name, decorations), script) == AlbumKey(name, script)
      <==> decorations == [] || !JustAYear(TrimStart(name + decorations[0].spaces))
    decreases |decorations|
  {
    if decorations != [] {
      var d := decorations[0];
      assert d in decorations;
      OneDecorationIff(name, d, script);
      KeysIgnoreDecorationIff(name + d.spaces + d.Bracketed(), decorations[1..], script);
      if |decorations| > 1 {
        assert decorations[1] in decorations;
        DecoratedIsNoYear(name, d, decorations[1].spaces);
      }
    }
  }
}
