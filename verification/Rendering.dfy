/** Rendering a template to a relative path that is safe on any filesystem
    (`crates/delune-library/src/naming.rs`). */
module Rendering {
  import opened Text
  import opened Paths
  import opened Templates

  // ---- filling in ----

  /** The value of each token for one track; empty when the track has none. */
  type Values = string -> string

  predicate IsSlash(c: char) {
    c == '/' || c == '\\'
  }

  /** A value with its separators replaced. */
  function Flat(value: string, replacement: string): string {
    if value == "" then "" else (if IsSlash(value[0]) then replacement else [value[0]]) + Flat(value[1..], replacement)
  }

  /** What a part comes to. A group is dropped when a token in it has no value. */
  function RawPart(part: Part, values: Values, replacement: string): string
    decreases part
  {
    match part
    case Literal(text) => text
    case Token(name) => Flat(values(name), replacement)
    case Optional(inner) => if AllPresent(inner, values) then Raw(inner, values, replacement) else ""
  }

  function Raw(parts: seq<Part>, values: Values, replacement: string): string
    decreases parts
  {
    if parts == [] then "" else Raw(parts[..|parts| - 1], values, replacement) + RawPart(parts[|parts| - 1], values, replacement)
  }

  predicate AllPresent(parts: seq<Part>, values: Values) {
    forall part :: part in parts && part.Token? ==> values(part.name) != ""
  }

  method RenderParts(parts: seq<Part>, values: Values, replacement: string) returns (out: string, allPresent: bool)
    ensures out == Raw(parts, values, replacement) && allPresent == AllPresent(parts, values)
    decreases parts
  {
    out, allPresent := "", true;
    for i := 0 to |parts|
      invariant out == Raw(parts[..i], values, replacement) && allPresent == AllPresent(parts[..i], values)
    {
      assert parts[..i + 1][..|parts[..i + 1]| - 1] == parts[..i] && parts[..i + 1] == parts[..i] + [parts[i]];
      match parts[i] {
        case Literal(text) => out := out + text;
        case Token(name) =>
          var value := values(name);
          allPresent := allPresent && value != "";
          out := out + Flat(value, replacement);
        case Optional(inner) =>
          var buffer, present := RenderParts(inner, values, replacement);
          if present {
            out := out + buffer;
          }
      }
    }
    assert parts[..|parts|] == parts;
  }

  // ---- cleaning up a name ----

  datatype Whitespace = Preserve | Collapse | Underscore

  datatype Options = Options(replacement: string, whitespace: Whitespace, limit: nat)

  predicate IsIllegal(c: char) {
    IsControl(c) || IsSlash(c) || c in "<>:\"|?*"
  }

  function Legal(s: string, replacement: string): string {
    if s == "" then "" else (if IsIllegal(s[0]) then replacement else [s[0]]) + Legal(s[1..], replacement)
  }

  /** The words between whitespace. */
  function Words(s: string): (words: seq<string>)
    ensures forall w, c :: w in words && c in w ==> c in s
  {
    if s == "" then []
    else if IsSpace(s[0]) then Words(s[1..])
    else
      var rest := Words(s[1..]);
      if |s| > 1 && !IsSpace(s[1]) && rest != [] then [[s[0]] + rest[0]] + rest[1..] else [[s[0]]] + rest
  }

  function Spaced(s: string, whitespace: Whitespace): string {
    match whitespace
    case Preserve => s
    case Collapse => Join(Words(s), " ")
    case Underscore => Join(Words(s), "_")
  }

  /** How many characters take exactly `n` bytes, if `n` is between characters. */
  function CharsIn(s: string, n: nat): (k: Option<nat>)
    ensures k.Some? ==> k.value <= |s| && Bytes(s[..k.value]) == n
  {
    if n == 0 then Some(0)
    else if s == "" || n < CharBytes(s[0]) then None
    else
      var rest := CharsIn(s[1..], n - CharBytes(s[0]));
      if rest.None? then None
      else
        assert s[..rest.value + 1][1..] == s[1..][..rest.value];
        Some(rest.value + 1)
  }

  predicate IsBoundary(s: string, n: nat) {
    CharsIn(s, n).Some?
  }

  lemma {:induction false} PrefixBytes(s: string, k: nat)
    requires k <= |s|
    ensures CharsIn(s, Bytes(s[..k])) == Some(k) && Bytes(s[..k]) <= Bytes(s)
  {
    if k > 0 {
      assert s[..k][1..] == s[1..][..k - 1];
      PrefixBytes(s[1..], k - 1);
    }
  }

  lemma {:induction false} BytesMore(s: string, c: char)
    ensures Bytes(s + [c]) == Bytes(s) + CharBytes(c)
  {
    if s == "" {
      assert ("" + [c])[1..] == "";
    } else {
      assert (s + [c])[1..] == s[1..] + [c];
      BytesMore(s[1..], c);
    }
  }

  /** As much of a name as fits in `limit` bytes, whole characters only. */
  function Fitting(s: string, limit: nat): (r: string)
    ensures r <= s && Bytes(r) <= limit
    ensures |r| < |s| ==> limit < Bytes(s[..|r| + 1])
  {
    if s == "" || limit < CharBytes(s[0]) then
      assert s != "" ==> s[..1][1..] == "";
      ""
    else
      var rest := Fitting(s[1..], limit - CharBytes(s[0]));
      assert ([s[0]] + rest)[1..] == rest && s[..|rest| + 1] == [s[0]] + rest;
      assert |rest| + 1 < |s| ==> s[..|rest| + 2][1..] == s[1..][..|rest| + 1];
      [s[0]] + rest
  }

  lemma LongerFits(s: string, a: string, b: string, limit: nat)
    requires a <= s && b <= s && |a| < |b| && Bytes(b) <= limit
    ensures Bytes(s[..|a| + 1]) <= limit
  {
    PrefixBytes(b, |a| + 1);
    assert b[..|a| + 1] == s[..|a| + 1];
  }

  /** Only one beginning of a name is the longest that fits. */
  lemma OneFits(s: string, a: string, b: string, limit: nat)
    requires a <= s && b <= s && Bytes(a) <= limit && Bytes(b) <= limit
    requires |a| < |s| ==> limit < Bytes(s[..|a| + 1])
    requires |b| < |s| ==> limit < Bytes(s[..|b| + 1])
    ensures a == b
  {
    if |a| < |b| {
      LongerFits(s, a, b, limit);
    } else if |b| < |a| {
      LongerFits(s, b, a, limit);
    }
  }

  method Truncate(s: string, limit: nat) returns (r: string)
    ensures r == Fitting(s, limit)
  {
    if Bytes(s) <= limit {
      OneFits(s, s, Fitting(s, limit), limit);
      return s;
    }
    var cut: nat := limit;
    while !IsBoundary(s, cut)
      invariant cut <= limit && forall n :: cut < n <= limit ==> !IsBoundary(s, n)
      decreases cut
    {
      cut := cut - 1;
    }
    var k := CharsIn(s, cut).value;
    r := s[..k];
    if k < |s| {
      PrefixBytes(s, k + 1);
      assert IsBoundary(s, Bytes(s[..k + 1]));
      assert s[..k + 1] == s[..k] + [s[k]];
      BytesMore(s[..k], s[k]);
    }
    OneFits(s, r, Fitting(s, limit), limit);
  }

  predicate AllDots(s: string) {
    s != "" && forall c :: c in s ==> c == '.'
  }

  function Repeated(s: string, n: nat): string {
    if n == 0 then "" else s + Repeated(s, n - 1)
  }

  /** A rendered component after all steps that make it a file name. */
  function Sanitized(component: string, options: Options): string {
    var s := Trim(Fitting(Spaced(Legal(component, options.replacement), options.whitespace), options.limit));
    if AllDots(s) then Repeated(options.replacement, Bytes(s)) else TrimDots(s)
  }

  method SanitizeComponent(component: string, options: Options) returns (r: string)
    ensures r == Sanitized(component, options)
  {
    var s := Truncate(Spaced(Legal(component, options.replacement), options.whitespace), options.limit);
    var trimmed := Trim(s);
    if trimmed != "" && (forall c :: c in trimmed ==> c == '.') {
      return Repeated(options.replacement, Bytes(trimmed));
    }
    return TrimDots(trimmed);
  }

  // ---- what cleaning up ensures ----

  predicate HasSlash(s: string) {
    '/' in s || '\\' in s
  }

  /** At most the limit, no separators, and nothing that navigates. */
  predicate IsSafe(component: string, limit: nat) {
    Bytes(component) <= limit && !HasSlash(component) && component != "." && component != ".."
  }

  /** At most one byte, and neither a separator nor a dot. */
  predicate SafeReplacement(replacement: string) {
    Bytes(replacement) <= 1 && !HasSlash(replacement) && replacement != "."
  }

  lemma {:induction false} LegalHasNoSlash(s: string, replacement: string)
    requires !HasSlash(replacement)
    ensures !HasSlash(Legal(s, replacement))
  {
    if s != "" {
      LegalHasNoSlash(s[1..], replacement);
    }
  }

  lemma {:induction false} JoinChars(words: seq<string>, sep: string)
    ensures forall c :: c in Join(words, sep) ==> c in sep || exists w :: w in words && c in w
  {
    if |words| > 1 {
      JoinChars(words[1..], sep);
    }
  }

  lemma SpacedHasNoSlash(s: string, whitespace: Whitespace)
    requires !HasSlash(s)
    ensures !HasSlash(Spaced(s, whitespace))
  {
    JoinChars(Words(s), " ");
    JoinChars(Words(s), "_");
  }

  lemma {:induction false} SuffixBytes(s: string, k: nat)
    requires k <= |s|
    ensures Bytes(s[k..]) <= Bytes(s)
  {
    if k > 0 {
      assert s[k..] == s[1..][k - 1..];
      SuffixBytes(s[1..], k - 1);
    }
  }

  lemma {:induction false} TrimStartBytes(s: string)
    ensures Bytes(TrimStart(s)) <= Bytes(s)
  {
    if s != "" && IsSpace(s[0]) {
      TrimStartBytes(s[1..]);
    }
  }

  lemma TrimBytes(s: string)
    ensures Bytes(Trim(s)) <= Bytes(s) && Bytes(TrimDots(s)) <= Bytes(s)
  {
    TrimStartBytes(s);
    var start := TrimStart(s);
    PrefixBytes(start, |TrimEnd(start)|);
    assert start[..|TrimEnd(start)|] == TrimEnd(start);
    PrefixBytes(s, |TrimDots(s)|);
    assert s[..|TrimDots(s)|] == TrimDots(s);
  }

  lemma ShortReplacement(replacement: string)
    requires SafeReplacement(replacement)
    ensures '.' !in replacement && |replacement| <= 1
  {
    if replacement != "" {
      var rest := replacement[1..];
      assert Bytes(rest) == 0 && rest == "";
      assert replacement == [replacement[0]];
    }
  }

  lemma {:induction false} RepeatedIs(replacement: string, n: nat)
    requires SafeReplacement(replacement)
    ensures Bytes(Repeated(replacement, n)) <= n && !HasSlash(Repeated(replacement, n)) && '.' !in Repeated(replacement, n)
  {
    ShortReplacement(replacement);
    if n > 0 {
      RepeatedIs(replacement, n - 1);
      var rest := Repeated(replacement, n - 1);
      if replacement == "" {
        assert replacement + rest == rest;
      } else {
        assert (replacement + rest)[1..] == rest;
        assert Bytes(replacement) == CharBytes(replacement[0]) by {
          assert replacement[1..] == "";
        }
      }
    }
  }

  lemma TrimmedHasNoSlash(s: string)
    requires !HasSlash(s)
    ensures !HasSlash(Trim(s)) && !HasSlash(TrimDots(s))
  {
  }

  /** A name that isn't all dots doesn't become so by losing those at its end. */
  lemma DotsGone(s: string)
    requires !AllDots(s)
    ensures TrimDots(s) != "." && TrimDots(s) != ".."
  {
  }

  lemma SanitizedIsSafe(component: string, options: Options)
    requires SafeReplacement(options.replacement)
    ensures IsSafe(Sanitized(component, options), options.limit)
  {
    var legal := Legal(component, options.replacement);
    LegalHasNoSlash(component, options.replacement);
    SpacedHasNoSlash(legal, options.whitespace);
    var cut := Fitting(Spaced(legal, options.whitespace), options.limit);
    assert !HasSlash(cut) by {
      assert forall c :: c in cut ==> c in Spaced(legal, options.whitespace);
    }
    TrimBytes(cut);
    TrimmedHasNoSlash(cut);
    var s := Trim(cut);
    if AllDots(s) {
      RepeatedIs(options.replacement, Bytes(s));
    } else {
      TrimBytes(s);
      TrimmedHasNoSlash(s);
      DotsGone(s);
    }
  }

  // ---- an unsafe replacement isn't ----

  lemma LegalOne(c: char, replacement: string)
    ensures Legal([c], replacement) == (if IsIllegal(c) then replacement else [c]) + ""
  {
    assert [c][1..] == "";
  }

  lemma FitsWhole(s: string)
    ensures Fitting(s, Bytes(s)) == s
  {
    OneFits(s, s, Fitting(s, Bytes(s)), Bytes(s));
  }

  lemma DotBecomes(replacement: string, limit: nat)
    requires 1 <= limit
    ensures Sanitized(".", Options(replacement, Preserve, limit)) == replacement
  {
    LegalOne('.', replacement);
    assert ['.'][1..] == "";
    assert "." + "" == ".";
    FitsWhole(".");
    assert Fitting(".", limit) == ".";
    assert Repeated(replacement, 1) == replacement + "" == replacement;
  }

  /** Cleaning up makes every component safe within every limit if and only if the
      replacement is at most one byte, no separator and no dot. */
  lemma SafeIff(replacement: string)
    ensures (forall component, whitespace, limit ::
      IsSafe(Sanitized(component, Options(replacement, whitespace, limit)), limit)) <==> SafeReplacement(replacement)
  {
    if SafeReplacement(replacement) {
      forall component, whitespace, limit: nat
        ensures IsSafe(Sanitized(component, Options(replacement, whitespace, limit)), limit)
      {
        SanitizedIsSafe(component, Options(replacement, whitespace, limit));
      }
    } else {
      DotBecomes(replacement, 1);
      assert !IsSafe(Sanitized(".", Options(replacement, Preserve, 1)), 1);
    }
  }

  // ---- the rendered path ----

  function Components(pieces: seq<string>, options: Options): (names: seq<string>)
    ensures |names| <= |pieces|
    ensures forall name :: name in names ==> name != "" && exists piece :: piece in pieces && name == Sanitized(piece, options)
  {
    if pieces == [] then []
    else
      var name, rest := Sanitized(pieces[0], options), Components(pieces[1..], options);
      if name == "" then rest else [name] + rest
  }

  /** The folders and the file name a template gives a track. */
  function PathOf(parts: seq<Part>, values: Values, options: Options): seq<string> {
    Components(Split(Raw(parts, values, options.replacement), '/'), options)
  }

  lemma {:induction false} ComponentsMore(pieces: seq<string>, last: string, options: Options)
    ensures Components(pieces + [last], options) ==
      Components(pieces, options) + if Sanitized(last, options) == "" then [] else [Sanitized(last, options)]
  {
    if pieces == [] {
      assert ([] + [last])[1..] == [];
    } else {
      assert (pieces + [last])[1..] == pieces[1..] + [last];
      ComponentsMore(pieces[1..], last, options);
    }
  }

  method CleanNames(pieces: seq<string>, options: Options) returns (names: seq<string>)
    ensures names == Components(pieces, options)
  {
    names := [];
    for i := 0 to |pieces|
      invariant names == Components(pieces[..i], options)
    {
      ComponentsNext(pieces, i, options);
      var name := SanitizeComponent(pieces[i], options);
      if name != "" {
        names := names + [name];
      }
    }
    assert pieces[..|pieces|] == pieces;
  }

  lemma ComponentsNext(pieces: seq<string>, i: nat, options: Options)
    requires i < |pieces|
    ensures var name := Sanitized(pieces[i], options);
      Components(pieces[..i + 1], options) == Components(pieces[..i], options) + if name != "" then [name] else []
  {
    assert pieces[..i + 1] == pieces[..i] + [pieces[i]];
    ComponentsMore(pieces[..i], pieces[i], options);
  }

  /** The text of the parts, cut at its slashes into sanitised components. */
  method RenderPath(parts: seq<Part>, values: Values, options: Options) returns (path: string)
    ensures path == Join(PathOf(parts, values, options), "/")
  {
    var raw, present := RenderParts(parts, values, options.replacement);
    var names := CleanNames(Split(raw, '/'), options);
    path := Join(names, "/");
  }

  function Slashes(s: string): nat {
    multiset(s)['/']
  }

  /** The slashes a template itself has. */
  function OwnSlashes(parts: seq<Part>): nat
    decreases parts
  {
    if parts == [] then 0
    else
      OwnSlashes(parts[..|parts| - 1]) +
      match parts[|parts| - 1]
      case Literal(text) => Slashes(text)
      case Token(_) => 0
      case Optional(inner) => OwnSlashes(inner)
  }

  lemma SlashesAdd(a: string, b: string)
    ensures Slashes(a + b) == Slashes(a) + Slashes(b)
  {
  }

  lemma {:induction false} FlatHasNone(value: string, replacement: string)
    requires '/' !in replacement
    ensures '/' !in Flat(value, replacement)
  {
    if value != "" {
      FlatHasNone(value[1..], replacement);
    }
  }

  lemma {:induction false} RawSlashes(parts: seq<Part>, values: Values, replacement: string)
    requires '/' !in replacement
    ensures Slashes(Raw(parts, values, replacement)) <= OwnSlashes(parts)
    decreases parts
  {
    if parts != [] {
      var rest, last := parts[..|parts| - 1], parts[|parts| - 1];
      RawSlashes(rest, values, replacement);
      SlashesAdd(Raw(rest, values, replacement), RawPart(last, values, replacement));
      match last {
        case Literal(text) =>
        case Token(name) => FlatHasNone(values(name), replacement);
        case Optional(inner) => RawSlashes(inner, values, replacement);
      }
    }
  }

  lemma {:induction false} PiecesBetween(s: string)
    ensures |Split(s, '/')| == Slashes(s) + 1
  {
    if s != "" {
      PiecesBetween(s[1..]);
      assert s == [s[0]] + s[1..];
    }
  }

  /** Whatever the template and the track, each name fits, is no separator and doesn't
      navigate, and there are no more of them than the template's own slashes make. */
  lemma RenderedIsSafe(parts: seq<Part>, values: Values, options: Options)
    requires SafeReplacement(options.replacement)
    ensures forall name :: name in PathOf(parts, values, options) ==>
      IsName(name) && IsSafe(name, options.limit)
    ensures |PathOf(parts, values, options)| <= OwnSlashes(parts) + 1
  {
    var raw := Raw(parts, values, options.replacement);
    RawSlashes(parts, values, options.replacement);
    PiecesBetween(raw);
    forall name | name in PathOf(parts, values, options) ensures IsName(name) && IsSafe(name, options.limit) {
      var piece :| piece in Split(raw, '/') && name == Sanitized(piece, options);
      SanitizedIsSafe(piece, options);
    }
  }
}
