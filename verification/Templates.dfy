/** Naming templates and how they are parsed (`crates/delune-library/src/naming.rs`). */
module Templates {
  import opened Text

  const TOKENS: seq<string> := ["title", "artist", "album_artist", "album", "edition", "year", "track", "disc", "disc_count",
                                "genre", "composer", "label", "catalog", "isrc", "codec", "quality", "bit_depth",
                                "sample_rate", "bitrate", "source", "mbid"]

  datatype Part = Literal(text: string) | Token(name: string) | Optional(inner: seq<Part>)

  datatype Problem = UnclosedBrace | UnknownToken(name: string) | UnmatchedBrace | NestedGroup | UnmatchedBracket | UnclosedGroup
                   | EmptyTemplate

  datatype TemplateError = TemplateError(position: nat, problem: Problem)

  datatype Template = Template(source: string, parts: seq<Part>)

  predicate IsAmong(names: seq<string>, name: string) {
    names != [] && (names[0] == name || IsAmong(names[1..], name))
  }

  predicate IsToken(name: string) {
    IsAmong(TOKENS, name)
  }

  /** Which names are tokens. */
  type Vocabulary = string -> bool

  predicate IsBracket(c: char) {
    c == '{' || c == '}' || c == '[' || c == ']'
  }

  /** The text gathered so far becomes a part, unless there is none. */
  function Flush(parts: seq<Part>, literal: string): seq<Part> {
    if literal == "" then parts else parts + [Literal(literal)]
  }

  /** Where the first `c` is, or the length. */
  function Find(s: string, c: char): (at: nat)
    ensures at <= |s| && (at < |s| ==> s[at] == c)
    ensures c !in s[..at]
  {
    if s == "" || s[0] == c then 0
    else
      var rest := Find(s[1..], c);
      assert s[..rest + 1] == [s[0]] + s[1..][..rest];
      rest + 1
  }

  /** What the characters of a template amount to: text, tokens, the brackets of groups, and
      brackets that are wrong. */
  datatype Lexeme = Char(c: char) | Field(part: Part) | Open | Close | Bad(problem: Problem)

  /** The token whose brace opens the text, and how long it is. */
  function ScanToken(known: Vocabulary, s: string): (r: (Lexeme, nat))
    requires s != "" && s[0] == '{'
    ensures 0 < r.1 <= |s| && (r.0.Bad? || r.0.Field?)
  {
    var end := Find(s, '}');
    if end == |s| then (Bad(UnclosedBrace), 1)
    else
      var name := s[1..end];
      if known(Trim(name)) then (Field(Token(Trim(name))), end + 1) else (Bad(UnknownToken(name)), 1)
  }

  /** What comes first in the text, and how long it is. */
  function Scan(known: Vocabulary, s: string): (r: (Lexeme, nat))
    requires s != ""
    ensures 0 < r.1 <= |s|
    ensures r.0.Bad? || r.0.Open? || r.0.Close? ==> IsBracket(s[0])
    ensures r.0.Open? ==> s[0] == '[' && r.1 == 1
  {
    var c := s[0];
    if IsBracket(c) && 1 < |s| && s[1] == c then (Char(c), 2)
    else if c == '{' then ScanToken(known, s)
    else if c == '}' then (Bad(UnmatchedBrace), 1)
    else if c == '[' then (Open, 1)
    else if c == ']' then (Close, 1)
    else (Char(c), 1)
  }

  type Scanner = string -> (Lexeme, nat)

  function ScannerOf(known: Vocabulary): Scanner {
    (s: string) => if s == "" then (Close, 1) else Scan(known, s)
  }

  ghost predicate ScansTo(scan: Scanner, known: Vocabulary, s: string) {
    s != "" ==> scan(s) == Scan(known, s)
  }

  /** The scanner is that of these tokens. */
  ghost predicate IsScanner(scan: Scanner, known: Vocabulary) {
    forall s :: ScansTo(scan, known, s)
  }

  lemma ScannerScans(known: Vocabulary)
    ensures IsScanner(ScannerOf(known), known)
  {
  }

  /** A piece of the text has been read: how much of it, and which bracket it was about. */
  lemma ScanBounds(scan: Scanner, known: Vocabulary, s: string)
    requires IsScanner(scan, known) && s != ""
    ensures 0 < scan(s).1 <= |s|
    ensures scan(s).0.Bad? || scan(s).0.Open? || scan(s).0.Close? ==> IsBracket(s[0])
    ensures scan(s).0.Open? ==> s[0] == '['
  {
    assert ScansTo(scan, known, s);
  }

  /** What comes first at a place of the template. */
  method ScanAt(known: Vocabulary, chars: string, pos: nat, ghost scan: Scanner) returns (lexeme: Lexeme, n: nat)
    requires pos < |chars| && IsScanner(scan, known)
    ensures (lexeme, n) == scan(chars[pos..]) && 0 < n <= |chars| - pos && (lexeme.Open? ==> n == 1)
  {
    var (l, k) := Scan(known, chars[pos..]);
    assert ScansTo(scan, known, chars[pos..]);
    lexeme, n := l, k;
  }

  /** Parts and where they end. */
  datatype Found = Found(parts: seq<Part>, next: nat)

  /** Parsing the text `s` found at `pos` of a template, with `parts` and then `literal`
      already gathered; `start` is where the group began. */
  function ParseFrom(scan: Scanner, s: string, pos: nat, inGroup: bool, start: nat, parts: seq<Part>, literal: string)
      : (r: Result<Found, TemplateError>)
    ensures r.Ok? ==> pos <= r.value.next <= pos + |s|
    decreases |s|
  {
    if s == "" then
      if inGroup then Err(TemplateError(start, UnclosedGroup)) else Ok(Found(Flush(parts, literal), pos))
    else
      var (lexeme, n) := scan(s);
      if n == 0 || |s| < n then Err(TemplateError(pos, EmptyTemplate))
      else
        match lexeme
        case Char(c) => ParseFrom(scan, s[n..], pos + n, inGroup, start, parts, literal + [c])
        case Field(part) => ParseFrom(scan, s[n..], pos + n, inGroup, start, Flush(parts, literal) + [part], "")
        case Bad(problem) => Err(TemplateError(pos, problem))
        case Close => if inGroup then Ok(Found(Flush(parts, literal), pos + n)) else Err(TemplateError(pos, UnmatchedBracket))
        case Open =>
          if inGroup then Err(TemplateError(pos, NestedGroup))
          else
            var inner := ParseFrom(scan, s[n..], pos + n, true, pos, [], "");
            if inner.Err? then inner
            else
              ParseFrom(scan, s[inner.value.next - pos..], inner.value.next, false, start,
                        Flush(parts, literal) + [Optional(inner.value.parts)], "")
  }

  function GroupStart(pos: nat): nat {
    if pos == 0 then 0 else pos - 1
  }

  method ParseParts(known: Vocabulary, chars: string, from: nat, inGroup: bool, ghost scan: Scanner)
      returns (r: Result<Found, TemplateError>)
    requires from <= |chars| && IsScanner(scan, known)
    ensures r == ParseFrom(scan, chars[from..], from, inGroup, GroupStart(from), [], "")
    decreases |chars| - from, inGroup
  {
    var parts: seq<Part>, literal, pos, start := [], "", from, GroupStart(from);
    ghost var goal := ParseFrom(scan, chars[from..], from, inGroup, start, [], "");
    while pos < |chars|
      invariant from <= pos <= |chars|
      invariant goal == ParseFrom(scan, chars[pos..], pos, inGroup, start, parts, literal)
    {
      var lexeme, n := ScanAt(known, chars, pos, scan);
      assert chars[pos..][n..] == chars[pos + n..];
      match lexeme {
        case Char(c) =>
          literal, pos := literal + [c], pos + n;
        case Field(part) =>
          parts, literal, pos := Flush(parts, literal) + [part], "", pos + n;
        case Bad(problem) =>
          return Err(TemplateError(pos, problem));
        case Close =>
          return if inGroup then Ok(Found(Flush(parts, literal), pos + n)) else Err(TemplateError(pos, UnmatchedBracket));
        case Open =>
          if inGroup {
            return Err(TemplateError(pos, NestedGroup));
          }
          var inner := ParseParts(known, chars, pos + n, true, scan);
          if inner.Err? {
            return inner;
          }
          assert chars[pos..][inner.value.next - pos..] == chars[inner.value.next..];
          parts, literal, pos := Flush(parts, literal) + [Optional(inner.value.parts)], "", inner.value.next;
      }
    }
    if inGroup {
      return Err(TemplateError(start, UnclosedGroup));
    }
    return Ok(Found(Flush(parts, literal), pos));
  }

  /** What parsing a whole template gives. */
  function ParseResult(source: string): Result<Template, TemplateError> {
    var found := ParseFrom(ScannerOf(IsToken), source, 0, false, 0, [], "");
    if found.Err? then Err(found.error)
    else if found.value.parts == [] then Err(TemplateError(0, EmptyTemplate))
    else Ok(Template(source, found.value.parts))
  }

  method Parse(source: string) returns (r: Result<Template, TemplateError>)
    ensures r == ParseResult(source)
  {
    assert source[0..] == source;
    ScannerScans(IsToken);
    var found := ParseParts(IsToken, source, 0, false, ScannerOf(IsToken));
    if found.Err? {
      return Err(found.error);
    }
    if found.value.parts == [] {
      return Err(TemplateError(0, EmptyTemplate));
    }
    return Ok(Template(source, found.value.parts));
  }

  // ---- where problems are reported ----

  /** Where parsing goes on after what comes first, if it does. */
  lemma AfterFirst(scan: Scanner, known: Vocabulary, chars: string, pos: nat) returns (lexeme: Lexeme, n: nat)
    requires IsScanner(scan, known) && pos < |chars|
    ensures scan(chars[pos..]) == (lexeme, n) && 0 < n <= |chars| - pos && chars[pos..][n..] == chars[pos + n..]
    ensures lexeme.Bad? || lexeme.Open? || lexeme.Close? ==> IsBracket(chars[pos])
    ensures lexeme.Open? ==> chars[pos] == '['
  {
    var s := chars[pos..];
    ScanBounds(scan, known, s);
    lexeme, n := scan(s).0, scan(s).1;
    assert s[0] == chars[pos];
  }

  predicate AtBracket(chars: string, r: Result<Found, TemplateError>) {
    r.Err? ==> r.error.position < |chars| && IsBracket(chars[r.error.position])
  }

  lemma {:induction false} ProblemsAreAtBrackets(scan: Scanner, known: Vocabulary, chars: string, pos: nat, inGroup: bool, start: nat,
                                                 parts: seq<Part>, literal: string)
    requires IsScanner(scan, known) && pos <= |chars| && (inGroup ==> start < |chars| && chars[start] == '[')
    ensures AtBracket(chars, ParseFrom(scan, chars[pos..], pos, inGroup, start, parts, literal))
    decreases |chars| - pos
  {
    if pos < |chars| {
      var lexeme, n := AfterFirst(scan, known, chars, pos);
      if lexeme.Char? {
        ProblemsAreAtBrackets(scan, known, chars, pos + n, inGroup, start, parts, literal + [lexeme.c]);
      } else if lexeme.Field? {
        ProblemsAreAtBrackets(scan, known, chars, pos + n, inGroup, start, Flush(parts, literal) + [lexeme.part], "");
      } else if lexeme.Open? && !inGroup {
        ProblemsAreAtBrackets(scan, known, chars, pos + n, true, pos, [], "");
        var inner := ParseFrom(scan, chars[pos + n..], pos + n, true, pos, [], "");
        if inner.Ok? {
          assert chars[pos..][inner.value.next - pos..] == chars[inner.value.next..];
          ProblemsAreAtBrackets(scan, known, chars, inner.value.next, false, start,
                                Flush(parts, literal) + [Optional(inner.value.parts)], "");
        }
      }
    }
  }

  /** A problem is reported at a bracket of the template, unless there is no template. */
  lemma ProblemPosition(source: string)
    ensures var r := ParseResult(source);
      r.Err? && r.error != TemplateError(0, EmptyTemplate) ==> r.error.position < |source| && IsBracket(source[r.error.position])
  {
    assert source[0..] == source;
    ScannerScans(IsToken);
    ProblemsAreAtBrackets(ScannerOf(IsToken), IsToken, source, 0, false, 0, [], "");
  }
}
