/** Naming templates worked out from a library's own paths, printed so that they parse back
    (`crates/delune-library/src/layout.rs`). */
module Layouts {
  import opened Text
  import opened Templates

  /** Part of a path component: words as they are, or what stands for a tag's value. */
  datatype Piece = Plain(text: string) | Stands(token: string)

  function EscapeChar(c: char): string {
    if IsBracket(c) then [c, c] else [c]
  }

  function Escape(text: string): string {
    if text == "" then "" else EscapeChar(text[0]) + Escape(text[1..])
  }

  function RenderPiece(piece: Piece): string {
    match piece
    case Plain(text) => Escape(text)
    case Stands(token) => "{" + token + "}"
  }

  function Render(pieces: seq<Piece>): string {
    if pieces == [] then "" else RenderPiece(pieces[0]) + Render(pieces[1..])
  }

  // ---- names of tokens ----

  predicate IsPlainName(name: string) {
    name != "" && forall c :: c in name ==> 'a' <= c <= 'z' || c == '_'
  }

  lemma {:induction false} AmongPlain(names: seq<string>, name: string)
    requires IsAmong(names, name) && forall i :: 0 <= i < |names| ==> IsPlainName(names[i])
    ensures IsPlainName(name)
  {
    if names[0] != name {
      AmongPlain(names[1..], name);
    }
  }

  lemma TokensArePlain(name: string)
    requires IsToken(name)
    ensures IsPlainName(name)
  {
    forall i | 0 <= i < |TOKENS| ensures IsPlainName(TOKENS[i]) {}
    AmongPlain(TOKENS, name);
  }

  lemma PlainIsTrimmed(name: string)
    requires IsPlainName(name)
    ensures Trim(name) == name && '}' !in name && name[0] != '{'
  {
    assert name[0] in name && name[|name| - 1] in name;
  }

  // ---- parsing what was printed ----

  ghost predicate PlainIfKnown(known: Vocabulary, token: string) {
    known(token) ==> IsPlainName(token)
  }

  /** The scanner is that of these tokens, which all have plain names. */
  ghost predicate Scans(scan: Scanner, known: Vocabulary) {
    IsScanner(scan, known) && forall token :: PlainIfKnown(known, token)
  }

  lemma CharScanned(scan: Scanner, known: Vocabulary, c: char, rest: string)
    requires Scans(scan, known)
    ensures scan(EscapeChar(c) + rest) == (Char(c), |EscapeChar(c)|)
  {
    assert ScansTo(scan, known, EscapeChar(c) + rest);
  }

  lemma {:induction false} FindAfter(before: string, c: char, after: string)
    requires c !in before
    ensures Find(before + [c] + after, c) == |before|
  {
    var s := before + [c] + after;
    if before != "" {
      assert s[0] == before[0] && before[0] in before && s[1..] == before[1..] + [c] + after;
      FindAfter(before[1..], c, after);
    }
  }

  lemma TokenScanned(scan: Scanner, known: Vocabulary, token: string, rest: string)
    requires Scans(scan, known) && known(token)
    ensures scan("{" + token + "}" + rest) == (Field(Token(token)), |token| + 2)
  {
    assert PlainIfKnown(known, token);
    PlainIsTrimmed(token);
    var s := "{" + token + "}" + rest;
    assert ScansTo(scan, known, s);
    FindAfter("{" + token, '}', rest);
    assert s == ("{" + token) + ['}'] + rest && s[1..|token| + 1] == token && s[1] == token[0];
  }

  predicate IsKnown(known: Vocabulary, piece: Piece) {
    piece.Stands? ==> known(piece.token)
  }

  /** Every token the pieces hold is one templates may use. */
  predicate TokensKnown(known: Vocabulary, pieces: seq<Piece>) {
    pieces == [] || (IsKnown(known, pieces[0]) && TokensKnown(known, pieces[1..]))
  }

  function MergeOne(piece: Piece, parts: seq<Part>, literal: string): (seq<Part>, string) {
    match piece
    case Plain(text) => (parts, literal + text)
    case Stands(token) => (Flush(parts, literal) + [Token(token)], "")
  }

  /** The parts that pieces come to, with texts side by side in one. */
  function Merged(pieces: seq<Piece>, parts: seq<Part>, literal: string): (seq<Part>, string)
    decreases |pieces|
  {
    if pieces == [] then (parts, literal)
    else
      var (parts', literal') := MergeOne(pieces[0], parts, literal);
      Merged(pieces[1..], parts', literal')
  }

  /** Parsing a text found at some place, with some parts and literal gathered. */
  type Reader = (string, nat, seq<Part>, string) -> Result<Found, TemplateError>

  ghost function ReaderOf(scan: Scanner, inGroup: bool, start: nat): Reader {
    (s: string, pos: nat, parts: seq<Part>, literal: string) => ParseFrom(scan, s, pos, inGroup, start, parts, literal)
  }

  lemma Assoc(a: string, b: string, c: string)
    ensures (a + b) + c == a + (b + c)
  {
  }

  ghost predicate ReadsChar(read: Reader, c: char, rest: string, pos: nat, parts: seq<Part>, literal: string) {
    read(EscapeChar(c) + rest, pos, parts, literal) == read(rest, pos + |EscapeChar(c)|, parts, literal + [c])
  }

  ghost predicate ReadsPiece(read: Reader, piece: Piece, rest: string, pos: nat, parts: seq<Part>, literal: string) {
    read(RenderPiece(piece) + rest, pos, parts, literal) ==
    read(rest, pos + |RenderPiece(piece)|, MergeOne(piece, parts, literal).0, MergeOne(piece, parts, literal).1)
  }

  ghost predicate ReadsChars(read: Reader) {
    forall c, rest, pos, parts, literal :: ReadsChar(read, c, rest, pos, parts, literal)
  }

  ghost predicate ReadsPieces(read: Reader, known: Vocabulary) {
    forall piece, rest, pos, parts, literal :: IsKnown(known, piece) ==> ReadsPiece(read, piece, rest, pos, parts, literal)
  }

  lemma {:induction false} TextRead(read: Reader, text: string, rest: string, pos: nat, parts: seq<Part>, literal: string)
    requires ReadsChars(read)
    ensures read(Escape(text) + rest, pos, parts, literal) == read(rest, pos + |Escape(text)|, parts, literal + text)
    decreases |text|
  {
    if text == "" {
      assert literal + text == literal && Escape(text) + rest == rest;
    } else {
      var more := Escape(text[1..]);
      assert ReadsChar(read, text[0], more + rest, pos, parts, literal);
      Assoc(EscapeChar(text[0]), more, rest);
      TextRead(read, text[1..], rest, pos + |EscapeChar(text[0])|, parts, literal + [text[0]]);
      Assoc(literal, [text[0]], text[1..]);
      assert [text[0]] + text[1..] == text;
    }
  }

  lemma {:induction false} PiecesRead(read: Reader, known: Vocabulary, pieces: seq<Piece>, rest: string, pos: nat, parts: seq<Part>,
                                      literal: string)
    requires ReadsPieces(read, known) && TokensKnown(known, pieces)
    ensures read(Render(pieces) + rest, pos, parts, literal) ==
      read(rest, pos + |Render(pieces)|, Merged(pieces, parts, literal).0, Merged(pieces, parts, literal).1)
    decreases |pieces|
  {
    if pieces == [] {
      assert Render(pieces) + rest == rest;
    } else {
      var more := Render(pieces[1..]);
      assert ReadsPiece(read, pieces[0], more + rest, pos, parts, literal);
      Assoc(RenderPiece(pieces[0]), more, rest);
      var (parts', literal') := MergeOne(pieces[0], parts, literal);
      PiecesRead(read, known, pieces[1..], rest, pos + |RenderPiece(pieces[0])|, parts', literal');
    }
  }

  lemma ParserReadsChar(scan: Scanner, known: Vocabulary, c: char, rest: string, pos: nat, inGroup: bool, start: nat,
                        parts: seq<Part>, literal: string)
    requires Scans(scan, known)
    ensures ReadsChar(ReaderOf(scan, inGroup, start), c, rest, pos, parts, literal)
  {
    CharScanned(scan, known, c, rest);
    assert (EscapeChar(c) + rest)[|EscapeChar(c)|..] == rest;
  }

  lemma ParserReadsChars(scan: Scanner, known: Vocabulary, inGroup: bool, start: nat)
    requires Scans(scan, known)
    ensures ReadsChars(ReaderOf(scan, inGroup, start))
  {
    forall c, rest, pos: nat, parts, literal ensures ReadsChar(ReaderOf(scan, inGroup, start), c, rest, pos, parts, literal) {
      ParserReadsChar(scan, known, c, rest, pos, inGroup, start, parts, literal);
    }
  }

  lemma ParserReadsToken(scan: Scanner, known: Vocabulary, token: string, rest: string, pos: nat, inGroup: bool, start: nat,
                         parts: seq<Part>, literal: string)
    requires Scans(scan, known) && known(token)
    ensures ReadsPiece(ReaderOf(scan, inGroup, start), Stands(token), rest, pos, parts, literal)
  {
    TokenScanned(scan, known, token, rest);
    assert ("{" + token + "}" + rest)[|token| + 2..] == rest;
  }

  /** The parser reads what is printed piece by piece. */
  lemma ParserReadsPieces(scan: Scanner, known: Vocabulary, inGroup: bool, start: nat)
    requires Scans(scan, known)
    ensures ReadsPieces(ReaderOf(scan, inGroup, start), known)
  {
    var read := ReaderOf(scan, inGroup, start);
    ParserReadsChars(scan, known, inGroup, start);
    forall piece, rest, pos: nat, parts, literal | IsKnown(known, piece) ensures ReadsPiece(read, piece, rest, pos, parts, literal) {
      if piece.Plain? {
        TextRead(read, piece.text, rest, pos, parts, literal);
      } else {
        ParserReadsToken(scan, known, piece.token, rest, pos, inGroup, start, parts, literal);
      }
    }
  }

  /** The template parts pieces stand for. */
  function PartsOf(pieces: seq<Piece>): seq<Part> {
    Flush(Merged(pieces, [], "").0, Merged(pieces, [], "").1)
  }

  lemma TokensScan()
    ensures Scans(ScannerOf(IsToken), IsToken)
  {
    ScannerScans(IsToken);
    forall token ensures PlainIfKnown(IsToken, token) {
      if IsToken(token) {
        TokensArePlain(token);
      }
    }
  }

  lemma PrintedParses(scan: Scanner, known: Vocabulary, pieces: seq<Piece>)
    requires Scans(scan, known) && TokensKnown(known, pieces)
    ensures ParseFrom(scan, Render(pieces), 0, false, 0, [], "") == Ok(Found(PartsOf(pieces), |Render(pieces)|))
  {
    ParserReadsPieces(scan, known, false, 0);
    PrintedRead(ReaderOf(scan, false, 0), known, pieces);
  }

  lemma PrintedRead(read: Reader, known: Vocabulary, pieces: seq<Piece>)
    requires ReadsPieces(read, known) && TokensKnown(known, pieces)
    ensures read(Render(pieces), 0, [], "") == read("", |Render(pieces)|, Merged(pieces, [], "").0, Merged(pieces, [], "").1)
  {
    assert Render(pieces) + "" == Render(pieces);
    PiecesRead(read, known, pieces, "", 0, [], "");
  }

  /** Parsing inverts printing: any list of pieces comes back, with texts side by side
      merged; pieces without any text or token are no template. */
  lemma ParseInvertsPrint(pieces: seq<Piece>)
    requires TokensKnown(IsToken, pieces)
    ensures ParseResult(Render(pieces)) ==
      if PartsOf(pieces) == [] then Err(TemplateError(0, EmptyTemplate)) else Ok(Template(Render(pieces), PartsOf(pieces)))
  {
    TokensScan();
    PrintedParses(ScannerOf(IsToken), IsToken, pieces);
  }

  // ---- merging changes nothing ----

  /** What a template spells: characters, and values to be filled in. */
  datatype Symbol = Letter(c: char) | Value(token: string)

  function SpellText(text: string): (r: seq<Symbol>)
    ensures |r| == |text| && forall i :: 0 <= i < |r| ==> r[i] == Letter(text[i])
  {
    seq(|text|, i requires 0 <= i < |text| => Letter(text[i]))
  }

  function SpellPiece(piece: Piece): seq<Symbol> {
    match piece
    case Plain(text) => SpellText(text)
    case Stands(token) => [Value(token)]
  }

  function SpellPart(part: Part): seq<Symbol> {
    match part
    case Literal(text) => SpellText(text)
    case Token(name) => [Value(name)]
    case Optional(_) => []
  }

  function SpellPieces(pieces: seq<Piece>): seq<Symbol> {
    if pieces == [] then [] else SpellPiece(pieces[0]) + SpellPieces(pieces[1..])
  }

  function SpellParts(parts: seq<Part>): seq<Symbol> {
    if parts == [] then [] else SpellParts(parts[..|parts| - 1]) + SpellPart(parts[|parts| - 1])
  }

  /** No groups, no empty text, and no texts side by side. */
  predicate IsMerged(parts: seq<Part>) {
    && (forall i :: 0 <= i < |parts| ==> !parts[i].Optional? && (parts[i].Literal? ==> parts[i].text != ""))
    && (forall i :: 0 < i < |parts| && parts[i].Literal? ==> parts[i - 1].Token?)
  }

  lemma SpellMore(parts: seq<Part>, last: Part)
    ensures SpellParts(parts + [last]) == SpellParts(parts) + SpellPart(last)
  {
    assert (parts + [last])[..|parts + [last]| - 1] == parts;
  }

  lemma SpellFlushed(parts: seq<Part>, literal: string)
    ensures SpellParts(Flush(parts, literal)) == SpellParts(parts) + SpellText(literal)
  {
    if literal == "" {
      assert SpellParts(parts) + SpellText(literal) == SpellParts(parts);
    } else {
      SpellMore(parts, Literal(literal));
    }
  }

  predicate EndsInToken(parts: seq<Part>) {
    parts != [] ==> parts[|parts| - 1].Token?
  }

  lemma FlushedIsMerged(parts: seq<Part>, literal: string)
    requires IsMerged(parts) && EndsInToken(parts)
    ensures IsMerged(Flush(parts, literal)) && forall name :: IsMerged(Flush(parts, literal) + [Token(name)])
  {
  }

  /** What is spelled so far, and then the pieces. */
  function SpelledSoFar(parts: seq<Part>, literal: string): seq<Symbol> {
    SpellParts(parts) + SpellText(literal)
  }

  lemma SpellText2(text: string, more: string)
    ensures SpellText(text + more) == SpellText(text) + SpellText(more)
  {
  }

  lemma SymbolsAssoc(a: seq<Symbol>, b: seq<Symbol>, c: seq<Symbol>)
    ensures (a + b) + c == a + (b + c)
  {
  }

  lemma TextSpelled(parts: seq<Part>, literal: string, text: string)
    ensures SpelledSoFar(parts, literal + text) == SpelledSoFar(parts, literal) + SpellText(text)
  {
    SpellText2(literal, text);
    SymbolsAssoc(SpellParts(parts), SpellText(literal), SpellText(text));
  }

  lemma TokenSpelled(parts: seq<Part>, literal: string, token: string)
    ensures SpelledSoFar(Flush(parts, literal) + [Token(token)], "") == SpelledSoFar(parts, literal) + [Value(token)]
  {
    SpellFlushed(parts, literal);
    SpellMore(Flush(parts, literal), Token(token));
    NothingMoreSpelled(Flush(parts, literal) + [Token(token)]);
  }

  lemma NothingMoreSpelled(parts: seq<Part>)
    ensures SpelledSoFar(parts, "") == SpellParts(parts)
  {
    assert SpellText("") == [];
  }

  lemma {:induction false} MergedSpells(pieces: seq<Piece>, parts: seq<Part>, literal: string)
    requires IsMerged(parts) && EndsInToken(parts)
    ensures IsMerged(Merged(pieces, parts, literal).0) && EndsInToken(Merged(pieces, parts, literal).0)
    ensures SpelledSoFar(Merged(pieces, parts, literal).0, Merged(pieces, parts, literal).1) ==
      SpelledSoFar(parts, literal) + SpellPieces(pieces)
    decreases |pieces|
  {
    if pieces == [] {
      assert SpelledSoFar(parts, literal) + [] == SpelledSoFar(parts, literal);
    } else {
      var first, rest := pieces[0], pieces[1..];
      SymbolsAssoc(SpelledSoFar(parts, literal), SpellPiece(first), SpellPieces(rest));
      if first.Plain? {
        TextSpelled(parts, literal, first.text);
        MergedSpells(rest, parts, literal + first.text);
      } else {
        FlushedIsMerged(parts, literal);
        TokenSpelled(parts, literal, first.token);
        MergedSpells(rest, Flush(parts, literal) + [Token(first.token)], "");
      }
    }
  }

  /** The parts spell what the pieces do, with nothing left to merge. */
  lemma PartsAreMerged(pieces: seq<Piece>)
    ensures IsMerged(PartsOf(pieces)) && SpellParts(PartsOf(pieces)) == SpellPieces(pieces)
  {
    MergedSpells(pieces, [], "");
    var (parts, literal) := Merged(pieces, [], "");
    FlushedIsMerged(parts, literal);
    SpellFlushed(parts, literal);
    assert SpelledSoFar([], "") + SpellPieces(pieces) == SpellPieces(pieces);
  }

  predicate EndsInValue(spelled: seq<Symbol>) {
    spelled != [] && spelled[|spelled| - 1].Value?
  }

  lemma SpelledEnds(parts: seq<Part>, last: Part)
    requires !last.Optional? && (last.Literal? ==> last.text != "")
    ensures SpellParts(parts + [last]) != [] && (EndsInValue(SpellParts(parts + [last])) <==> last.Token?)
  {
    SpellMore(parts, last);
  }

  lemma CharsAfter(a: seq<Symbol>, text: string, i: nat)
    requires |a| <= i < |a| + |text|
    ensures (a + SpellText(text))[i].Letter?
  {
  }

  lemma SameTail(a: seq<Symbol>, text: string, b: seq<Symbol>, more: string)
    requires (a == [] || EndsInValue(a)) && (b == [] || EndsInValue(b)) && a + SpellText(text) == b + SpellText(more)
    ensures a == b && text == more
  {
    var whole := a + SpellText(text);
    forall i | |a| <= i < |whole| ensures whole[i].Letter? {
      CharsAfter(a, text, i);
    }
    forall i | |b| <= i < |whole| ensures whole[i].Letter? {
      CharsAfter(b, more, i);
    }
    assert a != [] ==> whole[|a| - 1] == a[|a| - 1];
    assert b != [] ==> whole[|b| - 1] == b[|b| - 1];
    assert |a| == |b|;
    assert a == whole[..|a|] && b == whole[..|b|];
    assert SpellText(text) == whole[|a|..] && SpellText(more) == whole[|b|..];
    SameText(text, more);
  }

  lemma SameText(text: string, more: string)
    requires SpellText(text) == SpellText(more)
    ensures text == more
  {
    assert |text| == |more|;
    forall i | 0 <= i < |text| ensures text[i] == more[i] {
      assert SpellText(text)[i] == SpellText(more)[i];
    }
  }

  /** What comes before a text ends in a value. */
  lemma BeforeText(parts: seq<Part>, last: Part)
    requires IsMerged(parts + [last])
    ensures IsMerged(parts) && (last.Literal? ==> parts == [] || EndsInValue(SpellParts(parts)))
  {
    var whole := parts + [last];
    assert forall i :: 0 <= i < |parts| ==> whole[i] == parts[i];
    if parts != [] && last.Literal? {
      assert whole[|parts|] == last && whole[|parts| - 1].Token?;
      SpelledEnds(parts[..|parts| - 1], parts[|parts| - 1]);
      assert parts == parts[..|parts| - 1] + [parts[|parts| - 1]];
    }
  }

  lemma SameLast(a: seq<Part>, x: Part, b: seq<Part>, y: Part)
    requires IsMerged(a + [x]) && IsMerged(b + [y]) && SpellParts(a + [x]) == SpellParts(b + [y])
    ensures x == y && SpellParts(a) == SpellParts(b)
  {
    assert (a + [x])[|a|] == x && (b + [y])[|b|] == y;
    BeforeText(a, x);
    BeforeText(b, y);
    SpelledEnds(a, x);
    SpelledEnds(b, y);
    SpellMore(a, x);
    SpellMore(b, y);
    if x.Literal? {
      SameTail(SpellParts(a), x.text, SpellParts(b), y.text);
    } else {
      var whole := SpellParts(a + [x]);
      assert whole[|whole| - 1] == Value(x.name) && whole[|whole| - 1] == Value(y.name);
      assert SpellParts(a) == whole[..|whole| - 1] && SpellParts(b) == whole[..|whole| - 1];
    }
  }

  /** Merged parts are told apart by what they spell. */
  lemma {:induction false} OneMerging(a: seq<Part>, b: seq<Part>)
    requires IsMerged(a) && IsMerged(b) && SpellParts(a) == SpellParts(b)
    ensures a == b
    decreases |a|
  {
    if a != [] && b != [] {
      var a', x := a[..|a| - 1], a[|a| - 1];
      var b', y := b[..|b| - 1], b[|b| - 1];
      assert a == a' + [x] && b == b' + [y];
      SameLast(a', x, b', y);
      BeforeText(a', x);
      BeforeText(b', y);
      OneMerging(a', b');
    } else {
      SpelledIsEmpty(a);
      SpelledIsEmpty(b);
    }
  }

  lemma SpelledIsEmpty(parts: seq<Part>)
    requires IsMerged(parts)
    ensures SpellParts(parts) == [] <==> parts == []
  {
    if parts != [] {
      SpelledEnds(parts[..|parts| - 1], parts[|parts| - 1]);
      assert parts == parts[..|parts| - 1] + [parts[|parts| - 1]];
    }
  }
}
