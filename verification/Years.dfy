/** Making the year of a detected template optional, and that this is faithful: with a year the
    template gives the same paths, and without one those of the template that never had it
    (`crates/delune-library/src/layout.rs`). The group is followed from the pieces it is made of,
    through the escaped text and the parser's reading of it, to what is rendered. The one thing in
    the way are brackets that meet the group's own, and what they cost is found exactly. */
module Years {
  import opened Text
  import opened Templates
  import opened Rendering
  import opened Layouts

  const YEAR: string := "year"

  predicate IsSeparator(c: char) {
    IsSpace(c) || c in "-._,"
  }

  function TrimSeparators(s: string): (r: string)
    ensures r <= s
  {
    if s != "" && IsSeparator(s[|s| - 1]) then TrimSeparators(s[..|s| - 1]) else s
  }

  /** How many separators there are at the front. */
  function Separators(s: string): (n: nat)
    ensures n <= |s|
  {
    if s != "" && IsSeparator(s[0]) then 1 + Separators(s[1..]) else 0
  }

  function YearAt(pieces: seq<Piece>): (at: Option<nat>)
    ensures at.Some? ==> at.value < |pieces| && pieces[at.value] == Stands(YEAR)
  {
    if pieces == [] then None
    else if pieces[0] == Stands(YEAR) then Some(0)
    else
      var rest := YearAt(pieces[1..]);
      if rest.None? then None else Some(rest.value + 1)
  }

  /** A component taken apart around its year: what stays outside the optional group before
      and after it, and what of the text beside the year goes in the group. */
  datatype Around = Around(outside: seq<Piece>, keep: string, groupBefore: string, groupAfter: string, restAfter: string,
                           rest: seq<Piece>)

  predicate Bracketed(before: string, after: string) {
    before != "" && after != "" &&
    ((before[|before| - 1] == '(' && after[0] == ')') || (before[|before| - 1] == '[' && after[0] == ']'))
  }

  /** Where the group begins in the text before the year, and where it ends in the text after it. */
  function GroupBounds(before: string, after: string): (r: (nat, nat))
    ensures r.0 <= |before| && r.1 <= |after|
  {
    if Bracketed(before, after) then (|TrimEnd(before[..|before| - 1])|, 1)
    else if after != "" && IsSeparator(after[0]) then (|before|, Separators(after))
    else (|TrimSeparators(before)|, 0)
  }

  function YearGroup(pieces: seq<Piece>): Option<Around> {
    var year := YearAt(pieces);
    if year.None? then None
    else
      var at := year.value;
      var textBefore, textAfter := 0 < at && pieces[at - 1].Plain?, at + 1 < |pieces| && pieces[at + 1].Plain?;
      var before, after := if textBefore then pieces[at - 1].text else "", if textAfter then pieces[at + 1].text else "";
      var (keep, group) := GroupBounds(before, after);
      Some(Around(pieces[..if textBefore then at - 1 else at], before[..keep], before[keep..], after[..group], after[group..],
                  pieces[if textAfter then at + 2 else at + 1..]))
  }

  function WithYear(a: Around): string {
    Render(a.outside) + (Escape(a.keep) + "[" + Escape(a.groupBefore)) + "{year}" +
    (Escape(a.groupAfter) + "]" + Escape(a.restAfter)) + Render(a.rest)
  }

  function WithoutYear(a: Around): string {
    Render(a.outside) + Escape(a.keep) + Escape(a.restAfter) + Render(a.rest)
  }

  /** The component with the year optional, and without it. */
  function OptionalYear(pieces: seq<Piece>): Option<(string, string)> {
    var a := YearGroup(pieces);
    if a.None? then None else Some((WithYear(a.value), WithoutYear(a.value)))
  }

  // ---- what pieces come to ----

  function PieceRaw(piece: Piece, values: Values, replacement: string): string {
    match piece
    case Plain(text) => text
    case Stands(token) => Flat(values(token), replacement)
  }

  function PiecesRaw(pieces: seq<Piece>, values: Values, replacement: string): string {
    if pieces == [] then "" else PieceRaw(pieces[0], values, replacement) + PiecesRaw(pieces[1..], values, replacement)
  }

  lemma {:induction false} PiecesRawAdd(a: seq<Piece>, b: seq<Piece>, values: Values, replacement: string)
    ensures PiecesRaw(a + b, values, replacement) == PiecesRaw(a, values, replacement) + PiecesRaw(b, values, replacement)
  {
    if a == [] {
      assert a + b == b;
    } else {
      assert (a + b)[1..] == a[1..] + b;
      PiecesRawAdd(a[1..], b, values, replacement);
    }
  }

  /** What parsing has gathered comes to. */
  function Gathered(parts: seq<Part>, literal: string, values: Values, replacement: string): string {
    Raw(parts, values, replacement) + literal
  }

  lemma RawMore(parts: seq<Part>, last: Part, values: Values, replacement: string)
    ensures Raw(parts + [last], values, replacement) == Raw(parts, values, replacement) + RawPart(last, values, replacement)
  {
    assert (parts + [last])[..|parts + [last]| - 1] == parts;
  }

  lemma FlushGathers(parts: seq<Part>, literal: string, values: Values, replacement: string)
    ensures Raw(Flush(parts, literal), values, replacement) == Gathered(parts, literal, values, replacement)
  {
    if literal == "" {
      assert Raw(parts, values, replacement) + "" == Raw(parts, values, replacement);
    } else {
      RawMore(parts, Literal(literal), values, replacement);
    }
  }

  lemma MergeOneGathers(piece: Piece, parts: seq<Part>, literal: string, values: Values, replacement: string)
    ensures Gathered(MergeOne(piece, parts, literal).0, MergeOne(piece, parts, literal).1, values, replacement) ==
      Gathered(parts, literal, values, replacement) + PieceRaw(piece, values, replacement)
  {
    if piece.Plain? {
      Assoc(Raw(parts, values, replacement), literal, piece.text);
    } else {
      FlushGathers(parts, literal, values, replacement);
      RawMore(Flush(parts, literal), Token(piece.token), values, replacement);
      var raw := Raw(Flush(parts, literal) + [Token(piece.token)], values, replacement);
      assert raw + "" == raw;
    }
  }

  lemma {:induction false} MergedGathers(pieces: seq<Piece>, parts: seq<Part>, literal: string, values: Values, replacement: string)
    ensures Gathered(Merged(pieces, parts, literal).0, Merged(pieces, parts, literal).1, values, replacement) ==
      Gathered(parts, literal, values, replacement) + PiecesRaw(pieces, values, replacement)
    decreases |pieces|
  {
    var so := Gathered(parts, literal, values, replacement);
    if pieces == [] {
      assert so + "" == so;
    } else {
      var (parts', literal') := MergeOne(pieces[0], parts, literal);
      MergeOneGathers(pieces[0], parts, literal, values, replacement);
      MergedGathers(pieces[1..], parts', literal', values, replacement);
      Assoc(so, PieceRaw(pieces[0], values, replacement), PiecesRaw(pieces[1..], values, replacement));
    }
  }

  // ---- where the group's brackets really are ----

  /** The `c`s a text begins with. */
  function Lead(s: string, c: char): (lead: string)
    ensures lead <= s && forall x :: x in lead ==> x == c
    ensures |lead| < |s| ==> s[|lead|] != c
  {
    if s != "" && s[0] == c then [c] + Lead(s[1..], c) else ""
  }

  function AfterLead(s: string, c: char): (r: string)
    ensures s == Lead(s, c) + r && (r != "" ==> r[0] != c)
  {
    s[|Lead(s, c)|..]
  }

  lemma {:induction false} EscapeAdd(a: string, b: string)
    ensures Escape(a + b) == Escape(a) + Escape(b)
  {
    if a == "" {
      assert a + b == b;
    } else {
      assert (a + b)[1..] == a[1..] + b;
      EscapeAdd(a[1..], b);
    }
  }

  /** Doubled brackets are read before a single one, whichever was meant to come first. */
  lemma {:induction false} BracketLast(lead: string, c: char)
    requires IsBracket(c) && forall x :: x in lead ==> x == c
    ensures [c] + Escape(lead) == Escape(lead) + [c]
  {
    if lead != "" {
      assert lead[0] in lead && forall x :: x in lead[1..] ==> x in lead;
      BracketLast(lead[1..], c);
      assert [c] + ([c, c] + Escape(lead[1..])) == [c, c] + ([c] + Escape(lead[1..]));
    }
  }

  lemma Swap(a: string, x: string, lead: string, after: string)
    requires x + lead == lead + x
    ensures a + x + (lead + after) == (a + lead) + x + after
  {
    assert a + x + (lead + after) == a + (x + lead) + after;
    assert (a + lead) + x + after == a + (lead + x) + after;
  }

  lemma LeadMoves(before: string, c: char, after: string)
    requires IsBracket(c)
    ensures Escape(before) + [c] + Escape(after) == Escape(before + Lead(after, c)) + [c] + Escape(AfterLead(after, c))
  {
    var lead, rest := Lead(after, c), AfterLead(after, c);
    EscapeAdd(before, lead);
    EscapeAdd(lead, rest);
    BracketLast(lead, c);
    Swap(Escape(before), [c], Escape(lead), Escape(rest));
  }

  lemma {:induction false} RenderAdd(a: seq<Piece>, b: seq<Piece>)
    ensures Render(a + b) == Render(a) + Render(b)
  {
    if a == [] {
      assert a + b == b;
    } else {
      assert (a + b)[1..] == a[1..] + b;
      RenderAdd(a[1..], b);
    }
  }

  lemma RenderOne(piece: Piece)
    ensures Render([piece]) == RenderPiece(piece)
  {
    assert RenderPiece(piece) + "" == RenderPiece(piece);
  }

  /** The pieces before the group as it is read: with the `[`s it would open with. */
  function Before(a: Around): seq<Piece> {
    a.outside + [Plain(a.keep + Lead(a.groupBefore, '['))]
  }

  /** The group's pieces as it is read: with the `]`s that would come after it. */
  function Inside(a: Around): seq<Piece> {
    [Plain(AfterLead(a.groupBefore, '[')), Stands(YEAR), Plain(a.groupAfter + Lead(a.restAfter, ']'))]
  }

  function After(a: Around): seq<Piece> {
    [Plain(AfterLead(a.restAfter, ']'))] + a.rest
  }

  lemma InsideRenders(a: Around)
    ensures Render(Inside(a)) ==
      Escape(AfterLead(a.groupBefore, '[')) + "{year}" + Escape(a.groupAfter + Lead(a.restAfter, ']'))
  {
    var first, last := Plain(AfterLead(a.groupBefore, '[')), Plain(a.groupAfter + Lead(a.restAfter, ']'));
    assert Inside(a) == [first] + ([Stands(YEAR)] + [last]);
    RenderAdd([first], [Stands(YEAR)] + [last]);
    RenderAdd([Stands(YEAR)], [last]);
    RenderOne(first);
    RenderOne(Stands(YEAR));
    RenderOne(last);
    assert "{" + YEAR + "}" == "{year}";
  }

  lemma Regroup(a: string, b: string, open: string, c: string, year: string, d: string, close: string, e: string, f: string)
    ensures a + (b + open + c) + year + (d + close + e) + f == ((((a + b) + open) + (c + year + d)) + close) + (e + f)
  {
  }

  lemma WithYearAsRead(a: Around)
    ensures WithYear(a) == (((Render(Before(a)) + "[") + Render(Inside(a))) + "]") + Render(After(a))
  {
    LeadMoves(a.keep, '[', a.groupBefore);
    LeadMoves(a.groupAfter, ']', a.restAfter);
    InsideRenders(a);
    RenderAdd(a.outside, [Plain(a.keep + Lead(a.groupBefore, '['))]);
    RenderOne(Plain(a.keep + Lead(a.groupBefore, '[')));
    RenderAdd([Plain(AfterLead(a.restAfter, ']'))], a.rest);
    RenderOne(Plain(AfterLead(a.restAfter, ']')));
    Regroup(Render(a.outside), Escape(a.keep + Lead(a.groupBefore, '[')), "[", Escape(AfterLead(a.groupBefore, '[')), "{year}",
            Escape(a.groupAfter + Lead(a.restAfter, ']')), "]", Escape(AfterLead(a.restAfter, ']')), Render(a.rest));
  }

  // ---- reading the component ----

  lemma {:induction false} AmongAt(names: seq<string>, i: nat)
    requires i < |names|
    ensures IsAmong(names, names[i])
  {
    if 0 < i {
      AmongAt(names[1..], i - 1);
    }
  }

  lemma YearIsToken()
    ensures IsToken(YEAR)
  {
    AmongAt(TOKENS, 5);
  }

  predicate Starts(s: string, c: char) {
    s != "" && s[0] == c
  }

  lemma BracketScanned(scan: Scanner, known: Vocabulary, rest: string)
    requires Scans(scan, known)
    ensures !Starts(rest, '[') ==> scan("[" + rest) == (Open, 1)
    ensures !Starts(rest, ']') ==> scan("]" + rest) == (Close, 1)
  {
    assert ScansTo(scan, known, "[" + rest) && ScansTo(scan, known, "]" + rest);
  }

  ghost predicate Closes(read: Reader, rest: string, pos: nat, parts: seq<Part>, literal: string) {
    read("]" + rest, pos, parts, literal) == Ok(Found(Flush(parts, literal), pos + 1))
  }

  lemma ClosingRead(scan: Scanner, known: Vocabulary, start: nat, rest: string, pos: nat, parts: seq<Part>, literal: string)
    requires Scans(scan, known) && !Starts(rest, ']')
    ensures Closes(ReaderOf(scan, true, start), rest, pos, parts, literal)
  {
    BracketScanned(scan, known, rest);
  }

  /** A bracket makes the group that is found after it one optional part. */
  ghost predicate Opens(read: Reader, inner: Reader, group: string, pos: nat, parts: seq<Part>, literal: string, found: Found) {
    pos + 1 <= found.next <= pos + 1 + |group| && inner(group, pos + 1, [], "") == Ok(found) ==>
      read("[" + group, pos, parts, literal) ==
      read(group[found.next - pos - 1..], found.next, Flush(parts, literal) + [Optional(found.parts)], "")
  }

  lemma OpeningRead(scan: Scanner, known: Vocabulary, group: string, pos: nat, parts: seq<Part>, literal: string, found: Found)
    requires Scans(scan, known) && !Starts(group, '[')
    ensures Opens(ReaderOf(scan, false, 0), ReaderOf(scan, true, pos), group, pos, parts, literal, found)
  {
    BracketScanned(scan, known, group);
    assert ("[" + group)[1..] == group;
    if pos + 1 <= found.next <= pos + 1 + |group| {
      assert ("[" + group)[found.next - pos..] == group[found.next - pos - 1..];
    }
  }

  // ---- pieces and groups ----

  /** A piece, or an optional group of pieces. */
  datatype Item = Bare(piece: Piece) | Group(inside: seq<Piece>)

  function RenderItem(item: Item): string {
    match item
    case Bare(piece) => RenderPiece(piece)
    case Group(inside) => "[" + (Render(inside) + "]")
  }

  function RenderItems(items: seq<Item>): string {
    if items == [] then "" else RenderItem(items[0]) + RenderItems(items[1..])
  }

  function MergeItem(item: Item, parts: seq<Part>, literal: string): (seq<Part>, string) {
    match item
    case Bare(piece) => MergeOne(piece, parts, literal)
    case Group(inside) => (Flush(parts, literal) + [Optional(PartsOf(inside))], "")
  }

  function MergedItems(items: seq<Item>, parts: seq<Part>, literal: string): (seq<Part>, string)
    decreases |items|
  {
    if items == [] then (parts, literal)
    else
      var (parts', literal') := MergeItem(items[0], parts, literal);
      MergedItems(items[1..], parts', literal')
  }

  /** With `rest` after it, the item is read as what it is: a group's brackets must not meet
      others like them. */
  predicate Fits(known: Vocabulary, item: Item, rest: string) {
    match item
    case Bare(piece) => IsKnown(known, piece)
    case Group(inside) =>
      TokensKnown(known, inside) && !Starts(Render(inside) + ("]" + rest), '[') && !Starts(rest, ']')
  }

  type Fitting = (Item, string) -> bool

  ghost function FitsBy(known: Vocabulary): Fitting {
    (item: Item, rest: string) => Fits(known, item, rest)
  }

  predicate FitsAt(fits: Fitting, items: seq<Item>, k: nat, rest: string)
    requires k < |items|
  {
    fits(items[k], RenderItems(items[k + 1..]) + rest)
  }

  predicate AllFit(fits: Fitting, items: seq<Item>, rest: string) {
    forall k :: 0 <= k < |items| ==> FitsAt(fits, items, k, rest)
  }

  lemma FitNext(fits: Fitting, items: seq<Item>, rest: string)
    requires items != [] && AllFit(fits, items, rest)
    ensures fits(items[0], RenderItems(items[1..]) + rest) && AllFit(fits, items[1..], rest)
  {
    assert FitsAt(fits, items, 0, rest);
    forall k | 0 <= k < |items[1..]| ensures FitsAt(fits, items[1..], k, rest) {
      assert FitsAt(fits, items, k + 1, rest);
      assert items[1..][k + 1..] == items[k + 2..];
    }
  }

  /** `text` is read as what takes the reader to `to`. */
  ghost predicate ReadsAs(read: Reader, text: string, to: (seq<Part>, string), rest: string, pos: nat, parts: seq<Part>, literal: string) {
    read(text + rest, pos, parts, literal) == read(rest, pos + |text|, to.0, to.1)
  }

  ghost predicate ReadsItem(read: Reader, fits: Fitting, item: Item, rest: string, pos: nat, parts: seq<Part>, literal: string) {
    fits(item, rest) ==> ReadsAs(read, RenderItem(item), MergeItem(item, parts, literal), rest, pos, parts, literal)
  }

  ghost predicate ReadsItems(read: Reader, fits: Fitting) {
    forall item, rest, pos, parts, literal :: ReadsItem(read, fits, item, rest, pos, parts, literal)
  }

  /** A whole group is read as one part. */
  lemma ParserReadsGroup(scan: Scanner, known: Vocabulary, inside: seq<Piece>, rest: string, pos: nat, parts: seq<Part>, literal: string)
    requires Scans(scan, known) && Fits(known, Group(inside), rest)
    ensures ReadsItem(ReaderOf(scan, false, 0), FitsBy(known), Group(inside), rest, pos, parts, literal)
  {
    var text, inner, m := Render(inside), ReaderOf(scan, true, pos), Merged(inside, [], "");
    ParserReadsPieces(scan, known, true, pos);
    ReadThrough(inner, known, inside, "]" + rest, pos + 1);
    ClosingRead(scan, known, pos, rest, pos + 1 + |text|, m.0, m.1);
    OpeningRead(scan, known, text + ("]" + rest), pos, parts, literal, Found(Flush(m.0, m.1), pos + 2 + |text|));
    BracketsRead(ReaderOf(scan, false, 0), inner, text, m, rest, pos, parts, literal);
    GroupRead(ReaderOf(scan, false, 0), FitsBy(known), inside, "[" + (text + "]"),
              (Flush(parts, literal) + [Optional(Flush(m.0, m.1))], ""), rest, pos, parts, literal);
  }

  /** Text is read up to what follows it, leaving `m` in hand. */
  ghost predicate ReadsThrough(read: Reader, text: string, m: (seq<Part>, string), rest: string, pos: nat) {
    read(text + rest, pos, [], "") == read(rest, pos + |text|, m.0, m.1)
  }

  lemma ReadThrough(read: Reader, known: Vocabulary, inside: seq<Piece>, rest: string, pos: nat)
    requires ReadsPieces(read, known) && TokensKnown(known, inside)
    ensures ReadsThrough(read, Render(inside), Merged(inside, [], ""), rest, pos)
  {
    PiecesRead(read, known, inside, rest, pos, [], "");
  }

  lemma BracketsRead(read: Reader, inner: Reader, text: string, m: (seq<Part>, string), rest: string, pos: nat, parts: seq<Part>,
                     literal: string)
    requires ReadsThrough(inner, text, m, "]" + rest, pos + 1)
    requires Closes(inner, rest, pos + 1 + |text|, m.0, m.1)
    requires Opens(read, inner, text + ("]" + rest), pos, parts, literal, Found(Flush(m.0, m.1), pos + 2 + |text|))
    ensures ReadsAs(read, "[" + (text + "]"), (Flush(parts, literal) + [Optional(Flush(m.0, m.1))], ""), rest, pos, parts, literal)
  {
    AroundGroup(text, rest);
  }

  lemma GroupRead(read: Reader, fits: Fitting, inside: seq<Piece>, text: string, to: (seq<Part>, string), rest: string, pos: nat,
                  parts: seq<Part>, literal: string)
    requires text == RenderItem(Group(inside)) && to == MergeItem(Group(inside), parts, literal)
    requires ReadsAs(read, text, to, rest, pos, parts, literal)
    ensures ReadsItem(read, fits, Group(inside), rest, pos, parts, literal)
  {
  }

  lemma AroundGroup(text: string, rest: string)
    ensures (text + ("]" + rest))[|text| + 1..] == rest && ("[" + (text + "]")) + rest == "[" + (text + ("]" + rest))
  {
  }

  lemma ParserReadsItems(scan: Scanner, known: Vocabulary)
    requires Scans(scan, known)
    ensures ReadsItems(ReaderOf(scan, false, 0), FitsBy(known))
  {
    var read := ReaderOf(scan, false, 0);
    ParserReadsPieces(scan, known, false, 0);
    forall item, rest, pos: nat, parts, literal ensures ReadsItem(read, FitsBy(known), item, rest, pos, parts, literal) {
      if Fits(known, item, rest) {
        if item.Bare? {
          assert ReadsPiece(read, item.piece, rest, pos, parts, literal);
        } else {
          ParserReadsGroup(scan, known, item.inside, rest, pos, parts, literal);
        }
      }
    }
  }

  lemma ItemRead(read: Reader, fits: Fitting, item: Item, more: string, rest: string, pos: nat, parts: seq<Part>, literal: string)
    requires ReadsItems(read, fits) && fits(item, more + rest)
    ensures read((RenderItem(item) + more) + rest, pos, parts, literal) ==
      read(more + rest, pos + |RenderItem(item)|, MergeItem(item, parts, literal).0, MergeItem(item, parts, literal).1)
  {
    assert ReadsItem(read, fits, item, more + rest, pos, parts, literal);
    Assoc(RenderItem(item), more, rest);
  }

  lemma {:induction false} ItemsRead(read: Reader, fits: Fitting, items: seq<Item>, rest: string, pos: nat, parts: seq<Part>,
                                     literal: string)
    requires ReadsItems(read, fits) && AllFit(fits, items, rest)
    ensures read(RenderItems(items) + rest, pos, parts, literal) ==
      read(rest, pos + |RenderItems(items)|, MergedItems(items, parts, literal).0, MergedItems(items, parts, literal).1)
    decreases |items|
  {
    if items == [] {
      assert RenderItems(items) + rest == rest;
    } else {
      var more := RenderItems(items[1..]);
      FitNext(fits, items, rest);
      ItemRead(read, fits, items[0], more, rest, pos, parts, literal);
      var (parts', literal') := MergeItem(items[0], parts, literal);
      ItemsRead(read, fits, items[1..], rest, pos + |RenderItem(items[0])|, parts', literal');
    }
  }

  function Bares(pieces: seq<Piece>): (items: seq<Item>)
    ensures |items| == |pieces| && forall i :: 0 <= i < |items| ==> items[i] == Bare(pieces[i])
  {
    seq(|pieces|, i requires 0 <= i < |pieces| => Bare(pieces[i]))
  }

  /** The component as it is read. */
  function ItemsOf(a: Around): seq<Item> {
    Bares(Before(a)) + ([Group(Inside(a))] + Bares(After(a)))
  }

  lemma {:induction false} RenderBares(pieces: seq<Piece>)
    ensures RenderItems(Bares(pieces)) == Render(pieces)
  {
    if pieces != [] {
      assert Bares(pieces)[1..] == Bares(pieces[1..]);
      RenderBares(pieces[1..]);
    }
  }

  lemma {:induction false} RenderItemsAdd(a: seq<Item>, b: seq<Item>)
    ensures RenderItems(a + b) == RenderItems(a) + RenderItems(b)
  {
    if a == [] {
      assert a + b == b;
    } else {
      assert (a + b)[0] == a[0] && (a + b)[1..] == a[1..] + b;
      RenderItemsAdd(a[1..], b);
      Assoc(RenderItem(a[0]), RenderItems(a[1..]), RenderItems(b));
    }
  }

  lemma ItemsRender(a: Around)
    ensures RenderItems(ItemsOf(a)) == WithYear(a)
  {
    WithYearAsRead(a);
    var group := [Group(Inside(a))];
    RenderItemsAdd(Bares(Before(a)), group + Bares(After(a)));
    RenderItemsAdd(group, Bares(After(a)));
    RenderBares(Before(a));
    RenderBares(After(a));
    assert RenderItems(group) == RenderItem(group[0]) + "" == RenderItem(group[0]);
    FiveParts(Render(Before(a)), Render(Inside(a)), Render(After(a)));
  }

  lemma FiveParts(before: string, inside: string, after: string)
    ensures (((before + "[") + inside) + "]") + after == before + (("[" + (inside + "]")) + after)
  {
  }

  lemma {:induction false} KnownAt(known: Vocabulary, pieces: seq<Piece>, i: nat)
    requires TokensKnown(known, pieces) && i < |pieces|
    ensures IsKnown(known, pieces[i])
  {
    if 0 < i {
      KnownAt(known, pieces[1..], i - 1);
    }
  }

  /** The tokens are known, and the group's brackets are read as such. */
  predicate GroupStands(known: Vocabulary, a: Around, rest: string) {
    TokensKnown(known, Before(a)) && TokensKnown(known, After(a)) && Fits(known, Group(Inside(a)), Render(After(a)) + rest)
  }

  lemma ItemsFit(known: Vocabulary, a: Around, rest: string)
    requires GroupStands(known, a, rest)
    ensures AllFit(FitsBy(known), ItemsOf(a), rest)
  {
    var group := [Group(Inside(a))];
    BaresFit(known, Before(a), RenderItems(group + Bares(After(a))) + rest);
    BaresFit(known, After(a), rest);
    GroupFits(known, a, rest);
    FitTogether(FitsBy(known), group, Bares(After(a)), rest);
    FitTogether(FitsBy(known), Bares(Before(a)), group + Bares(After(a)), rest);
  }

  lemma BaresFit(known: Vocabulary, pieces: seq<Piece>, rest: string)
    requires TokensKnown(known, pieces)
    ensures AllFit(FitsBy(known), Bares(pieces), rest)
  {
    forall k | 0 <= k < |pieces| ensures FitsAt(FitsBy(known), Bares(pieces), k, rest) {
      KnownAt(known, pieces, k);
    }
  }

  lemma GroupFits(known: Vocabulary, a: Around, rest: string)
    requires GroupStands(known, a, rest)
    ensures AllFit(FitsBy(known), [Group(Inside(a))], RenderItems(Bares(After(a))) + rest)
  {
    RenderBares(After(a));
    var items, more := [Group(Inside(a))], Render(After(a)) + rest;
    assert items[1..] == [] && RenderItems([]) + more == more;
    assert FitsAt(FitsBy(known), items, 0, more);
  }

  lemma ItemsParsed(scan: Scanner, known: Vocabulary, items: seq<Item>, rest: string, pos: nat, parts: seq<Part>, literal: string)
    requires Scans(scan, known) && AllFit(FitsBy(known), items, rest)
    ensures ReaderOf(scan, false, 0)(RenderItems(items) + rest, pos, parts, literal) ==
      ReaderOf(scan, false, 0)(rest, pos + |RenderItems(items)|, MergedItems(items, parts, literal).0, MergedItems(items, parts, literal).1)
  {
    ParserReadsItems(scan, known);
    ItemsRead(ReaderOf(scan, false, 0), FitsBy(known), items, rest, pos, parts, literal);
  }

  // ---- what it comes to ----

  lemma PartsOfRaw(pieces: seq<Piece>, values: Values, replacement: string)
    ensures Raw(PartsOf(pieces), values, replacement) == PiecesRaw(pieces, values, replacement)
  {
    var (parts, literal) := Merged(pieces, [], "");
    MergedGathers(pieces, [], "", values, replacement);
    FlushGathers(parts, literal, values, replacement);
    assert Gathered([], "", values, replacement) == "";
    assert "" + PiecesRaw(pieces, values, replacement) == PiecesRaw(pieces, values, replacement);
  }

  /** What an item comes to; a group whose values aren't all there comes to nothing. */
  function ItemRaw(item: Item, values: Values, replacement: string): string {
    match item
    case Bare(piece) => PieceRaw(piece, values, replacement)
    case Group(inside) => if AllPresent(PartsOf(inside), values) then PiecesRaw(inside, values, replacement) else ""
  }

  function ItemsRaw(items: seq<Item>, values: Values, replacement: string): string {
    if items == [] then "" else ItemRaw(items[0], values, replacement) + ItemsRaw(items[1..], values, replacement)
  }

  lemma MergeItemGathers(item: Item, parts: seq<Part>, literal: string, values: Values, replacement: string)
    ensures Gathered(MergeItem(item, parts, literal).0, MergeItem(item, parts, literal).1, values, replacement) ==
      Gathered(parts, literal, values, replacement) + ItemRaw(item, values, replacement)
  {
    if item.Bare? {
      MergeOneGathers(item.piece, parts, literal, values, replacement);
    } else {
      FlushGathers(parts, literal, values, replacement);
      RawMore(Flush(parts, literal), Optional(PartsOf(item.inside)), values, replacement);
      PartsOfRaw(item.inside, values, replacement);
    }
  }

  lemma {:induction false} MergedItemsGather(items: seq<Item>, parts: seq<Part>, literal: string, values: Values, replacement: string)
    ensures Gathered(MergedItems(items, parts, literal).0, MergedItems(items, parts, literal).1, values, replacement) ==
      Gathered(parts, literal, values, replacement) + ItemsRaw(items, values, replacement)
    decreases |items|
  {
    var so := Gathered(parts, literal, values, replacement);
    if items == [] {
      assert so + "" == so;
    } else {
      var (parts', literal') := MergeItem(items[0], parts, literal);
      MergeItemGathers(items[0], parts, literal, values, replacement);
      MergedItemsGather(items[1..], parts', literal', values, replacement);
      Assoc(so, ItemRaw(items[0], values, replacement), ItemsRaw(items[1..], values, replacement));
    }
  }

  lemma {:induction false} ItemsRawAdd(a: seq<Item>, b: seq<Item>, values: Values, replacement: string)
    ensures ItemsRaw(a + b, values, replacement) == ItemsRaw(a, values, replacement) + ItemsRaw(b, values, replacement)
  {
    if a == [] {
      assert a + b == b;
    } else {
      assert (a + b)[1..] == a[1..] + b;
      ItemsRawAdd(a[1..], b, values, replacement);
    }
  }

  lemma {:induction false} BaresRaw(pieces: seq<Piece>, values: Values, replacement: string)
    ensures ItemsRaw(Bares(pieces), values, replacement) == PiecesRaw(pieces, values, replacement)
  {
    if pieces != [] {
      assert Bares(pieces)[1..] == Bares(pieces[1..]);
      BaresRaw(pieces[1..], values, replacement);
    }
  }

  /** The group's text: with its year, or nothing. */
  function GroupText(a: Around, values: Values, replacement: string): string {
    if values(YEAR) != "" then PiecesRaw(Inside(a), values, replacement) else ""
  }

  lemma ItemsText(a: Around, values: Values, replacement: string)
    ensures ItemsRaw(ItemsOf(a), values, replacement) ==
      PiecesRaw(Before(a), values, replacement) + (GroupText(a, values, replacement) + PiecesRaw(After(a), values, replacement))
  {
    var group := [Group(Inside(a))];
    ItemsRawAdd(Bares(Before(a)), group + Bares(After(a)), values, replacement);
    ItemsRawAdd(group, Bares(After(a)), values, replacement);
    BaresRaw(Before(a), values, replacement);
    BaresRaw(After(a), values, replacement);
    InsidePresent(a, values);
    assert ItemsRaw(group, values, replacement) == ItemRaw(group[0], values, replacement) + "" == ItemRaw(group[0], values, replacement);
  }

  /** Every token among the pieces has a value. */
  predicate Filled(pieces: seq<Piece>, values: Values) {
    forall piece :: piece in pieces && piece.Stands? ==> values(piece.token) != ""
  }

  lemma FlushPresent(parts: seq<Part>, literal: string, values: Values)
    ensures AllPresent(Flush(parts, literal), values) <==> AllPresent(parts, values)
  {
    assert forall part :: part in parts ==> part in Flush(parts, literal);
  }

  lemma TokenPresent(parts: seq<Part>, token: string, values: Values)
    ensures AllPresent(parts + [Token(token)], values) <==> AllPresent(parts, values) && values(token) != ""
  {
    assert forall part :: part in parts + [Token(token)] <==> part in parts || part == Token(token);
  }

  lemma {:induction false} MergedPresent(pieces: seq<Piece>, parts: seq<Part>, literal: string, values: Values)
    ensures AllPresent(Merged(pieces, parts, literal).0, values) <==> AllPresent(parts, values) && Filled(pieces, values)
    decreases |pieces|
  {
    if pieces != [] {
      var (parts', literal') := MergeOne(pieces[0], parts, literal);
      MergedPresent(pieces[1..], parts', literal', values);
      if pieces[0].Stands? {
        TokenPresent(Flush(parts, literal), pieces[0].token, values);
        FlushPresent(parts, literal, values);
      }
      assert forall piece :: piece in pieces <==> piece == pieces[0] || piece in pieces[1..];
    }
  }

  lemma InsidePresent(a: Around, values: Values)
    ensures AllPresent(PartsOf(Inside(a)), values) <==> values(YEAR) != ""
  {
    MergedPresent(Inside(a), [], "", values);
    FlushPresent(Merged(Inside(a), [], "").0, Merged(Inside(a), [], "").1, values);
    assert Inside(a)[1] == Stands(YEAR);
  }

  lemma RawOne(piece: Piece, values: Values, replacement: string)
    ensures PiecesRaw([piece], values, replacement) == PieceRaw(piece, values, replacement)
  {
    assert PieceRaw(piece, values, replacement) + "" == PieceRaw(piece, values, replacement);
  }

  lemma BeforeText(a: Around, values: Values, replacement: string)
    ensures PiecesRaw(Before(a), values, replacement) == PiecesRaw(a.outside, values, replacement) + a.keep + Lead(a.groupBefore, '[')
  {
    PiecesRawAdd(a.outside, [Plain(a.keep + Lead(a.groupBefore, '['))], values, replacement);
    RawOne(Plain(a.keep + Lead(a.groupBefore, '[')), values, replacement);
  }

  lemma AfterText(a: Around, values: Values, replacement: string)
    ensures PiecesRaw(After(a), values, replacement) == AfterLead(a.restAfter, ']') + PiecesRaw(a.rest, values, replacement)
  {
    PiecesRawAdd([Plain(AfterLead(a.restAfter, ']'))], a.rest, values, replacement);
    RawOne(Plain(AfterLead(a.restAfter, ']')), values, replacement);
  }

  lemma InsideText(a: Around, values: Values, replacement: string)
    ensures PiecesRaw(Inside(a), values, replacement) ==
      AfterLead(a.groupBefore, '[') + Flat(values(YEAR), replacement) + (a.groupAfter + Lead(a.restAfter, ']'))
  {
    var first, last := Plain(AfterLead(a.groupBefore, '[')), Plain(a.groupAfter + Lead(a.restAfter, ']'));
    assert Inside(a) == [first] + ([Stands(YEAR)] + [last]);
    PiecesRawAdd([first], [Stands(YEAR)] + [last], values, replacement);
    PiecesRawAdd([Stands(YEAR)], [last], values, replacement);
    RawOne(first, values, replacement);
    RawOne(Stands(YEAR), values, replacement);
    RawOne(last, values, replacement);
  }

  /** The component's text with its year, and without the year and the text that goes with
      it. */
  function FullText(a: Around, values: Values, replacement: string): string {
    PiecesRaw(a.outside, values, replacement) + (a.keep + a.groupBefore + Flat(values(YEAR), replacement) + a.groupAfter + a.restAfter) +
    PiecesRaw(a.rest, values, replacement)
  }

  function LessText(a: Around, values: Values, replacement: string): string {
    PiecesRaw(a.outside, values, replacement) + (a.keep + a.restAfter) + PiecesRaw(a.rest, values, replacement)
  }

  /** What the component comes to when it has no year. */
  function YearlessText(a: Around, values: Values, replacement: string): string {
    PiecesRaw(a.outside, values, replacement) + (a.keep + Lead(a.groupBefore, '[') + AfterLead(a.restAfter, ']')) +
    PiecesRaw(a.rest, values, replacement)
  }

  lemma FullRegroup(o: string, keep: string, lead: string, before: string, year: string, after: string, close: string, rest: string, r: string)
    ensures (o + keep + lead) + ((before + year + (after + close)) + (rest + r)) ==
      o + (keep + (lead + before) + year + after + (close + rest)) + r
  {
  }

  lemma YearlessRegroup(o: string, keep: string, lead: string, rest: string, r: string)
    ensures (o + keep + lead) + ("" + (rest + r)) == o + (keep + lead + rest) + r
  {
  }

  /** The component's text once it is read. */
  lemma ItemsComeTo(a: Around, values: Values, replacement: string)
    ensures ItemsRaw(ItemsOf(a), values, replacement) ==
      if values(YEAR) != "" then FullText(a, values, replacement) else YearlessText(a, values, replacement)
  {
    ItemsText(a, values, replacement);
    BeforeText(a, values, replacement);
    InsideText(a, values, replacement);
    AfterText(a, values, replacement);
    var o, r := PiecesRaw(a.outside, values, replacement), PiecesRaw(a.rest, values, replacement);
    FullRegroup(o, a.keep, Lead(a.groupBefore, '['), AfterLead(a.groupBefore, '['), Flat(values(YEAR), replacement), a.groupAfter,
                Lead(a.restAfter, ']'), AfterLead(a.restAfter, ']'), r);
    YearlessRegroup(o, a.keep, Lead(a.groupBefore, '['), AfterLead(a.restAfter, ']'), r);
  }

  lemma MiddlesDiffer(o: string, x: string, y: string, r: string)
    ensures o + x + r == o + y + r <==> x == y
  {
    if o + x + r == o + y + r {
      assert x == (o + x + r)[|o|..|o + x + r| - |r|];
      assert y == (o + y + r)[|o|..|o + y + r| - |r|];
    }
  }

  /** Without a year, the text is that of the template without one if and only if the group
      doesn't open with `[` and nothing after it starts with `]`. */
  lemma YearlessIff(a: Around, values: Values, replacement: string)
    ensures YearlessText(a, values, replacement) == LessText(a, values, replacement) <==>
      !Starts(a.groupBefore, '[') && !Starts(a.restAfter, ']')
  {
    var opens, closes, rest := Lead(a.groupBefore, '['), Lead(a.restAfter, ']'), AfterLead(a.restAfter, ']');
    MiddlesDiffer(PiecesRaw(a.outside, values, replacement), a.keep + opens + rest, a.keep + a.restAfter,
                  PiecesRaw(a.rest, values, replacement));
    assert a.keep + opens + rest == a.keep + (opens + rest);
    assert a.keep + (opens + rest) == a.keep + (closes + rest) <==> opens + rest == closes + rest by {
      if a.keep + (opens + rest) == a.keep + (closes + rest) {
        assert opens + rest == (a.keep + (opens + rest))[|a.keep|..];
      }
    }
    LeadsDiffer(opens, closes, rest);
  }

  lemma LeadsDiffer(opens: string, closes: string, rest: string)
    requires (forall c :: c in opens ==> c == '[') && forall c :: c in closes ==> c == ']'
    ensures opens + rest == closes + rest <==> opens == "" && closes == ""
  {
    var n := if |opens| < |closes| then |opens| else |closes|;
    if opens + rest == closes + rest {
      assert |opens| == |closes|;
      assert opens == (opens + rest)[..n] && closes == (closes + rest)[..n];
      assert opens == closes;
      SameLeads(opens);
    }
  }

  lemma SameLeads(s: string)
    ensures (forall c :: c in s ==> c == '[') && (forall c :: c in s ==> c == ']') ==> s == ""
  {
    if s != "" {
      assert s[0] in s;
    }
  }

  // ---- a component ----

  /** No texts side by side, as splitting a component leaves it. */
  predicate Alternates(pieces: seq<Piece>) {
    forall i :: 0 < i < |pieces| && pieces[i].Plain? ==> pieces[i - 1].Stands?
  }

  lemma {:induction false} KnownPart(known: Vocabulary, pieces: seq<Piece>, from: nat, to: nat)
    requires TokensKnown(known, pieces) && from <= to <= |pieces|
    ensures TokensKnown(known, pieces[from..to])
    decreases |pieces|
  {
    if from < to {
      if from == 0 {
        KnownPart(known, pieces[1..], 0, to - 1);
        assert pieces[0..to][1..] == pieces[1..][0..to - 1];
      } else {
        KnownPart(known, pieces[1..], from - 1, to - 1);
        assert pieces[from..to] == pieces[1..][from - 1..to - 1];
      }
    }
  }

  lemma {:induction false} KnownAdd(known: Vocabulary, a: seq<Piece>, b: seq<Piece>)
    requires TokensKnown(known, a) && TokensKnown(known, b)
    ensures TokensKnown(known, a + b)
  {
    if a == [] {
      assert a + b == b;
    } else {
      assert (a + b)[1..] == a[1..] + b;
      KnownAdd(known, a[1..], b);
    }
  }

  lemma TextKnown(known: Vocabulary, text: string)
    ensures TokensKnown(known, [Plain(text)])
  {
    assert [Plain(text)][1..] == [];
  }

  lemma AroundKnown(known: Vocabulary, pieces: seq<Piece>)
    requires TokensKnown(known, pieces) && YearGroup(pieces).Some? && known(YEAR)
    ensures var a := YearGroup(pieces).value;
      TokensKnown(known, Before(a)) && TokensKnown(known, Inside(a)) && TokensKnown(known, After(a))
      && TokensKnown(known, Lesser(a))
  {
    var a := YearGroup(pieces).value;
    var first, last := |a.outside|, |pieces| - |a.rest|;
    KnownPart(known, pieces, 0, first);
    KnownPart(known, pieces, last, |pieces|);
    assert a.outside == pieces[0..first] && a.rest == pieces[last..|pieces|];
    TextKnown(known, a.keep + Lead(a.groupBefore, '['));
    TextKnown(known, AfterLead(a.restAfter, ']'));
    TextKnown(known, a.keep + a.restAfter);
    TextKnown(known, AfterLead(a.groupBefore, '['));
    TextKnown(known, a.groupAfter + Lead(a.restAfter, ']'));
    KnownAdd(known, a.outside, [Plain(a.keep + Lead(a.groupBefore, '['))]);
    KnownAdd(known, [Plain(AfterLead(a.restAfter, ']'))], a.rest);
    KnownAdd(known, [Plain(a.keep + a.restAfter)], a.rest);
    KnownAdd(known, a.outside, [Plain(a.keep + a.restAfter)] + a.rest);
    InsideKnown(known, a);
  }

  lemma InsideKnown(known: Vocabulary, a: Around)
    requires known(YEAR)
    ensures TokensKnown(known, Inside(a))
  {
    assert Inside(a)[1..] == [Stands(YEAR), Plain(a.groupAfter + Lead(a.restAfter, ']'))];
    assert Inside(a)[1..][1..] == [Plain(a.groupAfter + Lead(a.restAfter, ']'))];
    TextKnown(known, a.groupAfter + Lead(a.restAfter, ']'));
  }

  /** The pieces of the component without its year. */
  function Lesser(a: Around): seq<Piece> {
    a.outside + ([Plain(a.keep + a.restAfter)] + a.rest)
  }

  lemma LesserRenders(a: Around)
    ensures Render(Lesser(a)) == WithoutYear(a)
  {
    RenderAdd(a.outside, [Plain(a.keep + a.restAfter)] + a.rest);
    RenderAdd([Plain(a.keep + a.restAfter)], a.rest);
    RenderOne(Plain(a.keep + a.restAfter));
    EscapeAdd(a.keep, a.restAfter);
    LesserRegroup(Render(a.outside), Escape(a.keep), Escape(a.restAfter), Render(a.rest));
  }

  lemma LesserRegroup(o: string, keep: string, rest: string, r: string)
    ensures o + ((keep + rest) + r) == o + keep + rest + r
  {
  }

  lemma LesserText(a: Around, values: Values, replacement: string)
    ensures PiecesRaw(Lesser(a), values, replacement) == LessText(a, values, replacement)
  {
    PiecesRawAdd(a.outside, [Plain(a.keep + a.restAfter)] + a.rest, values, replacement);
    PiecesRawAdd([Plain(a.keep + a.restAfter)], a.rest, values, replacement);
    RawOne(Plain(a.keep + a.restAfter), values, replacement);
  }

  lemma EscapeStarts(text: string, rest: string, c: char)
    requires !Starts(text, c) && (text == "" ==> !Starts(rest, c))
    ensures !Starts(Escape(text) + rest, c)
  {
    if text == "" {
      assert Escape(text) + rest == rest;
    } else {
      assert (Escape(text) + rest)[0] == Escape(text)[0] == text[0];
    }
  }

  lemma RestStarts(rest: seq<Piece>, tail: string)
    requires (rest != [] ==> rest[0].Stands?) && (rest == [] ==> !Starts(tail, ']'))
    ensures !Starts(Render(rest) + tail, ']')
  {
    if rest == [] {
      assert Render(rest) + tail == tail;
    } else {
      assert (Render(rest) + tail)[0] == Render(rest)[0] == '{';
    }
  }

  /** The brackets of a component's year group are read as such. */
  lemma YearGroupStands(known: Vocabulary, pieces: seq<Piece>, tail: string)
    requires TokensKnown(known, pieces) && YearGroup(pieces).Some? && known(YEAR) && Alternates(pieces) && !Starts(tail, ']')
    ensures GroupStands(known, YearGroup(pieces).value, tail)
  {
    var a := YearGroup(pieces).value;
    AroundKnown(known, pieces);
    OpeningStands(a, "]" + (Render(After(a)) + tail));
    ClosingStands(a, tail);
  }

  lemma OpeningStands(a: Around, more: string)
    ensures !Starts(Render(Inside(a)) + more, '[')
  {
    InsideRenders(a);
    var opening, middle := AfterLead(a.groupBefore, '['), Escape(a.groupAfter + Lead(a.restAfter, ']'));
    EscapeStarts(opening, "{year}" + middle + more, '[');
    InsideStarts(Escape(opening), middle, more);
  }

  lemma ClosingStands(a: Around, tail: string)
    requires (a.rest != [] ==> a.rest[0].Stands?) && !Starts(tail, ']')
    ensures !Starts(Render(After(a)) + tail, ']')
  {
    var closing := AfterLead(a.restAfter, ']');
    RestStarts(a.rest, tail);
    EscapeStarts(closing, Render(a.rest) + tail, ']');
    RenderAdd([Plain(closing)], a.rest);
    RenderOne(Plain(closing));
    Assoc(Escape(closing), Render(a.rest), tail);
  }

  lemma InsideStarts(opening: string, middle: string, more: string)
    ensures (opening + "{year}" + middle) + more == opening + ("{year}" + middle + more)
  {
  }

  lemma AroundBefore(pieces: seq<Piece>) returns (first: nat)
    requires YearAt(pieces).Some?
    ensures first <= YearAt(pieces).value <= first + 1 <= |pieces| && pieces[..first] == YearGroup(pieces).value.outside
    ensures var a := YearGroup(pieces).value;
      if first < YearAt(pieces).value then pieces[first] == Plain(a.keep + a.groupBefore) else a.keep + a.groupBefore == ""
  {
    var a, at := YearGroup(pieces).value, YearAt(pieces).value;
    first := if 0 < at && pieces[at - 1].Plain? then at - 1 else at;
    var before := if first < at then pieces[first].text else "";
    assert (a.keep, a.groupBefore) == (before[..|a.keep|], before[|a.keep|..]);
  }

  lemma AroundAfter(pieces: seq<Piece>) returns (last: nat)
    requires YearAt(pieces).Some?
    ensures YearAt(pieces).value < last <= YearAt(pieces).value + 2
    ensures last <= |pieces| && pieces[last..] == YearGroup(pieces).value.rest
    ensures var a, at := YearGroup(pieces).value, YearAt(pieces).value;
      if at + 1 < last then pieces[at + 1] == Plain(a.groupAfter + a.restAfter) else a.groupAfter + a.restAfter == ""
  {
    var a, at := YearGroup(pieces).value, YearAt(pieces).value;
    last := if at + 1 < |pieces| && pieces[at + 1].Plain? then at + 2 else at + 1;
    var after := if at + 1 < last then pieces[at + 1].text else "";
    assert (a.groupAfter, a.restAfter) == (after[..|a.groupAfter|], after[|a.groupAfter|..]);
  }

  /** Where the pieces of a component around its year are. */
  lemma AroundParts(pieces: seq<Piece>) returns (first: nat, at: nat, last: nat)
    requires YearGroup(pieces).Some?
    ensures first <= at < last <= |pieces| && pieces[at] == Stands(YEAR) && at <= first + 1 && last <= at + 2
    ensures var a := YearGroup(pieces).value;
      && pieces[..first] == a.outside && pieces[last..] == a.rest
      && (if first < at then pieces[first] == Plain(a.keep + a.groupBefore) else a.keep + a.groupBefore == "")
      && (if at + 1 < last then pieces[at + 1] == Plain(a.groupAfter + a.restAfter) else a.groupAfter + a.restAfter == "")
  {
    at := YearAt(pieces).value;
    first := AroundBefore(pieces);
    last := AroundAfter(pieces);
  }

  lemma ThreeParts(pieces: seq<Piece>, first: nat, last: nat, values: Values, replacement: string)
    requires first <= last <= |pieces|
    ensures PiecesRaw(pieces, values, replacement) ==
      PiecesRaw(pieces[..first], values, replacement) +
      (PiecesRaw(pieces[first..last], values, replacement) + PiecesRaw(pieces[last..], values, replacement))
  {
    assert pieces == pieces[..first] + (pieces[first..last] + pieces[last..]);
    PiecesRawAdd(pieces[..first], pieces[first..last] + pieces[last..], values, replacement);
    PiecesRawAdd(pieces[first..last], pieces[last..], values, replacement);
  }

  lemma FullIsPlain(pieces: seq<Piece>, values: Values, replacement: string)
    requires YearGroup(pieces).Some?
    ensures FullText(YearGroup(pieces).value, values, replacement) == PiecesRaw(pieces, values, replacement)
  {
    var a := YearGroup(pieces).value;
    var first, at, last := AroundParts(pieces);
    ThreeParts(pieces, first, last, values, replacement);
    MiddleText(pieces, first, at, last, a.keep + a.groupBefore, a.groupAfter + a.restAfter, values, replacement);
    FullAssoc(PiecesRaw(a.outside, values, replacement), a.keep, a.groupBefore, Flat(values(YEAR), replacement), a.groupAfter,
              a.restAfter, PiecesRaw(a.rest, values, replacement));
  }

  lemma FullAssoc(o: string, keep: string, before: string, year: string, after: string, rest: string, r: string)
    ensures o + (((keep + before) + (year + (after + rest))) + r) == o + (keep + before + year + after + rest) + r
  {
  }

  lemma MiddleText(pieces: seq<Piece>, first: nat, at: nat, last: nat, before: string, after: string, values: Values, replacement: string)
    requires first <= at < last <= |pieces| && pieces[at] == Stands(YEAR) && at <= first + 1 && last <= at + 2
    requires if first < at then pieces[first] == Plain(before) else before == ""
    requires if at + 1 < last then pieces[at + 1] == Plain(after) else after == ""
    ensures PiecesRaw(pieces[first..last], values, replacement) == before + (Flat(values(YEAR), replacement) + after)
  {
    var year := Flat(values(YEAR), replacement);
    assert pieces[first..last] == pieces[first..at] + ([pieces[at]] + pieces[at + 1..last]);
    PiecesRawAdd(pieces[first..at], [pieces[at]] + pieces[at + 1..last], values, replacement);
    PiecesRawAdd([pieces[at]], pieces[at + 1..last], values, replacement);
    RawOne(pieces[at], values, replacement);
    if first < at {
      assert pieces[first..at] == [Plain(before)];
      RawOne(Plain(before), values, replacement);
    }
    if at + 1 < last {
      assert pieces[at + 1..last] == [Plain(after)];
      RawOne(Plain(after), values, replacement);
    }
  }

  // ---- the optional year is faithful ----

  /** What a component's optional-year template comes to. */
  function OptionalText(pieces: seq<Piece>, values: Values, replacement: string): string {
    ItemsRaw(ItemsFor(pieces), values, replacement)
  }

  /** The component as it is read, with its year optional if it has one. */
  function ItemsFor(pieces: seq<Piece>): seq<Item> {
    if YearGroup(pieces).Some? then ItemsOf(YearGroup(pieces).value) else Bares(pieces)
  }

  /** The component's pieces without its year, if it has one. */
  function LesserFor(pieces: seq<Piece>): seq<Piece> {
    if YearGroup(pieces).Some? then Lesser(YearGroup(pieces).value) else pieces
  }

  /** The group doesn't open with `[`, and nothing after it starts with `]`. */
  predicate NoLooseBrackets(pieces: seq<Piece>) {
    YearGroup(pieces).Some? ==>
      !Starts(YearGroup(pieces).value.groupBefore, '[') && !Starts(YearGroup(pieces).value.restAfter, ']')
  }

  /** With a year a component's text is what it was; without one it is that of the component
      that never had it, if and only if no bracket gets loose. */
  lemma OptionalYearComponent(pieces: seq<Piece>, values: Values, replacement: string)
    ensures values(YEAR) != "" ==> OptionalText(pieces, values, replacement) == PiecesRaw(pieces, values, replacement)
    ensures values(YEAR) == "" && YearGroup(pieces).Some? ==>
      (OptionalText(pieces, values, replacement) == PiecesRaw(LesserFor(pieces), values, replacement) <==> NoLooseBrackets(pieces))
    ensures YearGroup(pieces).None? ==> OptionalText(pieces, values, replacement) == PiecesRaw(pieces, values, replacement)
  {
    if YearGroup(pieces).Some? {
      var a := YearGroup(pieces).value;
      ItemsComeTo(a, values, replacement);
      FullIsPlain(pieces, values, replacement);
      LesserText(a, values, replacement);
      YearlessIff(a, values, replacement);
    } else {
      BaresRaw(pieces, values, replacement);
    }
  }

  // ---- a whole path ----

  const SLASH: Item := Bare(Plain("/"))

  /** The components of a path, joined with `/`. */
  function PathItems(path: seq<seq<Piece>>): seq<Item> {
    if path == [] then []
    else if |path| == 1 then ItemsFor(path[0])
    else ItemsFor(path[0]) + ([SLASH] + PathItems(path[1..]))
  }

  function PathPieces(path: seq<seq<Piece>>): seq<Piece> {
    if path == [] then []
    else if |path| == 1 then path[0]
    else path[0] + ([Plain("/")] + PathPieces(path[1..]))
  }

  function LesserPath(path: seq<seq<Piece>>): seq<seq<Piece>> {
    if path == [] then [] else [LesserFor(path[0])] + LesserPath(path[1..])
  }

  predicate PathKnown(known: Vocabulary, path: seq<seq<Piece>>) {
    forall pieces :: pieces in path ==> TokensKnown(known, pieces) && Alternates(pieces)
  }

  lemma ItemsForFit(known: Vocabulary, pieces: seq<Piece>, rest: string)
    requires TokensKnown(known, pieces) && Alternates(pieces) && known(YEAR) && !Starts(rest, ']')
    ensures AllFit(FitsBy(known), ItemsFor(pieces), rest)
  {
    if YearGroup(pieces).Some? {
      YearGroupStands(known, pieces, rest);
      ItemsFit(known, YearGroup(pieces).value, rest);
    } else {
      BaresFit(known, pieces, rest);
    }
  }

  lemma TailText(a: seq<Item>, b: seq<Item>, rest: string)
    ensures RenderItems(a + b) + rest == RenderItems(a) + (RenderItems(b) + rest)
  {
    RenderItemsAdd(a, b);
    Assoc(RenderItems(a), RenderItems(b), rest);
  }

  lemma FitsInFirst(fits: Fitting, a: seq<Item>, b: seq<Item>, rest: string, k: nat)
    requires AllFit(fits, a, RenderItems(b) + rest) && k < |a|
    ensures FitsAt(fits, a + b, k, rest)
  {
    assert FitsAt(fits, a, k, RenderItems(b) + rest);
    TailText(a[k + 1..], b, rest);
    SplitAt(a, b, k);
  }

  lemma SplitAt(a: seq<Item>, b: seq<Item>, k: nat)
    requires k < |a|
    ensures (a + b)[k + 1..] == a[k + 1..] + b && (a + b)[k] == a[k]
  {
  }

  lemma FitTogether(fits: Fitting, a: seq<Item>, b: seq<Item>, rest: string)
    requires AllFit(fits, a, RenderItems(b) + rest) && AllFit(fits, b, rest)
    ensures AllFit(fits, a + b, rest)
  {
    forall k | 0 <= k < |a + b| ensures FitsAt(fits, a + b, k, rest) {
      if k < |a| {
        FitsInFirst(fits, a, b, rest, k);
      } else {
        assert FitsAt(fits, b, k - |a|, rest);
        assert (a + b)[k + 1..] == b[k - |a| + 1..];
      }
    }
  }

  lemma {:induction false} PathFits(known: Vocabulary, path: seq<seq<Piece>>)
    requires PathKnown(known, path) && known(YEAR)
    ensures AllFit(FitsBy(known), PathItems(path), "")
  {
    if path != [] {
      assert path[0] in path;
      if |path| == 1 {
        ItemsForFit(known, path[0], "");
      } else {
        var rest := PathItems(path[1..]);
        PathFits(known, path[1..]);
        SlashFits(known, rest);
        var more := RenderItems([SLASH] + rest) + "";
        assert more[0] == '/';
        ItemsForFit(known, path[0], more);
        FitTogether(FitsBy(known), ItemsFor(path[0]), [SLASH] + rest, "");
      }
    }
  }

  lemma SlashFits(known: Vocabulary, rest: seq<Item>)
    requires AllFit(FitsBy(known), rest, "")
    ensures AllFit(FitsBy(known), [SLASH] + rest, "")
    ensures RenderItems([SLASH] + rest) != "" && RenderItems([SLASH] + rest)[0] == '/'
  {
    assert ([SLASH] + rest)[1..] == rest;
    assert Escape("/") == "/" by {
      assert "/"[1..] == "";
    }
    forall k | 0 <= k < |[SLASH] + rest| ensures FitsAt(FitsBy(known), [SLASH] + rest, k, "") {
      if 0 < k {
        assert FitsAt(FitsBy(known), rest, k - 1, "");
        assert ([SLASH] + rest)[k + 1..] == rest[k..];
      }
    }
  }

  function WithYearFor(pieces: seq<Piece>): string {
    if OptionalYear(pieces).Some? then OptionalYear(pieces).value.0 else Render(pieces)
  }

  function WithoutYearFor(pieces: seq<Piece>): string {
    if OptionalYear(pieces).Some? then OptionalYear(pieces).value.1 else Render(pieces)
  }

  /** Every component written out. */
  function Each(path: seq<seq<Piece>>, write: seq<Piece> -> string): (r: seq<string>)
    ensures |r| == |path| && forall i :: 0 <= i < |path| ==> r[i] == write(path[i])
  {
    seq(|path|, i requires 0 <= i < |path| => write(path[i]))
  }

  lemma JoinNext(path: seq<seq<Piece>>, write: seq<Piece> -> string)
    requires |path| > 1
    ensures Join(Each(path, write), "/") == write(path[0]) + "/" + Join(Each(path[1..], write), "/")
  {
    assert Each(path, write)[1..] == Each(path[1..], write);
  }

  /** The templates of a path: as it was, with each year optional, and without any year. */
  function PlainTemplate(path: seq<seq<Piece>>): string {
    Join(Each(path, Render), "/")
  }

  function TemplateOf(path: seq<seq<Piece>>): string {
    Join(Each(path, WithYearFor), "/")
  }

  function YearlessTemplate(path: seq<seq<Piece>>): string {
    Join(Each(path, WithoutYearFor), "/")
  }

  lemma {:induction false} PlainTemplateIs(path: seq<seq<Piece>>)
    ensures PlainTemplate(path) == Render(PathPieces(path))
  {
    if |path| > 1 {
      PlainTemplateIs(path[1..]);
      JoinNext(path, Render);
      RenderAdd(path[0], [Plain("/")] + PathPieces(path[1..]));
      RenderAdd([Plain("/")], PathPieces(path[1..]));
      SlashRenders();
      Assoc(Render(path[0]), "/", Render(PathPieces(path[1..])));
    }
  }

  lemma SlashRenders()
    ensures Render([Plain("/")]) == "/" && RenderItems([SLASH]) == "/"
  {
    assert "/"[1..] == "";
    assert Escape("/") == "/";
    RenderOne(Plain("/"));
    assert [SLASH][1..] == [];
  }

  lemma ItemsForRender(pieces: seq<Piece>)
    ensures RenderItems(ItemsFor(pieces)) == WithYearFor(pieces) && Render(LesserFor(pieces)) == WithoutYearFor(pieces)
  {
    if YearGroup(pieces).Some? {
      ItemsRender(YearGroup(pieces).value);
      LesserRenders(YearGroup(pieces).value);
    } else {
      RenderBares(pieces);
    }
  }

  lemma ItemsNext(pieces: seq<Piece>, rest: seq<Item>)
    ensures RenderItems(ItemsFor(pieces) + ([SLASH] + rest)) == RenderItems(ItemsFor(pieces)) + "/" + RenderItems(rest)
  {
    RenderItemsAdd(ItemsFor(pieces), [SLASH] + rest);
    RenderItemsAdd([SLASH], rest);
    SlashRenders();
    Assoc(RenderItems(ItemsFor(pieces)), "/", RenderItems(rest));
  }

  lemma {:induction false} TemplateIs(path: seq<seq<Piece>>)
    ensures TemplateOf(path) == RenderItems(PathItems(path))
  {
    if path != [] {
      ItemsForRender(path[0]);
    }
    if |path| > 1 {
      TemplateIs(path[1..]);
      JoinNext(path, WithYearFor);
      ItemsNext(path[0], PathItems(path[1..]));
    }
  }

  lemma {:induction false} LesserPathAt(path: seq<seq<Piece>>)
    ensures |LesserPath(path)| == |path|
    ensures forall i :: 0 <= i < |path| ==> LesserPath(path)[i] == LesserFor(path[i])
  {
    if path != [] {
      LesserPathAt(path[1..]);
      forall i | 0 < i < |path| ensures LesserPath(path)[i] == LesserFor(path[i]) {
        assert path[i] == path[1..][i - 1];
      }
    }
  }

  lemma YearlessTemplateIs(path: seq<seq<Piece>>)
    ensures YearlessTemplate(path) == PlainTemplate(LesserPath(path)) && |LesserPath(path)| == |path|
    ensures forall i :: 0 <= i < |path| ==> LesserPath(path)[i] == LesserFor(path[i])
  {
    LesserPathAt(path);
    var lesser := LesserPath(path);
    forall i | 0 <= i < |path|
      ensures Render(lesser[i]) == WithoutYearFor(path[i])
    {
      ItemsForRender(path[i]);
    }
    assert Each(lesser, Render) == Each(path, WithoutYearFor);
  }

  // ---- what the templates come to ----

  lemma PathRawNext(path: seq<seq<Piece>>, values: Values, replacement: string)
    requires |path| > 1
    ensures PiecesRaw(PathPieces(path), values, replacement) ==
      PiecesRaw(path[0], values, replacement) + ("/" + PiecesRaw(PathPieces(path[1..]), values, replacement))
    ensures ItemsRaw(PathItems(path), values, replacement) ==
      ItemsRaw(ItemsFor(path[0]), values, replacement) + ("/" + ItemsRaw(PathItems(path[1..]), values, replacement))
  {
    PiecesRawAdd(path[0], [Plain("/")] + PathPieces(path[1..]), values, replacement);
    PiecesRawAdd([Plain("/")], PathPieces(path[1..]), values, replacement);
    RawOne(Plain("/"), values, replacement);
    ItemsRawAdd(ItemsFor(path[0]), [SLASH] + PathItems(path[1..]), values, replacement);
    ItemsRawAdd([SLASH], PathItems(path[1..]), values, replacement);
    assert ItemsRaw([SLASH], values, replacement) == "/" + "" == "/";
  }

  /** With a year the optional-year template of a path gives what the plain one does. */
  lemma {:induction false} PathWithYear(path: seq<seq<Piece>>, values: Values, replacement: string)
    requires values(YEAR) != ""
    ensures ItemsRaw(PathItems(path), values, replacement) == PiecesRaw(PathPieces(path), values, replacement)
  {
    if path != [] {
      OptionalYearComponent(path[0], values, replacement);
      if |path| > 1 {
        PathWithYear(path[1..], values, replacement);
        PathRawNext(path, values, replacement);
      }
    }
  }

  /** Without one it gives what the template without any year does. */
  lemma {:induction false} PathWithoutYear(path: seq<seq<Piece>>, values: Values, replacement: string)
    requires values(YEAR) == "" && forall pieces :: pieces in path ==> NoLooseBrackets(pieces)
    ensures ItemsRaw(PathItems(path), values, replacement) == PiecesRaw(PathPieces(LesserPath(path)), values, replacement)
  {
    if path != [] {
      assert path[0] in path;
      OptionalYearComponent(path[0], values, replacement);
      if |path| > 1 {
        PathWithoutYear(path[1..], values, replacement);
        YearlessTemplateIs(path);
        assert LesserPath(path)[1..] == LesserPath(path[1..]);
        PathRawNext(path, values, replacement);
        PathRawNext(LesserPath(path), values, replacement);
      }
    }
  }

  // ---- loose brackets don't make up for one another ----

  /** How many more brackets a text opens than it closes. */
  function Balance(s: string): int {
    if s == "" then 0 else (if s[0] == '[' then 1 else if s[0] == ']' then -1 else 0) + Balance(s[1..])
  }

  lemma {:induction false} BalanceAdd(a: string, b: string)
    ensures Balance(a + b) == Balance(a) + Balance(b)
  {
    if a == "" {
      assert a + b == b;
    } else {
      assert (a + b)[1..] == a[1..] + b;
      BalanceAdd(a[1..], b);
    }
  }

  lemma {:induction false} LeadBalance(s: string)
    ensures (forall c :: c in s ==> c == '[') ==> Balance(s) == |s|
    ensures (forall c :: c in s ==> c == ']') ==> Balance(s) == -|s|
  {
    if s != "" {
      assert s[0] in s && forall c :: c in s[1..] ==> c in s;
      LeadBalance(s[1..]);
    }
  }

  /** The brackets of a component that would meet its group's. */
  function Loose(pieces: seq<Piece>): nat {
    var a := YearGroup(pieces);
    if a.None? then 0 else |Lead(a.value.groupBefore, '[')| + |Lead(a.value.restAfter, ']')|
  }

  function LooseIn(path: seq<seq<Piece>>): nat {
    if path == [] then 0 else Loose(path[0]) + LooseIn(path[1..])
  }

  lemma {:induction false} NoneLooseIff(path: seq<seq<Piece>>)
    ensures LooseIn(path) == 0 <==> forall pieces :: pieces in path ==> NoLooseBrackets(pieces)
  {
    if path != [] {
      NoneLooseIff(path[1..]);
      assert Loose(path[0]) == 0 <==> NoLooseBrackets(path[0]);
      assert forall pieces :: pieces in path <==> pieces == path[0] || pieces in path[1..];
    }
  }

  lemma MiddleBalance(o: string, middle: string, r: string)
    ensures Balance(o + middle + r) == Balance(o) + Balance(middle) + Balance(r)
  {
    BalanceAdd(o + middle, r);
    BalanceAdd(o, middle);
  }

  lemma LeadsBalance(keep: string, opens: string, closes: string, after: string)
    requires (forall c :: c in opens ==> c == '[') && forall c :: c in closes ==> c == ']'
    ensures Balance(keep + opens + after) == Balance(keep + (closes + after)) + |opens| + |closes|
  {
    LeadBalance(opens);
    LeadBalance(closes);
    MiddleBalance(keep, opens, after);
    BalanceAdd(keep, closes + after);
    BalanceAdd(closes, after);
  }

  lemma AroundBalance(a: Around, values: Values, replacement: string)
    ensures Balance(YearlessText(a, values, replacement)) ==
      Balance(LessText(a, values, replacement)) + |Lead(a.groupBefore, '[')| + |Lead(a.restAfter, ']')|
  {
    var o, r := PiecesRaw(a.outside, values, replacement), PiecesRaw(a.rest, values, replacement);
    MiddleBalance(o, a.keep + Lead(a.groupBefore, '[') + AfterLead(a.restAfter, ']'), r);
    MiddleBalance(o, a.keep + a.restAfter, r);
    LeadsBalance(a.keep, Lead(a.groupBefore, '['), Lead(a.restAfter, ']'), AfterLead(a.restAfter, ']'));
  }

  /** Without a year, every loose bracket of a component opens one more or closes one less. */
  lemma ComponentBalance(pieces: seq<Piece>, values: Values, replacement: string)
    requires values(YEAR) == ""
    ensures Balance(OptionalText(pieces, values, replacement)) ==
      Balance(PiecesRaw(LesserFor(pieces), values, replacement)) + Loose(pieces)
  {
    if YearGroup(pieces).Some? {
      var a := YearGroup(pieces).value;
      ItemsComeTo(a, values, replacement);
      LesserText(a, values, replacement);
      AroundBalance(a, values, replacement);
    } else {
      BaresRaw(pieces, values, replacement);
    }
  }

  lemma {:induction false} PathBalance(path: seq<seq<Piece>>, values: Values, replacement: string)
    requires values(YEAR) == ""
    ensures Balance(ItemsRaw(PathItems(path), values, replacement)) ==
      Balance(PiecesRaw(PathPieces(LesserPath(path)), values, replacement)) + LooseIn(path)
  {
    if path != [] {
      ComponentBalance(path[0], values, replacement);
      if |path| > 1 {
        PathBalance(path[1..], values, replacement);
        YearlessTemplateIs(path);
        assert LesserPath(path)[1..] == LesserPath(path[1..]);
        PathRawNext(path, values, replacement);
        PathRawNext(LesserPath(path), values, replacement);
        NextBalance(ItemsRaw(ItemsFor(path[0]), values, replacement), ItemsRaw(PathItems(path[1..]), values, replacement));
        NextBalance(PiecesRaw(LesserFor(path[0]), values, replacement),
                    PiecesRaw(PathPieces(LesserPath(path[1..])), values, replacement));
      } else {
        assert LooseIn(path[1..]) == 0;
      }
    }
  }

  lemma NextBalance(a: string, b: string)
    ensures Balance(a + ("/" + b)) == Balance(a) + Balance(b)
  {
    BalanceAdd(a, "/" + b);
    BalanceAdd("/", b);
  }

  /** Without a year the path comes to what it would without any year, if and only if no bracket
      of it is loose. */
  lemma PathWithoutYearIff(path: seq<seq<Piece>>, values: Values, replacement: string)
    requires values(YEAR) == ""
    ensures ItemsRaw(PathItems(path), values, replacement) == PiecesRaw(PathPieces(LesserPath(path)), values, replacement) <==>
      forall pieces :: pieces in path ==> NoLooseBrackets(pieces)
  {
    NoneLooseIff(path);
    PathBalance(path, values, replacement);
    if forall pieces :: pieces in path ==> NoLooseBrackets(pieces) {
      PathWithoutYear(path, values, replacement);
    }
  }

  lemma {:induction false} PathPiecesKnown(known: Vocabulary, path: seq<seq<Piece>>)
    requires forall pieces :: pieces in path ==> TokensKnown(known, pieces)
    ensures TokensKnown(known, PathPieces(path))
  {
    if path != [] {
      assert path[0] in path;
      if |path| > 1 {
        PathPiecesKnown(known, path[1..]);
        TextKnown(known, "/");
        KnownAdd(known, [Plain("/")], PathPieces(path[1..]));
        KnownAdd(known, path[0], [Plain("/")] + PathPieces(path[1..]));
      }
    }
  }

  /** What a template parses to, or nothing when it doesn't parse. */
  function Parts(scan: Scanner, template: string): Option<seq<Part>> {
    var found := ParseFrom(scan, template, 0, false, 0, [], "");
    if found.Ok? then Some(found.value.parts) else None
  }

  lemma ItemsTemplate(scan: Scanner, known: Vocabulary, items: seq<Item>, values: Values, replacement: string)
    requires Scans(scan, known) && AllFit(FitsBy(known), items, "")
    ensures Parts(scan, RenderItems(items)).Some?
    ensures Raw(Parts(scan, RenderItems(items)).value, values, replacement) == ItemsRaw(items, values, replacement)
  {
    assert RenderItems(items) + "" == RenderItems(items);
    ItemsParsed(scan, known, items, "", 0, [], "");
    var (parts, literal) := MergedItems(items, [], "");
    MergedItemsGather(items, [], "", values, replacement);
    FlushGathers(parts, literal, values, replacement);
    assert Gathered([], "", values, replacement) + ItemsRaw(items, values, replacement) == ItemsRaw(items, values, replacement);
  }

  lemma PiecesTemplate(scan: Scanner, known: Vocabulary, pieces: seq<Piece>, values: Values, replacement: string)
    requires Scans(scan, known) && TokensKnown(known, pieces)
    ensures Parts(scan, Render(pieces)).Some?
    ensures Raw(Parts(scan, Render(pieces)).value, values, replacement) == PiecesRaw(pieces, values, replacement)
  {
    PrintedParses(scan, known, pieces);
    PartsOfRaw(pieces, values, replacement);
  }

  lemma LesserKnown(known: Vocabulary, path: seq<seq<Piece>>)
    requires PathKnown(known, path) && known(YEAR)
    ensures forall pieces :: pieces in LesserPath(path) ==> TokensKnown(known, pieces)
  {
    YearlessTemplateIs(path);
    forall i | 0 <= i < |path| ensures TokensKnown(known, LesserPath(path)[i]) {
      assert path[i] in path;
      if YearGroup(path[i]).Some? {
        AroundKnown(known, path[i]);
      }
    }
  }

  /** All three templates of a path parse. With a year, the optional-year template renders
      like the plain one; without, like the one that has no year, if and only if no group would
      open with `[` or be followed by `]`. */
  lemma OptionalYearIsFaithful(scan: Scanner, known: Vocabulary, path: seq<seq<Piece>>, values: Values, replacement: string)
    requires Scans(scan, known) && PathKnown(known, path) && known(YEAR)
    ensures Parts(scan, TemplateOf(path)).Some? && Parts(scan, PlainTemplate(path)).Some? && Parts(scan, YearlessTemplate(path)).Some?
    ensures values(YEAR) != "" ==>
      Raw(Parts(scan, TemplateOf(path)).value, values, replacement) == Raw(Parts(scan, PlainTemplate(path)).value, values, replacement)
    ensures values(YEAR) == "" ==>
      (Raw(Parts(scan, TemplateOf(path)).value, values, replacement) == Raw(Parts(scan, YearlessTemplate(path)).value, values, replacement)
       <==> forall pieces :: pieces in path ==> NoLooseBrackets(pieces))
  {
    TemplateIs(path);
    PathFits(known, path);
    ItemsTemplate(scan, known, PathItems(path), values, replacement);
    PlainTemplateIs(path);
    PathPiecesKnown(known, path);
    PiecesTemplate(scan, known, PathPieces(path), values, replacement);
    YearlessTemplateIs(path);
    PlainTemplateIs(LesserPath(path));
    LesserKnown(known, path);
    PathPiecesKnown(known, LesserPath(path));
    PiecesTemplate(scan, known, PathPieces(LesserPath(path)), values, replacement);
    if values(YEAR) != "" {
      PathWithYear(path, values, replacement);
    } else {
      PathWithoutYearIff(path, values, replacement);
    }
  }

  /** The same of one component, by the templates made of it. */
  lemma OptionalYearIff(scan: Scanner, known: Vocabulary, pieces: seq<Piece>, values: Values, replacement: string)
    requires Scans(scan, known) && PathKnown(known, [pieces]) && known(YEAR) && OptionalYear(pieces).Some? && values(YEAR) == ""
    ensures var (with, without) := OptionalYear(pieces).value;
      && Parts(scan, with).Some? && Parts(scan, without).Some?
      && (Raw(Parts(scan, with).value, values, replacement) == Raw(Parts(scan, without).value, values, replacement) <==>
        NoLooseBrackets(pieces))
  {
    assert pieces in [pieces];
    ItemsForRender(pieces);
    ItemsForFit(known, pieces, "");
    ItemsTemplate(scan, known, ItemsFor(pieces), values, replacement);
    AroundKnown(known, pieces);
    PiecesTemplate(scan, known, LesserFor(pieces), values, replacement);
    OptionalYearComponent(pieces, values, replacement);
  }

  /** The same with delune's own tokens. */
  lemma OptionalYearsOfTemplates(path: seq<seq<Piece>>, values: Values, replacement: string)
    requires PathKnown(IsToken, path)
    ensures var parts := template => Parts(ScannerOf(IsToken), template);
      && parts(TemplateOf(path)).Some? && parts(PlainTemplate(path)).Some? && parts(YearlessTemplate(path)).Some?
      && (values(YEAR) != "" ==>
        Raw(parts(TemplateOf(path)).value, values, replacement) == Raw(parts(PlainTemplate(path)).value, values, replacement))
      && (values(YEAR) == "" ==>
        (Raw(parts(TemplateOf(path)).value, values, replacement) == Raw(parts(YearlessTemplate(path)).value, values, replacement)
         <==> forall pieces :: pieces in path ==> NoLooseBrackets(pieces)))
  {
    TokensScan();
    YearIsToken();
    OptionalYearIsFaithful(ScannerOf(IsToken), IsToken, path, values, replacement);
  }
}
