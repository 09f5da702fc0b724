/** The moves a batch has noted, as the lines of a file (`crates/delune-library/src/trash.rs`). */
module Notes {
  // One line a move, the two paths with a tab between. `Trash.Disk` keeps the moves as a list; here is
  // when the lines say the same.

  import opened Text
  import opened Paths

  type Noted = (Parts, Parts)

  function PathText(parts: Parts): string {
    Join(parts, "/")
  }

  // ---- writing ----

  /** The line `record_move` appends, without its end. */
  function Line(move: Noted): string {
    PathText(move.0) + "\t" + PathText(move.1)
  }

  function NoteText(log: seq<Noted>): string {
    if log == [] then "" else Line(log[0]) + ['\n'] + NoteText(log[1..])
  }

  /** Noting one more move appends its line. */
  lemma {:induction false} NoteAppended(log: seq<Noted>, move: Noted)
    ensures NoteText(log + [move]) == NoteText(log) + (Line(move) + ['\n'])
  {
    if log == [] {
      assert [move][1..] == [] && log + [move] == [move];
      assert NoteText([]) == "";
    } else {
      assert (log + [move])[1..] == log[1..] + [move];
      NoteAppended(log[1..], move);
    }
  }

  // ---- reading ----

  /** Without the carriage return of a line ending in one. */
  function WithoutReturn(line: string): (r: string)
    ensures r <= line
  {
    if line != "" && line[|line| - 1] == '\r' then line[..|line| - 1] else line
  }

  /** Rust's `str::lines`, from the pieces between line feeds: only a line that a line feed ends loses
      a carriage return, and an empty rest is no line. */
  function LinesOf(pieces: seq<string>): seq<string>
    requires pieces != []
  {
    if |pieces| == 1 then if pieces[0] == "" then [] else pieces
    else [WithoutReturn(pieces[0])] + LinesOf(pieces[1..])
  }

  lemma {:induction false} LinesHaveNo(pieces: seq<string>, c: char)
    requires pieces != [] && forall piece :: piece in pieces ==> c !in piece
    ensures forall line :: line in LinesOf(pieces) ==> c !in line
  {
    if 1 < |pieces| {
      assert pieces[0] in pieces && forall piece :: piece in pieces[1..] ==> piece in pieces;
      LinesHaveNo(pieces[1..], c);
    }
  }

  /** Where the first tab is. */
  function FirstTab(line: string): (at: nat)
    ensures at <= |line| && '\t' !in line[..at] && (at < |line| ==> line[at] == '\t')
  {
    if line == "" || line[0] == '\t' then 0
    else
      var at := 1 + FirstTab(line[1..]);
      assert line[..at] == [line[0]] + line[1..][..at - 1];
      at
  }

  /** A path of the library proper, from its text. */
  function Safe(text: string): Option<Parts> {
    var parts := Resolve(text);
    if parts.Some? && IsLibrary(parts.value) then parts else None
  }

  /** The move a line tells of, if it has a tab and safe paths. */
  function ReadLine(line: string): Option<Noted> {
    var at := FirstTab(line);
    if at == |line| then None
    else
      var from, to := Safe(line[..at]), Safe(line[at + 1..]);
      if from.Some? && to.Some? then Some((from.value, to.value)) else None
  }

  function ReadLines(lines: seq<string>): (r: seq<Noted>)
    ensures |r| <= |lines|
    ensures forall move :: move in r ==> exists line :: line in lines && ReadLine(line) == Some(move)
  {
    if lines == [] then []
    else
      var first := ReadLine(lines[0]);
      assert lines[0] in lines;
      (if first.Some? then [first.value] else []) + ReadLines(lines[1..])
  }

  function ReadText(text: string): seq<Noted> {
    ReadLines(LinesOf(Split(text, '\n')))
  }

  // ---- what a reading can't contain ----

  predicate Has(parts: Parts, c: char) {
    exists name :: name in parts && c in name
  }

  lemma ResolvedChars(text: string, c: char)
    requires Resolve(text).Some? && c !in text
    ensures !Has(Resolve(text).value, c)
  {
    SplitChars(text, '/');
  }

  lemma ReadLineChars(line: string)
    requires ReadLine(line).Some?
    ensures !Has(ReadLine(line).value.0, '\t')
    ensures '\n' !in line ==> !Has(ReadLine(line).value.0, '\n') && !Has(ReadLine(line).value.1, '\n')
  {
    var at := FirstTab(line);
    ResolvedChars(line[..at], '\t');
    if '\n' !in line {
      ResolvedChars(line[..at], '\n');
      ResolvedChars(line[at + 1..], '\n');
    }
  }

  /** No move is read that has a line feed in it. */
  lemma NoFeedsRead(text: string, move: Noted)
    requires move in ReadText(text)
    ensures !Has(move.0, '\n') && !Has(move.1, '\n')
  {
    var line :| line in LinesOf(Split(text, '\n')) && ReadLine(line) == Some(move);
    LinesHaveNo(Split(text, '\n'), '\n');
    ReadLineChars(line);
  }

  // ---- one line ----

  lemma {:induction false} JoinHas(parts: Parts, c: char)
    requires c != '/'
    ensures c in PathText(parts) <==> Has(parts, c)
  {
    if parts != [] {
      JoinHas(parts[1..], c);
      assert parts == [parts[0]] + parts[1..];
      if |parts| == 1 {
        assert parts[1..] == [];
      }
    }
  }

  /** A path without its last character. */
  function Shortened(parts: Parts): Parts
    requires AreNames(parts)
  {
    assert parts[|parts| - 1] in parts;
    parts[..|parts| - 1] + [parts[|parts| - 1][..|parts[|parts| - 1]| - 1]]
  }

  lemma {:induction false} ShortenedText(parts: Parts)
    requires AreNames(parts)
    ensures PathText(parts) != "" && PathText(Shortened(parts)) == PathText(parts)[..|PathText(parts)| - 1]
  {
    assert parts[0] in parts;
    if 1 < |parts| {
      assert forall name :: name in parts[1..] ==> name in parts;
      ShortenedText(parts[1..]);
      assert Shortened(parts)[1..] == Shortened(parts[1..]) && Shortened(parts)[0] == parts[0];
    }
  }

  lemma {:induction false} SignificantEnd(parts: Parts, last: string)
    requires forall name :: name in parts ==> IsName(name)
    ensures Significant(parts + [last]) == parts + if last == "" || last == "." then [] else [last]
  {
    if parts == [] {
      assert Significant([]) == [] && [last][1..] == [] && parts + [last] == [last];
    } else {
      assert parts[0] in parts && (parts + [last])[1..] == parts[1..] + [last];
      SignificantEnd(parts[1..], last);
    }
  }

  /** A path and the same text short of a character aren't the same path. */
  lemma ShortenedDiffers(parts: Parts)
    requires AreNames(parts)
    ensures Resolve(PathText(Shortened(parts))) != Some(parts)
  {
    var last := parts[|parts| - 1];
    assert last in parts;
    var short := last[..|last| - 1];
    assert forall c :: c in short ==> c in last;
    var rest := parts[..|parts| - 1];
    assert forall name :: name in rest ==> name in parts;
    SplitJoin(Shortened(parts), '/');
    SignificantEnd(rest, short);
    assert (rest + [short])[|rest|] == short && parts[|rest|] == last;
  }

  /** A move whose line says it again. */
  predicate SaysItself(move: Noted) {
    !Has(move.0, '\t') && !Has(move.0, '\n') && !Has(move.1, '\n') && !EndsInReturn(FileName(move.1))
  }

  predicate EndsInReturn(name: string) {
    name != "" && name[|name| - 1] == '\r'
  }

  predicate IsProper(move: Noted) {
    AreNames(move.0) && IsLibrary(move.0) && AreNames(move.1) && IsLibrary(move.1)
  }

  lemma TabAt(a: string, b: string)
    requires '\t' !in a
    ensures FirstTab(a + "\t" + b) == |a|
  {
    var line := a + "\t" + b;
    assert (forall i :: 0 <= i < |a| ==> line[i] in a) && line[|a|] == '\t';
    assert forall i :: 0 <= i < FirstTab(line) ==> line[i] in line[..FirstTab(line)];
  }

  lemma {:induction false} LastOfText(parts: Parts)
    requires AreNames(parts)
    ensures var last, text := parts[|parts| - 1], PathText(parts);
      last != "" && text != "" && text[|text| - 1] == last[|last| - 1]
  {
    assert parts[0] in parts;
    if 1 < |parts| {
      assert forall name :: name in parts[1..] ==> name in parts;
      LastOfText(parts[1..]);
    }
  }

  lemma PlainLine(move: Noted)
    requires IsProper(move) && !Has(move.0, '\t')
    ensures var a, b := PathText(move.0), PathText(move.1);
      var line := WithoutReturn(Line(move));
      FirstTab(line) == |a| < |line| && line[..|a|] == a && line[|a| + 1..] == WithoutReturn(b)
  {
    var a, b := PathText(move.0), PathText(move.1);
    JoinHas(move.0, '\t');
    LastOfText(move.1);
    var line := WithoutReturn(Line(move));
    assert line == a + "\t" + WithoutReturn(b);
    TabAt(a, WithoutReturn(b));
  }

  /** A line is read as its own move if and only if the move says itself. */
  lemma LineIff(move: Noted)
    requires IsProper(move) && !Has(move.0, '\n') && !Has(move.1, '\n')
    ensures ReadLine(WithoutReturn(Line(move))) == Some(move) <==> SaysItself(move)
  {
    var line := WithoutReturn(Line(move));
    if Has(move.0, '\t') {
      if ReadLine(line).Some? {
        ReadLineChars(line);
      }
    } else {
      PlainLine(move);
      ResolveJoin(move.0);
      EndIff(move.1);
    }
  }

  /** Only a path ending in a carriage return loses something at the end of a line. */
  lemma EndIff(parts: Parts)
    requires AreNames(parts) && IsLibrary(parts)
    ensures Safe(WithoutReturn(PathText(parts))) == Some(parts) <==> !EndsInReturn(FileName(parts))
  {
    ResolveJoin(parts);
    LastOfText(parts);
    ShortenedText(parts);
    ShortenedDiffers(parts);
  }

  // ---- the whole log ----

  predicate HasFeed(move: Noted) {
    Has(move.0, '\n') || Has(move.1, '\n')
  }

  lemma LineHasNoFeed(move: Noted)
    requires !HasFeed(move)
    ensures '\n' !in Line(move)
  {
    JoinHas(move.0, '\n');
    JoinHas(move.1, '\n');
  }

  lemma ReadFirst(log: seq<Noted>)
    requires log != [] && !HasFeed(log[0])
    ensures var first := ReadLine(WithoutReturn(Line(log[0])));
      ReadText(NoteText(log)) == (if first.Some? then [first.value] else []) + ReadText(NoteText(log[1..]))
  {
    LineHasNoFeed(log[0]);
    SplitPrefix(Line(log[0]), NoteText(log[1..]), '\n');
    var pieces := Split(NoteText(log[1..]), '\n');
    assert ([Line(log[0])] + pieces)[1..] == pieces;
    var lines := LinesOf(pieces);
    assert ([WithoutReturn(Line(log[0]))] + lines)[1..] == lines;
  }

  lemma {:induction false} ReadsNoMore(log: seq<Noted>)
    requires forall move :: move in log ==> !HasFeed(move)
    ensures |ReadText(NoteText(log))| <= |log|
  {
    if log != [] {
      assert log[0] in log && forall move :: move in log[1..] ==> move in log;
      ReadFirst(log);
      ReadsNoMore(log[1..]);
    }
  }

  lemma {:induction false} LinesIff(log: seq<Noted>)
    requires forall move :: move in log ==> IsProper(move) && !HasFeed(move)
    ensures ReadText(NoteText(log)) == log <==> forall move :: move in log ==> SaysItself(move)
  {
    if log != [] {
      var first, rest := ReadLine(WithoutReturn(Line(log[0]))), ReadText(NoteText(log[1..]));
      assert log == [log[0]] + log[1..];
      assert log[0] in log && forall move :: move in log[1..] ==> move in log;
      ReadFirst(log);
      ReadsNoMore(log[1..]);
      LinesIff(log[1..]);
      LineIff(log[0]);
      if ReadText(NoteText(log)) == log {
        assert first.Some? && ([first.value] + rest)[1..] == rest;
      }
    }
  }

  /** The lines of a batch's moves are read back as those moves if and only if no moved file had a
      tab in its old path, none a line feed in either, and none a carriage return at the end of its
      new one. */
  lemma ReadsBackIff(log: seq<Noted>)
    requires forall move :: move in log ==> IsProper(move)
    ensures ReadText(NoteText(log)) == log <==> forall move :: move in log ==> SaysItself(move)
  {
    if move :| move in log && HasFeed(move) {
      assert !SaysItself(move);
      if ReadText(NoteText(log)) == log {
        NoFeedsRead(NoteText(log), move);
      }
    } else {
      LinesIff(log);
    }
  }
}
