/**
 The quoted command-line splitter of the MapReduce commands (crates/cli/src/cli_app.rs,
 `split_command_line`), and a grammar of command lines that says what every line means.
 */
module CommandLine {

  datatype Error = UnclosedQuote | EmptyCommand

  datatype Result = Ok(program: string, args: seq<string>) | Err(error: Error)

  /** The loop's variables. */
  datatype Scanner = Scanner(tokens: seq<string>, current: string, single: bool, double: bool, started: bool)

  /** `char::is_whitespace`: the Unicode White_Space characters. */
  predicate IsWhitespace(c: char) {
    var u := c as int;
    || 0x09 <= u <= 0x0d || u == 0x20 || u == 0x85 || u == 0xa0 || u == 0x1680
    || 0x2000 <= u <= 0x200a || u == 0x2028 || u == 0x2029 || u == 0x202f || u == 0x205f || u == 0x3000
  }

  /** True if a backslash before `next` escapes it. */
  predicate Escapes(s: Scanner, next: char) {
    if s.double then next == '"' || next == '\\'
    else next == '"' || next == '\'' || next == '\\' || IsWhitespace(next)
  }

  function Add(s: Scanner, c: char): Scanner {
    s.(current := s.current + [c], started := true)
  }

  function Flush(s: Scanner): Scanner {
    if s.started then s.(tokens := s.tokens + [s.current], current := [], started := false) else s
  }

  /** One character that is not a backslash outside single quotes. */
  function Plain(s: Scanner, c: char): Scanner {
    if c == '\'' && !s.double then s.(single := !s.single, started := true)
    else if c == '"' && !s.single then s.(double := !s.double, started := true)
    else if IsWhitespace(c) && !s.single && !s.double then Flush(s)
    else Add(s, c)
  }

  /** The scanner after reading all of `text`. */
  function Scan(text: string, s: Scanner): Scanner
    decreases |text|
  {
    if text == [] then s
    else if text[0] == '\\' && !s.single then
      if |text| > 1 && Escapes(s, text[1]) then Scan(text[2..], Add(s, text[1])) else Scan(text[1..], Add(s, '\\'))
    else Scan(text[1..], Plain(s, text[0]))
  }

  function Finish(s: Scanner): Result {
    if s.single || s.double then Err(UnclosedQuote)
    else
      var tokens := Flush(s).tokens;
      if tokens == [] || tokens[0] == [] then Err(EmptyCommand) else Ok(tokens[0], tokens[1..])
  }

  const FRESH := Scanner([], [], false, false, false)

  // ---- What a line is ----------------------------------------------------------------------

  /** A character as it stands, one behind a backslash, or a backslash that escapes nothing. */
  datatype Unit = Char(c: char) | Escaped(c: char) | Slash

  /** A part of a token: one unit outside quotes, or a quoted run. */
  datatype Piece = Bare(unit: Unit) | Double(units: seq<Unit>) | Single(text: string)

  /** A quote that is never closed, and all behind it. */
  datatype Tail = Closed | OpenDouble(units: seq<Unit>) | OpenSingle(text: string)

  /** White space, tokens each followed by a gap, and perhaps an open quote. */
  datatype Line = Line(lead: string, tokens: seq<seq<Piece>>, gaps: seq<string>, tail: Tail)

  /** Characters a backslash can escape; outside quotes they are also the ones that need it. */
  predicate Special(c: char, double: bool) {
    c == '"' || c == '\\' || (!double && (c == '\'' || IsWhitespace(c)))
  }

  /** The unit can stand before `rest`. */
  predicate UnitOk(u: Unit, double: bool, rest: string) {
    match u
    case Char(c) => !Special(c, double)
    case Escaped(c) => Special(c, double)
    case Slash => rest == [] || !Special(rest[0], double)
  }

  function WriteUnit(u: Unit): string {
    match u
    case Char(c) => [c]
    case Escaped(c) => ['\\', c]
    case Slash => ['\\']
  }

  function CharOf(u: Unit): char {
    if u.Slash? then '\\' else u.c
  }

  function WriteUnits(us: seq<Unit>): string {
    if us == [] then [] else WriteUnit(us[0]) + WriteUnits(us[1..])
  }

  function CharsOf(us: seq<Unit>): string {
    if us == [] then [] else [CharOf(us[0])] + CharsOf(us[1..])
  }

  predicate UnitsOk(us: seq<Unit>, double: bool, rest: string) {
    us == [] || (UnitOk(us[0], double, WriteUnits(us[1..]) + rest) && UnitsOk(us[1..], double, rest))
  }

  function WritePiece(p: Piece): string {
    match p
    case Bare(u) => WriteUnit(u)
    case Double(us) => ['"'] + WriteUnits(us) + ['"']
    case Single(text) => ['\''] + text + ['\'']
  }

  function PieceText(p: Piece): string {
    match p
    case Bare(u) => [CharOf(u)]
    case Double(us) => CharsOf(us)
    case Single(text) => text
  }

  predicate PieceOk(p: Piece, rest: string) {
    match p
    case Bare(u) => UnitOk(u, false, rest)
    case Double(us) => UnitsOk(us, true, ['"'] + rest)
    case Single(text) => '\'' !in text
  }

  function WriteToken(ps: seq<Piece>): string {
    if ps == [] then [] else WritePiece(ps[0]) + WriteToken(ps[1..])
  }

  function TokenText(ps: seq<Piece>): string {
    if ps == [] then [] else PieceText(ps[0]) + TokenText(ps[1..])
  }

  predicate PiecesOk(ps: seq<Piece>, rest: string) {
    ps == [] || (PieceOk(ps[0], WriteToken(ps[1..]) + rest) && PiecesOk(ps[1..], rest))
  }

  predicate Blank(s: string) {
    forall i :: 0 <= i < |s| ==> IsWhitespace(s[i])
  }

  function WriteTokens(tokens: seq<seq<Piece>>, gaps: seq<string>): string
    requires |gaps| == |tokens|
  {
    if tokens == [] then [] else WriteToken(tokens[0]) + (gaps[0] + WriteTokens(tokens[1..], gaps[1..]))
  }

  function TokenTexts(tokens: seq<seq<Piece>>): seq<string> {
    if tokens == [] then [] else [TokenText(tokens[0])] + TokenTexts(tokens[1..])
  }

  /** No token is without pieces, and only the last gap may be empty. */
  predicate TokensOk(tokens: seq<seq<Piece>>, gaps: seq<string>, rest: string)
    requires |gaps| == |tokens|
  {
    tokens == [] || (
      && tokens[0] != [] && Blank(gaps[0]) && (|tokens| > 1 ==> gaps[0] != [])
      && PiecesOk(tokens[0], gaps[0] + WriteTokens(tokens[1..], gaps[1..]) + rest)
      && TokensOk(tokens[1..], gaps[1..], rest))
  }

  function WriteTail(tail: Tail): string {
    match tail
    case Closed => []
    case OpenDouble(us) => ['"'] + WriteUnits(us)
    case OpenSingle(text) => ['\''] + text
  }

  predicate TailOk(tail: Tail) {
    match tail
    case Closed => true
    case OpenDouble(us) => UnitsOk(us, true, [])
    case OpenSingle(text) => '\'' !in text
  }

  /** `text` can be read as this line. */
  predicate Reads(line: Line, text: string) {
    && |line.gaps| == |line.tokens| && Blank(line.lead) && TailOk(line.tail)
    && TokensOk(line.tokens, line.gaps, WriteTail(line.tail))
    && text == line.lead + (WriteTokens(line.tokens, line.gaps) + WriteTail(line.tail))
  }

  /** The program and its arguments are the texts of the tokens. */
  function Meaning(line: Line): Result {
    if !line.tail.Closed? then Err(UnclosedQuote)
    else if line.tokens == [] || TokenText(line.tokens[0]) == [] then Err(EmptyCommand)
    else Ok(TokenText(line.tokens[0]), TokenTexts(line.tokens[1..]))
  }

  ghost predicate EndsInQuote(text: string) {
    exists line :: Reads(line, text) && !line.tail.Closed?
  }

  // ---- Scanning finds the meaning ----------------------------------------------------------

  predicate Outside(s: Scanner) { !s.single && !s.double }

  lemma ScanUnit(u: Unit, rest: string, s: Scanner)
    requires !s.single && UnitOk(u, s.double, rest)
    ensures Scan(WriteUnit(u) + rest, s) == Scan(rest, Add(s, CharOf(u)))
  {
    var text := WriteUnit(u) + rest;
    assert text[|WriteUnit(u)|..] == rest;
    if u.Slash? {
      assert text == ['\\'] + rest;
    }
  }

  lemma UnitsSplit(us: seq<Unit>, rest: string, current: string)
    requires us != []
    ensures WriteUnits(us) + rest == WriteUnit(us[0]) + (WriteUnits(us[1..]) + rest)
    ensures current + [CharOf(us[0])] + CharsOf(us[1..]) == current + CharsOf(us)
  {
  }

  lemma {:induction false} ScanUnits(us: seq<Unit>, rest: string, s: Scanner)
    requires !s.single && s.started && UnitsOk(us, s.double, rest)
    ensures Scan(WriteUnits(us) + rest, s) == Scan(rest, s.(current := s.current + CharsOf(us)))
  {
    if us == [] {
      assert WriteUnits(us) + rest == rest && s.current + CharsOf(us) == s.current;
    } else {
      UnitsSplit(us, rest, s.current);
      ScanUnit(us[0], WriteUnits(us[1..]) + rest, s);
      ScanUnits(us[1..], rest, Add(s, CharOf(us[0])));
    }
  }

  lemma {:induction false} ScanSingle(t: string, rest: string, s: Scanner)
    requires s.single && !s.double && s.started && '\'' !in t
    ensures Scan(t + rest, s) == Scan(rest, s.(current := s.current + t))
  {
    if t == [] {
      assert t + rest == rest && s.current + t == s.current;
    } else {
      assert (t + rest)[1..] == t[1..] + rest;
      ScanSingle(t[1..], rest, Add(s, t[0]));
      assert s.current + [t[0]] + t[1..] == s.current + t;
    }
  }

  lemma ScanQuote(quote: char, rest: string, s: Scanner)
    requires (quote == '"' && !s.single) || (quote == '\'' && !s.double)
    ensures Scan([quote] + rest, s) ==
            Scan(rest, if quote == '"' then s.(double := !s.double, started := true) else s.(single := !s.single, started := true))
  {
    assert ([quote] + rest)[1..] == rest;
  }

  lemma ScanPiece(p: Piece, rest: string, s: Scanner)
    requires PieceOk(p, rest) && Outside(s)
    ensures Scan(WritePiece(p) + rest, s) == Scan(rest, s.(current := s.current + PieceText(p), started := true))
  {
    match p
    case Bare(u) => ScanUnit(u, rest, s);
    case Double(us) =>
      var inner := s.(double := true, started := true);
      QuotedThen('"', WriteUnits(us), rest);
      ScanQuote('"', WriteUnits(us) + (['"'] + rest), s);
      ScanUnits(us, ['"'] + rest, inner);
      ScanQuote('"', rest, inner.(current := inner.current + CharsOf(us)));
    case Single(text) =>
      var inner := s.(single := true, started := true);
      QuotedThen('\'', text, rest);
      ScanQuote('\'', text + (['\''] + rest), s);
      ScanSingle(text, ['\''] + rest, inner);
      ScanQuote('\'', rest, inner.(current := inner.current + text));
  }

  lemma {:induction false} ScanPieces(ps: seq<Piece>, rest: string, s: Scanner)
    requires PiecesOk(ps, rest) && Outside(s)
    ensures Scan(WriteToken(ps) + rest, s) ==
            Scan(rest, s.(current := s.current + TokenText(ps), started := s.started || ps != []))
  {
    if ps == [] {
      assert WriteToken(ps) + rest == rest && s.current + TokenText(ps) == s.current;
    } else {
      var more := WriteToken(ps[1..]) + rest;
      assert WriteToken(ps) + rest == WritePiece(ps[0]) + more;
      ScanPiece(ps[0], more, s);
      ScanPieces(ps[1..], rest, s.(current := s.current + PieceText(ps[0]), started := true));
      assert s.current + PieceText(ps[0]) + TokenText(ps[1..]) == s.current + TokenText(ps);
    }
  }

  lemma {:induction false} ScanBlank(gap: string, rest: string, s: Scanner)
    requires Blank(gap) && Outside(s)
    ensures Scan(gap + rest, s) == Scan(rest, if gap == [] then s else Flush(s))
  {
    if gap == [] {
      assert gap + rest == rest;
    } else {
      assert (gap + rest)[1..] == gap[1..] + rest;
      assert IsWhitespace(gap[0]) && gap[0] != '\\';
      ScanBlank(gap[1..], rest, Flush(s));
      assert Flush(Flush(s)) == Flush(s);
    }
  }

  /** A token and the gap behind it. */
  lemma ScanToken(ps: seq<Piece>, gap: string, rest: string, s: Scanner)
    requires ps != [] && PiecesOk(ps, gap + rest) && Blank(gap) && Outside(s) && !s.started && s.current == []
    ensures var s1 := s.(current := TokenText(ps), started := true);
      Scan(WriteToken(ps) + (gap + rest), s) == Scan(rest, if gap == [] then s1 else Flush(s1))
  {
    ScanPieces(ps, gap + rest, s);
    assert s.current + TokenText(ps) == TokenText(ps);
    ScanBlank(gap, rest, s.(current := TokenText(ps), started := true));
  }

  lemma TextsSplit(tokens: seq<seq<Piece>>, before: seq<string>)
    requires tokens != []
    ensures before + [TokenText(tokens[0])] + TokenTexts(tokens[1..]) == before + TokenTexts(tokens)
  {
    assert TokenTexts(tokens) == [TokenText(tokens[0])] + TokenTexts(tokens[1..]);
  }

  lemma Regroup(a: string, b: string, c: string)
    ensures (a + b) + c == a + (b + c)
  {
  }

  lemma TokensSplit(tokens: seq<seq<Piece>>, gaps: seq<string>, rest: string)
    requires |gaps| == |tokens| && tokens != []
    ensures var more := WriteTokens(tokens[1..], gaps[1..]);
            && WriteTokens(tokens, gaps) + rest == WriteToken(tokens[0]) + (gaps[0] + (more + rest))
            && gaps[0] + more + rest == gaps[0] + (more + rest)
  {
    var more := WriteTokens(tokens[1..], gaps[1..]);
    Regroup(WriteToken(tokens[0]), gaps[0] + more, rest);
    Regroup(gaps[0], more, rest);
  }

  /** The scanner stands behind the tokens with these texts, outside quotes. */
  predicate Behind(s: Scanner, texts: seq<string>) {
    Outside(s) && Flush(s).tokens == texts
  }

  lemma {:induction false} ScanTokens(tokens: seq<seq<Piece>>, gaps: seq<string>, rest: string, s: Scanner) returns (s': Scanner)
    requires |gaps| == |tokens| && TokensOk(tokens, gaps, rest)
    requires Outside(s) && !s.started && s.current == []
    ensures Scan(WriteTokens(tokens, gaps) + rest, s) == Scan(rest, s') && Behind(s', s.tokens + TokenTexts(tokens))
    decreases |tokens|
  {
    if tokens == [] {
      s' := s;
      assert WriteTokens(tokens, gaps) + rest == rest && s.tokens + TokenTexts(tokens) == s.tokens;
    } else {
      var more := WriteTokens(tokens[1..], gaps[1..]) + rest;
      TokensSplit(tokens, gaps, rest);
      ScanToken(tokens[0], gaps[0], more, s);
      TextsSplit(tokens, s.tokens);
      var s1 := s.(current := TokenText(tokens[0]), started := true);
      if |tokens| == 1 {
        assert more == rest && TokenTexts(tokens[1..]) == [];
        s' := if gaps[0] == [] then s1 else Flush(s1);
      } else {
        s' := ScanTokens(tokens[1..], gaps[1..], rest, Flush(s1));
      }
    }
  }

  /** What stays open stays open. */
  lemma ScanTail(tail: Tail, s: Scanner)
    requires TailOk(tail) && Outside(s)
    ensures tail.Closed? ==> Scan(WriteTail(tail), s) == s
    ensures !tail.Closed? ==> !Outside(Scan(WriteTail(tail), s))
  {
    match tail
    case Closed =>
    case OpenDouble(us) =>
      var inner := s.(double := true, started := true);
      ScanQuote('"', WriteUnits(us), s);
      ScanUnits(us, [], inner);
      assert WriteUnits(us) + [] == WriteUnits(us);
    case OpenSingle(text) =>
      var inner := s.(single := true, started := true);
      ScanQuote('\'', text, s);
      ScanSingle(text, [], inner);
      assert text + [] == text;
  }

  /** Splitting a line gives its meaning: the texts of its tokens, or the error it deserves. */
  lemma SplitUndoesQuoting(line: Line, text: string)
    requires Reads(line, text)
    ensures Finish(Scan(text, FRESH)) == Meaning(line)
  {
    var tail := WriteTail(line.tail);
    ScanBlank(line.lead, WriteTokens(line.tokens, line.gaps) + tail, FRESH);
    assert Flush(FRESH) == FRESH;
    var s := ScanTokens(line.tokens, line.gaps, tail, FRESH);
    ScanTail(line.tail, s);
    assert FRESH.tokens + TokenTexts(line.tokens) == TokenTexts(line.tokens);
  }

  // ---- Every text is a line ----------------------------------------------------------------

  /** Reads up to the closing double quote, if there is one. */
  lemma {:induction false} ReadDouble(text: string) returns (us: seq<Unit>, rest: string, closed: bool)
    ensures closed ==> text == WriteUnits(us) + (['"'] + rest) && UnitsOk(us, true, ['"'] + rest)
    ensures !closed ==> text == WriteUnits(us) && UnitsOk(us, true, [])
    decreases |text|
  {
    if text == [] {
      us, rest, closed := [], [], false;
    } else if text[0] == '"' {
      us, rest, closed := [], text[1..], true;
    } else {
      var u := if text[0] != '\\' then Char(text[0])
               else if |text| > 1 && Special(text[1], true) then Escaped(text[1]) else Slash;
      var more := text[|WriteUnit(u)|..];
      assert text == WriteUnit(u) + more;
      us, rest, closed := ReadDouble(more);
      assert ([u] + us)[1..] == us;
      if closed {
        assert WriteUnits([u] + us) + (['"'] + rest) == WriteUnit(u) + (WriteUnits(us) + (['"'] + rest));
      } else {
        assert WriteUnits(us) + [] == WriteUnits(us);
      }
      us := [u] + us;
    }
  }

  lemma {:induction false} ReadSingle(text: string) returns (t: string, rest: string, closed: bool)
    ensures '\'' !in t && text == if closed then t + (['\''] + rest) else t
  {
    if text == [] {
      t, rest, closed := [], [], false;
    } else if text[0] == '\'' {
      t, rest, closed := [], text[1..], true;
    } else {
      t, rest, closed := ReadSingle(text[1..]);
      t := [text[0]] + t;
    }
  }

  /** A line with one more white space in front. */
  lemma PrependBlank(c: char, line: Line, rest: string)
    requires IsWhitespace(c) && Reads(line, rest)
    ensures Reads(line.(lead := [c] + line.lead), [c] + rest)
  {
    var behind := WriteTokens(line.tokens, line.gaps) + WriteTail(line.tail);
    assert [c] + (line.lead + behind) == ([c] + line.lead) + behind;
  }

  /** A line with one more piece in front, which joins the first token unless white space is between. */
  function Prepended(p: Piece, line: Line): Line
    requires |line.gaps| == |line.tokens|
  {
    if line.lead == [] && line.tokens != [] then line.(tokens := [[p] + line.tokens[0]] + line.tokens[1..])
    else line.(lead := [], tokens := [[p]] + line.tokens, gaps := [line.lead] + line.gaps)
  }

  lemma PrependPiece(p: Piece, line: Line, rest: string)
    requires Reads(line, rest) && PieceOk(p, rest)
    ensures Reads(Prepended(p, line), WritePiece(p) + rest)
  {
    var tail := WriteTail(line.tail);
    var behind := WriteTokens(line.tokens, line.gaps) + tail;
    if line.lead == [] && line.tokens != [] {
      assert rest == behind;
      JoinFirst(p, line.tokens, line.gaps, tail);
    } else {
      NewFirst(p, line.lead, line.tokens, line.gaps, tail);
    }
  }

  lemma JoinFirst(p: Piece, tokens: seq<seq<Piece>>, gaps: seq<string>, tail: string)
    requires |gaps| == |tokens| && tokens != [] && TokensOk(tokens, gaps, tail)
    requires PieceOk(p, WriteTokens(tokens, gaps) + tail)
    ensures var more := [[p] + tokens[0]] + tokens[1..];
            TokensOk(more, gaps, tail) && WriteTokens(more, gaps) + tail == WritePiece(p) + (WriteTokens(tokens, gaps) + tail)
  {
    var first, more := [p] + tokens[0], [[p] + tokens[0]] + tokens[1..];
    assert first[1..] == tokens[0] && more[1..] == tokens[1..] && more[0] == first;
    TokensSplit(tokens, gaps, tail);
    TokensSplit(more, gaps, tail);
    Regroup(WritePiece(p), WriteToken(tokens[0]), gaps[0] + (WriteTokens(tokens[1..], gaps[1..]) + tail));
  }

  lemma NewFirst(p: Piece, gap: string, tokens: seq<seq<Piece>>, gaps: seq<string>, tail: string)
    requires |gaps| == |tokens| && TokensOk(tokens, gaps, tail) && Blank(gap) && (tokens != [] ==> gap != [])
    requires PieceOk(p, gap + (WriteTokens(tokens, gaps) + tail))
    ensures var more, wide := [[p]] + tokens, [gap] + gaps;
            && TokensOk(more, wide, tail)
            && WriteTokens(more, wide) + tail == WritePiece(p) + (gap + (WriteTokens(tokens, gaps) + tail))
  {
    var more, wide := [[p]] + tokens, [gap] + gaps;
    assert more[1..] == tokens && wide[1..] == gaps && more[0] == [p] && [p][1..] == [];
    TokensSplit(more, wide, tail);
    OnePiece(p, gap + WriteTokens(tokens, gaps) + tail);
  }

  lemma OnePiece(p: Piece, rest: string)
    ensures WriteToken([p]) == WritePiece(p)
    ensures PiecesOk([p], rest) <==> PieceOk(p, rest)
  {
    assert [p][1..] == [];
    assert WriteToken([]) + rest == rest;
  }

  lemma QuotedThen(quote: char, inside: string, rest: string)
    ensures [quote] + inside + [quote] + rest == [quote] + (inside + ([quote] + rest))
  {
  }

  /** A line that is an open quote and nothing else. */
  lemma OnlyTail(tail: Tail)
    requires TailOk(tail)
    ensures Reads(Line([], [], [], tail), WriteTail(tail))
  {
    assert [] + (WriteTokens([], []) + WriteTail(tail)) == WriteTail(tail);
  }

  /** Every text can be read as a line. */
  lemma {:induction false} EveryTextIsALine(text: string) returns (line: Line)
    ensures Reads(line, text)
    decreases |text|
  {
    if text == [] {
      OnlyTail(Closed);
      line := Line([], [], [], Closed);
    } else if IsWhitespace(text[0]) {
      line := EveryTextIsALine(text[1..]);
      PrependBlank(text[0], line, text[1..]);
      assert text == [text[0]] + text[1..];
      line := line.(lead := [text[0]] + line.lead);
    } else if text[0] == '"' {
      line := QuotedDouble(text);
    } else if text[0] == '\'' {
      line := QuotedSingle(text);
    } else {
      var u := if text[0] != '\\' then Char(text[0])
               else if |text| > 1 && Special(text[1], false) then Escaped(text[1]) else Slash;
      var more := text[|WriteUnit(u)|..];
      assert text == WriteUnit(u) + more;
      line := EveryTextIsALine(more);
      PrependPiece(Bare(u), line, more);
      line := Prepended(Bare(u), line);
    }
  }

  lemma QuotedDouble(text: string) returns (line: Line)
    requires text != [] && text[0] == '"'
    ensures Reads(line, text)
    decreases |text|, 0
  {
    var us, rest, closed := ReadDouble(text[1..]);
    if closed {
      line := EveryTextIsALine(rest);
      QuotedThen('"', WriteUnits(us), rest);
      assert text == ['"'] + text[1..];
      PrependPiece(Double(us), line, rest);
      line := Prepended(Double(us), line);
    } else {
      OnlyTail(OpenDouble(us));
      line := Line([], [], [], OpenDouble(us));
    }
  }

  lemma QuotedSingle(text: string) returns (line: Line)
    requires text != [] && text[0] == '\''
    ensures Reads(line, text)
    decreases |text|, 0
  {
    var t, rest, closed := ReadSingle(text[1..]);
    if closed {
      line := EveryTextIsALine(rest);
      QuotedThen('\'', t, rest);
      assert text == ['\''] + text[1..];
      PrependPiece(Single(t), line, rest);
      line := Prepended(Single(t), line);
    } else {
      OnlyTail(OpenSingle(t));
      line := Line([], [], [], OpenSingle(t));
    }
  }

  /** Every text is a line, and means the same however it is read. */
  lemma MeaningOf(text: string)
    ensures exists line :: Reads(line, text)
    ensures forall line :: Reads(line, text) ==> Finish(Scan(text, FRESH)) == Meaning(line)
    ensures Finish(Scan(text, FRESH)) == Err(UnclosedQuote) <==> EndsInQuote(text)
  {
    var line := EveryTextIsALine(text);
    forall other | Reads(other, text) ensures Finish(Scan(text, FRESH)) == Meaning(other) {
      SplitUndoesQuoting(other, text);
    }
  }

  // ---- Quoting any arguments ---------------------------------------------------------------

  function EscapedUnits(t: string): seq<Unit> {
    if t == [] then [] else [if Special(t[0], true) then Escaped(t[0]) else Char(t[0])] + EscapedUnits(t[1..])
  }

  /** All arguments in double quotes, each with a blank behind it. */
  function QuotedTokens(args: seq<string>): seq<seq<Piece>> {
    if args == [] then [] else [[Double(EscapedUnits(args[0]))]] + QuotedTokens(args[1..])
  }

  function Blanks(n: nat): seq<string> {
    if n == 0 then [] else [" "] + Blanks(n - 1)
  }

  function Quoted(args: seq<string>): Line {
    Line([], QuotedTokens(args), Blanks(|args|), Closed)
  }

  lemma {:induction false} EscapedUnitsOk(t: string, rest: string)
    ensures UnitsOk(EscapedUnits(t), true, rest) && CharsOf(EscapedUnits(t)) == t
  {
    if t != [] {
      EscapedUnitsOk(t[1..], rest);
      assert EscapedUnits(t)[1..] == EscapedUnits(t[1..]);
    }
  }

  lemma OneToken(arg: string, rest: string)
    ensures var ps := [Double(EscapedUnits(arg))]; PiecesOk(ps, rest) && TokenText(ps) == arg
  {
    var ps := [Double(EscapedUnits(arg))];
    assert ps[1..] == [] && WriteToken([]) + rest == rest;
    EscapedUnitsOk(arg, ['"'] + rest);
  }

  lemma {:induction false} QuotedTokensOk(args: seq<string>)
    ensures |Blanks(|args|)| == |QuotedTokens(args)| == |args|
    ensures TokensOk(QuotedTokens(args), Blanks(|args|), []) && TokenTexts(QuotedTokens(args)) == args
  {
    if args != [] {
      QuotedTokensOk(args[1..]);
      var tokens, gaps := QuotedTokens(args), Blanks(|args|);
      assert tokens[1..] == QuotedTokens(args[1..]) && gaps[1..] == Blanks(|args| - 1);
      OneToken(args[0], gaps[0] + WriteTokens(tokens[1..], gaps[1..]) + []);
    }
  }

  /** Whatever the arguments are, quoting them and splitting the line gives them back. */
  lemma ArgumentsComeBack(args: seq<string>)
    requires args != [] && args[0] != []
    ensures |Quoted(args).gaps| == |Quoted(args).tokens|
    ensures Finish(Scan(WriteTokens(Quoted(args).tokens, Quoted(args).gaps), FRESH)) == Ok(args[0], args[1..])
  {
    QuotedTokensOk(args);
    var line := Quoted(args);
    var text := WriteTokens(line.tokens, line.gaps);
    assert text == [] + (text + []);
    SplitUndoesQuoting(line, text);
    assert TokenTexts(line.tokens)[1..] == TokenTexts(line.tokens[1..]);
  }

  /** The result is what the line means, whichever way it is read. */
  method Split(cmd: string) returns (r: Result)
    ensures r == Finish(Scan(cmd, FRESH))
    ensures exists line :: Reads(line, cmd)
    ensures forall line :: Reads(line, cmd) ==> r == Meaning(line)
    ensures r == Err(UnclosedQuote) <==> EndsInQuote(cmd)
  {
    var tokens, current := [], [];
    var single, double, started := false, false, false;
    var i := 0;
    while i < |cmd|
      invariant 0 <= i <= |cmd|
      invariant Scan(cmd[i..], Scanner(tokens, current, single, double, started)) == Scan(cmd, FRESH)
    {
      var ch := cmd[i];
      i := i + 1;
      if ch == '\\' && !single {
        var escape := false;
        if i < |cmd| {
          var next := cmd[i];
          escape := if double then next == '"' || next == '\\'
                    else next == '"' || next == '\'' || next == '\\' || IsWhitespace(next);
        }
        if escape {
          current := current + [cmd[i]];
          i := i + 1;
        } else {
          current := current + ['\\'];
        }
        started := true;
      } else if ch == '\'' && !double {
        single := !single;
        started := true;
      } else if ch == '"' && !single {
        double := !double;
        started := true;
      } else if IsWhitespace(ch) && !single && !double {
        if started {
          tokens := tokens + [current];
          current := [];
          started := false;
        }
      } else {
        current := current + [ch];
        started := true;
      }
    }
    if single || double {
      r := Err(UnclosedQuote);
    } else {
      if started {
        tokens := tokens + [current];
      }
      r := if |tokens| == 0 || tokens[0] == [] then Err(EmptyCommand) else Ok(tokens[0], tokens[1..]);
    }
    MeaningOf(cmd);
  }
}
