/** Splitting a MapReduce input file into line chunks (crates/cli/src/cli_app.rs, `run_mapreduce`). */
module Chunks {
  import opened Separated

  // ---- Lines -------------------------------------------------------------------------------

  function StripCr(line: string): string {
    if line != [] && line[|line| - 1] == '\r' then line[..|line| - 1] else line
  }

  /** `str::lines`: a final newline ends the last line, and a carriage return before a newline goes too. */
  function Lines(content: string): seq<string> {
    FromPieces(Split(content, '\n'))
  }

  /** Every piece but the last was ended by a newline; an empty last piece is no line. */
  function FromPieces(pieces: seq<string>): seq<string>
    requires pieces != []
  {
    if |pieces| == 1 then (if pieces[0] == [] then [] else pieces) else [StripCr(pieces[0])] + FromPieces(pieces[1..])
  }

  lemma {:induction false} FromPiecesAreLines(pieces: seq<string>)
    requires pieces != [] && AllFree(pieces, '\n')
    ensures AllFree(FromPieces(pieces), '\n')
  {
    if |pieces| > 1 {
      FromPiecesAreLines(pieces[1..]);
    }
  }

  lemma LinesAreLines(content: string)
    ensures AllFree(Lines(content), '\n')
  {
    PiecesAreFree(content, '\n');
    FromPiecesAreLines(Split(content, '\n'));
  }

  // ---- What the lines are ------------------------------------------------------------------

  /** Every carriage return that stands before a newline is gone. */
  function WithoutReturns(s: string): string {
    if s == [] then []
    else if |s| > 1 && s[0] == '\r' && s[1] == '\n' then WithoutReturns(s[1..])
    else [s[0]] + WithoutReturns(s[1..])
  }

  predicate EndsInNewline(s: string) {
    s != [] && s[|s| - 1] == '\n'
  }

  function WithoutFinalNewline(s: string): string {
    if EndsInNewline(s) then s[..|s| - 1] else s
  }

  /** One line for each newline, and one for what follows the last of them. */
  function LineCount(s: string): nat {
    multiset(s)['\n'] + if s == [] || EndsInNewline(s) then 0 else 1
  }

  /** The text is cut at its first newline. */
  lemma {:induction false} FirstNewline(s: string) returns (part: string, rest: string)
    requires '\n' in s
    ensures Free(part, '\n') && s == part + ['\n'] + rest
  {
    if s[0] == '\n' {
      part, rest := [], s[1..];
    } else {
      part, rest := FirstNewline(s[1..]);
      part := [s[0]] + part;
    }
  }

  lemma {:induction false} ReturnsFree(s: string)
    requires Free(s, '\n')
    ensures WithoutReturns(s) == s
  {
    if s != [] {
      ReturnsFree(s[1..]);
    }
  }

  lemma {:induction false} ReturnsBefore(part: string, end: string)
    requires Free(part, '\n') && end != [] && end[0] == '\n'
    ensures WithoutReturns(part + end) == StripCr(part) + WithoutReturns(end)
  {
    if part == [] {
      assert part + end == end;
    } else {
      var c, tail := part[0], part[1..];
      assert c != '\n' && Free(tail, '\n');
      ReturnsBefore(tail, end);
      StripMore(c, tail);
      assert part == [c] + tail && part + end == [c] + (tail + end);
      ReturnsStep(c, tail + end);
      var kept := if tail == [] && c == '\r' then [] else [c];
      if tail != [] {
        assert (tail + end)[0] == tail[0] && tail[0] in tail;
      }
      Regroup(kept, StripCr(tail), WithoutReturns(end));
    }
  }

  lemma Regroup(a: string, b: string, c: string)
    ensures a + (b + c) == (a + b) + c
  {
  }

  lemma StripMore(c: char, tail: string)
    ensures StripCr([c] + tail) == (if tail == [] && c == '\r' then [] else [c]) + StripCr(tail)
  {
  }

  lemma ReturnsFirst(part: string, rest: string)
    requires Free(part, '\n')
    ensures WithoutReturns(part + ['\n'] + rest) == StripCr(part) + ['\n'] + WithoutReturns(rest)
  {
    var end := ['\n'] + rest;
    assert part + ['\n'] + rest == part + end;
    ReturnsBefore(part, end);
    assert end[1..] == rest;
  }

  lemma ReturnsStep(c: char, rest: string)
    requires rest != []
    ensures WithoutReturns([c] + rest) == (if c == '\r' && rest[0] == '\n' then [] else [c]) + WithoutReturns(rest)
  {
    assert ([c] + rest)[1..] == rest;
  }

  lemma {:induction false} ReturnsKeepEnd(s: string)
    ensures s != [] ==> WithoutReturns(s) != [] && (EndsInNewline(WithoutReturns(s)) <==> EndsInNewline(s))
    ensures s == [] ==> WithoutReturns(s) == []
  {
    if |s| > 1 {
      ReturnsKeepEnd(s[1..]);
    }
  }

  lemma LinesFirst(part: string, rest: string)
    requires Free(part, '\n')
    ensures Lines(part + ['\n'] + rest) == [StripCr(part)] + Lines(rest)
  {
    SplitFirst(part, rest, '\n');
    assert ([part] + Split(rest, '\n'))[1..] == Split(rest, '\n');
  }

  lemma CountFirst(part: string, rest: string)
    requires Free(part, '\n')
    ensures LineCount(part + ['\n'] + rest) == 1 + LineCount(rest)
  {
    var s := part + ['\n'] + rest;
    assert multiset(s) == multiset(part) + multiset(['\n']) + multiset(rest);
    assert multiset(part)['\n'] == 0;
    assert s[|s| - 1] == if rest == [] then '\n' else rest[|rest| - 1];
  }

  lemma ShapeFirst(part: string, rest: string)
    ensures var tail := WithoutFinalNewline(rest);
            WithoutFinalNewline(part + ['\n'] + rest) == if rest == [] then part else part + ['\n'] + tail
  {
    var s := part + ['\n'] + rest;
    if rest == [] {
      assert s[..|s| - 1] == part;
    } else {
      assert s[|s| - 1] == rest[|rest| - 1];
      if EndsInNewline(rest) {
        assert s[..|s| - 1] == part + ['\n'] + rest[..|rest| - 1];
      }
    }
  }

  /**
   What `str::lines` gives for any text: as many lines as the text has, which put together are the
   text without its final newline and without carriage returns before newlines.
   */
  lemma {:induction false} LinesOfText(s: string)
    ensures |Lines(s)| == LineCount(s)
    ensures Join(Lines(s), '\n') == WithoutFinalNewline(WithoutReturns(s))
    decreases |s|
  {
    if '\n' in s {
      var part, rest := FirstNewline(s);
      LinesOfText(rest);
      LinesFirst(part, rest);
      CountFirst(part, rest);
      ReturnsFirst(part, rest);
      ReturnsKeepEnd(rest);
      ShapeFirst(StripCr(part), WithoutReturns(rest));
      assert ([StripCr(part)] + Lines(rest))[1..] == Lines(rest);
    } else {
      SplitLast(s, '\n');
      ReturnsFree(s);
      assert multiset(s)['\n'] == 0;
    }
  }

  /** No other list of lines is like that. */
  lemma LinesAreUnique(s: string, lines: seq<string>)
    requires AllFree(lines, '\n') && |lines| == LineCount(s)
    requires Join(lines, '\n') == WithoutFinalNewline(WithoutReturns(s))
    ensures lines == Lines(s)
  {
    LinesOfText(s);
    LinesAreLines(s);
    if lines != [] {
      SplitUndoesJoin(lines, '\n');
      SplitUndoesJoin(Lines(s), '\n');
    }
  }

  /** No carriage return before a newline, and no newline at the end. */
  predicate PlainText(s: string) {
    !EndsInNewline(s) && forall i :: 0 <= i < |s| - 1 ==> !(s[i] == '\r' && s[i + 1] == '\n')
  }

  lemma {:induction false} ReturnsShorten(s: string)
    ensures |WithoutReturns(s)| <= |s|
    ensures |WithoutReturns(s)| == |s| ==> WithoutReturns(s) == s
    ensures |WithoutReturns(s)| == |s| <==> forall i :: 0 <= i < |s| - 1 ==> !(s[i] == '\r' && s[i + 1] == '\n')
  {
    if s != [] {
      var tail := s[1..];
      ReturnsShorten(tail);
      if |s| > 1 && s[0] == '\r' && s[1] == '\n' {
        assert !(forall i :: 0 <= i < |s| - 1 ==> !(s[i] == '\r' && s[i + 1] == '\n'));
      } else if |WithoutReturns(s)| == |s| {
        forall i | 0 <= i < |s| - 1 ensures !(s[i] == '\r' && s[i + 1] == '\n') {
          assert i > 0 ==> s[i] == tail[i - 1] && s[i + 1] == tail[i];
        }
      } else {
        var i :| 0 <= i < |tail| - 1 && tail[i] == '\r' && tail[i + 1] == '\n';
        assert s[i + 1] == '\r' && s[i + 2] == '\n';
      }
    }
  }

  /**
   The lines the mappers see, put together again, are the file's content exactly if the file has no
   carriage return before a newline and does not end in one.
   */
  lemma ContentIsKeptExactlyIf(content: string)
    ensures Join(Lines(content), '\n') == content <==> PlainText(content)
  {
    LinesOfText(content);
    ReturnsShorten(content);
    ReturnsKeepEnd(content);
  }

  // ---- Chunking ----------------------------------------------------------------------------

  function Flatten(chunks: seq<seq<string>>): seq<string> {
    if chunks == [] then [] else Flatten(chunks[..|chunks| - 1]) + chunks[|chunks| - 1]
  }

  /** `usize::div_ceil`. */
  function DivCeil(n: nat, k: nat): nat
    requires k > 0
  {
    (n + k - 1) / k
  }

  lemma DivCeilCovers(n: nat, k: nat)
    requires k > 0
    ensures DivCeil(n, k) * k >= n
    ensures n > 0 ==> DivCeil(n, k) > 0
  {
    var q := (n + k - 1) / k;
    assert n + k - 1 == q * k + (n + k - 1) % k;
  }

  /** The chunks of one file: in order, complete, none empty, of bounded size and number. */
  method ChunkLines(lines: seq<string>, k: nat) returns (chunks: seq<seq<string>>)
    requires k >= 1
    ensures Flatten(chunks) == lines
    ensures lines == [] ==> chunks == [[]]
    ensures lines != [] ==> 1 <= |chunks| <= k
    ensures forall i :: 0 <= i < |chunks| ==> |chunks[i]| <= DivCeil(|lines|, k) && (lines != [] ==> chunks[i] != [])
    ensures forall i :: 0 <= i < |chunks| - 1 ==> |chunks[i]| == DivCeil(|lines|, k)
  {
    if lines == [] {
      chunks := [[]];
      assert chunks[..0] == [];
      return;
    }
    var size := DivCeil(|lines|, k);
    DivCeilCovers(|lines|, k);
    chunks := [];
    var at := 0;
    while at < |lines|
      invariant 0 <= at <= |lines|
      invariant Flatten(chunks) == lines[..at]
      invariant at < |lines| ==> at == |chunks| * size
      invariant at == |lines| ==> chunks != [] && (|chunks| - 1) * size < |lines|
      invariant forall i :: 0 <= i < |chunks| ==> 0 < |chunks[i]| <= size
      invariant forall i :: 0 <= i < |chunks| && (at < |lines| || i < |chunks| - 1) ==> |chunks[i]| == size
    {
      var end := if at + size < |lines| then at + size else |lines|;
      ghost var before := chunks;
      chunks := chunks + [lines[at..end]];
      assert chunks[..|before|] == before;
      assert lines[..end] == lines[..at] + lines[at..end];
      assert at == |before| * size;
      assert |chunks| * size == |before| * size + size by { Distribute(|before|, size); }
      at := end;
    }
    assert lines[..at] == lines;
    CountBound(|chunks|, size, |lines|, k);
  }

  lemma Distribute(a: nat, b: nat)
    ensures (a + 1) * b == a * b + b
  {
  }

  lemma CountBound(count: nat, size: nat, n: nat, k: nat)
    requires count >= 1 && (count - 1) * size < n <= size * k
    ensures count <= k
  {
    if k <= count - 1 {
      MulMonotone(k, count - 1, size);
    }
  }

  lemma MulMonotone(a: nat, b: nat, c: nat)
    requires a <= b
    ensures a * c <= b * c
  {
  }

  /** All chunks cut at their newlines and put one after another. */
  function Recovered(chunks: seq<string>): seq<string> {
    if chunks == [] then [] else Recovered(chunks[..|chunks| - 1]) + Split(chunks[|chunks| - 1], '\n')
  }

  function JoinEach(parts: seq<seq<string>>): (r: seq<string>)
    ensures |r| == |parts| && forall i :: 0 <= i < |parts| ==> r[i] == Join(parts[i], '\n')
  {
    seq(|parts|, i requires 0 <= i < |parts| => Join(parts[i], '\n'))
  }

  /** Cutting the joined chunks at newlines gives the chunks back, one by one and all together. */
  lemma {:induction false} RecoverUndoesJoin(parts: seq<seq<string>>)
    requires forall i :: 0 <= i < |parts| ==> parts[i] != []
    requires AllFree(Flatten(parts), '\n')
    ensures Recovered(JoinEach(parts)) == Flatten(parts)
    ensures forall i :: 0 <= i < |parts| ==> Split(JoinEach(parts)[i], '\n') == parts[i]
  {
    if parts != [] {
      var last := |parts| - 1;
      var front := Flatten(parts[..last]);
      assert AllFree(front, '\n') && AllFree(parts[last], '\n') by { SplitLines(front, parts[last]); }
      RecoverUndoesJoin(parts[..last]);
      SplitUndoesJoin(parts[last], '\n');
      assert JoinEach(parts)[..last] == JoinEach(parts[..last]);
      forall i | 0 <= i < |parts|
        ensures Split(JoinEach(parts)[i], '\n') == parts[i]
      {
        if i < last {
          assert JoinEach(parts[..last])[i] == JoinEach(parts)[i];
        }
      }
    }
  }

  lemma SplitLines(a: seq<string>, b: seq<string>)
    requires AllFree(a + b, '\n')
    ensures AllFree(a, '\n') && AllFree(b, '\n')
  {
    forall i | 0 <= i < |a| ensures Free(a[i], '\n') {
      assert (a + b)[i] == a[i];
    }
    forall i | 0 <= i < |b| ensures Free(b[i], '\n') {
      assert (a + b)[|a| + i] == b[i];
    }
  }

  /**
   What one input file turns into: at most `k` strings of at most ceil(n/k) lines each, all but the
   last of exactly that many, which the mappers, cutting at newlines, see as the `n` lines of the
   file, in order and without carriage returns before newlines.
   */
  method ChunkFile(content: string, k: nat) returns (chunks: seq<string>)
    requires k >= 1
    ensures content == [] ==> chunks == [[]]
    ensures content != [] ==> 1 <= |chunks| <= k && |Recovered(chunks)| == LineCount(content)
    ensures Join(Recovered(chunks), '\n') == WithoutFinalNewline(WithoutReturns(content))
    ensures forall i :: 0 <= i < |chunks| && content != [] ==> |Split(chunks[i], '\n')| <= DivCeil(LineCount(content), k)
    ensures forall i :: 0 <= i < |chunks| - 1 ==> |Split(chunks[i], '\n')| == DivCeil(LineCount(content), k)
  {
    LinesOfText(content);
    NoLinesExactlyIf(content);
    var parts := ChunkLines(Lines(content), k);
    chunks := JoinEach(parts);
    LinesRecovered(content, parts);
  }

  lemma LinesRecovered(content: string, parts: seq<seq<string>>)
    requires Flatten(parts) == Lines(content) && (content == [] ==> parts == [[]])
    requires content != [] ==> forall i :: 0 <= i < |parts| ==> parts[i] != []
    ensures Join(Recovered(JoinEach(parts)), '\n') == Join(Lines(content), '\n')
    ensures content == [] ==> JoinEach(parts) == [[]]
    ensures content != [] ==>
            && |Recovered(JoinEach(parts))| == |Lines(content)|
            && forall i :: 0 <= i < |parts| ==> Split(JoinEach(parts)[i], '\n') == parts[i]
  {
    if content != [] {
      LinesAreLines(content);
      RecoverUndoesJoin(parts);
    } else {
      assert JoinEach(parts) == [[]] && Recovered([[]]) == [[]];
    }
  }

  lemma NoLinesExactlyIf(content: string)
    ensures LineCount(content) == 0 <==> content == []
  {
    if EndsInNewline(content) {
      assert content[|content| - 1] in multiset(content);
    }
  }
}
