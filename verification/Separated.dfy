/** Text cut at, and joined with, a separator character. */
module Separated {

  /** The pieces of `s` between its separators; one more than there are separators. */
  function Split(s: string, sep: char): (r: seq<string>)
    ensures |r| >= 1
  {
    if s == [] then [[]]
    else
      var rest := Split(s[1..], sep);
      if s[0] == sep then [[]] + rest else [[s[0]] + rest[0]] + rest[1..]
  }

  function Join(parts: seq<string>, sep: char): string {
    if parts == [] then [] else if |parts| == 1 then parts[0] else parts[0] + [sep] + Join(parts[1..], sep)
  }

  predicate Free(s: string, sep: char) {
    sep !in s
  }

  predicate AllFree(parts: seq<string>, sep: char) {
    forall i :: 0 <= i < |parts| ==> Free(parts[i], sep)
  }

  lemma {:induction false} PiecesAreFree(s: string, sep: char)
    ensures AllFree(Split(s, sep), sep)
  {
    if s != [] {
      PiecesAreFree(s[1..], sep);
    }
  }

  lemma {:induction false} SplitFirst(part: string, rest: string, sep: char)
    requires Free(part, sep)
    ensures Split(part + [sep] + rest, sep) == [part] + Split(rest, sep)
  {
    if part == [] {
      assert part + [sep] + rest == [sep] + rest;
      assert ([sep] + rest)[1..] == rest;
    } else {
      assert (part + [sep] + rest)[1..] == part[1..] + [sep] + rest;
      SplitFirst(part[1..], rest, sep);
      assert [part[0]] + part[1..] == part;
    }
  }

  lemma {:induction false} SplitLast(part: string, sep: char)
    requires Free(part, sep)
    ensures Split(part, sep) == [part]
  {
    if part != [] {
      SplitLast(part[1..], sep);
      assert [part[0]] + part[1..] == part;
    }
  }

  /** Joined parts come apart again at their separators. */
  lemma {:induction false} SplitUndoesJoin(parts: seq<string>, sep: char)
    requires parts != [] && AllFree(parts, sep)
    ensures Split(Join(parts, sep), sep) == parts
  {
    if |parts| == 1 {
      SplitLast(parts[0], sep);
    } else {
      SplitUndoesJoin(parts[1..], sep);
      SplitFirst(parts[0], Join(parts[1..], sep), sep);
      assert parts == [parts[0]] + parts[1..];
    }
  }

  lemma {:induction false} JoinUndoesSplit(s: string, sep: char)
    ensures Join(Split(s, sep), sep) == s
  {
    if s != [] {
      JoinUndoesSplit(s[1..], sep);
      var rest := Split(s[1..], sep);
      if s[0] == sep {
        assert ([[]] + rest)[1..] == rest;
      } else {
        var all := [[s[0]] + rest[0]] + rest[1..];
        if |rest| > 1 {
          assert all[1..] == rest[1..];
        }
      }
    }
  }

  lemma {:induction false} JoinAppend(parts: seq<string>, part: string, sep: char)
    requires parts != []
    ensures Join(parts + [part], sep) == Join(parts, sep) + [sep] + part
  {
    if |parts| == 1 {
      assert (parts + [part])[1..] == [part];
    } else {
      JoinAppend(parts[1..], part, sep);
      assert (parts + [part])[1..] == parts[1..] + [part];
    }
  }

  lemma SplitStep(c: char, tail: seq<string>, more: seq<string>)
    requires |tail| >= 1
    ensures [[]] + (tail + more) == ([[]] + tail) + more
    ensures [[c] + (tail + more)[0]] + (tail + more)[1..] == ([[c] + tail[0]] + tail[1..]) + more
  {
    assert (tail + more)[0] == tail[0];
    assert (tail + more)[1..] == tail[1..] + more;
  }

  lemma {:induction false} SplitConcat(a: string, b: string, sep: char)
    ensures Split(a + [sep] + b, sep) == Split(a, sep) + Split(b, sep)
  {
    var s := a + [sep] + b;
    if a == [] {
      assert s[0] == sep && s[1..] == b;
    } else {
      assert s[0] == a[0] && s[1..] == a[1..] + [sep] + b;
      SplitConcat(a[1..], b, sep);
      SplitStep(a[0], Split(a[1..], sep), Split(b, sep));
    }
  }
}
