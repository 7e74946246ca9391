/** Sums of a natural-valued measure over a sequence, shared by the outbox and blob models. */
module Sums {

  function Sum<T>(s: seq<T>, f: T -> nat): nat {
    if s == [] then 0 else f(s[0]) + Sum(s[1..], f)
  }

  lemma {:induction false} SumConcat<T>(a: seq<T>, b: seq<T>, f: T -> nat)
    ensures Sum(a + b, f) == Sum(a, f) + Sum(b, f)
  {
    if a == [] {
      assert a + b == b;
    } else {
      assert (a + b)[1..] == a[1..] + b;
      SumConcat(a[1..], b, f);
    }
  }

  lemma SumOne<T>(x: T, f: T -> nat)
    ensures Sum([x], f) == f(x)
  {
    assert [x][1..] == [];
  }

  lemma SumAppend<T>(a: seq<T>, x: T, f: T -> nat)
    ensures Sum(a + [x], f) == Sum(a, f) + f(x)
  {
    SumConcat(a, [x], f);
    SumOne(x, f);
  }

  /** Replacing one element changes the sum by exactly the difference of the two measures. */
  lemma {:induction false} SumUpdate<T>(s: seq<T>, i: nat, x: T, f: T -> nat)
    requires i < |s|
    ensures Sum(s[i := x], f) + f(s[i]) == Sum(s, f) + f(x)
  {
    if i == 0 {
      assert s[0 := x][1..] == s[1..];
    } else {
      assert s[i := x][1..] == s[1..][i - 1 := x];
      SumUpdate(s[1..], i - 1, x, f);
    }
  }

  lemma {:induction false} SumMonotone<T>(s: seq<T>, f: T -> nat, g: T -> nat)
    requires forall i :: 0 <= i < |s| ==> f(s[i]) <= g(s[i])
    ensures Sum(s, f) <= Sum(s, g)
  {
    if s != [] {
      SumMonotone(s[1..], f, g);
    }
  }

  lemma {:induction false} SumAtLeast<T>(s: seq<T>, i: nat, f: T -> nat)
    requires i < |s|
    ensures f(s[i]) <= Sum(s, f)
  {
    if i > 0 {
      SumAtLeast(s[1..], i - 1, f);
    }
  }
}
