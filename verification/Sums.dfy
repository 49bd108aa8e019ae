/** Sums over a sequence, and what reordering does to them: nothing. */
module Sums {
  function SumBy<T>(s: seq<T>, f: T -> int): int {
    if s == [] then 0 else SumBy(s[..|s| - 1], f) + f(s[|s| - 1])
  }

  lemma {:induction false} SumByConcat<T>(a: seq<T>, b: seq<T>, f: T -> int)
    ensures SumBy(a + b, f) == SumBy(a, f) + SumBy(b, f)
  {
    if b == [] {
      assert a + b == a;
    } else {
      assert (a + b)[..|a + b| - 1] == a + b[..|b| - 1];
      SumByConcat(a, b[..|b| - 1], f);
    }
  }

  lemma SplitAt<T>(s: seq<T>, i: nat)
    requires i < |s|
    ensures s == s[..i] + [s[i]] + s[i + 1..]
    ensures multiset(s[..i] + s[i + 1..]) == multiset(s) - multiset{s[i]}
  {
    assert s == s[..i] + [s[i]] + s[i + 1..];
  }

  lemma SumByRemove<T>(s: seq<T>, i: nat, f: T -> int)
    requires i < |s|
    ensures SumBy(s, f) == SumBy(s[..i] + s[i + 1..], f) + f(s[i])
  {
    SplitAt(s, i);
    SumByConcat(s[..i] + [s[i]], s[i + 1..], f);
    SumByConcat(s[..i], [s[i]], f);
    SumByConcat(s[..i], s[i + 1..], f);
    assert SumBy([s[i]], f) == f(s[i]) by { assert [s[i]][..0] == []; }
  }

  /** Where to find in `b` the last element of `a`, and what is left of both. */
  lemma RemoveLast<T>(a: seq<T>, b: seq<T>) returns (i: nat)
    requires a != [] && multiset(a) == multiset(b)
    ensures i < |b| && b[i] == a[|a| - 1]
    ensures multiset(a[..|a| - 1]) == multiset(b[..i] + b[i + 1..])
  {
    var n := |a| - 1;
    assert a[n] in multiset(b);
    i :| 0 <= i < |b| && b[i] == a[n];
    SplitAt(a, n);
    SplitAt(b, i);
    assert a[..n] + a[n + 1..] == a[..n];
  }

  /** A sum does not depend on the order of its terms. */
  lemma {:induction false} SumByPermutation<T>(a: seq<T>, b: seq<T>, f: T -> int)
    requires multiset(a) == multiset(b)
    ensures SumBy(a, f) == SumBy(b, f)
    decreases |a|
  {
    if a == [] {
      assert |multiset(b)| == 0;
    } else {
      var i := RemoveLast(a, b);
      SumByPermutation(a[..|a| - 1], b[..i] + b[i + 1..], f);
      SumByRemove(b, i, f);
    }
  }

  lemma {:induction false} SumByBound<T>(s: seq<T>, f: T -> int, g: T -> int)
    requires forall i :: 0 <= i < |s| ==> f(s[i]) <= g(s[i])
    ensures SumBy(s, f) <= SumBy(s, g)
  {
    if s != [] {
      SumByBound(s[..|s| - 1], f, g);
    }
  }
}
