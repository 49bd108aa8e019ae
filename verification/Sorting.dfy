/** A stable sort by an order, why its result is unique, and the order of strings by character. */
module Sorting {
  function Insert<T>(x: T, s: seq<T>, less: (T, T) -> bool): seq<T> {
    if s == [] then [x]
    else if less(x, s[0]) then [x] + s
    else [s[0]] + Insert(x, s[1..], less)
  }

  function Sort<T>(s: seq<T>, less: (T, T) -> bool): seq<T> {
    if s == [] then [] else Insert(s[|s| - 1], Sort(s[..|s| - 1], less), less)
  }

  ghost predicate StrictOrder<T(!new)>(less: (T, T) -> bool) {
    && (forall x :: !less(x, x))
    && (forall x, y, z :: less(x, y) && less(y, z) ==> less(x, z))
  }

  ghost predicate Distinct<T(!new)>(s: seq<T>, less: (T, T) -> bool) {
    forall i, j | 0 <= i < j < |s| :: less(s[i], s[j]) || less(s[j], s[i])
  }

  ghost predicate Sorted<T(!new)>(s: seq<T>, less: (T, T) -> bool) {
    forall i, j | 0 <= i < j < |s| :: less(s[i], s[j])
  }

  lemma {:induction false} InsertKeepsElements<T>(x: T, s: seq<T>, less: (T, T) -> bool)
    ensures multiset(Insert(x, s, less)) == multiset(s) + multiset{x}
  {
    if s != [] && !less(x, s[0]) {
      InsertKeepsElements(x, s[1..], less);
      assert s == [s[0]] + s[1..];
    }
  }

  lemma {:induction false} SortIsPermutation<T>(s: seq<T>, less: (T, T) -> bool)
    ensures multiset(Sort(s, less)) == multiset(s)
    ensures |Sort(s, less)| == |s|
    ensures forall x :: x in Sort(s, less) <==> x in s
  {
    if s != [] {
      var n := |s| - 1;
      SortIsPermutation(s[..n], less);
      InsertKeepsElements(s[n], Sort(s[..n], less), less);
      assert s == s[..n] + [s[n]];
    }
    assert |multiset(Sort(s, less))| == |multiset(s)|;
    forall x
      ensures x in Sort(s, less) <==> x in s
    {
      assert x in Sort(s, less) <==> x in multiset(Sort(s, less));
      assert x in s <==> x in multiset(s);
    }
  }

  lemma {:induction false} InsertKeepsSorted<T(!new)>(x: T, s: seq<T>, less: (T, T) -> bool)
    requires StrictOrder(less) && Sorted(s, less)
    requires forall y :: y in s ==> less(x, y) || less(y, x)
    ensures Sorted(Insert(x, s, less), less)
    ensures forall y :: y in Insert(x, s, less) <==> y == x || y in s
  {
    if s == [] {
    } else if less(x, s[0]) {
      assert forall j :: 0 <= j < |s| ==> less(x, s[j]);
    } else {
      var rest := Insert(x, s[1..], less);
      InsertKeepsSorted(x, s[1..], less);
      assert s == [s[0]] + s[1..];
      assert less(s[0], x);
      forall j | 0 <= j < |rest|
        ensures less(s[0], rest[j])
      {
        assert rest[j] in rest;
        if rest[j] != x {
          var k :| 0 <= k < |s[1..]| && s[1..][k] == rest[j];
          assert rest[j] == s[k + 1];
        }
      }
    }
  }

  lemma {:induction false} SortIsSorted<T(!new)>(s: seq<T>, less: (T, T) -> bool)
    requires StrictOrder(less) && Distinct(s, less)
    ensures Sorted(Sort(s, less), less)
  {
    if s != [] {
      var n := |s| - 1;
      SortIsSorted(s[..n], less);
      SortIsPermutation(s[..n], less);
      forall y | y in Sort(s[..n], less)
        ensures less(s[n], y) || less(y, s[n])
      {
        assert y in s[..n];
        var k :| 0 <= k < n && s[k] == y;
      }
      InsertKeepsSorted(s[n], Sort(s[..n], less), less);
    }
  }

  /** A strictly sorted sequence is determined by its elements. */
  lemma {:induction false} SortedIsUnique<T(!new)>(a: seq<T>, b: seq<T>, less: (T, T) -> bool)
    requires StrictOrder(less) && Sorted(a, less) && Sorted(b, less)
    requires forall x :: x in a <==> x in b
    ensures a == b
  {
    if a == [] {
      assert forall k :: 0 <= k < |b| ==> b[k] in a;
    } else {
      assert a[0] in b;
      assert b != [] && b[0] in a;
      assert a[0] == b[0];
      assert a == [a[0]] + a[1..] && b == [b[0]] + b[1..];
      forall x
        ensures x in a[1..] <==> x in b[1..]
      {
        HeadIsNotInTail(a, less);
        HeadIsNotInTail(b, less);
        assert x in a <==> x == a[0] || x in a[1..];
        assert x in b <==> x == b[0] || x in b[1..];
      }
      SortedIsUnique(a[1..], b[1..], less);
    }
  }

  lemma HeadIsNotInTail<T(!new)>(a: seq<T>, less: (T, T) -> bool)
    requires StrictOrder(less) && Sorted(a, less) && a != []
    ensures a[0] !in a[1..]
  {
    assert forall k :: 0 <= k < |a[1..]| ==> less(a[0], a[1..][k]);
  }

  function Map<T, U>(s: seq<T>, f: T -> U): seq<U> {
    seq(|s|, i requires 0 <= i < |s| => f(s[i]))
  }

  lemma {:induction false} InsertMap<T(!new), U>(x: T, s: seq<T>, f: T -> U, less: (T, T) -> bool,
      less': (U, U) -> bool)
    requires forall a, b :: less'(f(a), f(b)) == less(a, b)
    ensures Insert(f(x), Map(s, f), less') == Map(Insert(x, s, less), f)
  {
    if s != [] && !less(x, s[0]) {
      InsertMap(x, s[1..], f, less, less');
      assert Map(s, f)[1..] == Map(s[1..], f);
    }
  }

  /** Sorting by something a mapping keeps can be done before or after the mapping. */
  lemma {:induction false} SortMap<T(!new), U>(s: seq<T>, f: T -> U, less: (T, T) -> bool, less': (U, U) -> bool)
    requires forall a, b :: less'(f(a), f(b)) == less(a, b)
    ensures Sort(Map(s, f), less') == Map(Sort(s, less), f)
  {
    if s != [] {
      var n := |s| - 1;
      SortMap(s[..n], f, less, less');
      InsertMap(s[n], Sort(s[..n], less), f, less, less');
      assert Map(s, f)[..n] == Map(s[..n], f);
    }
  }

  // ---------------------------------------------------------------- order of sequences by their first difference

  ghost predicate TotalOrder<T(!new)>(less: (T, T) -> bool) {
    StrictOrder(less) && forall x, y :: x == y || less(x, y) || less(y, x)
  }

  predicate Lex<T(==)>(a: seq<T>, b: seq<T>, less: (T, T) -> bool) {
    b != [] && (a == [] || less(a[0], b[0]) || (a[0] == b[0] && Lex(a[1..], b[1..], less)))
  }

  lemma {:induction false} LexIsIrreflexive<T(!new)>(a: seq<T>, less: (T, T) -> bool)
    requires TotalOrder(less)
    ensures !Lex(a, a, less)
  {
    if a != [] {
      LexIsIrreflexive(a[1..], less);
    }
  }

  lemma {:induction false} LexIsTransitive<T(!new)>(a: seq<T>, b: seq<T>, c: seq<T>, less: (T, T) -> bool)
    requires TotalOrder(less) && Lex(a, b, less) && Lex(b, c, less)
    ensures Lex(a, c, less)
  {
    if a != [] && a[0] == b[0] && b[0] == c[0] {
      LexIsTransitive(a[1..], b[1..], c[1..], less);
    }
  }

  lemma {:induction false} LexIsTotal<T(!new)>(a: seq<T>, b: seq<T>, less: (T, T) -> bool)
    requires TotalOrder(less)
    ensures a == b || Lex(a, b, less) || Lex(b, a, less)
  {
    if a != [] && b != [] && a[0] == b[0] {
      LexIsTotal(a[1..], b[1..], less);
      assert a == [a[0]] + a[1..] && b == [b[0]] + b[1..];
    }
  }

  predicate CharBefore(a: char, b: char) { a < b }

  /** The order of strings by character. */
  predicate Less(a: string, b: string) {
    Lex(a, b, CharBefore)
  }
}
