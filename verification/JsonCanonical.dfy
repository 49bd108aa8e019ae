/** Canonical text decides sameness up to key order, for any total order of the keys. */
module JsonCanonical {
  import opened Prelude
  import opened Sorting
  import opened Json
  import opened JsonRoundTrip

  predicate UnitBefore(a: Unit, b: Unit) { a < b }

  /** Key order as in section 3.2.3 of RFC 8785: by UTF-16 code units. */
  predicate UnitLess(a: Text, b: Text) {
    Lex(a, b, UnitBefore)
  }

  lemma UnitLessIsTotalOrder()
    ensures TotalOrder(UnitLess)
  {
    forall a
      ensures !UnitLess(a, a)
    {
      LexIsIrreflexive(a, UnitBefore);
    }
    forall a, b, c | UnitLess(a, b) && UnitLess(b, c)
      ensures UnitLess(a, c)
    {
      LexIsTransitive(a, b, c, UnitBefore);
    }
    forall a, b
      ensures a == b || UnitLess(a, b) || UnitLess(b, a)
    {
      LexIsTotal(a, b, UnitBefore);
    }
  }

  /** The same tree, with objects compared as sets of fields. */
  ghost predicate SameTree(a: Json, b: Json)
    decreases a
  {
    if a.Array? && b.Array? then
      |a.items| == |b.items| && forall i | 0 <= i < |a.items| :: SameTree(a.items[i], b.items[i])
    else if a.Object? && b.Object? then
      && (forall f | f in a.fields :: exists g | g in b.fields :: SameField(f, g))
      && (forall g | g in b.fields :: exists f | f in a.fields :: SameField(f, g))
    else
      a == b
  }

  ghost predicate SameField(f: Field, g: Field)
    decreases f
  {
    f.key == g.key && SameTree(f.value, g.value)
  }

  function FieldByKey(less: (Text, Text) -> bool): (Field, Field) -> bool {
    (a: Field, b: Field) => less(a.key, b.key)
  }

  function Norms(fields: seq<Field>, less: (Text, Text) -> bool): seq<Field>
    decreases fields, 0
  {
    seq(|fields|, i requires 0 <= i < |fields| => Field(fields[i].key, Norm(fields[i].value, less)))
  }

  /** The value with every object's fields in key order. */
  function Norm(v: Json, less: (Text, Text) -> bool): Json
    decreases v, 1
  {
    match v
    case Array(items) => Array(seq(|items|, i requires 0 <= i < |items| => Norm(items[i], less)))
    case Object(fields) => Object(Sort(Norms(fields, less), FieldByKey(less)))
    case _ => v
  }

  lemma FieldOrder(less: (Text, Text) -> bool, fields: seq<Field>)
    requires TotalOrder(less)
    ensures StrictOrder(FieldByKey(less))
    ensures DistinctKeys(fields) ==> Sorting.Distinct(fields, FieldByKey(less))
  {
    var before := FieldByKey(less);
    forall a: Field
      ensures !before(a, a)
    {
      assert !less(a.key, a.key);
    }
    forall a: Field, b: Field, c: Field | before(a, b) && before(b, c)
      ensures before(a, c)
    {
      assert less(a.key, b.key) && less(b.key, c.key);
    }
  }

  lemma SortedFields(v: Json, less: (Text, Text) -> bool)
    requires v.Object? && DistinctKeys(v.fields) && TotalOrder(less)
    ensures Sorted(Norm(v, less).fields, FieldByKey(less)) && StrictOrder(FieldByKey(less))
    ensures DistinctKeys(Norm(v, less).fields)
    ensures forall f :: f in Norm(v, less).fields <==> f in Norms(v.fields, less)
    ensures |Norm(v, less).fields| == |v.fields|
  {
    var fields := Norms(v.fields, less);
    FieldOrder(less, fields);
    SortIsSorted(fields, FieldByKey(less));
    SortIsPermutation(fields, FieldByKey(less));
    var n := Norm(v, less).fields;
    forall i, j | 0 <= i < j < |n|
      ensures n[i].key != n[j].key
    {
      assert FieldByKey(less)(n[i], n[j]);
    }
  }

  lemma {:induction false} NormIsValid(v: Json, less: (Text, Text) -> bool)
    requires Valid(v) && TotalOrder(less)
    ensures Valid(Norm(v, less))
  {
    match v
    case Array(items) =>
      forall i | 0 <= i < |items|
        ensures Valid(Norm(items[i], less))
      {
        NormIsValid(items[i], less);
      }
    case Object(fields) =>
      SortedFields(v, less);
      var n := Norm(v, less).fields;
      forall k | 0 <= k < |n|
        ensures Valid(n[k].value)
      {
        assert n[k] in Norms(fields, less);
        var i :| 0 <= i < |fields| && Norms(fields, less)[i] == n[k];
        NormIsValid(fields[i].value, less);
      }
    case _ =>
  }

  // ---------------------------------------------------------------- the writer prints the normal form

  function RenderField(): Field -> Rendered {
    (f: Field) => Rendered(f.key, Print(f.value))
  }

  lemma {:induction false} CanonicalPrintsNorm(v: Json, less: (Text, Text) -> bool)
    ensures Canonical(v, less) == Print(Norm(v, less))
  {
    match v
    case Array(items) =>
      var norms := Norm(v, less).items;
      forall i | 0 <= i < |items|
        ensures Canonical(items[i], less) == Print(norms[i])
      {
        CanonicalPrintsNorm(items[i], less);
      }
      assert seq(|items|, i requires 0 <= i < |items| => Canonical(items[i], less)) == Printed(norms);
    case Object(fields) =>
      ObjectPrintsNorm(v, less);
    case _ =>
  }

  lemma {:induction false} ObjectPrintsNorm(v: Json, less: (Text, Text) -> bool)
    requires v.Object?
    ensures Canonical(v, less) == Print(Norm(v, less))
    decreases v, 0
  {
    var fields, norms := v.fields, Norms(v.fields, less);
    var rendered := seq(|fields|,
      i requires 0 <= i < |fields| => Rendered(fields[i].key, Canonical(fields[i].value, less)));
    forall i | 0 <= i < |fields|
      ensures rendered[i] == RenderField()(norms[i])
    {
      CanonicalPrintsNorm(fields[i].value, less);
    }
    assert rendered == Map(norms, RenderField());
    SortMap(norms, RenderField(), FieldByKey(less), ByKey(less));
    var sorted := Sort(norms, FieldByKey(less));
    assert Map(sorted, RenderField()) == PrintedFields(sorted);
  }

  // ---------------------------------------------------------------- sameness

  lemma {:induction false} SameTreeSameNorm(a: Json, b: Json, less: (Text, Text) -> bool)
    requires Valid(a) && Valid(b) && TotalOrder(less)
    ensures SameTree(a, b) <==> Norm(a, less) == Norm(b, less)
    decreases a, 1
  {
    if a.Array? && b.Array? {
      var m, n := Norm(a, less).items, Norm(b, less).items;
      if |a.items| == |b.items| {
        forall i | 0 <= i < |a.items|
          ensures SameTree(a.items[i], b.items[i]) <==> m[i] == n[i]
        {
          SameTreeSameNorm(a.items[i], b.items[i], less);
        }
      }
    } else if a.Object? && b.Object? {
      SameObjectSameNorm(a, b, less);
    }
  }

  lemma {:induction false} SameObjectSameNorm(a: Json, b: Json, less: (Text, Text) -> bool)
    requires Valid(a) && Valid(b) && TotalOrder(less) && a.Object? && b.Object?
    ensures SameTree(a, b) <==> Norm(a, less) == Norm(b, less)
    decreases a, 0
  {
    var m, n := Norms(a.fields, less), Norms(b.fields, less);
    forall i, j | 0 <= i < |a.fields| && 0 <= j < |b.fields|
      ensures m[i] == n[j] <==> SameField(a.fields[i], b.fields[j])
    {
      SameTreeSameNorm(a.fields[i].value, b.fields[j].value, less);
    }
    SortedFields(a, less);
    SortedFields(b, less);
    if SameTree(a, b) {
      SameTreeSameNorms(a, b, m, n);
      SortedIsUnique(Norm(a, less).fields, Norm(b, less).fields, FieldByKey(less));
    } else if Norm(a, less) == Norm(b, less) {
      SameNormsSameTree(a, b, m, n);
    }
  }

  ghost predicate Matched(a: seq<Field>, b: seq<Field>, m: seq<Field>, n: seq<Field>) {
    && |m| == |a| && |n| == |b|
    && forall i, j | 0 <= i < |m| && 0 <= j < |n| :: m[i] == n[j] <==> SameField(a[i], b[j])
  }

  lemma Included<T>(a: seq<Field>, b: seq<Field>, m: seq<T>, n: seq<T>, same: (Field, Field) -> bool)
    requires |m| == |a| && |n| == |b|
    requires forall i, j | 0 <= i < |m| && 0 <= j < |n| :: same(a[i], b[j]) ==> m[i] == n[j]
    requires forall f | f in a :: exists g | g in b :: same(f, g)
    ensures forall x :: x in m ==> x in n
  {
    forall x | x in m
      ensures x in n
    {
      var i :| 0 <= i < |m| && m[i] == x;
      assert a[i] in a;
      var g :| g in b && same(a[i], g);
      var j :| 0 <= j < |n| && b[j] == g;
      assert m[i] == n[j];
    }
  }

  ghost function SameFieldAs(): (Field, Field) -> bool {
    (f: Field, g: Field) => SameField(f, g)
  }

  ghost function SameFieldFlipped(): (Field, Field) -> bool {
    (g: Field, f: Field) => SameField(f, g)
  }

  lemma SameTreeSameNorms(a: Json, b: Json, m: seq<Field>, n: seq<Field>)
    requires a.Object? && b.Object? && Matched(a.fields, b.fields, m, n) && SameTree(a, b)
    ensures forall f :: f in m <==> f in n
  {
    Included(a.fields, b.fields, m, n, SameFieldAs());
    Included(b.fields, a.fields, n, m, SameFieldFlipped());
  }

  lemma SameNormsSameTree(a: Json, b: Json, m: seq<Field>, n: seq<Field>)
    requires a.Object? && b.Object? && Matched(a.fields, b.fields, m, n)
    requires forall f :: f in m <==> f in n
    ensures SameTree(a, b)
  {
    forall f | f in a.fields
      ensures exists g | g in b.fields :: SameField(f, g)
    {
      var i :| 0 <= i < |m| && a.fields[i] == f;
      assert m[i] in n;
      var j :| 0 <= j < |n| && n[j] == m[i];
      assert b.fields[j] in b.fields && SameField(f, b.fields[j]);
    }
    forall g | g in b.fields
      ensures exists f | f in a.fields :: SameField(f, g)
    {
      var j :| 0 <= j < |n| && b.fields[j] == g;
      assert n[j] in m;
      var i :| 0 <= i < |m| && m[i] == n[j];
      assert a.fields[i] in a.fields && SameField(a.fields[i], g);
    }
  }

  /** Reading canonical text back gives the value with its keys sorted. */
  lemma CanonicalRoundTrip(v: Json, less: (Text, Text) -> bool)
    requires Valid(v) && TotalOrder(less)
    ensures Parse(Canonical(v, less)) == Some(Norm(v, less))
    ensures SameTree(v, Norm(v, less))
  {
    CanonicalPrintsNorm(v, less);
    NormIsValid(v, less);
    PrintRoundTrip(Norm(v, less));
    NormIsIdempotent(v, less);
    SameTreeSameNorm(v, Norm(v, less), less);
  }

  /** Two values have one canonical text exactly when they are the same up to key order. */
  lemma CanonicalIsInjective(a: Json, b: Json, less: (Text, Text) -> bool)
    requires Valid(a) && Valid(b) && TotalOrder(less)
    ensures Canonical(a, less) == Canonical(b, less) <==> SameTree(a, b)
  {
    CanonicalRoundTrip(a, less);
    CanonicalRoundTrip(b, less);
    CanonicalPrintsNorm(a, less);
    CanonicalPrintsNorm(b, less);
    SameTreeSameNorm(a, b, less);
  }

  /** What is read back has the same canonical text again. */
  lemma CanonicalIsIdempotent(v: Json, less: (Text, Text) -> bool)
    requires Valid(v) && TotalOrder(less)
    ensures var read := Parse(Canonical(v, less));
      read.Some? && Canonical(read.value, less) == Canonical(v, less)
  {
    CanonicalRoundTrip(v, less);
    NormIsValid(v, less);
    CanonicalIsInjective(v, Norm(v, less), less);
  }

  lemma {:induction false} NormIsIdempotent(v: Json, less: (Text, Text) -> bool)
    requires Valid(v) && TotalOrder(less)
    ensures Norm(Norm(v, less), less) == Norm(v, less)
  {
    match v
    case Array(items) =>
      forall i | 0 <= i < |items|
        ensures Norm(Norm(items[i], less), less) == Norm(items[i], less)
      {
        NormIsIdempotent(items[i], less);
      }
    case Object(fields) =>
      var n := Norm(v, less).fields;
      SortedFields(v, less);
      forall k | 0 <= k < |n|
        ensures Norm(n[k].value, less) == n[k].value
      {
        assert n[k] in Norms(fields, less);
        var i :| 0 <= i < |fields| && Norms(fields, less)[i] == n[k];
        NormIsIdempotent(fields[i].value, less);
      }
      assert Norms(n, less) == n;
      SortIsSorted(n, FieldByKey(less));
      SortIsPermutation(n, FieldByKey(less));
      SortedIsUnique(Sort(n, FieldByKey(less)), n, FieldByKey(less));
    case _ =>
  }
}
