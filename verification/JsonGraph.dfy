/** Canonical text of values as the program holds them: references into a heap that may share nodes or run in
    circles. */
module JsonGraph {
  import opened Prelude
  import opened Sorting
  import opened Json
  import opened JsonCanonical

  const CYCLE := "Invalid JSON: cycle"
  const BAD_VALUE := "Invalid JSON value"

  /** `Unsupported` is undefined, a function, a symbol, a bigint or a number that is not finite. */
  datatype Value = Leaf(json: Json) | Unsupported | Ref(id: nat)

  datatype Slot = Slot(key: Text, value: Value)

  datatype Node = Items(values: seq<Value>) | Fields(slots: seq<Slot>)

  type Graph = map<nat, Node>

  predicate ValueOk(g: Graph, v: Value) {
    match v
    case Leaf(json) => Valid(json) && !json.Array? && !json.Object?
    case Unsupported => true
    case Ref(id) => id in g
  }

  /** References resolve, and the keys of an object are distinct. */
  predicate Closed(g: Graph) {
    forall id | id in g ::
      match g[id]
      case Items(values) => forall i | 0 <= i < |values| :: ValueOk(g, values[i])
      case Fields(slots) =>
        && (forall i | 0 <= i < |slots| :: ValueOk(g, slots[i].value))
        && (forall i, j | 0 <= i < j < |slots| :: slots[i].key != slots[j].key)
  }

  function SlotByKey(): (Slot, Slot) -> bool {
    (a: Slot, b: Slot) => UnitLess(a.key, b.key)
  }

  function SlotValue(): Slot -> Value {
    (s: Slot) => s.value
  }

  function Labelled(slots: seq<Slot>, parts: seq<Text>): seq<Rendered>
    requires |slots| == |parts|
  {
    seq(|slots|, i requires 0 <= i < |slots| => Rendered(slots[i].key, parts[i]))
  }

  /** `seen` holds the nodes being written around this value. */
  function Write(g: Graph, v: Value, seen: set<nat>): Result<Text, string>
    requires Closed(g) && ValueOk(g, v)
    decreases g.Keys - seen, 0
  {
    match v
    case Leaf(json) => Ok(Print(json))
    case Unsupported => Err(BAD_VALUE)
    case Ref(id) =>
      if id in seen then Err(CYCLE)
      else
        NodeShrinks(g, seen, id);
        match g[id]
        case Items(values) =>
          (match WriteAll(g, values, seen + {id})
           case Err(e) => Err(e)
           case Ok(parts) => Ok([OPEN_BRACKET] + Join(parts) + [CLOSE_BRACKET]))
        case Fields(slots) =>
          SortedSlots(g, id);
          var sorted := Sort(slots, SlotByKey());
          match WriteAll(g, Map(sorted, SlotValue()), seen + {id})
          case Err(e) => Err(e)
          case Ok(parts) => Ok([OPEN_BRACE] + Join(MembersOf(Labelled(sorted, parts))) + [CLOSE_BRACE])
  }

  function WriteAll(g: Graph, values: seq<Value>, seen: set<nat>): (r: Result<seq<Text>, string>)
    requires Closed(g) && forall i :: 0 <= i < |values| ==> ValueOk(g, values[i])
    ensures r.Ok? ==> |r.value| == |values|
    decreases g.Keys - seen, 1, |values|
  {
    if values == [] then Ok([])
    else
      match WriteAll(g, values[..|values| - 1], seen)
      case Err(e) => Err(e)
      case Ok(parts) =>
        match Write(g, values[|values| - 1], seen)
        case Err(e) => Err(e)
        case Ok(part) => Ok(parts + [part])
  }

  lemma NodeShrinks(g: Graph, seen: set<nat>, id: nat)
    requires id in g && id !in seen
    ensures g.Keys - (seen + {id}) < g.Keys - seen
  {
    assert id in g.Keys - seen;
  }

  lemma SortedSlots(g: Graph, id: nat)
    requires Closed(g) && id in g && g[id].Fields?
    ensures var sorted := Sort(g[id].slots, SlotByKey());
      && |sorted| == |g[id].slots|
      && (forall i :: 0 <= i < |sorted| ==> ValueOk(g, sorted[i].value))
  {
    var slots := g[id].slots;
    var sorted := Sort(slots, SlotByKey());
    SortIsPermutation(slots, SlotByKey());
    forall i | 0 <= i < |sorted|
      ensures ValueOk(g, sorted[i].value)
    {
      assert sorted[i] in slots;
      var j :| 0 <= j < |slots| && slots[j] == sorted[i];
    }
  }

  // ---------------------------------------------------------------- finite trees

  /** Following every reference from `v` gives the finite tree `t`. */
  ghost predicate Unfolds(g: Graph, v: Value, t: Json)
    decreases t
  {
    match v
    case Leaf(json) => t == json
    case Unsupported => false
    case Ref(id) =>
      id in g &&
      match g[id]
      case Items(values) =>
        t.Array? && |t.items| == |values| && forall i | 0 <= i < |values| :: Unfolds(g, values[i], t.items[i])
      case Fields(slots) =>
        && t.Object? && |t.fields| == |slots|
        && forall i | 0 <= i < |slots| ::
          t.fields[i].key == slots[i].key && Unfolds(g, slots[i].value, t.fields[i].value)
  }

  function Size(t: Json): nat
    decreases t, 0
  {
    match t
    case Array(items) => 1 + SizeOfItems(t, |items|)
    case Object(fields) => 1 + SizeOfFields(t, |fields|)
    case _ => 1
  }

  function SizeOfItems(t: Json, n: nat): (s: nat)
    requires t.Array? && n <= |t.items|
    ensures forall i :: 0 <= i < n ==> Size(t.items[i]) <= s
    decreases t, 0, n
  {
    if n == 0 then 0 else SizeOfItems(t, n - 1) + Size(t.items[n - 1])
  }

  function SizeOfFields(t: Json, n: nat): (s: nat)
    requires t.Object? && n <= |t.fields|
    ensures forall i :: 0 <= i < n ==> Size(t.fields[i].value) <= s
    decreases t, 0, n
  {
    if n == 0 then 0 else SizeOfFields(t, n - 1) + Size(t.fields[n - 1].value)
  }

  lemma {:induction false} UnfoldingIsUnique(g: Graph, v: Value, t: Json, u: Json)
    requires Unfolds(g, v, t) && Unfolds(g, v, u)
    ensures t == u
    decreases t
  {
    if v.Ref? && g[v.id].Items? {
      forall i | 0 <= i < |t.items|
        ensures t.items[i] == u.items[i]
      {
        UnfoldingIsUnique(g, g[v.id].values[i], t.items[i], u.items[i]);
      }
    } else if v.Ref? {
      forall i | 0 <= i < |t.fields|
        ensures t.fields[i] == u.fields[i]
      {
        UnfoldingIsUnique(g, g[v.id].slots[i].value, t.fields[i].value, u.fields[i].value);
      }
    }
  }

  lemma {:induction false} WriteAllParts(g: Graph, values: seq<Value>, seen: set<nat>)
    requires Closed(g) && forall i :: 0 <= i < |values| ==> ValueOk(g, values[i])
    ensures WriteAll(g, values, seen).Ok? <==> forall i :: 0 <= i < |values| ==> Write(g, values[i], seen).Ok?
    ensures WriteAll(g, values, seen).Ok? ==>
      forall i :: 0 <= i < |values| ==> WriteAll(g, values, seen).value[i] == Write(g, values[i], seen).value
    decreases |values|
  {
    if values != [] {
      var n := |values| - 1;
      WriteAllParts(g, values[..n], seen);
      assert forall i :: 0 <= i < n ==> values[..n][i] == values[i];
      assert forall i :: 0 <= i < n ==> (Write(g, values[..n][i], seen).Ok? <==> Write(g, values[i], seen).Ok?);
    }
  }

  /** Every node being written around `t` unfolds to something bigger. */
  ghost predicate Outer(g: Graph, seen: set<nat>, t: Json) {
    forall s | s in seen :: exists u :: Unfolds(g, Ref(s), u) && Size(u) > Size(t)
  }

  lemma OuterOfChild(g: Graph, seen: set<nat>, id: nat, t: Json, c: Json)
    requires Outer(g, seen, t) && Unfolds(g, Ref(id), t) && Size(c) < Size(t)
    ensures Outer(g, seen + {id}, c)
  {
    forall s | s in seen + {id}
      ensures exists u :: Unfolds(g, Ref(s), u) && Size(u) > Size(c)
    {
      if s in seen {
        var u :| Unfolds(g, Ref(s), u) && Size(u) > Size(t);
      }
    }
  }

  lemma {:induction false} TreeIsWritten(g: Graph, v: Value, t: Json, seen: set<nat>)
    requires Closed(g) && ValueOk(g, v) && Unfolds(g, v, t) && Outer(g, seen, t)
    ensures Write(g, v, seen) == Ok(Canonical(t, UnitLess))
    decreases t, 1
  {
    match v
    case Leaf(json) =>
    case Ref(id) =>
      if id in seen {
        var u :| Unfolds(g, Ref(id), u) && Size(u) > Size(t);
        UnfoldingIsUnique(g, v, t, u);
      }
      if g[id].Items? {
        ArrayIsWritten(g, id, t, seen);
      } else {
        ObjectIsWritten(g, id, t, seen);
      }
  }

  lemma {:induction false} ArrayIsWritten(g: Graph, id: nat, t: Json, seen: set<nat>)
    requires Closed(g) && id in g && g[id].Items? && id !in seen && Unfolds(g, Ref(id), t) && Outer(g, seen, t)
    ensures Write(g, Ref(id), seen) == Ok(Canonical(t, UnitLess))
    decreases t, 0
  {
    var values := g[id].values;
    var total := SizeOfItems(t, |t.items|);
    forall i | 0 <= i < |values|
      ensures Write(g, values[i], seen + {id}) == Ok(Canonical(t.items[i], UnitLess))
    {
      OuterOfChild(g, seen, id, t, t.items[i]);
      TreeIsWritten(g, values[i], t.items[i], seen + {id});
    }
    WriteAllParts(g, values, seen + {id});
    assert WriteAll(g, values, seen + {id}).value
        == seq(|t.items|, i requires 0 <= i < |t.items| => Canonical(t.items[i], UnitLess));
  }

  function PartOf(g: Graph, seen: set<nat>): Slot -> Rendered
    requires Closed(g)
  {
    (s: Slot) =>
      Rendered(s.key, if ValueOk(g, s.value) && Write(g, s.value, seen).Ok? then Write(g, s.value, seen).value else [])
  }

  lemma {:induction false} ObjectIsWritten(g: Graph, id: nat, t: Json, seen: set<nat>)
    requires Closed(g) && id in g && g[id].Fields? && id !in seen && Unfolds(g, Ref(id), t) && Outer(g, seen, t)
    ensures Write(g, Ref(id), seen) == Ok(Canonical(t, UnitLess))
    decreases t, 0
  {
    var slots, inner := g[id].slots, seen + {id};
    var total := SizeOfFields(t, |t.fields|);
    forall i | 0 <= i < |slots|
      ensures Write(g, slots[i].value, inner) == Ok(Canonical(t.fields[i].value, UnitLess))
    {
      OuterOfChild(g, seen, id, t, t.fields[i].value);
      TreeIsWritten(g, slots[i].value, t.fields[i].value, inner);
    }
    var rendered := seq(|t.fields|, i requires 0 <= i < |t.fields| =>
      Rendered(t.fields[i].key, Canonical(t.fields[i].value, UnitLess)));
    assert rendered == Map(slots, PartOf(g, inner));
    SortMap(slots, PartOf(g, inner), SlotByKey(), ByKey(UnitLess));
    SortedSlots(g, id);
    SlotsAreWritten(g, slots, inner);
    NodeShrinks(g, seen, id);
  }

  lemma SlotsAreWritten(g: Graph, slots: seq<Slot>, seen: set<nat>)
    requires Closed(g)
      && forall i :: 0 <= i < |slots| ==> ValueOk(g, slots[i].value) && Write(g, slots[i].value, seen).Ok?
    ensures var sorted := Sort(slots, SlotByKey());
      && (forall i :: 0 <= i < |sorted| ==> ValueOk(g, sorted[i].value))
      && WriteAll(g, Map(sorted, SlotValue()), seen).Ok?
      && Labelled(sorted, WriteAll(g, Map(sorted, SlotValue()), seen).value) == Map(sorted, PartOf(g, seen))
  {
    var sorted := Sort(slots, SlotByKey());
    SortIsPermutation(slots, SlotByKey());
    forall i | 0 <= i < |sorted|
      ensures ValueOk(g, sorted[i].value) && Write(g, sorted[i].value, seen).Ok?
    {
      assert sorted[i] in slots;
      var j :| 0 <= j < |slots| && slots[j] == sorted[i];
    }
    var values := Map(sorted, SlotValue());
    assert forall i :: 0 <= i < |sorted| ==> values[i] == sorted[i].value;
    WriteAllParts(g, values, seen);
  }

  // ---------------------------------------------------------------- and nothing else

  /** The tree behind a value that was written. */
  ghost function TreeOf(g: Graph, v: Value, seen: set<nat>): Json
    requires Closed(g) && ValueOk(g, v)
    decreases g.Keys - seen
  {
    match v
    case Leaf(json) => json
    case Unsupported => Null
    case Ref(id) =>
      if id in seen then Null
      else
        NodeShrinks(g, seen, id);
        match g[id]
        case Items(values) =>
          Array(seq(|values|, i requires 0 <= i < |values| => TreeOf(g, values[i], seen + {id})))
        case Fields(slots) =>
          Object(seq(|slots|,
            i requires 0 <= i < |slots| => Field(slots[i].key, TreeOf(g, slots[i].value, seen + {id}))))
  }

  lemma {:induction false} WrittenUnfolds(g: Graph, v: Value, seen: set<nat>)
    requires Closed(g) && ValueOk(g, v) && Write(g, v, seen).Ok?
    ensures Unfolds(g, v, TreeOf(g, v, seen))
    decreases g.Keys - seen
  {
    if v.Ref? {
      var inner := seen + {v.id};
      NodeShrinks(g, seen, v.id);
      match g[v.id]
      case Items(values) =>
        WriteAllParts(g, values, inner);
        forall i | 0 <= i < |values|
          ensures Unfolds(g, values[i], TreeOf(g, values[i], inner))
        {
          WrittenUnfolds(g, values[i], inner);
        }
      case Fields(slots) =>
        SortedSlots(g, v.id);
        SortIsPermutation(slots, SlotByKey());
        var sorted := Sort(slots, SlotByKey());
        WriteAllParts(g, Map(sorted, SlotValue()), inner);
        forall i | 0 <= i < |slots|
          ensures Unfolds(g, slots[i].value, TreeOf(g, slots[i].value, inner))
        {
          assert slots[i] in sorted;
          var j :| 0 <= j < |sorted| && sorted[j] == slots[i];
          assert Map(sorted, SlotValue())[j] == slots[i].value;
          WrittenUnfolds(g, slots[i].value, inner);
        }
    }
  }

  /** The walk always ends. It succeeds exactly on values that are finite trees of JSON values, shared nodes included,
      and then writes the tree's canonical text; circular values and foreign ones are refused. */
  lemma WritesExactlyTheFiniteTrees(g: Graph, v: Value)
    requires Closed(g) && ValueOk(g, v)
    ensures Write(g, v, {}).Ok? <==> exists t :: Unfolds(g, v, t)
    ensures forall t :: Unfolds(g, v, t) ==> Write(g, v, {}) == Ok(Canonical(t, UnitLess))
  {
    forall t | Unfolds(g, v, t)
      ensures Write(g, v, {}) == Ok(Canonical(t, UnitLess))
    {
      TreeIsWritten(g, v, t, {});
    }
    if Write(g, v, {}).Ok? {
      WrittenUnfolds(g, v, {});
      assert exists t :: Unfolds(g, v, t) by {
        var t := TreeOf(g, v, {});
        assert Unfolds(g, v, t);
      }
    }
  }
}
