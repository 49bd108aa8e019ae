/** Canonical text is read back to the same value up to key order; it is idempotent and injective. */
module JsonRoundTrip {
  import opened Prelude
  import opened Json

  // ---------------------------------------------------------------- strings

  lemma DigitRoundTrip(d: int)
    requires 0 <= d < 16
    ensures UnHex(Hex(d)) == Some(d)
  {
  }

  lemma HexRoundTrip(u: Unit)
    ensures ReadHex4(Hex4(u)) == Some(u)
  {
    var x, y, z := u / 16, u / 16 / 16, u / 16 / 16 / 16;
    DigitRoundTrip(z);
    DigitRoundTrip(y % 16);
    DigitRoundTrip(x % 16);
    DigitRoundTrip(u % 16);
    assert u == 16 * x + u % 16 && x == 16 * y + x % 16 && y == 16 * z + y % 16;
  }

  lemma UnitRoundTrip(s: Text, i: nat, rest: Text)
    requires i < |s|
    ensures ReadChars(EscapeAt(s, i) + rest) == Prepend(s[i], ReadChars(rest))
  {
    var e := EscapeAt(s, i);
    var t := e + rest;
    assert t[|e|..] == rest;
    if ShortEscape(s[i]).Some? {
      assert t[0] == BACKSLASH && t[1] == e[1];
    } else if |e| == 6 {
      HexRoundTrip(s[i]);
      assert t[0] == BACKSLASH && t[1] == LETTER_U && t[2..6] == Hex4(s[i]);
    } else {
      assert t[0] == s[i];
    }
  }

  lemma EscapeSplits(first: Text, others: Text, rest: Text)
    ensures first + others + [QUOTE] + rest == first + (others + [QUOTE] + rest)
  {
  }

  lemma {:induction false} CharsRoundTrip(s: Text, i: nat, rest: Text)
    requires i <= |s|
    ensures ReadChars(Escape(s, i) + [QUOTE] + rest) == Got(s[i..], rest)
    decreases |s| - i
  {
    if i == |s| {
      assert Escape(s, i) + [QUOTE] + rest == [QUOTE] + rest;
    } else {
      var tail := Escape(s, i + 1) + [QUOTE] + rest;
      CharsRoundTrip(s, i + 1, rest);
      UnitRoundTrip(s, i, tail);
      EscapeSplits(EscapeAt(s, i), Escape(s, i + 1), rest);
      assert [s[i]] + s[i + 1..] == s[i..];
    }
  }

  lemma QuotedRoundTrip(s: Text, rest: Text)
    ensures var t := Quoted(s) + rest;
      t[0] == QUOTE && ReadChars(t[1..]) == Got(s, rest)
  {
    var t := Quoted(s) + rest;
    assert t[1..] == Escape(s, 0) + [QUOTE] + rest;
    CharsRoundTrip(s, 0, rest);
  }

  // ---------------------------------------------------------------- values

  /** What may follow a value. */
  predicate Stops(rest: Text) {
    rest == [] || !NumberUnit(rest[0])
  }

  lemma {:induction false} NumberStops(s: Text, rest: Text)
    requires (forall i :: 0 <= i < |s| ==> NumberUnit(s[i])) && Stops(rest)
    ensures NumberLength(s + rest) == |s|
  {
    if s == [] {
      assert s + rest == rest;
    } else {
      assert (s + rest)[1..] == s[1..] + rest;
      NumberStops(s[1..], rest);
    }
  }

  function Printed(items: seq<Json>): seq<Text> {
    seq(|items|, i requires 0 <= i < |items| => Print(items[i]))
  }

  function PrintedFields(fields: seq<Field>): seq<Rendered> {
    seq(|fields|, i requires 0 <= i < |fields| => Rendered(fields[i].key, Print(fields[i].value)))
  }

  lemma {:induction false} ValueRoundTrip(v: Json, rest: Text)
    requires Valid(v) && Stops(rest)
    ensures Print(v) != [] && Print(v)[0] != CLOSE_BRACKET
    ensures ReadValue(Print(v) + rest) == Got(v, rest)
    decreases v, 1
  {
    var t := Print(v) + rest;
    match v
    case Null =>
      assert NULL_TEXT <= t && t[4..] == rest;
    case Bool(b) =>
      if b {
        assert TRUE_TEXT <= t && t[4..] == rest && t[0] == 116;
      } else {
        assert FALSE_TEXT <= t && t[5..] == rest && t[0] == 102;
      }
    case Number(s) =>
      NumberStops(s, rest);
      assert t[..|s|] == s && t[|s|..] == rest && t[0] == s[0];
    case String(s) =>
      QuotedRoundTrip(s, rest);
    case Array(items) =>
      ArrayRoundTrip(v, rest);
    case Object(fields) =>
      ObjectRoundTrip(v, rest);
  }

  lemma {:induction false} ArrayRoundTrip(v: Json, rest: Text)
    requires Valid(v) && v.Array?
    ensures ReadValue(Print(v) + rest) == Got(v, rest)
    decreases v, 0
  {
    if v.items == [] {
      EmptyArrayRead(v, rest);
    } else {
      ItemsRoundTrip(v, 0, rest);
      assert v.items[0..] == v.items;
      ItemsStart(v, rest);
      ArrayPrints(v.items, rest);
      ArrayRead([OPEN_BRACKET] + ItemsText(v.items, 0, rest), v.items, ItemsText(v.items, 0, rest), rest);
    }
  }

  lemma EmptyArrayRead(v: Json, rest: Text)
    requires v == Array([])
    ensures ReadValue(Print(v) + rest) == Got(v, rest)
  {
    var t := Print(v) + rest;
    assert t[0] == OPEN_BRACKET && t[1] == CLOSE_BRACKET && t[2..] == rest;
  }

  lemma ArrayPrints(items: seq<Json>, rest: Text)
    requires items != []
    ensures Print(Array(items)) + rest == [OPEN_BRACKET] + ItemsText(items, 0, rest)
  {
    assert Printed(items)[0..] == Printed(items);
  }

  lemma ItemsStart(v: Json, rest: Text)
    requires Valid(v) && v.Array? && v.items != []
    ensures var inner := ItemsText(v.items, 0, rest);
      inner != [] && inner[0] != CLOSE_BRACKET
  {
    ItemStarts(v, 0);
    ItemsTextSplits(v.items, 0, rest);
  }

  lemma ArrayRead(t: Text, items: seq<Json>, inner: Text, rest: Text)
    requires t == [OPEN_BRACKET] + inner && inner != [] && inner[0] != CLOSE_BRACKET
      && ReadItems(inner) == Got(items, rest)
    ensures ReadValue(t) == Got(Array(items), rest)
  {
    assert t[1..] == inner && t[1] == inner[0];
  }

  lemma ObjectRead(t: Text, fields: seq<Field>, inner: Text, rest: Text)
    requires t == [OPEN_BRACE] + inner && inner != [] && inner[0] != CLOSE_BRACE
      && ReadFields(inner) == Got(fields, rest)
    ensures ReadValue(t) == Got(Object(fields), rest)
  {
    assert t[1..] == inner && t[1] == inner[0];
  }

  /** The first unit of a printed item does not close the list. */
  lemma ItemStarts(v: Json, k: nat)
    requires Valid(v) && v.Array? && k < |v.items|
    ensures Print(v.items[k]) != [] && Print(v.items[k])[0] != CLOSE_BRACKET
  {
    assert Valid(v.items[k]);
  }

  /** A joined list from its k-th part on: that part, then a comma and the others, or the closing unit. */
  lemma JoinFrom(all: seq<Text>, k: nat, close: Unit, rest: Text)
    requires k < |all|
    ensures var t := Join(all[k..]) + [close] + rest;
      t == all[k] + (if k + 1 == |all| then [close] + rest else [COMMA] + (Join(all[k + 1..]) + [close] + rest))
  {
    assert all[k..][0] == all[k] && all[k..][1..] == all[k + 1..];
    if k + 1 < |all| {
      var more := Join(all[k + 1..]);
      assert Join(all[k..]) == all[k] + [COMMA] + more;
      assert all[k] + [COMMA] + more + [close] + rest == all[k] + ([COMMA] + (more + [close] + rest));
    } else {
      assert all[k] + [close] + rest == all[k] + ([close] + rest);
    }
  }

  /** The text of an array from its k-th item to its closing bracket, then what follows. */
  function ItemsText(items: seq<Json>, k: nat, rest: Text): Text
    requires k < |items|
  {
    Join(Printed(items)[k..]) + [CLOSE_BRACKET] + rest
  }

  lemma ItemsTextSplits(items: seq<Json>, k: nat, rest: Text)
    requires k < |items|
    ensures ItemsText(items, k, rest)
         == Print(items[k])
           + (if k + 1 == |items| then [CLOSE_BRACKET] + rest else [COMMA] + ItemsText(items, k + 1, rest))
  {
    JoinFrom(Printed(items), k, CLOSE_BRACKET, rest);
  }

  lemma LastItem(s: Text, v: Json, rest: Text)
    requires ReadValue(s) == Got(v, [CLOSE_BRACKET] + rest)
    ensures ReadItems(s) == Got([v], rest)
  {
    assert ([CLOSE_BRACKET] + rest)[1..] == rest;
  }

  lemma MoreItems(s: Text, v: Json, tail: Text, more: seq<Json>, rest: Text)
    requires ReadValue(s) == Got(v, [COMMA] + tail) && ReadItems(tail) == Got(more, rest)
    ensures ReadItems(s) == Got([v] + more, rest)
  {
    assert ([COMMA] + tail)[1..] == tail;
  }

  lemma LastItemRead(items: seq<Json>, k: nat, rest: Text)
    requires k + 1 == |items|
    requires ReadValue(Print(items[k]) + ([CLOSE_BRACKET] + rest)) == Got(items[k], [CLOSE_BRACKET] + rest)
    ensures ReadItems(ItemsText(items, k, rest)) == Got(items[k..], rest)
  {
    ItemsTextSplits(items, k, rest);
    LastItem(ItemsText(items, k, rest), items[k], rest);
    assert items[k..] == [items[k]];
  }

  lemma MoreItemsRead(t: Text, first: Text, v: Json, tail: Text, more: seq<Json>, rest: Text)
    requires t == first + ([COMMA] + tail)
    requires ReadValue(first + ([COMMA] + tail)) == Got(v, [COMMA] + tail) && ReadItems(tail) == Got(more, rest)
    ensures ReadItems(t) == Got([v] + more, rest)
  {
    MoreItems(t, v, tail, more, rest);
  }

  lemma ItemsTextGoesOn(items: seq<Json>, k: nat, rest: Text)
    requires k + 1 < |items|
    ensures ItemsText(items, k, rest) == Print(items[k]) + ([COMMA] + ItemsText(items, k + 1, rest))
    ensures items[k..] == [items[k]] + items[k + 1..]
  {
    ItemsTextSplits(items, k, rest);
  }

  lemma {:induction false} ItemsRoundTrip(v: Json, k: nat, rest: Text)
    requires Valid(v) && v.Array? && k < |v.items|
    ensures ReadItems(ItemsText(v.items, k, rest)) == Got(v.items[k..], rest)
    decreases v, 0, |v.items| - k
  {
    var items := v.items;
    assert Valid(items[k]);
    if k + 1 == |items| {
      ValueRoundTrip(items[k], [CLOSE_BRACKET] + rest);
      LastItemRead(items, k, rest);
    } else {
      ValueRoundTrip(items[k], [COMMA] + ItemsText(items, k + 1, rest));
      ItemsRoundTrip(v, k + 1, rest);
      ItemsTextGoesOn(items, k, rest);
      MoreItemsRead(ItemsText(items, k, rest), Print(items[k]), items[k], ItemsText(items, k + 1, rest),
        items[k + 1..], rest);
    }
  }

  lemma {:induction false} ObjectRoundTrip(v: Json, rest: Text)
    requires Valid(v) && v.Object?
    ensures ReadValue(Print(v) + rest) == Got(v, rest)
    decreases v, 0
  {
    if v.fields == [] {
      EmptyObjectRead(v, rest);
    } else {
      FieldsRoundTrip(v, 0, rest);
      assert v.fields[0..] == v.fields;
      FieldsStart(v.fields, rest);
      ObjectPrints(v.fields, rest);
      ObjectRead([OPEN_BRACE] + FieldsText(v.fields, 0, rest), v.fields, FieldsText(v.fields, 0, rest), rest);
    }
  }

  lemma EmptyObjectRead(v: Json, rest: Text)
    requires v == Object([])
    ensures ReadValue(Print(v) + rest) == Got(v, rest)
  {
    var t := Print(v) + rest;
    assert t[0] == OPEN_BRACE && t[1] == CLOSE_BRACE && t[2..] == rest;
  }

  lemma ObjectPrints(fields: seq<Field>, rest: Text)
    requires fields != []
    ensures Print(Object(fields)) + rest == [OPEN_BRACE] + FieldsText(fields, 0, rest)
  {
    assert MembersOf(PrintedFields(fields))[0..] == MembersOf(PrintedFields(fields));
  }

  lemma FieldsStart(fields: seq<Field>, rest: Text)
    requires fields != []
    ensures var inner := FieldsText(fields, 0, rest);
      inner != [] && inner[0] != CLOSE_BRACE
  {
    FieldsTextSplits(fields, 0, rest);
  }

  lemma ReadFieldFrom(s: Text, key: Text, rest: Text, v: Json, after: Text)
    requires s != [] && s[0] == QUOTE && ReadChars(s[1..]) == Got(key, [COLON] + rest)
      && ReadValue(rest) == Got(v, after)
    ensures ReadField(s) == Got(Field(key, v), after)
  {
    assert ([COLON] + rest)[1..] == rest;
  }

  lemma MemberSplits(key: Text, value: Text, rest: Text)
    ensures Member(key, value) + rest == Quoted(key) + ([COLON] + (value + rest))
  {
  }

  lemma FieldRoundTrip(f: Field, rest: Text)
    requires ReadValue(Print(f.value) + rest) == Got(f.value, rest)
    ensures ReadField(Member(f.key, Print(f.value)) + rest) == Got(f, rest)
  {
    var value := Print(f.value) + rest;
    MemberSplits(f.key, Print(f.value), rest);
    QuotedRoundTrip(f.key, [COLON] + value);
    ReadFieldFrom(Quoted(f.key) + ([COLON] + value), f.key, value, f.value, rest);
  }

  function FieldsText(fields: seq<Field>, k: nat, rest: Text): Text
    requires k < |fields|
  {
    Join(MembersOf(PrintedFields(fields))[k..]) + [CLOSE_BRACE] + rest
  }

  lemma FieldsTextSplits(fields: seq<Field>, k: nat, rest: Text)
    requires k < |fields|
    ensures FieldsText(fields, k, rest)
         == Member(fields[k].key, Print(fields[k].value))
            + (if k + 1 == |fields| then [CLOSE_BRACE] + rest else [COMMA] + FieldsText(fields, k + 1, rest))
  {
    JoinFrom(MembersOf(PrintedFields(fields)), k, CLOSE_BRACE, rest);
  }

  lemma LastField(s: Text, f: Field, rest: Text)
    requires ReadField(s) == Got(f, [CLOSE_BRACE] + rest)
    ensures ReadFields(s) == Got([f], rest)
  {
    assert ([CLOSE_BRACE] + rest)[1..] == rest;
  }

  lemma MoreFields(s: Text, f: Field, tail: Text, more: seq<Field>, rest: Text)
    requires ReadField(s) == Got(f, [COMMA] + tail) && ReadFields(tail) == Got(more, rest)
    ensures ReadFields(s) == Got([f] + more, rest)
  {
    assert ([COMMA] + tail)[1..] == tail;
  }

  lemma LastFieldRead(fields: seq<Field>, k: nat, rest: Text)
    requires k + 1 == |fields|
    requires ReadValue(Print(fields[k].value) + ([CLOSE_BRACE] + rest)) == Got(fields[k].value, [CLOSE_BRACE] + rest)
    ensures ReadFields(FieldsText(fields, k, rest)) == Got(fields[k..], rest)
  {
    FieldsTextSplits(fields, k, rest);
    FieldRoundTrip(fields[k], [CLOSE_BRACE] + rest);
    LastField(FieldsText(fields, k, rest), fields[k], rest);
    assert fields[k..] == [fields[k]];
  }

  lemma MoreFieldsRead(t: Text, member: Text, f: Field, tail: Text, more: seq<Field>, rest: Text)
    requires t == member + ([COMMA] + tail)
    requires ReadField(member + ([COMMA] + tail)) == Got(f, [COMMA] + tail) && ReadFields(tail) == Got(more, rest)
    ensures ReadFields(t) == Got([f] + more, rest)
  {
    MoreFields(t, f, tail, more, rest);
  }

  lemma FieldsTextGoesOn(fields: seq<Field>, k: nat, rest: Text)
    requires k + 1 < |fields|
    ensures FieldsText(fields, k, rest)
      == Member(fields[k].key, Print(fields[k].value)) + ([COMMA] + FieldsText(fields, k + 1, rest))
    ensures fields[k..] == [fields[k]] + fields[k + 1..]
  {
    FieldsTextSplits(fields, k, rest);
  }

  lemma {:induction false} FieldsRoundTrip(v: Json, k: nat, rest: Text)
    requires Valid(v) && v.Object? && k < |v.fields|
    ensures ReadFields(FieldsText(v.fields, k, rest)) == Got(v.fields[k..], rest)
    decreases v, 0, |v.fields| - k
  {
    var fields, f := v.fields, v.fields[k];
    assert Valid(f.value);
    if k + 1 == |fields| {
      ValueRoundTrip(f.value, [CLOSE_BRACE] + rest);
      LastFieldRead(fields, k, rest);
    } else {
      ValueRoundTrip(f.value, [COMMA] + FieldsText(fields, k + 1, rest));
      FieldRoundTrip(f, [COMMA] + FieldsText(fields, k + 1, rest));
      FieldsRoundTrip(v, k + 1, rest);
      FieldsTextGoesOn(fields, k, rest);
      MoreFieldsRead(FieldsText(fields, k, rest), Member(f.key, Print(f.value)), f, FieldsText(fields, k + 1, rest),
                     fields[k + 1..], rest);
    }
  }

  /** Whatever order its keys stand in, a printed value is read back as it was. */
  lemma PrintRoundTrip(v: Json)
    requires Valid(v)
    ensures Parse(Print(v)) == Some(v)
  {
    ValueRoundTrip(v, []);
    assert Print(v) + [] == Print(v);
  }
}
