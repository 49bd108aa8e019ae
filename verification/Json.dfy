/** JSON values, their canonical text, and a reader that undoes it. Text is a sequence of UTF-16 code units. */
module Json {
  import opened Prelude
  import opened Sorting

  type Unit = x: int | 0 <= x < 0x10000
  type Text = seq<Unit>

  const QUOTE: Unit := 34
  const BACKSLASH: Unit := 92
  const COMMA: Unit := 44
  const COLON: Unit := 58
  const OPEN_BRACKET: Unit := 91
  const CLOSE_BRACKET: Unit := 93
  const OPEN_BRACE: Unit := 123
  const CLOSE_BRACE: Unit := 125
  const LETTER_U: Unit := 117
  const NULL_TEXT: Text := [110, 117, 108, 108]
  const TRUE_TEXT: Text := [116, 114, 117, 101]
  const FALSE_TEXT: Text := [102, 97, 108, 115, 101]

  /** A number is represented by its printed form. */
  datatype Json =
    | Null
    | Bool(b: bool)
    | Number(digits: Text)
    | String(text: Text)
    | Array(items: seq<Json>)
    | Object(fields: seq<Field>)

  datatype Field = Field(key: Text, value: Json)

  predicate NumberUnit(u: Unit) {
    48 <= u <= 57 || u == 43 || u == 45 || u == 46 || u == 69 || u == 101
  }

  predicate IsNumber(s: Text) {
    s != [] && (48 <= s[0] <= 57 || s[0] == 45) && forall i | 0 <= i < |s| :: NumberUnit(s[i])
  }

  predicate DistinctKeys(fields: seq<Field>) {
    forall i, j | 0 <= i < j < |fields| :: fields[i].key != fields[j].key
  }

  predicate Valid(v: Json) {
    match v
    case Number(s) => IsNumber(s)
    case Array(items) => forall i | 0 <= i < |items| :: Valid(items[i])
    case Object(fields) => DistinctKeys(fields) && forall i | 0 <= i < |fields| :: Valid(fields[i].value)
    case _ => true
  }

  // ---------------------------------------------------------------- strings

  function Hex(d: int): Unit
    requires 0 <= d < 16
  {
    if d < 10 then 48 + d else 87 + d
  }

  function Hex4(u: Unit): Text {
    [Hex(u / 16 / 16 / 16), Hex(u / 16 / 16 % 16), Hex(u / 16 % 16), Hex(u % 16)]
  }

  predicate High(u: Unit) { 0xD800 <= u < 0xDC00 }

  predicate Low(u: Unit) { 0xDC00 <= u < 0xE000 }

  /** A surrogate without its other half. */
  predicate Lone(s: Text, i: nat)
    requires i < |s|
  {
    || (High(s[i]) && !(i + 1 < |s| && Low(s[i + 1])))
    || (Low(s[i]) && !(i > 0 && High(s[i - 1])))
  }

  function ShortEscape(u: Unit): Option<Unit> {
    if u == QUOTE || u == BACKSLASH then Some(u)
    else if u == 8 then Some(98)
    else if u == 12 then Some(102)
    else if u == 10 then Some(110)
    else if u == 13 then Some(114)
    else if u == 9 then Some(116)
    else None
  }

  function EscapeAt(s: Text, i: nat): Text
    requires i < |s|
  {
    if ShortEscape(s[i]).Some? then [BACKSLASH, ShortEscape(s[i]).value]
    else if s[i] < 32 || Lone(s, i) then [BACKSLASH, LETTER_U] + Hex4(s[i])
    else [s[i]]
  }

  function Escape(s: Text, i: nat): Text
    requires i <= |s|
    decreases |s| - i
  {
    if i == |s| then [] else EscapeAt(s, i) + Escape(s, i + 1)
  }

  function Quoted(s: Text): Text {
    [QUOTE] + Escape(s, 0) + [QUOTE]
  }

  // ---------------------------------------------------------------- writing

  function Join(parts: seq<Text>): Text {
    if parts == [] then []
    else if |parts| == 1 then parts[0]
    else parts[0] + [COMMA] + Join(parts[1..])
  }

  function Member(key: Text, value: Text): Text {
    Quoted(key) + [COLON] + value
  }

  datatype Rendered = Rendered(key: Text, value: Text)

  function MembersOf(parts: seq<Rendered>): seq<Text> {
    seq(|parts|, i requires 0 <= i < |parts| => Member(parts[i].key, parts[i].value))
  }

  /** Keys in the order they stand. */
  function Print(v: Json): Text {
    match v
    case Null => NULL_TEXT
    case Bool(b) => if b then TRUE_TEXT else FALSE_TEXT
    case Number(s) => s
    case String(s) => Quoted(s)
    case Array(items) =>
      [OPEN_BRACKET] + Join(seq(|items|, i requires 0 <= i < |items| => Print(items[i]))) + [CLOSE_BRACKET]
    case Object(fields) =>
      [OPEN_BRACE]
      + Join(MembersOf(seq(|fields|, i requires 0 <= i < |fields| => Rendered(fields[i].key, Print(fields[i].value)))))
      + [CLOSE_BRACE]
  }

  function ByKey(less: (Text, Text) -> bool): (Rendered, Rendered) -> bool {
    (a: Rendered, b: Rendered) => less(a.key, b.key)
  }

  /** Keys sorted by `less` at every level. */
  function Canonical(v: Json, less: (Text, Text) -> bool): Text {
    match v
    case Null => NULL_TEXT
    case Bool(b) => if b then TRUE_TEXT else FALSE_TEXT
    case Number(s) => s
    case String(s) => Quoted(s)
    case Array(items) =>
      [OPEN_BRACKET] + Join(seq(|items|, i requires 0 <= i < |items| => Canonical(items[i], less))) + [CLOSE_BRACKET]
    case Object(fields) =>
      [OPEN_BRACE]
      + Join(MembersOf(Sort(
          seq(|fields|, i requires 0 <= i < |fields| => Rendered(fields[i].key, Canonical(fields[i].value, less))),
            ByKey(less))))
      + [CLOSE_BRACE]
  }

  // ---------------------------------------------------------------- reading

  function UnHex(u: Unit): Option<int>
    ensures UnHex(u).Some? ==> 0 <= UnHex(u).value < 16
  {
    if 48 <= u <= 57 then Some(u - 48)
    else if 97 <= u <= 102 then Some(u - 87)
    else if 65 <= u <= 70 then Some(u - 55)
    else None
  }

  function ReadHex4(s: Text): Option<Unit>
    requires |s| == 4
  {
    if UnHex(s[0]).None? || UnHex(s[1]).None? || UnHex(s[2]).None? || UnHex(s[3]).None? then None
    else Some(4096 * UnHex(s[0]).value + 256 * UnHex(s[1]).value + 16 * UnHex(s[2]).value + UnHex(s[3]).value)
  }

  function ReadShort(u: Unit): Option<Unit> {
    if u == QUOTE || u == BACKSLASH || u == 47 then Some(u)
    else if u == 98 then Some(8)
    else if u == 102 then Some(12)
    else if u == 110 then Some(10)
    else if u == 114 then Some(13)
    else if u == 116 then Some(9)
    else None
  }

  datatype Read<T> = Fail | Got(value: T, rest: Text)

  function Prepend(u: Unit, r: Read<Text>): Read<Text> {
    if r.Fail? then Fail else Got([u] + r.value, r.rest)
  }

  /** After the opening quote. */
  function ReadChars(s: Text): (r: Read<Text>)
    ensures r.Got? ==> |r.rest| < |s|
  {
    if s == [] then Fail
    else if s[0] == QUOTE then Got([], s[1..])
    else if s[0] == BACKSLASH then
      if |s| >= 2 && ReadShort(s[1]).Some? then Prepend(ReadShort(s[1]).value, ReadChars(s[2..]))
      else if |s| >= 6 && s[1] == LETTER_U && ReadHex4(s[2..6]).Some? then
        Prepend(ReadHex4(s[2..6]).value, ReadChars(s[6..]))
      else Fail
    else if s[0] < 32 then Fail
    else Prepend(s[0], ReadChars(s[1..]))
  }

  function NumberLength(s: Text): (n: nat)
    ensures n <= |s|
  {
    if s != [] && NumberUnit(s[0]) then 1 + NumberLength(s[1..]) else 0
  }

  function ReadValue(s: Text): (r: Read<Json>)
    ensures r.Got? ==> |r.rest| < |s|
    decreases |s|, 0
  {
    if s == [] then Fail
    else if NULL_TEXT <= s then Got(Null, s[4..])
    else if TRUE_TEXT <= s then Got(Bool(true), s[4..])
    else if FALSE_TEXT <= s then Got(Bool(false), s[5..])
    else if s[0] == QUOTE then
      (match ReadChars(s[1..]) case Fail => Fail case Got(t, rest) => Got(String(t), rest))
    else if s[0] == OPEN_BRACKET then
      if |s| >= 2 && s[1] == CLOSE_BRACKET then Got(Array([]), s[2..])
      else (match ReadItems(s[1..]) case Fail => Fail case Got(items, rest) => Got(Array(items), rest))
    else if s[0] == OPEN_BRACE then
      if |s| >= 2 && s[1] == CLOSE_BRACE then Got(Object([]), s[2..])
      else (match ReadFields(s[1..]) case Fail => Fail case Got(fields, rest) => Got(Object(fields), rest))
    else if IsNumber(s[..NumberLength(s)]) then Got(Number(s[..NumberLength(s)]), s[NumberLength(s)..])
    else Fail
  }

  function ReadItems(s: Text): (r: Read<seq<Json>>)
    ensures r.Got? ==> |r.rest| < |s|
    decreases |s|, 1
  {
    match ReadValue(s)
    case Fail => Fail
    case Got(v, rest) =>
      if rest == [] then Fail
      else if rest[0] == CLOSE_BRACKET then Got([v], rest[1..])
      else if rest[0] == COMMA then
        (match ReadItems(rest[1..]) case Fail => Fail case Got(more, after) => Got([v] + more, after))
      else Fail
  }

  function ReadField(s: Text): (r: Read<Field>)
    ensures r.Got? ==> |r.rest| < |s|
    decreases |s|, 1
  {
    if s == [] || s[0] != QUOTE then Fail
    else
      match ReadChars(s[1..])
      case Fail => Fail
      case Got(key, rest) =>
        if rest == [] || rest[0] != COLON then Fail
        else (match ReadValue(rest[1..]) case Fail => Fail case Got(v, after) => Got(Field(key, v), after))
  }

  function ReadFields(s: Text): (r: Read<seq<Field>>)
    ensures r.Got? ==> |r.rest| < |s|
    decreases |s|, 2
  {
    match ReadField(s)
    case Fail => Fail
    case Got(f, rest) =>
      if rest == [] then Fail
      else if rest[0] == CLOSE_BRACE then Got([f], rest[1..])
      else if rest[0] == COMMA then
        (match ReadFields(rest[1..]) case Fail => Fail case Got(more, after) => Got([f] + more, after))
      else Fail
  }

  /** The whole text must be one value. */
  function Parse(s: Text): Option<Json> {
    match ReadValue(s)
    case Fail => None
    case Got(v, rest) => if rest == [] then Some(v) else None
  }
}
