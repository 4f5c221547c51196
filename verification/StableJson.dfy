/**
 Canonical JSON (stableJson and stableJsonValue in chat_e2ee_crypto.js).

 Values are what JSON.parse yields, with integers whose String form is plain
 decimal. The fields of an object are listed in the order Object.keys yields them.
 */
module StableJson {
  import opened Decimals

  datatype Json =
    | Null
    | Bool(b: bool)
    | Num(n: int)
    | Str(s: string)
    | Arr(items: seq<Json>)
    | Obj(fields: seq<Field>)

  datatype Field = Field(key: string, value: Json)

  const PROTO := "__proto__"

  predicate DistinctKeys(fields: seq<Field>) {
    forall i, j :: 0 <= i < j < |fields| ==> fields[i].key != fields[j].key
  }

  /** An object has each key once. */
  predicate Valid(v: Json) {
    match v
    case Arr(items) => forall i :: 0 <= i < |items| ==> Valid(items[i])
    case Obj(fields) => DistinctKeys(fields) && forall i :: 0 <= i < |fields| ==> Valid(fields[i].value)
    case _ => true
  }

  // ----- keys.sort(): by UTF-16 code units -----

  /** Surrogate pairs sort between U+D7FF and U+E000. */
  function Rank(c: char): nat {
    var n := c as int;
    if n < 0xD800 then n else if n >= 0x1_0000 then n - 0x1_0000 + 0xD800 else n + 0x10_0000
  }

  predicate KeyLess(a: string, b: string) {
    if b == "" then false
    else if a == "" then true
    else if a[0] != b[0] then Rank(a[0]) < Rank(b[0])
    else KeyLess(a[1..], b[1..])
  }

  function InsertByKey(sorted: seq<Field>, f: Field): seq<Field> {
    var n := |sorted| - 1;
    if n < 0 || !KeyLess(f.key, sorted[n].key) then sorted + [f] else InsertByKey(sorted[..n], f) + [sorted[n]]
  }

  function SortByKey(fields: seq<Field>): seq<Field> {
    if fields == [] then [] else InsertByKey(SortByKey(fields[..|fields| - 1]), fields[|fields| - 1])
  }

  // ----- acc[key] = value, for a key that acc does not have -----

  /** Array indices enumerate first and in ascending order (OrdinaryOwnPropertyKeys of ECMA-262). */
  predicate IsIndex(key: string) {
    && key != "" && (forall i :: 0 <= i < |key| ==> IsDigit(key[i]))
    && (key == "0" || key[0] != '0')
    && Value(key) < 0xFFFF_FFFF
  }

  predicate EnumeratesBefore(key: string, other: string) {
    IsIndex(key) && (IsIndex(other) ==> Value(key) < Value(other))
  }

  function PutField(acc: seq<Field>, f: Field): seq<Field> {
    var n := |acc| - 1;
    if n >= 0 && EnumeratesBefore(f.key, acc[n].key) then PutField(acc[..n], f) + [acc[n]] else acc + [f]
  }

  /** Assigning to "__proto__" sets the prototype and creates no field. */
  function SetField(acc: seq<Field>, f: Field): seq<Field> { if f.key == PROTO then acc else PutField(acc, f) }

  /** The reduce call. */
  function Rebuild(sorted: seq<Field>): seq<Field> {
    if sorted == [] then [] else SetField(Rebuild(sorted[..|sorted| - 1]), sorted[|sorted| - 1])
  }

  /** stableJsonValue. */
  function StableValue(v: Json): Json {
    match v
    case Arr(items) => Arr(seq(|items|, i requires 0 <= i < |items| => StableValue(items[i])))
    case Obj(fields) => Obj(Rebuild(SortByKey(StableFields(fields))))
    case _ => v
  }

  function StableFields(fields: seq<Field>): (r: seq<Field>)
    ensures |r| == |fields|
  {
    seq(|fields|, i requires 0 <= i < |fields| => Field(fields[i].key, StableValue(fields[i].value)))
  }

  // ----- JSON.stringify -----

  function HexDigit(d: nat): char
    requires d < 16
  {
    if d < 10 then ('0' as int + d) as char else ('a' as int + (d - 10)) as char
  }

  function Escape(c: char): (r: string)
    ensures r != "" && r[0] != '\"' && (r[0] == '\\' <==> |r| > 1) && (|r| == 1 ==> r[0] == c)
  {
    if c == '\"' then "\\\"" else if c == '\\' then "\\\\"
    else if c == '\U{08}' then "\\b" else if c == '\U{0C}' then "\\f"
    else if c == '\n' then "\\n" else if c == '\r' then "\\r" else if c == '\t' then "\\t"
    else if c < ' ' then ['\\', 'u', '0', '0', HexDigit(c as int / 16), HexDigit(c as int % 16)]
    else [c]
  }

  /** The characters of a string literal and its closing quote. */
  function Quoted(s: string): string {
    if s == "" then "\"" else Escape(s[0]) + Quoted(s[1..])
  }

  function Stringify(v: Json): (r: string)
    ensures r != ""
    decreases v, 1
  {
    match v
    case Null => "null"
    case Bool(b) => if b then "true" else "false"
    case Num(n) => Decimal(n)
    case Str(s) => "\"" + Quoted(s)
    case Arr(items) => "[" + StringifyItems(items, true)
    case Obj(fields) => "{" + StringifyFields(fields, true)
  }

  function Comma(first: bool): string { if first then "" else "," }

  function StringifyItems(items: seq<Json>, first: bool): (r: string)
    ensures r != ""
    decreases items, 0
  {
    if items == [] then "]" else Comma(first) + (Stringify(items[0]) + StringifyItems(items[1..], false))
  }

  function StringifyFields(fields: seq<Field>, first: bool): (r: string)
    ensures r != ""
    decreases fields, 0
  {
    if fields == [] then "}"
    else
      Comma(first)
      + ("\"" + Quoted(fields[0].key) + ":" + (Stringify(fields[0].value) + StringifyFields(fields[1..], false)))
  }

  /** stableJson. */
  function StableText(v: Json): string { Stringify(StableValue(v)) }
}
