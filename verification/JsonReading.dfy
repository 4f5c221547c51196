/**
 A reader of JSON texts (RFC 8259) that knows nothing about how they were made, and
 the proof that it reads back what JSON.stringify writes. Texts have no white space
 between tokens, and numbers are integers.
 */
module JsonReading {
  import opened Options
  import opened Decimals
  import opened StableJson
  import opened Strings

  /** What was read off the front of a text, and the rest of the text. */
  datatype Part<T> = Part(value: T, rest: string)

  // ----- numbers -----

  predicate Starts(text: string, c: char) { text != "" && text[0] == c }

  function DigitRun(text: string): nat {
    if text != "" && IsDigit(text[0]) then 1 + DigitRun(text[1..]) else 0
  }

  lemma {:induction false} RunIsDigits(text: string)
    ensures DigitRun(text) <= |text| && forall i :: 0 <= i < DigitRun(text) ==> IsDigit(text[..DigitRun(text)][i])
  {
    if text != "" && IsDigit(text[0]) {
      RunIsDigits(text[1..]);
      var n := DigitRun(text[1..]);
      assert text[..n + 1] == [text[0]] + text[1..][..n];
    }
  }

  /** Digits without a leading zero, or the one digit zero. */
  function ReadNatural(text: string): (r: Option<Part<nat>>)
    ensures r.Some? ==> |r.value.rest| < |text|
  {
    RunIsDigits(text);
    var n := DigitRun(text);
    if n == 0 || (n > 1 && text[0] == '0') then None else Some(Part(Value(text[..n]), text[n..]))
  }

  function ReadNumber(text: string): (r: Option<Part<Json>>)
    ensures r.Some? ==> |r.value.rest| < |text|
  {
    if Starts(text, '-') then
      match ReadNatural(text[1..]) case None => None case Some(p) => Some(Part(Num(0 - (p.value as int)), p.rest))
    else match ReadNatural(text) case None => None case Some(p) => Some(Part(Num(p.value), p.rest))
  }

  // ----- strings -----

  function HexValue(c: char): Option<nat> {
    if '0' <= c <= '9' then Some(c as int - '0' as int)
    else if 'a' <= c <= 'f' then Some(c as int - 'a' as int + 10)
    else if 'A' <= c <= 'F' then Some(c as int - 'A' as int + 10)
    else None
  }

  /** The character that \u and four hexadecimal digits denote, if it is no surrogate. */
  function UnicodeEscape(a: char, b: char, c: char, d: char): Option<char> {
    match (HexValue(a), HexValue(b), HexValue(c), HexValue(d))
    case (Some(p), Some(q), Some(r), Some(s)) =>
      var n := ((p * 16 + q) * 16 + r) * 16 + s;
      if n < 0xD800 || 0xE000 <= n < 0x1_0000 then Some(n as char) else None
    case _ => None
  }

  /** What a backslash and a character denote. */
  function ShortEscape(c: char): Option<char> {
    if c == '\"' || c == '\\' || c == '/' then Some(c)
    else if c == 'b' then Some('\U{08}') else if c == 'f' then Some('\U{0C}')
    else if c == 'n' then Some('\n') else if c == 'r' then Some('\r') else if c == 't' then Some('\t')
    else None
  }

  /** One character of a string literal. */
  function ReadChar(text: string): (r: Option<Part<char>>)
    ensures r.Some? ==> |r.value.rest| < |text|
  {
    if text == "" || text[0] < ' ' || text[0] == '\"' then None
    else if text[0] != '\\' then Some(Part(text[0], text[1..]))
    else if |text| >= 6 && text[1] == 'u' then
      match UnicodeEscape(text[2], text[3], text[4], text[5]) case None => None case Some(c) => Some(Part(c, text[6..]))
    else if |text| >= 2 then
      match ShortEscape(text[1]) case None => None case Some(c) => Some(Part(c, text[2..]))
    else None
  }

  /** The characters of a string literal, up to and with its closing quote. */
  function ReadString(text: string): (r: Option<Part<string>>)
    ensures r.Some? ==> |r.value.rest| < |text|
    decreases |text|
  {
    if Starts(text, '\"') then Some(Part("", text[1..]))
    else
      match ReadChar(text)
      case None => None
      case Some(c) =>
        match ReadString(c.rest)
        case None => None
        case Some(s) => Some(Part([c.value] + s.value, s.rest))
  }

  // ----- values -----

  function ReadLiteral(text: string, literal: string, v: Json): (r: Option<Part<Json>>)
    requires literal != ""
    ensures r.Some? ==> |r.value.rest| < |text|
  {
    if literal <= text then Some(Part(v, text[|literal|..])) else None
  }

  function ReadValue(text: string): (r: Option<Part<Json>>)
    ensures r.Some? ==> |r.value.rest| < |text|
    decreases |text|, 1
  {
    if text == "" then None
    else if text[0] == 'n' then ReadLiteral(text, "null", Null)
    else if text[0] == 't' then ReadLiteral(text, "true", Bool(true))
    else if text[0] == 'f' then ReadLiteral(text, "false", Bool(false))
    else if text[0] == '\"' then
      match ReadString(text[1..]) case None => None case Some(p) => Some(Part(Str(p.value), p.rest))
    else if text[0] == '[' then
      match ReadItems(text[1..], true) case None => None case Some(p) => Some(Part(Arr(p.value), p.rest))
    else if text[0] == '{' then
      match ReadFields(text[1..], true) case None => None case Some(p) => Some(Part(Obj(p.value), p.rest))
    else ReadNumber(text)
  }

  /** Between two entries stands a comma. */
  function AfterComma(text: string, first: bool): (r: Option<string>)
    ensures r.Some? ==> |r.value| <= |text|
  {
    if first then Some(text) else if Starts(text, ',') then Some(text[1..]) else None
  }

  /** The rest of an array: entries and the closing bracket. */
  function ReadItems(text: string, first: bool): (r: Option<Part<seq<Json>>>)
    ensures r.Some? ==> |r.value.rest| < |text|
    decreases |text|, 2
  {
    if Starts(text, ']') then Some(Part([], text[1..]))
    else
      match AfterComma(text, first)
      case None => None
      case Some(entry) =>
        match ReadValue(entry)
        case None => None
        case Some(v) =>
          match ReadItems(v.rest, false)
          case None => None
          case Some(more) => Some(Part([v.value] + more.value, more.rest))
  }

  /** A key, its closing quote and the colon. */
  function ReadKey(text: string): (r: Option<Part<string>>)
    ensures r.Some? ==> |r.value.rest| < |text|
  {
    if !Starts(text, '\"') then None
    else
      match ReadString(text[1..])
      case None => None
      case Some(key) => if Starts(key.rest, ':') then Some(Part(key.value, key.rest[1..])) else None
  }

  /** The rest of an object: fields and the closing brace. */
  function ReadFields(text: string, first: bool): (r: Option<Part<seq<Field>>>)
    ensures r.Some? ==> |r.value.rest| < |text|
    decreases |text|, 2
  {
    if Starts(text, '}') then Some(Part([], text[1..]))
    else
      match AfterComma(text, first)
      case None => None
      case Some(entry) =>
        match ReadKey(entry)
        case None => None
        case Some(key) =>
          match ReadValue(key.rest)
          case None => None
          case Some(v) =>
            match ReadFields(v.rest, false)
            case None => None
            case Some(more) => Some(Part([Field(key.value, v.value)] + more.value, more.rest))
  }

  /** A whole JSON text. */
  function Parse(text: string): Option<Json> {
    match ReadValue(text)
    case None => None
    case Some(p) => if p.rest == "" then Some(p.value) else None
  }

  // ----- numbers read back -----

  /** What can follow a value inside a text. */
  predicate Ends(rest: string) { rest == "" || rest[0] in {',', ']', '}'} }

  lemma {:induction false} RunEnds(digits: string, rest: string)
    requires (forall i :: 0 <= i < |digits| ==> IsDigit(digits[i])) && Ends(rest)
    ensures DigitRun(digits + rest) == |digits|
  {
    if digits == "" {
      assert digits + rest == rest;
    } else {
      assert (digits + rest)[1..] == digits[1..] + rest;
      RunEnds(digits[1..], rest);
    }
  }

  lemma {:induction false} NoLeadingZero(n: nat)
    ensures |Natural(n)| > 1 ==> Natural(n)[0] != '0'
    ensures Natural(n)[0] == '0' <==> n == 0
  {
    if n >= 10 {
      NoLeadingZero(n / 10);
      assert Natural(n)[0] == Natural(n / 10)[0];
    }
  }

  lemma NaturalReadsBack(n: nat, rest: string)
    requires Ends(rest)
    ensures ReadNatural(Natural(n) + rest) == Some(Part(n, rest))
  {
    var digits := Natural(n);
    RunEnds(digits, rest);
    NoLeadingZero(n);
    ValueOfNatural(n);
    assert (digits + rest)[..|digits|] == digits && (digits + rest)[|digits|..] == rest;
  }

  lemma NumberReadsBack(n: int, rest: string)
    requires Ends(rest)
    ensures ReadNumber(Decimal(n) + rest) == Some(Part(Num(n), rest))
  {
    if n < 0 {
      assert (Decimal(n) + rest)[1..] == Natural(-n) + rest;
      NaturalReadsBack(-n, rest);
    } else {
      NoLeadingMinus(n);
      NaturalReadsBack(n, rest);
    }
  }

  // ----- strings read back -----

  lemma HexReadsBack(d: nat)
    requires d < 16
    ensures HexValue(HexDigit(d)) == Some(d)
  {
  }

  lemma ControlReadsBack(c: char, rest: string)
    requires c < ' ' && |Escape(c)| == 6
    ensures ReadChar(Escape(c) + rest) == Some(Part(c, rest))
  {
    var text := Escape(c) + rest;
    HexReadsBack(0);
    HexReadsBack(c as int / 16);
    HexReadsBack(c as int % 16);
    assert text[0] == '\\' && text[1] == 'u' && text[2] == '0' && text[3] == '0';
    assert text[4] == HexDigit(c as int / 16) && text[5] == HexDigit(c as int % 16);
    assert text[6..] == rest;
  }

  lemma CharReadsBack(c: char, rest: string)
    ensures ReadChar(Escape(c) + rest) == Some(Part(c, rest))
    ensures !Starts(Escape(c) + rest, '\"')
  {
    var text := Escape(c) + rest;
    assert text[0] == Escape(c)[0];
    if |Escape(c)| == 6 {
      ControlReadsBack(c, rest);
    } else if |Escape(c)| == 2 {
      assert text[1] == Escape(c)[1] && text[2..] == rest;
    } else {
      assert text[1..] == rest;
    }
  }

  lemma {:induction false} StringReadsBack(s: string, rest: string)
    ensures ReadString(Quoted(s) + rest) == Some(Part(s, rest))
  {
    if s == "" {
      assert ("\"" + rest)[1..] == rest;
    } else {
      Associate(Escape(s[0]), Quoted(s[1..]), rest);
      CharReadsBack(s[0], Quoted(s[1..]) + rest);
      StringReadsBack(s[1..], rest);
      assert [s[0]] + s[1..] == s;
    }
  }

  // ----- values read back -----

  /** The first character tells the kinds of values apart. */
  lemma FirstCharacter(v: Json)
    ensures var c := Stringify(v)[0];
            match v
            case Null => c == 'n'
            case Bool(b) => c == if b then 't' else 'f'
            case Num(_) => IsDigit(c) || c == '-'
            case Str(_) => c == '\"'
            case Arr(_) => c == '['
            case Obj(_) => c == '{'
  {
    if v.Num? && v.n >= 0 { assert IsDigit(Natural(v.n)[0]); }
  }

  lemma LiteralReadsBack(literal: string, v: Json, rest: string)
    requires literal != ""
    ensures ReadLiteral(literal + rest, literal, v) == Some(Part(v, rest))
  {
    assert literal <= literal + rest && (literal + rest)[|literal|..] == rest;
  }

  lemma ScalarReadsBack(v: Json, rest: string)
    requires Ends(rest) && !v.Arr? && !v.Obj?
    ensures ReadValue(Stringify(v) + rest) == Some(Part(v, rest))
  {
    var text := Stringify(v) + rest;
    FirstCharacter(v);
    assert text[0] == Stringify(v)[0];
    match v
    case Null => LiteralReadsBack("null", v, rest);
    case Bool(b) => LiteralReadsBack(Stringify(v), v, rest);
    case Num(n) => NumberReadsBack(n, rest);
    case Str(s) =>
      assert text[1..] == Quoted(s) + rest;
      StringReadsBack(s, rest);
  }

  lemma ArrayReadsBack(items: seq<Json>, text: string, rest: string)
    requires ReadItems(text, true) == Some(Part(items, rest))
    ensures ReadValue("[" + text) == Some(Part(Arr(items), rest))
  {
    assert ("[" + text)[1..] == text;
  }

  lemma ObjectReadsBack(fields: seq<Field>, text: string, rest: string)
    requires ReadFields(text, true) == Some(Part(fields, rest))
    ensures ReadValue("{" + text) == Some(Part(Obj(fields), rest))
  {
    assert ("{" + text)[1..] == text;
  }

  lemma {:induction false} ValueReadsBack(v: Json, rest: string)
    requires Ends(rest)
    ensures ReadValue(Stringify(v) + rest) == Some(Part(v, rest))
    decreases v, 1
  {
    if v.Arr? {
      ItemsReadBack(v.items, true, rest);
      ArrayReadsBack(v.items, StringifyItems(v.items, true) + rest, rest);
      Associate("[", StringifyItems(v.items, true), rest);
    } else if v.Obj? {
      FieldsReadBack(v.fields, true, rest);
      ObjectReadsBack(v.fields, StringifyFields(v.fields, true) + rest, rest);
      Associate("{", StringifyFields(v.fields, true), rest);
    } else {
      ScalarReadsBack(v, rest);
    }
  }

  /** The rendering of the rest of a list starts with a delimiter. */
  lemma ItemsEnd(items: seq<Json>, rest: string)
    ensures Ends(StringifyItems(items, false) + rest)
  {
  }

  lemma FieldsEnd(fields: seq<Field>, rest: string)
    ensures Ends(StringifyFields(fields, false) + rest)
  {
  }

  lemma CommaReadsBack(first: bool, text: string)
    ensures AfterComma(Comma(first) + text, first) == Some(text)
  {
    if first { assert "" + text == text; } else { assert ("," + text)[1..] == text; }
  }

  /** One entry and the rest of the array. */
  lemma ItemReads(
      text: string, first: bool, entry: string, v: Json, tail: string, more: seq<Json>, rest: string)
    requires !Starts(text, ']') && AfterComma(text, first) == Some(entry)
    requires ReadValue(entry) == Some(Part(v, tail)) && ReadItems(tail, false) == Some(Part(more, rest))
    ensures ReadItems(text, first) == Some(Part([v] + more, rest))
  {
  }

  lemma ItemSplits(items: seq<Json>, first: bool, rest: string)
    requires items != []
    ensures var text, tail := StringifyItems(items, first) + rest, StringifyItems(items[1..], false) + rest;
            !Starts(text, ']') && AfterComma(text, first) == Some(Stringify(items[0]) + tail)
  {
    var text, tail := StringifyItems(items, first) + rest, StringifyItems(items[1..], false) + rest;
    var entry := Stringify(items[0]) + tail;
    assert text == Comma(first) + entry;
    CommaReadsBack(first, entry);
    FirstCharacter(items[0]);
    assert entry[0] == Stringify(items[0])[0];
    assert text[0] == if first then entry[0] else ',';
  }

  lemma {:induction false} ItemsReadBack(items: seq<Json>, first: bool, rest: string)
    ensures ReadItems(StringifyItems(items, first) + rest, first) == Some(Part(items, rest))
    decreases items, 0
  {
    if items == [] {
      assert ("]" + rest)[1..] == rest;
    } else {
      var text, tail := StringifyItems(items, first) + rest, StringifyItems(items[1..], false) + rest;
      ItemSplits(items, first, rest);
      ItemsEnd(items[1..], rest);
      ValueReadsBack(items[0], tail);
      ItemsReadBack(items[1..], false, rest);
      ItemReads(text, first, Stringify(items[0]) + tail, items[0], tail, items[1..], rest);
      assert [items[0]] + items[1..] == items;
    }
  }

  lemma KeyReadsBack(key: string, rest: string)
    ensures ReadKey("\"" + Quoted(key) + ":" + rest) == Some(Part(key, rest))
  {
    var text := "\"" + Quoted(key) + ":" + rest;
    assert text[1..] == Quoted(key) + (":" + rest);
    StringReadsBack(key, ":" + rest);
    assert (":" + rest)[1..] == rest;
  }

  /** The text of one field, from its key on. */
  function FieldText(f: Field, tail: string): string { "\"" + Quoted(f.key) + ":" + (Stringify(f.value) + tail) }

  lemma FieldSplits(fields: seq<Field>, first: bool, rest: string)
    requires fields != []
    ensures var text, tail := StringifyFields(fields, first) + rest, StringifyFields(fields[1..], false) + rest;
            !Starts(text, '}') && AfterComma(text, first) == Some(FieldText(fields[0], tail))
  {
    var more := StringifyFields(fields[1..], false);
    var text, entry := StringifyFields(fields, first) + rest, FieldText(fields[0], more + rest);
    assert (Stringify(fields[0].value) + more) + rest == Stringify(fields[0].value) + (more + rest);
    assert text == Comma(first) + entry;
    CommaReadsBack(first, entry);
    assert text[0] == if first then '\"' else ',';
  }

  /** One field and the rest of the object. */
  lemma FieldReads(
      text: string, first: bool, entry: string, f: Field, value: string, tail: string, more: seq<Field>, rest: string)
    requires !Starts(text, '}') && AfterComma(text, first) == Some(entry) && ReadKey(entry) == Some(Part(f.key, value))
    requires ReadValue(value) == Some(Part(f.value, tail)) && ReadFields(tail, false) == Some(Part(more, rest))
    ensures ReadFields(text, first) == Some(Part([f] + more, rest))
  {
  }

  lemma {:induction false} FieldsReadBack(fields: seq<Field>, first: bool, rest: string)
    ensures ReadFields(StringifyFields(fields, first) + rest, first) == Some(Part(fields, rest))
    decreases fields, 0
  {
    if fields == [] {
      assert ("}" + rest)[1..] == rest;
    } else {
      var f, tail := fields[0], StringifyFields(fields[1..], false) + rest;
      FieldSplits(fields, first, rest);
      KeyReadsBack(f.key, Stringify(f.value) + tail);
      FieldsEnd(fields[1..], rest);
      ValueReadsBack(f.value, tail);
      FieldsReadBack(fields[1..], false, rest);
      FieldReads(StringifyFields(fields, first) + rest, first, FieldText(f, tail), f, Stringify(f.value) + tail, tail,
                 fields[1..], rest);
      assert [f] + fields[1..] == fields;
    }
  }

  /** What JSON.stringify writes is a JSON text of exactly the value it was given. */
  lemma ParseOfStringify(v: Json)
    ensures Parse(Stringify(v)) == Some(v)
  {
    assert Stringify(v) + "" == Stringify(v);
    ValueReadsBack(v, "");
  }

  /** So equal texts come from equal values. */
  lemma StringifyIsInjective(a: Json, b: Json)
    requires Stringify(a) == Stringify(b)
    ensures a == b
  {
    ParseOfStringify(a);
    ParseOfStringify(b);
  }
}
