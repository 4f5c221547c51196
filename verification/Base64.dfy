/**
 Base64 as section 4 of RFC 4648 defines it, with the URL alphabet of section 5, and
 the forgiving decoding that atob performs (the Infra Standard's forgiving-base64 decode).
 */
module Base64 {
  import opened Options

  type Byte = b: nat | b < 256
  type Sextet = n: nat | n < 64

  function Digit(n: Sextet): char {
    if n < 26 then ('A' as int + n) as char
    else if n < 52 then ('a' as int + n - 26) as char
    else if n < 62 then ('0' as int + n - 52) as char
    else if n == 62 then '+' else '/'
  }

  function DigitValue(c: char): Option<Sextet> {
    if 'A' <= c <= 'Z' then Some(c as int - 'A' as int)
    else if 'a' <= c <= 'z' then Some(c as int - 'a' as int + 26)
    else if '0' <= c <= '9' then Some(c as int - '0' as int + 52)
    else if c == '+' then Some(62) else if c == '/' then Some(63) else None
  }

  predicate IsDigitChar(c: char) { DigitValue(c).Some? }

  function Digits(v: seq<Sextet>): (s: string)
    ensures |s| == |v|
  {
    seq(|v|, i requires 0 <= i < |v| => Digit(v[i]))
  }

  function Split1(a: nat, b: nat): Sextet
    requires a < 256 && b < 256
  {
    a % 4 * 16 + b / 16
  }

  function Split2(a: nat, b: nat): Sextet
    requires a < 256 && b < 256
  {
    a % 16 * 4 + b / 64
  }

  /** The 6-bit groups of one to three bytes, filled up with zero bits. */
  function Sextets(b: seq<Byte>): (v: seq<Sextet>)
    requires 1 <= |b| <= 3
    ensures |v| == |b| + 1
  {
    if |b| == 1 then [b[0] / 4, Split1(b[0], 0)]
    else if |b| == 2 then [b[0] / 4, Split1(b[0], b[1]), Split2(b[1], 0)]
    else [b[0] / 4, Split1(b[0], b[1]), Split2(b[1], b[2]), b[2] % 64]
  }

  /** The 6-bit groups of all bytes: four for three bytes, the last ones filled up with zero bits. */
  function AllSextets(b: seq<Byte>): (v: seq<Sextet>)
    ensures |v| == DigitCount(|b|)
  {
    if |b| == 0 then []
    else if |b| < 3 then Sextets(b)
    else
      DigitCountStep(|b| - 3);
      Sextets(b[..3]) + AllSextets(b[3..])
  }

  /** The number of digits that n bytes take. */
  function DigitCount(n: nat): nat { (4 * n + 2) / 3 }

  lemma DigitCountStep(n: nat)
    ensures DigitCount(n + 3) == DigitCount(n) + 4
  {
    assert (4 * (n + 3) + 2) / 3 == (4 * n + 2 + 12) / 3;
  }

  /** The padding that fills up a group of four. */
  function Padding(length: nat): string { seq((4 - length % 4) % 4, _ => '=') }

  /** btoa on bytes: the digits, and padding to a multiple of four characters. */
  function Encode(b: seq<Byte>): string { Digits(AllSextets(b)) + Padding(DigitCount(|b|)) }

  function Join1(a: nat, b: nat): Byte
    requires a < 64 && b < 64
  {
    a * 4 + b / 16
  }

  function Join2(a: nat, b: nat): Byte
    requires a < 64 && b < 64
  {
    a % 16 * 16 + b / 4
  }

  function Join3(a: nat, b: nat): Byte
    requires a < 64 && b < 64
  {
    a % 4 * 64 + b
  }

  /** The bytes of one group of two, three or four digits. */
  function Group(v: seq<Sextet>): (b: seq<Byte>)
    requires 2 <= |v| <= 4
    ensures |b| == |v| - 1
  {
    if |v| == 2 then [Join1(v[0], v[1])]
    else if |v| == 3 then [Join1(v[0], v[1]), Join2(v[1], v[2])]
    else [Join1(v[0], v[1]), Join2(v[1], v[2]), Join3(v[2], v[3])]
  }

  function DigitValues(s: string): (r: Option<seq<Sextet>>)
    ensures r.Some? ==> |r.value| == |s|
  {
    if s == "" then Some([])
    else
      match (DigitValue(s[0]), DigitValues(s[1..]))
      case (Some(v), Some(rest)) => Some([v] + rest)
      case _ => None
  }

  /** The bytes of any number of digits; bits that fill no byte are dropped. */
  function DecodeDigits(v: seq<Sextet>): seq<Byte> {
    if |v| < 2 then [] else if |v| < 4 then Group(v) else Group(v[..4]) + DecodeDigits(v[4..])
  }

  predicate IsSpace(c: char) { c == '\t' || c == '\n' || c == '\U{0C}' || c == '\r' || c == ' ' }

  function WithoutSpaces(s: string): string {
    if s == "" then "" else if IsSpace(s[0]) then WithoutSpaces(s[1..]) else [s[0]] + WithoutSpaces(s[1..])
  }

  /** One or two padding characters are taken off a text whose length is a multiple of four. */
  function Unpadded(s: string): string {
    if |s| == 0 || |s| % 4 != 0 || s[|s| - 1] != '=' then s
    else if s[|s| - 2] == '=' then s[..|s| - 2]
    else s[..|s| - 1]
  }

  /** atob: forgiving-base64 decode. None is the exception for any other character or a single digit left over. */
  function Decode(s: string): Option<seq<Byte>> {
    var digits := Unpadded(WithoutSpaces(s));
    match DigitValues(digits)
    case None => None
    case Some(v) => if |digits| % 4 == 1 then None else Some(DecodeDigits(v))
  }

  // ----- round trip -----

  lemma ValueOfDigit(n: Sextet)
    ensures DigitValue(Digit(n)) == Some(n) && Digit(n) != '='
  {
  }

  lemma {:induction false} ValuesOfDigits(v: seq<Sextet>)
    ensures DigitValues(Digits(v)) == Some(v)
  {
    if v != [] {
      ValueOfDigit(v[0]);
      ValuesOfDigits(v[1..]);
      assert Digits(v)[1..] == Digits(v[1..]);
      assert v == [v[0]] + v[1..];
    }
  }

  lemma JoinOfSplit(a: nat, b: nat, c: nat)
    requires a < 256 && b < 256 && c < 256
    ensures Join1(a / 4, Split1(a, b)) == a
    ensures Join2(Split1(a, b), Split2(b, c)) == b
    ensures Join3(Split2(b, c), c % 64) == c
  {
  }

  lemma GroupOfOne(a: Byte)
    ensures Group(Sextets([a])) == [a]
  {
    JoinOfSplit(a, 0, 0);
  }

  lemma GroupOfTwo(a: Byte, b: Byte)
    ensures Group(Sextets([a, b])) == [a, b]
  {
    JoinOfSplit(a, b, 0);
    var v := Sextets([a, b]);
    assert v == [a / 4, Split1(a, b), Split2(b, 0)];
  }

  lemma GroupOfThree(a: Byte, b: Byte, c: Byte)
    ensures Group(Sextets([a, b, c])) == [a, b, c]
  {
    JoinOfSplit(a, b, c);
    var v := Sextets([a, b, c]);
    assert v == [a / 4, Split1(a, b), Split2(b, c), c % 64];
  }

  lemma GroupOfSextets(b: seq<Byte>)
    requires 1 <= |b| <= 3
    ensures Group(Sextets(b)) == b
  {
    if |b| == 1 {
      GroupOfOne(b[0]);
      assert b == [b[0]];
    } else if |b| == 2 {
      GroupOfTwo(b[0], b[1]);
      assert b == [b[0], b[1]];
    } else {
      GroupOfThree(b[0], b[1], b[2]);
      assert b == [b[0], b[1], b[2]];
    }
  }

  lemma DigitsHaveNoPadding(v: seq<Sextet>, i: nat)
    requires i < |v|
    ensures IsDigitChar(Digits(v)[i])
  {
    ValueOfDigit(v[i]);
  }

  lemma {:induction false} DecodeOfSextets(b: seq<Byte>)
    ensures DecodeDigits(AllSextets(b)) == b
  {
    if 0 < |b| < 3 {
      GroupOfSextets(b);
    } else if |b| >= 3 {
      var v := AllSextets(b);
      GroupOfSextets(b[..3]);
      DecodeOfSextets(b[3..]);
      assert v[..4] == Sextets(b[..3]) && v[4..] == AllSextets(b[3..]);
      assert b == b[..3] + b[3..];
    }
  }

  lemma {:induction false} NothingToSkip(s: string)
    requires forall i :: 0 <= i < |s| ==> !IsSpace(s[i])
    ensures WithoutSpaces(s) == s
  {
    if s != "" { NothingToSkip(s[1..]); }
  }

  lemma DigitIsNoSpace(n: Sextet)
    ensures !IsSpace(Digit(n)) && Digit(n) != '='
  {
  }

  lemma PaddingCases(n: nat)
    requires n % 4 != 1
    ensures Padding(n) == if n % 4 == 0 then "" else if n % 4 == 3 then "=" else "=="
  {
  }

  lemma PaddingIsTakenOff(digits: string, padding: string)
    requires forall i :: 0 <= i < |digits| ==> digits[i] != '='
    requires padding == "" || padding == "=" || padding == "=="
    requires padding != "" ==> |digits| >= 2 && (|digits| + |padding|) % 4 == 0
    ensures Unpadded(digits + padding) == digits
  {
    var s := digits + padding;
    assert s[..|digits|] == digits;
    if padding == "" {
      assert s == digits;
    } else {
      assert s[|s| - 1] == '=' && s[|digits| - 1] == digits[|digits| - 1];
    }
  }

  /** A text of digits, with its padding or without. */
  lemma DigitsAreFound(v: seq<Sextet>, padding: string)
    requires padding == "" || padding == Padding(|v|)
    requires |v| % 4 != 1
    ensures Unpadded(WithoutSpaces(Digits(v) + padding)) == Digits(v)
  {
    PaddingCases(|v|);
    forall i | 0 <= i < |v| ensures !IsSpace(Digits(v)[i]) && Digits(v)[i] != '=' { DigitIsNoSpace(v[i]); }
    NothingToSkip(Digits(v) + padding);
    PaddingIsTakenOff(Digits(v), padding);
  }

  lemma DigitCountIsWhole(n: nat)
    ensures DigitCount(n) % 4 != 1
    decreases n
  {
    if n >= 3 {
      DigitCountStep(n - 3);
      DigitCountIsWhole(n - 3);
    }
  }

  /** Decoding an encoding gives back the bytes, whatever their number. */
  lemma DecodeOfEncode(b: seq<Byte>)
    ensures Decode(Encode(b)) == Some(b)
  {
    DigitCountIsWhole(|b|);
    DigitsAreFound(AllSextets(b), Padding(DigitCount(|b|)));
    ValuesOfDigits(AllSextets(b));
    DecodeOfSextets(b);
  }

  /** atob needs no padding. */
  lemma DecodeOfDigits(b: seq<Byte>)
    ensures Decode(Digits(AllSextets(b))) == Some(b)
  {
    DigitCountIsWhole(|b|);
    assert Digits(AllSextets(b)) + "" == Digits(AllSextets(b));
    DigitsAreFound(AllSextets(b), "");
    ValuesOfDigits(AllSextets(b));
    DecodeOfSextets(b);
  }

  // ----- the URL alphabet -----

  function Replace(s: string, from: char, to: char): (r: string)
    ensures |r| == |s|
  {
    seq(|s|, i requires 0 <= i < |s| => if s[i] == from then to else s[i])
  }

  /** replace(/=/g, ''). */
  function WithoutPadding(s: string): string {
    if s == "" then "" else if s[0] == '=' then WithoutPadding(s[1..]) else [s[0]] + WithoutPadding(s[1..])
  }

  /** replace(/=+$/g, ''). */
  function WithoutFinalPadding(s: string): (r: string)
    ensures |r| <= |s|
  {
    if s != "" && s[|s| - 1] == '=' then WithoutFinalPadding(s[..|s| - 1]) else s
  }

  function UrlAlphabet(s: string): string { Replace(Replace(s, '+', '-'), '/', '_') }

  /** bufferToBase64URL. */
  function UrlEncode(b: seq<Byte>): string { WithoutPadding(UrlAlphabet(Encode(b))) }

  /** The standard text that base64URLToBuffer passes to atob. */
  function Restored(url: string): string {
    Replace(Replace(url, '-', '+'), '_', '/') + Padding(|url|)
  }

  /** base64URLToBuffer. */
  function UrlDecode(url: string): Option<seq<Byte>> { Decode(Restored(url)) }

  predicate IsUrlSafe(c: char) { 'A' <= c <= 'Z' || 'a' <= c <= 'z' || '0' <= c <= '9' || c == '-' || c == '_' }

  /** The digits and the padding characters of an encoding, and where they are. */
  lemma EncodeShape(b: seq<Byte>)
    ensures var text, digits := Encode(b), DigitCount(|b|);
            && |text| == digits + |Padding(digits)|
            && (forall i :: 0 <= i < digits ==> IsDigitChar(text[i]))
            && (forall i :: digits <= i < |text| ==> text[i] == '=')
  {
    forall i | 0 <= i < DigitCount(|b|) ensures IsDigitChar(Encode(b)[i]) { DigitsHaveNoPadding(AllSextets(b), i); }
  }

  lemma {:induction false} PaddingAtEndOnly(s: string, digits: nat)
    requires digits <= |s|
    requires forall i :: 0 <= i < digits ==> s[i] != '='
    requires forall i :: digits <= i < |s| ==> s[i] == '='
    ensures WithoutPadding(s) == s[..digits]
    decreases |s|
  {
    if s == "" {
    } else if digits == 0 {
      PaddingAtEndOnly(s[1..], 0);
    } else {
      PaddingAtEndOnly(s[1..], digits - 1);
      assert s[..digits] == [s[0]] + s[1..][..digits - 1];
    }
  }

  lemma {:induction false} FinalPaddingIsAll(s: string, digits: nat)
    requires digits <= |s|
    requires forall i :: 0 <= i < digits ==> s[i] != '='
    requires forall i :: digits <= i < |s| ==> s[i] == '='
    ensures WithoutFinalPadding(s) == s[..digits]
    decreases |s|
  {
    if digits < |s| {
      FinalPaddingIsAll(s[..|s| - 1], digits);
      assert s[..|s| - 1][..digits] == s[..digits];
    } else {
      assert s[..digits] == s;
    }
  }

  /** The URL form of an encoding, before its padding is cut. */
  lemma UrlShape(b: seq<Byte>)
    ensures var text, digits := UrlAlphabet(Encode(b)), DigitCount(|b|);
            && |text| == |Encode(b)| && digits <= |text|
            && (forall i :: 0 <= i < digits ==> IsUrlSafe(text[i]))
            && (forall i :: digits <= i < |text| ==> text[i] == '=')
            && WithoutPadding(text) == WithoutFinalPadding(text) == text[..digits]
  {
    EncodeShape(b);
    var text, digits := UrlAlphabet(Encode(b)), DigitCount(|b|);
    forall i | 0 <= i < digits ensures IsUrlSafe(text[i]) { assert IsDigitChar(Encode(b)[i]); }
    forall i | digits <= i < |text| ensures text[i] == '=' { assert Encode(b)[i] == '='; }
    forall i | 0 <= i < digits ensures text[i] != '=' { assert IsUrlSafe(text[i]); }
    PaddingAtEndOnly(text, digits);
    FinalPaddingIsAll(text, digits);
  }

  /** The two base64url encoders agree: cutting the final padding cuts all padding. */
  lemma UrlEncodersAgree(b: seq<Byte>)
    ensures WithoutFinalPadding(UrlAlphabet(Encode(b))) == UrlEncode(b)
  {
    UrlShape(b);
  }

  /** The output has ceil(4n / 3) characters, all of them URL-safe. */
  lemma UrlEncodeIsSafe(b: seq<Byte>)
    ensures |UrlEncode(b)| == DigitCount(|b|)
    ensures forall i :: 0 <= i < |UrlEncode(b)| ==> IsUrlSafe(UrlEncode(b)[i])
  {
    UrlShape(b);
  }

  /** The recomputed padding is exactly what was cut: the decoder gets back the standard text. */
  lemma PaddingIsRestored(b: seq<Byte>)
    ensures Restored(UrlEncode(b)) == Encode(b)
  {
    EncodeShape(b);
    UrlShape(b);
    var text, url, back := Encode(b), UrlEncode(b), Restored(UrlEncode(b));
    forall i | 0 <= i < |url| ensures back[i] == text[i] {
      assert IsDigitChar(text[i]);
      assert url[i] == UrlAlphabet(text)[i];
    }
    assert back == text;
  }

  /** base64url round trip, for byte strings of any length. */
  lemma UrlRoundTrip(b: seq<Byte>)
    ensures UrlDecode(UrlEncode(b)) == Some(b)
  {
    PaddingIsRestored(b);
    DecodeOfEncode(b);
  }
}
