/** What a base64 text denotes, told by numbers, and the test vectors of RFC 4648. */
module Base64Meaning {
  import opened Base64

  /** The alphabet of table 1 of RFC 4648. */
  const ALPHABET := "ABCDEFGHIJKLMNOPQRSTUVWXYZ" + "abcdefghijklmnopqrstuvwxyz" + "0123456789" + "+/"

  lemma LettersAt(i: nat)
    requires i < 26
    ensures "ABCDEFGHIJKLMNOPQRSTUVWXYZ"[i] as int == 'A' as int + i
    ensures "abcdefghijklmnopqrstuvwxyz"[i] as int == 'a' as int + i
  {
  }

  lemma NumeralsAt(i: nat)
    requires i < 10
    ensures "0123456789"[i] as int == '0' as int + i
  {
  }

  /** Each 6-bit value has the character that stands at its place in the table. */
  lemma DigitsFollowTheTable(n: Sextet)
    ensures |ALPHABET| == 64 && Digit(n) == ALPHABET[n]
  {
    if n < 26 { LettersAt(n); } else if n < 52 { LettersAt(n - 26); } else if n < 62 { NumeralsAt(n - 52); }
  }

  /** The number that 6-bit groups denote, most significant first. */
  function SextetNumber(v: seq<Sextet>): nat { if v == [] then 0 else SextetNumber(v[..|v| - 1]) * 64 + v[|v| - 1] }

  /** The number that bytes denote, most significant first. */
  function ByteNumber(b: seq<Byte>): nat { if b == [] then 0 else ByteNumber(b[..|b| - 1]) * 256 + b[|b| - 1] }

  lemma NextSextet(v: seq<Sextet>, x: Sextet)
    ensures SextetNumber(v + [x]) == SextetNumber(v) * 64 + x
  {
    assert (v + [x])[..|v|] == v;
  }

  lemma NextByte(b: seq<Byte>, x: Byte)
    ensures ByteNumber(b + [x]) == ByteNumber(b) * 256 + x
  {
    assert (b + [x])[..|b|] == b;
  }

  lemma SmallSextetNumbers(p: Sextet, q: Sextet, r: Sextet, t: Sextet)
    ensures SextetNumber([p, q]) == p as int * 64 + q as int
    ensures SextetNumber([p, q, r]) == (p as int * 64 + q as int) * 64 + r as int
    ensures SextetNumber([p, q, r, t]) == ((p as int * 64 + q as int) * 64 + r as int) * 64 + t as int
  {
    NextSextet([], p);
    NextSextet([p], q);
    NextSextet([p, q], r);
    NextSextet([p, q, r], t);
    assert [] + [p] == [p] && [p] + [q] == [p, q] && [p, q] + [r] == [p, q, r] && [p, q, r] + [t] == [p, q, r, t];
  }

  lemma SmallByteNumbers(x: Byte, y: Byte, z: Byte)
    ensures ByteNumber([x]) == x && ByteNumber([x, y]) == x as int * 256 + y as int
    ensures ByteNumber([x, y, z]) == (x as int * 256 + y as int) * 256 + z as int
  {
    NextByte([], x);
    NextByte([x], y);
    NextByte([x, y], z);
    assert [] + [x] == [x] && [x] + [y] == [x, y] && [x, y] + [z] == [x, y, z];
  }

  /** Three bytes and their four 6-bit groups denote the same number. */
  lemma GroupsKeepTheNumber(x: Byte, y: Byte, z: Byte)
    ensures SextetNumber(Sextets([x, y, z])) == ByteNumber([x, y, z])
  {
    SmallSextetNumbers(x / 4, Split1(x, y), Split2(y, z), z % 64);
    SmallByteNumbers(x, y, z);
    assert Sextets([x, y, z]) == [x / 4, Split1(x, y), Split2(y, z), z % 64];
  }

  /** One or two last bytes denote the number of their 6-bit groups without the zero bits that fill them up. */
  lemma LastGroupsKeepTheNumber(x: Byte, y: Byte)
    ensures SextetNumber(Sextets([x])) == ByteNumber([x]) * 16
    ensures SextetNumber(Sextets([x, y])) == ByteNumber([x, y]) * 4
  {
    SmallSextetNumbers(x / 4, Split1(x, 0), 0, 0);
    SmallSextetNumbers(x / 4, Split1(x, y), Split2(y, 0), 0);
    SmallByteNumbers(x, y, 0);
    assert Sextets([x]) == [x / 4, Split1(x, 0)];
    assert Sextets([x, y]) == [x / 4, Split1(x, y), Split2(y, 0)];
  }

  lemma DigitsConcat(v: seq<Sextet>, w: seq<Sextet>)
    ensures Digits(v + w) == Digits(v) + Digits(w)
  {
  }

  /** The text of three bytes stands before the text of what follows them. */
  lemma EncodesByGroups(b: seq<Byte>, rest: seq<Byte>)
    requires |b| == 3
    ensures Encode(b + rest) == Digits(Sextets(b)) + Encode(rest)
  {
    assert (b + rest)[..3] == b && (b + rest)[3..] == rest;
    assert AllSextets(b + rest) == Sextets(b) + AllSextets(rest);
    DigitsConcat(Sextets(b), AllSextets(rest));
    DigitCountStep(|rest|);
    assert Padding(DigitCount(|b + rest|)) == Padding(DigitCount(|rest|));
  }

  // ----- the test vectors -----

  lemma ShortVectors()
    ensures Encode([]) == "" && Encode([102]) == "Zg==" && Encode([102, 111]) == "Zm8="
  {
    assert AllSextets([102]) == [25, 32] && AllSextets([102, 111]) == [25, 38, 60];
    assert Padding(0) == "" && Padding(2) == "==" && Padding(3) == "=";
    assert Digits([25, 32]) == "Zg" && Digits([25, 38, 60]) == "Zm8";
  }

  lemma LastGroups()
    ensures Encode([98]) == "Yg==" && Encode([98, 97]) == "YmE="
  {
    assert AllSextets([98]) == [24, 32] && AllSextets([98, 97]) == [24, 38, 4];
    assert Padding(2) == "==" && Padding(3) == "=";
    assert Digits([24, 32]) == "Yg" && Digits([24, 38, 4]) == "YmE";
  }

  lemma FullGroups()
    ensures Digits(Sextets([102, 111, 111])) == "Zm9v" && Digits(Sextets([98, 97, 114])) == "YmFy"
  {
    assert Sextets([102, 111, 111]) == [25, 38, 61, 47] && Sextets([98, 97, 114]) == [24, 38, 5, 50];
  }

  lemma LongVectors()
    ensures Encode([102, 111, 111]) == "Zm9v" && Encode([102, 111, 111] + [98]) == "Zm9vYg=="
    ensures Encode([102, 111, 111] + [98, 97]) == "Zm9vYmE=" && Encode([102, 111, 111] + [98, 97, 114]) == "Zm9vYmFy"
  {
    var foo, bar := [102, 111, 111], [98, 97, 114];
    ShortVectors();
    LastGroups();
    FullGroups();
    assert foo + [] == foo && bar + [] == bar;
    EncodesByGroups(foo, []);
    EncodesByGroups(foo, [98]);
    EncodesByGroups(foo, [98, 97]);
    EncodesByGroups(bar, []);
    EncodesByGroups(foo, bar);
  }

  /** The test vectors of section 10 of RFC 4648. */
  lemma TestVectors()
    ensures Encode([]) == ""
    ensures Encode([102]) == "Zg=="
    ensures Encode([102, 111]) == "Zm8="
    ensures Encode([102, 111, 111]) == "Zm9v"
    ensures Encode([102, 111, 111, 98]) == "Zm9vYg=="
    ensures Encode([102, 111, 111, 98, 97]) == "Zm9vYmE="
    ensures Encode([102, 111, 111, 98, 97, 114]) == "Zm9vYmFy"
  {
    ShortVectors();
    LongVectors();
    assert [102, 111, 111] + [98] == [102, 111, 111, 98] && [102, 111, 111] + [98, 97] == [102, 111, 111, 98, 97];
    assert [102, 111, 111] + [98, 97, 114] == [102, 111, 111, 98, 97, 114];
  }
}
