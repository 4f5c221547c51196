/** The proof of work of the registration form (form_hooks.js). */
module ProofOfWork {
  import opened Options
  import opened Decimals
  import Strings

  const MIN_DIFFICULTY := 0
  const MAX_DIFFICULTY := 30
  const PROGRESS_INTERVAL := 1000

  type Byte = b: nat | b < 256

  function Pow2(n: nat): (r: nat)
    ensures r > 0
  {
    if n == 0 then 1 else 2 * Pow2(n - 1)
  }

  lemma {:induction false} Pow2Sum(m: nat, n: nat)
    ensures Pow2(m + n) == Pow2(m) * Pow2(n)
  {
    if n > 0 {
      Pow2Sum(m, n - 1);
      assert Pow2(m + n) == 2 * (Pow2(m) * Pow2(n - 1)) == Pow2(m) * (2 * Pow2(n - 1));
    }
  }

  lemma {:induction false} Pow2Grows(m: nat, n: nat)
    requires m <= n
    ensures Pow2(m) <= Pow2(n)
  {
    if m < n { Pow2Grows(m, n - 1); }
  }

  /** The number that the bytes denote, most significant byte first. */
  function BigEndian(bytes: seq<Byte>): nat {
    if bytes == [] then 0 else bytes[0] * Pow2(8 * (|bytes| - 1)) + BigEndian(bytes[1..])
  }

  lemma {:induction false} BigEndianBound(bytes: seq<Byte>)
    ensures BigEndian(bytes) < Pow2(8 * |bytes|)
  {
    if bytes != [] {
      var unit := Pow2(8 * (|bytes| - 1));
      BigEndianBound(bytes[1..]);
      Pow2Sum(8 * (|bytes| - 1), 8);
      assert Pow2(8) == 256;
      ScaleBounds(0, bytes[0], 256, unit, BigEndian(bytes[1..]));
    }
  }

  /** The numeric target of a difficulty. */
  predicate Meets(digest: seq<Byte>, difficulty: nat) {
    difficulty <= 8 * |digest| && BigEndian(digest) < Pow2(8 * |digest| - difficulty)
  }

  /** The value needs exactly this many of its `width` bits not to be leading zeros. */
  predicate HasLeadingZeros(value: nat, width: nat, zeros: nat) {
    && zeros <= width
    && value < Pow2(width - zeros)
    && (zeros < width ==> Pow2(width - zeros - 1) <= value)
  }

  lemma LeadingZerosAreATarget(value: nat, width: nat, zeros: nat, d: nat)
    requires HasLeadingZeros(value, width, zeros)
    ensures zeros >= d <==> d <= width && value < Pow2(width - d)
  {
    if zeros >= d {
      Pow2Grows(width - zeros, width - d);
    } else if d <= width {
      Pow2Grows(width - d, width - zeros - 1);
    }
  }

  lemma {:induction false} MultiplesGrow(a: nat, b: nat, unit: nat)
    requires a <= b
    ensures a * unit <= b * unit
  {
    if a < b {
      MultiplesGrow(a, b - 1, unit);
      assert b * unit == (b - 1) * unit + unit;
    }
  }

  lemma ScaleBounds(lo: nat, b: nat, hi: nat, unit: nat, rest: nat)
    requires lo <= b < hi && rest < unit
    ensures lo * unit <= b * unit + rest < hi * unit
  {
    MultiplesGrow(lo, b, unit);
    MultiplesGrow(b + 1, hi, unit);
    assert (b + 1) * unit == b * unit + unit;
  }

  /** A byte whose highest set bit is known decides where the value lies. */
  lemma HighestBit(b: Byte, rest: nat, width: nat, bit: nat)
    requires bit < 8 && Pow2(bit) <= b < Pow2(bit + 1) && rest < Pow2(width)
    ensures HasLeadingZeros(b * Pow2(width) + rest, width + 8, 7 - bit)
  {
    Pow2Sum(bit, width);
    Pow2Sum(bit + 1, width);
    ScaleBounds(Pow2(bit), b, Pow2(bit + 1), Pow2(width), rest);
  }

  /** byte & (1 << bit) is 0. */
  predicate BitIsClear(b: Byte, bit: nat) { b / Pow2(bit) % 2 == 0 }

  lemma ClearBit(b: Byte, bit: nat)
    requires b < Pow2(bit + 1)
    ensures BitIsClear(b, bit) <==> b < Pow2(bit)
  {
    var p := Pow2(bit);
    assert b == p * (b / p) + b % p;
    if b < p { assert b / p == 0; } else { assert b / p == 1; }
  }

  lemma SkipZeros(bytes: seq<Byte>, k: nat)
    requires k < |bytes| && bytes[k] == 0
    ensures BigEndian(bytes[k..]) == BigEndian(bytes[k + 1..])
  {
    assert bytes[k..][1..] == bytes[k + 1..];
  }

  lemma FirstBitFound(bytes: seq<Byte>, k: nat, bit: nat)
    requires k < |bytes| && BigEndian(bytes[k..]) == BigEndian(bytes)
    requires bit < 8 && Pow2(bit) <= bytes[k] < Pow2(bit + 1)
    ensures HasLeadingZeros(BigEndian(bytes), 8 * |bytes|, 8 * k + 7 - bit)
  {
    var width := 8 * (|bytes| - k - 1);
    assert bytes[k..][1..] == bytes[k + 1..];
    BigEndianBound(bytes[k + 1..]);
    HighestBit(bytes[k], BigEndian(bytes[k + 1..]), width, bit);
  }

  /** leadingZeroBits: at least d exactly when the digest, as a number, is below 2^(8n - d). */
  method LeadingZeroBits(bytes: seq<Byte>) returns (total: nat)
    ensures HasLeadingZeros(BigEndian(bytes), 8 * |bytes|, total)
    ensures forall d: nat :: Meets(bytes, d) <==> total >= d
  {
    total := CountLeadingZeros(bytes);
    forall d: nat ensures Meets(bytes, d) <==> total >= d {
      LeadingZerosAreATarget(BigEndian(bytes), 8 * |bytes|, total, d);
    }
  }

  /** The loops of leadingZeroBits. */
  method CountLeadingZeros(bytes: seq<Byte>) returns (total: nat)
    ensures HasLeadingZeros(BigEndian(bytes), 8 * |bytes|, total)
  {
    total := 0;
    for k := 0 to |bytes|
      invariant total == 8 * k
      invariant BigEndian(bytes[k..]) == BigEndian(bytes)
    {
      var byte := bytes[k];
      if byte == 0 {
        total := total + 8;
        SkipZeros(bytes, k);
      } else {
        assert Pow2(8) == 256;
        var bit := 7;
        while bit >= 0
          invariant -1 <= bit < 8
          invariant byte < Pow2(bit + 1)
          invariant total == 8 * k + 7 - bit
        {
          ClearBit(byte, bit);
          if BitIsClear(byte, bit) {
            total := total + 1;
          } else {
            FirstBitFound(bytes, k, bit);
            return;
          }
          bit := bit - 1;
        }
        assert false;
      }
    }
    assert bytes[|bytes|..] == [];
  }

  // ----- the search -----

  /** The server's check of an answer: the digest of "challenge:answer" is under the target. */
  predicate IsAnswer(sha256: string -> seq<Byte>, challenge: string, difficulty: nat, answer: string) {
    Meets(sha256(challenge + ":" + answer), difficulty)
  }

  ghost predicate NoneBelow(sha256: string -> seq<Byte>, challenge: string, difficulty: nat, bound: nat) {
    forall n: nat :: n < bound ==> !IsAnswer(sha256, challenge, difficulty, Decimal(n))
  }

  /** onProgress was called with every multiple of the interval that was reached. */
  predicate ReportsUpTo(reports: seq<nat>, nonce: nat) {
    && |reports| == nonce / PROGRESS_INTERVAL
    && forall i :: 0 <= i < |reports| ==> reports[i] == (i + 1) * PROGRESS_INTERVAL
  }

  lemma NextReport(reports: seq<nat>, nonce: nat)
    requires ReportsUpTo(reports, nonce)
    ensures ReportsUpTo(if (nonce + 1) % PROGRESS_INTERVAL == 0 then reports + [nonce + 1] else reports, nonce + 1)
  {
  }

  /** solvePow, given up after `patience` nonces. */
  method SolvePow(challenge: string, difficulty: nat, sha256: string -> seq<Byte>, patience: nat)
    returns (solution: Option<string>, reports: seq<nat>)
    ensures solution.Some? ==>
              && Meets(sha256(challenge + ":" + solution.value), difficulty)
              && exists nonce: nat :: solution.value == Decimal(nonce) && ReportsUpTo(reports, nonce)
                   && NoneBelow(sha256, challenge, difficulty, nonce)
    ensures solution.None? ==> NoneBelow(sha256, challenge, difficulty, patience) && ReportsUpTo(reports, patience)
  {
    reports := [];
    var nonce: nat := 0;
    while nonce < patience
      invariant nonce <= patience
      invariant NoneBelow(sha256, challenge, difficulty, nonce)
      invariant ReportsUpTo(reports, nonce)
    {
      var bits := LeadingZeroBits(sha256(challenge + ":" + Decimal(nonce)));
      assert IsAnswer(sha256, challenge, difficulty, Decimal(nonce)) <==> bits >= difficulty;
      if bits >= difficulty { return Some(Decimal(nonce)), reports; }
      NextReport(reports, nonce);
      nonce := nonce + 1;
      if nonce % PROGRESS_INTERVAL == 0 { reports := reports + [nonce]; }
    }
    return None, reports;
  }

  // ----- normalizeDifficulty -----

  /** The digits at the front of a string. */
  function DigitRun(s: string): (r: string)
    ensures |r| <= |s| && forall i :: 0 <= i < |r| ==> IsDigit(r[i])
  {
    if s != "" && IsDigit(s[0]) then [s[0]] + DigitRun(s[1..]) else ""
  }

  /** Number.parseInt(text, 10); None is NaN. */
  function ParseInt(text: string): Option<int> {
    var t := Strings.TrimStart(text);
    var signed := t != "" && t[0] in {'+', '-'};
    var digits := DigitRun(if signed then t[1..] else t);
    if digits == "" then None else Some(if signed && t[0] == '-' then 0 - Value(digits) else Value(digits) as int)
  }

  function Clamp(n: int): int {
    if n < MIN_DIFFICULTY then MIN_DIFFICULTY else if n > MAX_DIFFICULTY then MAX_DIFFICULTY else n
  }

  /** normalizeDifficulty; None is a missing value. */
  function NormalizeDifficulty(value: Option<string>): (r: int)
    ensures MIN_DIFFICULTY <= r <= MAX_DIFFICULTY
  {
    match ParseInt(if value.Some? then value.value else "18")
    case None => 18
    case Some(n) => Clamp(n)
  }

  lemma {:induction false} DigitRunOfDigits(s: string)
    requires forall i :: 0 <= i < |s| ==> IsDigit(s[i])
    ensures DigitRun(s) == s
  {
    if s != "" { DigitRunOfDigits(s[1..]); }
  }

  /** The text of an integer reads back as that integer, clamped. */
  lemma DifficultyOfDecimal(n: int)
    ensures NormalizeDifficulty(Some(Decimal(n))) == Clamp(n)
  {
    var text := Natural(if n < 0 then -n else n);
    assert Decimal(n)[0] == '-' || IsDigit(Decimal(n)[0]);
    assert Strings.TrimStart(Decimal(n)) == Decimal(n);
    DigitRunOfDigits(text);
    ValueOfNatural(if n < 0 then -n else n);
    if n < 0 { assert Decimal(n)[1..] == text; } else { NoLeadingMinus(n); assert IsDigit(Decimal(n)[0]); }
  }
}
