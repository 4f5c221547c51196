/** randomInt of createPassword (lib/crypto.js of the Nerve extension): rejection sampling on 32-bit words. */
module RandomNumbers {
  import opened Options

  const WORDS := 0x1_0000_0000

  type Word = w: nat | w < WORDS

  predicate Bound(max: nat) { 1 <= max <= WORDS }

  function Limit(max: nat): nat
    requires Bound(max)
  {
    WORDS / max * max
  }

  /** The number drawn and the entropy left, if the entropy suffices. */
  datatype Drawn = Drawn(value: nat, rest: seq<Word>)

  /** The first word below the limit decides. */
  function Draw(max: nat, entropy: seq<Word>): (r: Option<Drawn>)
    requires Bound(max)
    ensures r.Some? ==> r.value.value < max && |r.value.rest| < |entropy|
  {
    if entropy == [] then None
    else if entropy[0] < Limit(max) then Some(Drawn(entropy[0] % max, entropy[1..]))
    else Draw(max, entropy[1..])
  }

  /** randomInt, on the words that getRandomValues will yield. */
  method RandomInt(max: nat, entropy: seq<Word>) returns (drawn: Option<Drawn>)
    requires Bound(max)
    ensures drawn == Draw(max, entropy)
    ensures drawn.Some? ==>
              exists k :: 0 <= k < |entropy| && entropy[k] < Limit(max)
                && drawn.value == Drawn(entropy[k] % max, entropy[k + 1..])
                && forall i :: 0 <= i < k ==> entropy[i] >= Limit(max)
    ensures drawn.None? ==> forall i :: 0 <= i < |entropy| ==> entropy[i] >= Limit(max)
  {
    var limit := WORDS / max * max;
    var k := 0;
    while k < |entropy|
      invariant k <= |entropy|
      invariant forall i :: 0 <= i < k ==> entropy[i] >= Limit(max)
      invariant Draw(max, entropy[k..]) == Draw(max, entropy)
    {
      assert entropy[k..][1..] == entropy[k + 1..];
      if entropy[k] < limit { return Some(Drawn(entropy[k] % max, entropy[k + 1..])); }
      k := k + 1;
    }
    return None;
  }

  /** The words that randomInt accepts and maps to r. */
  ghost function AcceptedFor(max: nat, r: nat): set<int>
    requires Bound(max)
  {
    set w: int | 0 <= w < WORDS && w < Limit(max) && w % max == r
  }

  ghost function Congruent(max: nat, r: nat, limit: nat): set<int>
    requires max > 0
  {
    set w: int | 0 <= w < limit && w % max == r
  }

  lemma BlockStep(max: nat, r: nat, q: nat, w: int)
    requires r < max && q * max <= w < (q + 1) * max
    ensures w % max == r <==> w == q * max + r
  {
    assert w == q * max + (w - q * max);
    Remainder(max, w - q * max, q);
  }

  lemma {:induction false} Remainder(max: nat, d: nat, q: nat)
    requires d < max
    ensures (q * max + d) % max == d
  {
    if q > 0 {
      Remainder(max, d, q - 1);
      assert q * max + d == (q - 1) * max + d + max;
      AddModulus((q - 1) * max + d, max);
    }
  }

  lemma AddModulus(a: nat, max: nat)
    requires max > 0
    ensures (a + max) % max == a % max
  {
    var q, d := a / max, a % max;
    assert a + max == (q + 1) * max + d;
    Quotient(a + max, max, q + 1, d);
  }

  lemma SmallMultiple(max: int, e: int)
    requires -max < max * e < max
    ensures e == 0
  {
    assert e >= 1 ==> max * e >= max;
    assert e <= -1 ==> max * e <= -max;
  }

  /** Division with remainder is unique. */
  lemma Quotient(a: nat, max: nat, q: nat, d: nat)
    requires a == q * max + d && d < max
    ensures a / max == q && a % max == d
  {
    var e := a / max - q;
    assert a == max * (a / max) + a % max;
    assert max * e == d - a % max;
    SmallMultiple(max, e);
  }

  lemma {:induction false} CongruentCount(max: nat, r: nat, q: nat)
    requires r < max
    ensures |Congruent(max, r, q * max)| == q
  {
    if q == 0 {
      assert Congruent(max, r, 0) == {};
    } else {
      CongruentCount(max, r, q - 1);
      var before, last := Congruent(max, r, (q - 1) * max), (q - 1) * max + r;
      assert q * max == (q - 1) * max + max;
      forall w: int | (q - 1) * max <= w < q * max ensures w % max == r <==> w == last {
        BlockStep(max, r, q - 1, w);
      }
      assert Congruent(max, r, q * max) == before + {last};
    }
  }

  /** randomInt is exactly uniform: each residue has exactly floor(2^32 / max) accepted words. */
  lemma RandomIntIsUniform(max: nat, r: nat)
    requires Bound(max) && r < max
    ensures |AcceptedFor(max, r)| == WORDS / max
  {
    LimitBounds(max);
    assert AcceptedFor(max, r) == Congruent(max, r, Limit(max));
    CongruentCount(max, r, WORDS / max);
  }

  lemma LimitBounds(max: nat)
    requires Bound(max)
    ensures Limit(max) <= WORDS < 2 * Limit(max)
  {
    var q := WORDS / max;
    assert WORDS == max * q + WORDS % max;
    assert q >= 1;
    assert max * q >= max;
  }

  predicate Below(w: int, n: nat) { w < n }

  ghost function Interval(n: nat): set<int> { set w: int | 0 <= w < n && Below(w, n) }

  lemma {:induction false} IntervalCount(n: nat)
    ensures |Interval(n)| == n
  {
    if n > 0 {
      IntervalCount(n - 1);
      assert Interval(n) == Interval(n - 1) + {n - 1};
    }
  }

  /** The words that randomInt accepts. */
  ghost function Accepted(max: nat): set<int>
    requires Bound(max)
  {
    set w: int | 0 <= w < WORDS && Below(w, Limit(max))
  }

  /** More than half of all words are accepted. */
  lemma MostWordsAreAccepted(max: nat)
    requires Bound(max)
    ensures 2 * |Accepted(max)| > WORDS
  {
    LimitBounds(max);
    IntervalCount(Limit(max));
    assert Accepted(max) == Interval(Limit(max));
  }
}
