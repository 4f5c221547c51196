/** Uniform words make every permutation equally likely. */
module ShuffleOdds {
  import opened RandomNumbers
  import opened Shuffling

  // ----- counting vectors of words -----

  ghost function Extend(vectors: set<seq<int>>, w: int): set<seq<int>> { set v | v in vectors :: v + [w] }

  lemma ExtendMember(vectors: set<seq<int>>, w: int, v: seq<int>)
    ensures v in Extend(vectors, w) <==> v != [] && v[..|v| - 1] in vectors && v[|v| - 1] == w
  {
    if v != [] { assert v == v[..|v| - 1] + [v[|v| - 1]]; }
    forall u: seq<int> ensures (u + [w])[..|u + [w]| - 1] == u {}
  }

  lemma {:induction false} ExtendCount(vectors: set<seq<int>>, w: int)
    ensures |Extend(vectors, w)| == |vectors|
    decreases |vectors|
  {
    if vectors == {} {
      assert Extend(vectors, w) == {};
    } else {
      var u :| u in vectors;
      ExtendCount(vectors - {u}, w);
      ExtendMember(vectors - {u}, w, u + [w]);
      assert (u + [w])[..|u|] == u;
      assert Extend(vectors, w) == Extend(vectors - {u}, w) + {u + [w]};
    }
  }

  lemma Element<T>(s: set<T>) returns (x: T)
    requires |s| > 0
    ensures x in s
  {
    x :| x in s;
  }

  ghost function ExtendAll(vectors: set<seq<int>>, words: set<int>): set<seq<int>> {
    set v, w | v in vectors && w in words :: v + [w]
  }

  lemma ExtendAllMember(vectors: set<seq<int>>, words: set<int>, v: seq<int>)
    ensures v in ExtendAll(vectors, words) <==> v != [] && v[..|v| - 1] in vectors && v[|v| - 1] in words
  {
    if v in ExtendAll(vectors, words) {
      var u, w :| u in vectors && w in words && v == u + [w];
      assert v[..|v| - 1] == u;
    }
    if v != [] && v[..|v| - 1] in vectors && v[|v| - 1] in words {
      var u, w := v[..|v| - 1], v[|v| - 1];
      assert u + [w] in ExtendAll(vectors, words);
      assert v == u + [w];
    }
  }

  lemma ExtendAllSplit(vectors: set<seq<int>>, words: set<int>, w: int)
    requires w in words
    ensures ExtendAll(vectors, words) == Extend(vectors, w) + ExtendAll(vectors, words - {w})
    ensures Extend(vectors, w) !! ExtendAll(vectors, words - {w})
  {
    forall v: seq<int>
      ensures v in ExtendAll(vectors, words) <==> v in Extend(vectors, w) || v in ExtendAll(vectors, words - {w})
      ensures v !in Extend(vectors, w) || v !in ExtendAll(vectors, words - {w})
    {
      ExtendMember(vectors, w, v);
      ExtendAllMember(vectors, words, v);
      ExtendAllMember(vectors, words - {w}, v);
    }
  }

  lemma OneFactorLess(a: int, b: int)
    ensures a * b == a + a * (b - 1)
  {
  }

  lemma {:induction false} ExtendAllCount(vectors: set<seq<int>>, words: set<int>)
    ensures |ExtendAll(vectors, words)| == |vectors| * |words|
    decreases |words|
  {
    if |words| == 0 {
      assert ExtendAll(vectors, words) == {};
    } else {
      var w := Element(words);
      ExtendAllSplit(vectors, words, w);
      ExtendCount(vectors, w);
      ExtendAllCount(vectors, words - {w});
      OneFactorLess(|vectors|, |words|);
    }
  }

  // ----- the words behind a vector of choices -----

  /** The accepted words, in loop order reversed, that make the loop choose c. */
  ghost function WordsFor(c: seq<nat>): set<seq<int>>
    requires |c| < WORDS
  {
    if c == [] then {[]} else ExtendAll(WordsFor(c[..|c| - 1]), AcceptedFor(|c| + 1, c[|c| - 1]))
  }

  /** The number of ways to draw n choices: a product that does not depend on them. */
  function Ways(n: nat): nat
    requires n < WORDS
  {
    if n == 0 then 1
    else
      var fewer: nat, words: nat := Ways(n - 1), WORDS / (n + 1);
      fewer * words
  }

  predicate AllAccepted(words: seq<int>)
    requires |words| < WORDS
  {
    forall k :: 0 <= k < |words| ==> 0 <= words[k] < WORDS && words[k] < Limit(k + 2)
  }

  function ChoicesOf(words: seq<int>): (c: seq<nat>)
    ensures |c| == |words| && AreChoices(c)
  {
    seq(|words|, k requires 0 <= k < |words| => words[k] % (k + 2))
  }

  lemma LastWord(words: seq<int>, c: seq<nat>)
    requires 0 < |words| == |c| < WORDS
    ensures AllAccepted(words) <==>
              AllAccepted(words[..|c| - 1]) && 0 <= words[|c| - 1] < WORDS && words[|c| - 1] < Limit(|c| + 1)
    ensures ChoicesOf(words) == c <==>
              ChoicesOf(words[..|c| - 1]) == c[..|c| - 1] && words[|c| - 1] % (|c| + 1) == c[|c| - 1]
  {
    var n := |c| - 1;
    assert ChoicesOf(words) == ChoicesOf(words[..n]) + [words[n] % (n + 2)];
    assert c == c[..n] + [c[n]];
    if ChoicesOf(words) == c { assert ChoicesOf(words[..n]) == ChoicesOf(words)[..n]; }
  }

  lemma {:induction false} WordsForMember(c: seq<nat>, words: seq<int>)
    requires |c| < WORDS
    ensures words in WordsFor(c) <==> |words| == |c| && AllAccepted(words) && ChoicesOf(words) == c
    decreases |c|
  {
    if c != [] {
      var n := |c| - 1;
      ExtendAllMember(WordsFor(c[..n]), AcceptedFor(n + 2, c[n]), words);
      if words != [] {
        WordsForMember(c[..n], words[..|words| - 1]);
        if |words| == |c| {
          LastWord(words, c);
        }
      }
    }
  }

  lemma {:induction false} WordsForCount(c: seq<nat>)
    requires AreChoices(c) && |c| < WORDS
    ensures |WordsFor(c)| == Ways(|c|)
    decreases |c|
  {
    if c != [] {
      var n := |c| - 1;
      WordsForCount(c[..n]);
      RandomIntIsUniform(n + 2, c[n]);
      ExtendAllCount(WordsFor(c[..n]), AcceptedFor(n + 2, c[n]));
    }
  }

  /** These are exactly the accepted words that shuffle s into t. */
  ghost predicate LeadTo<T(!new)>(vectors: set<seq<int>>, s: seq<T>, t: seq<T>)
    requires 0 < |s| <= WORDS
  {
    forall words: seq<int> :: words in vectors <==>
      |words| == |s| - 1 && AllAccepted(words) && Shuffle(s, ChoicesOf(words)) == t
  }

  /** Whatever the permutation, the same number of accepted word vectors leads to it. */
  lemma EveryPermutationIsEquallyLikely<T(!new)>(s: seq<T>, t: seq<T>)
    requires 0 < |s| <= WORDS && Distinct(s) && multiset(t) == multiset(s)
    ensures exists vectors: set<seq<int>> :: LeadTo(vectors, s, t) && |vectors| == Ways(|s| - 1)
  {
    ShuffleIsBijective(s, t);
    var c :| (AreChoices(c) && |c| == |s| - 1 && Shuffle(s, c) == t)
          && (forall d :: AreChoices(d) && |d| == |s| - 1 && Shuffle(s, d) == t ==> d == c);
    WordsForCount(c);
    forall words: seq<int> ensures words in WordsFor(c) <==>
        |words| == |s| - 1 && AllAccepted(words) && Shuffle(s, ChoicesOf(words)) == t
    {
      WordsForMember(c, words);
    }
    assert LeadTo(WordsFor(c), s, t);
  }
}
