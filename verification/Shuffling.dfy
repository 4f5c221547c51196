/** The Fisher-Yates shuffle of createPassword (lib/crypto.js of the Nerve extension). */
module Shuffling {
  function Swap<T>(s: seq<T>, i: nat, j: nat): (r: seq<T>)
    requires i < |s| && j < |s|
    ensures |r| == |s| && multiset(r) == multiset(s)
  {
    s[i := s[j]][j := s[i]]
  }

  /** Choice k is the swap index drawn for index k + 1, so it is at most k + 1. */
  predicate AreChoices(c: seq<nat>) { forall k :: 0 <= k < |c| ==> c[k] <= k + 1 }

  /** The loop from index |c| down to 1. */
  function Shuffle<T>(s: seq<T>, c: seq<nat>): (r: seq<T>)
    requires AreChoices(c) && (c == [] || |c| < |s|)
    ensures |r| == |s|
    decreases |c|
  {
    if c == [] then s else Shuffle(Swap(s, |c|, c[|c| - 1]), c[..|c| - 1])
  }

  /** A shuffle permutes. */
  lemma {:induction false} ShufflePermutes<T>(s: seq<T>, c: seq<nat>)
    requires AreChoices(c) && |c| < |s|
    ensures multiset(Shuffle(s, c)) == multiset(s)
    decreases |c|
  {
    if c != [] { ShufflePermutes(Swap(s, |c|, c[|c| - 1]), c[..|c| - 1]); }
  }

  /** What lies behind the first index of a shuffle stays. */
  lemma {:induction false} ShuffleKeepsTail<T>(s: seq<T>, c: seq<nat>, k: nat)
    requires AreChoices(c) && |c| < k < |s|
    ensures Shuffle(s, c)[k] == s[k]
    decreases |c|
  {
    if c != [] { ShuffleKeepsTail(Swap(s, |c|, c[|c| - 1]), c[..|c| - 1], k); }
  }

  /** The first swap decides the element at index |c|. */
  lemma FirstSwapIsFinal<T>(s: seq<T>, c: seq<nat>)
    requires AreChoices(c) && 0 < |c| < |s|
    ensures Shuffle(s, c)[|c|] == s[c[|c| - 1]]
  {
    ShuffleKeepsTail(Swap(s, |c|, c[|c| - 1]), c[..|c| - 1], |c|);
  }

  // ----- the inverse -----

  /** Up to index i the two sequences hold the same elements, behind it they are equal. */
  ghost predicate Reachable<T>(s: seq<T>, t: seq<T>, i: nat) {
    i < |s| == |t| && multiset(s) == multiset(t) && s[i + 1..] == t[i + 1..]
  }

  lemma FrontMultiset<T>(s: seq<T>, i: nat)
    requires i <= |s|
    ensures multiset(s[..i]) == multiset(s) - multiset(s[i..])
  {
    assert s == s[..i] + s[i..];
  }

  lemma TargetIsThere<T>(s: seq<T>, t: seq<T>, i: nat)
    requires Reachable(s, t, i)
    ensures t[i] in s[..i + 1]
  {
    FrontMultiset(s, i + 1);
    FrontMultiset(t, i + 1);
    assert t[i] == t[..i + 1][i];
    assert t[i] in multiset(s[..i + 1]);
  }

  lemma NothingLeft<T>(s: seq<T>, t: seq<T>)
    requires Reachable(s, t, 0)
    ensures s == t
  {
    TargetIsThere(s, t, 0);
    assert s == [s[0]] + s[1..] && t == [t[0]] + t[1..];
  }

  function Position<T(==)>(s: seq<T>, x: T): (j: nat)
    requires x in s
    ensures j < |s| && s[j] == x
  {
    if s[|s| - 1] == x then |s| - 1 else Position(s[..|s| - 1], x)
  }

  lemma SwapReaches<T>(s: seq<T>, t: seq<T>, i: nat, j: nat)
    requires Reachable(s, t, i) && 0 < i && j <= i && s[j] == t[i]
    ensures Reachable(Swap(s, i, j), t, i - 1)
  {
    var s' := Swap(s, i, j);
    assert s'[i..] == [t[i]] + s[i + 1..];
    assert t[i..] == [t[i]] + t[i + 1..];
  }

  lemma FirstChoice<T>(s: seq<T>, i: nat, j: nat, c: seq<nat>)
    requires 0 < i < |s| && j <= i && AreChoices(c) && |c| == i - 1
    ensures AreChoices(c + [j]) && Shuffle(s, c + [j]) == Shuffle(Swap(s, i, j), c)
  {
    assert (c + [j])[..i - 1] == c;
  }

  /** The choices that turn s into t. */
  lemma {:induction false} ShuffleReaches<T>(s: seq<T>, t: seq<T>, i: nat) returns (c: seq<nat>)
    requires Reachable(s, t, i)
    ensures |c| == i && AreChoices(c) && Shuffle(s, c) == t
    decreases i
  {
    if i == 0 {
      NothingLeft(s, t);
      c := [];
    } else {
      TargetIsThere(s, t, i);
      var j := Position(s[..i + 1], t[i]);
      SwapReaches(s, t, i, j);
      var rest := ShuffleReaches(Swap(s, i, j), t, i - 1);
      FirstChoice(s, i, j, rest);
      c := rest + [j];
    }
  }

  predicate Distinct<T(==)>(s: seq<T>) { forall i, j :: 0 <= i < j < |s| ==> s[i] != s[j] }

  lemma SwapDistinct<T>(s: seq<T>, i: nat, j: nat)
    requires i < |s| && j < |s| && Distinct(s)
    ensures Distinct(Swap(s, i, j))
  {
  }

  lemma SameElementSameIndex<T>(s: seq<T>, i: nat, j: nat)
    requires Distinct(s) && i < |s| && j < |s| && s[i] == s[j]
    ensures i == j
  {
  }

  lemma SameParts(c: seq<nat>, d: seq<nat>)
    requires |c| == |d| > 0 && c[..|c| - 1] == d[..|d| - 1] && c[|c| - 1] == d[|d| - 1]
    ensures c == d
  {
    assert c == c[..|c| - 1] + [c[|c| - 1]] && d == d[..|d| - 1] + [d[|d| - 1]];
  }

  lemma SameFirstSwap<T>(s: seq<T>, c: seq<nat>, d: seq<nat>)
    requires Distinct(s) && AreChoices(c) && AreChoices(d) && 0 < |c| == |d| < |s|
    requires Shuffle(s, c)[|c|] == Shuffle(s, d)[|c|]
    ensures c[|c| - 1] == d[|d| - 1]
  {
    FirstSwapIsFinal(s, c);
    FirstSwapIsFinal(s, d);
    SameElementSameIndex(s, c[|c| - 1], d[|d| - 1]);
  }

  /** After the same first swap the rest of the loop has the same result too. */
  lemma SameRest<T>(s: seq<T>, c: seq<nat>, d: seq<nat>) returns (swapped: seq<T>)
    requires Distinct(s) && AreChoices(c) && AreChoices(d) && 0 < |c| == |d| < |s|
    requires Shuffle(s, c) == Shuffle(s, d)
    ensures c[|c| - 1] == d[|d| - 1] && Distinct(swapped) && |swapped| == |s|
    ensures Shuffle(swapped, c[..|c| - 1]) == Shuffle(swapped, d[..|d| - 1])
  {
    SameFirstSwap(s, c, d);
    SwapDistinct(s, |c|, c[|c| - 1]);
    swapped := Swap(s, |c|, c[|c| - 1]);
  }

  lemma {:induction false} SameResultSameChoices<T>(s: seq<T>, c: seq<nat>, d: seq<nat>)
    requires Distinct(s) && AreChoices(c) && AreChoices(d) && |c| == |d| < |s|
    requires Shuffle(s, c) == Shuffle(s, d)
    ensures c == d
    decreases |c|
  {
    if c != [] {
      var swapped := SameRest(s, c, d);
      SameResultSameChoices(swapped, c[..|c| - 1], d[..|d| - 1]);
      SameParts(c, d);
    }
  }

  /**
   The shuffle is a bijection: for distinct elements, every permutation is the
   result of exactly one vector of choices.
   */
  lemma ShuffleIsBijective<T>(s: seq<T>, t: seq<T>)
    requires s != [] && Distinct(s) && multiset(t) == multiset(s)
    ensures exists c ::
              && (AreChoices(c) && |c| == |s| - 1 && Shuffle(s, c) == t)
              && (forall d :: AreChoices(d) && |d| == |s| - 1 && Shuffle(s, d) == t ==> d == c)
  {
    assert |multiset(t)| == |t| && |multiset(s)| == |s|;
    var c := ShuffleReaches(s, t, |s| - 1);
    forall d | AreChoices(d) && |d| == |s| - 1 && Shuffle(s, d) == t ensures d == c {
      SameResultSameChoices(s, d, c);
    }
  }
}
