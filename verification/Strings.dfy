/** The JavaScript string operations the models use. */
module Strings {
  import opened Options

  predicate StartsWithAt(s: string, p: string, i: nat) { i + |p| <= |s| && s[i..i + |p|] == p }

  /** s.indexOf(p, from), for a non-empty p. */
  function IndexOf(s: string, p: string, from: nat): (r: Option<nat>)
    requires p != ""
    ensures r.Some? ==> from <= r.value && r.value + |p| <= |s|
    decreases |s| - from
  {
    if from >= |s| then None
    else if StartsWithAt(s, p, from) then Some(from)
    else IndexOf(s, p, from + 1)
  }

  /** indexOf finds the first occurrence at or after `from`, if there is one. */
  lemma {:induction false} IndexOfFinds(s: string, p: string, from: nat, at: nat)
    requires p != "" && from <= at && StartsWithAt(s, p, at)
    ensures IndexOf(s, p, from).Some? && IndexOf(s, p, from).value <= at
    decreases |s| - from
  {
    if !StartsWithAt(s, p, from) { IndexOfFinds(s, p, from + 1, at); }
  }

  lemma {:induction false} IndexOfHits(s: string, p: string, from: nat)
    requires p != "" && IndexOf(s, p, from).Some?
    ensures StartsWithAt(s, p, IndexOf(s, p, from).value)
    decreases |s| - from
  {
    if !StartsWithAt(s, p, from) { IndexOfHits(s, p, from + 1); }
  }

  ghost predicate Lacks(s: string, p: string) { forall i: nat :: !StartsWithAt(s, p, i) }

  lemma SliceOfSlice(s: string, a: nat, b: nat, i: nat, j: nat)
    requires a <= b <= |s| && i <= j <= b - a
    ensures s[a..b][i..j] == s[a + i..a + j]
  {
    forall k | 0 <= k < j - i ensures s[a..b][i..j][k] == s[a + i..a + j][k] {
      assert s[a..b][i + k] == s[a + i + k];
    }
  }

  /** A slice of a string lacks what the string lacks. */
  lemma SliceLacks(s: string, p: string, a: nat, b: nat)
    requires a <= b <= |s| && (forall i: nat :: a <= i && i + |p| <= b ==> !StartsWithAt(s, p, i))
    ensures Lacks(s[a..b], p)
  {
    forall i: nat ensures !StartsWithAt(s[a..b], p, i) {
      if i + |p| <= b - a {
        SliceOfSlice(s, a, b, i, i + |p|);
        assert !StartsWithAt(s, p, a + i);
      }
    }
  }

  lemma Associate(a: string, b: string, c: string)
    ensures (a + b) + c == a + (b + c)
  {
  }

  /** The characters String.prototype.trim removes. */
  predicate IsSpace(c: char) {
    || c == '\t' || c == '\n' || c == '\U{0B}' || c == '\U{0C}' || c == '\r' || c == ' '
    || c == '\U{A0}' || c == '\U{FEFF}' || c == '\U{1680}' || '\U{2000}' <= c <= '\U{200A}'
    || c == '\U{2028}' || c == '\U{2029}' || c == '\U{202F}' || c == '\U{205F}' || c == '\U{3000}'
  }

  function TrimStart(s: string): (r: string)
    ensures r != "" ==> !IsSpace(r[0])
  {
    if s != "" && IsSpace(s[0]) then TrimStart(s[1..]) else s
  }

  function TrimEnd(s: string): (r: string)
    ensures r != "" ==> !IsSpace(r[|r| - 1])
  {
    if s != "" && IsSpace(s[|s| - 1]) then TrimEnd(s[..|s| - 1]) else s
  }

  function Trim(s: string): string { TrimEnd(TrimStart(s)) }

  predicate AllSpace(s: string) { forall i :: 0 <= i < |s| ==> IsSpace(s[i]) }

  lemma {:induction false} TrimStartCuts(s: string)
    ensures |TrimStart(s)| <= |s|
    ensures var n := |s| - |TrimStart(s)|; TrimStart(s) == s[n..] && AllSpace(s[..n])
  {
    if s != "" && IsSpace(s[0]) {
      TrimStartCuts(s[1..]);
      var n := |s| - |TrimStart(s)|;
      assert s[..n] == [s[0]] + s[1..][..n - 1];
    }
  }

  lemma {:induction false} TrimEndCuts(s: string)
    ensures TrimEnd(s) <= s && AllSpace(s[|TrimEnd(s)|..])
  {
    if s != "" && IsSpace(s[|s| - 1]) {
      TrimEndCuts(s[..|s| - 1]);
      var n := |TrimEnd(s)|;
      assert s[n..] == s[..|s| - 1][n..] + [s[|s| - 1]];
    }
  }

  /** trim cuts exactly the white space at both ends. */
  lemma TrimCutsSpaces(s: string)
    ensures exists pre: string, post: string :: s == pre + Trim(s) + post && AllSpace(pre) && AllSpace(post)
    ensures Trim(s) != "" ==> !IsSpace(Trim(s)[0]) && !IsSpace(Trim(s)[|Trim(s)| - 1])
  {
    TrimStartCuts(s);
    TrimEndCuts(TrimStart(s));
    var n := |s| - |TrimStart(s)|;
    assert s == s[..n] + Trim(s) + TrimStart(s)[|Trim(s)|..];
  }

  /** `sub` can be obtained from `s` by deleting characters. */
  predicate Subsequence(sub: string, s: string) {
    if sub == "" then true
    else if s == "" then false
    else if sub[0] == s[0] then Subsequence(sub[1..], s[1..])
    else Subsequence(sub, s[1..])
  }
}
