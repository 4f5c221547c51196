/** createPassword of the Nerve extension (lib/crypto.js). */
module Passwords {
  import opened Options
  import opened RandomNumbers
  import opened Shuffling

  const PASSWORD_LENGTH := 24

  const LOWERCASE := "abcdefghijklmnopqrstuvwxyz"
  const UPPERCASE := "ABCDEFGHIJKLMNOPQRSTUVWXYZ"
  const DIGITS := "0123456789"
  const SYMBOLS := "!@#$%^&*()-_=+"
  const ALL := LOWERCASE + UPPERCASE + DIGITS + SYMBOLS

  /** The alphabet of the k-th character pushed. */
  function Pool(k: nat): (pool: string)
    ensures Bound(|pool|)
  {
    if k == 0 then LOWERCASE else if k == 1 then UPPERCASE else if k == 2 then DIGITS else if k == 3 then SYMBOLS
    else ALL
  }

  /** Values picked from the entropy, and what is left of it. */
  datatype Picked<T> = Picked(values: seq<T>, rest: seq<Word>)

  /** The first k characters pushed. */
  function Picks(k: nat, entropy: seq<Word>): (r: Option<Picked<char>>)
    ensures r.Some? ==> |r.value.values| == k
  {
    if k == 0 then Some(Picked("", entropy))
    else
      match Picks(k - 1, entropy)
      case None => None
      case Some(p) =>
        match Draw(|Pool(k - 1)|, p.rest)
        case None => None
        case Some(d) => Some(Picked(p.values + [Pool(k - 1)[d.value]], d.rest))
  }

  /** The swap indices drawn for the indices n down to 1. */
  function DrawChoices(n: nat, entropy: seq<Word>): (r: Option<Picked<nat>>)
    requires n < WORDS
    ensures r.Some? ==> |r.value.values| == n && AreChoices(r.value.values)
  {
    if n == 0 then Some(Picked([], entropy))
    else
      match Draw(n + 1, entropy)
      case None => None
      case Some(d) =>
        match DrawChoices(n - 1, d.rest)
        case None => None
        case Some(c) => Some(Picked(c.values + [d.value], c.rest))
  }

  /** createPassword, or None if the entropy given does not suffice. */
  function Password(entropy: seq<Word>): Option<string> {
    match Picks(PASSWORD_LENGTH, entropy)
    case None => None
    case Some(p) =>
      match DrawChoices(PASSWORD_LENGTH - 1, p.rest)
      case None => None
      case Some(c) => Some(Shuffle(p.values, c.values))
  }

  /** pick. */
  method Pick(characters: string, entropy: seq<Word>) returns (picked: Option<char>, rest: seq<Word>)
    requires Bound(|characters|)
    ensures picked == match Draw(|characters|, entropy) case None => None case Some(d) => Some(characters[d.value])
    ensures picked.Some? ==> rest == Draw(|characters|, entropy).value.rest
  {
    var drawn := RandomInt(|characters|, entropy);
    if drawn.None? { return None, entropy; }
    return Some(characters[drawn.value.value]), drawn.value.rest;
  }

  /** What is left to do when the swap indices for n down to 1 come from the given words. */
  ghost predicate Leads<T(!new)>(s: seq<T>, n: nat, words: seq<Word>, result: Option<seq<T>>)
    requires n < |s| && n < WORDS
  {
    match DrawChoices(n, words)
    case None => result.None?
    case Some(c) => result == Some(Shuffle(s, c.values))
  }

  /** One round of the loop. */
  lemma SwapLeads<T(!new)>(s: seq<T>, n: nat, words: seq<Word>, d: Drawn, result: Option<seq<T>>)
    requires 0 < n < |s| && n < WORDS && Leads(s, n, words, result) && Draw(n + 1, words) == Some(d)
    ensures Leads(Swap(s, n, d.value), n - 1, d.rest, result)
  {
    if DrawChoices(n - 1, d.rest).Some? {
      var c := DrawChoices(n - 1, d.rest).value.values;
      assert (c + [d.value])[..n - 1] == c;
    }
  }

  method SwapElements<T>(chars: array<T>, i: nat, j: nat)
    requires i < chars.Length && j < chars.Length
    modifies chars
    ensures chars[..] == Swap(old(chars[..]), i, j)
  {
    chars[i], chars[j] := chars[j], chars[i];
  }

  lemma LeadsNowhere<T(!new)>(s: seq<T>, n: nat, words: seq<Word>, result: Option<seq<T>>)
    requires n < |s| && n < WORDS && Leads(s, n, words, result)
    ensures n == 0 ==> result == Some(s)
    ensures n > 0 && Draw(n + 1, words).None? ==> result.None?
  {
  }

  /** The swapping loop, on the array it shuffles. */
  method ShuffleInPlace<T(!new)>(chars: array<T>, entropy: seq<Word>) returns (done: bool)
    requires 0 < chars.Length <= WORDS
    modifies chars
    ensures done == DrawChoices(chars.Length - 1, entropy).Some?
    ensures done ==> chars[..] == Shuffle(old(chars[..]), DrawChoices(chars.Length - 1, entropy).value.values)
  {
    var i, words := chars.Length - 1, entropy;
    ghost var choices := DrawChoices(i, entropy);
    ghost var result := if choices.Some? then Some(Shuffle(chars[..], choices.value.values)) else None;
    while i > 0
      invariant 0 <= i < chars.Length
      invariant Leads(chars[..], i, words, result)
    {
      var rest := SwapAtRandom(chars, i, words, result);
      if rest.None? { return false; }
      i, words := i - 1, rest.value;
    }
    LeadsNowhere(chars[..], i, words, result);
    return true;
  }

  /** The body of the loop: exchange element i with a random one up to it. */
  method SwapAtRandom<T(!new)>(chars: array<T>, i: nat, words: seq<Word>, ghost result: Option<seq<T>>)
    returns (rest: Option<seq<Word>>)
    requires 0 < i < chars.Length <= WORDS && Leads(chars[..], i, words, result)
    modifies chars
    ensures rest.None? ==> result.None?
    ensures rest.Some? ==> Leads(chars[..], i - 1, rest.value, result)
  {
    var drawn := RandomInt(i + 1, words);
    if drawn.None? {
      LeadsNowhere(chars[..], i, words, result);
      return None;
    }
    SwapLeads(chars[..], i, words, drawn.value, result);
    SwapElements(chars, i, drawn.value.value);
    return Some(drawn.value.rest);
  }

  lemma PicksNext(k: nat, entropy: seq<Word>, chars: string, words: seq<Word>, picked: Option<char>, rest: seq<Word>)
    requires Picks(k, entropy) == Some(Picked(chars, words))
    requires picked == match Draw(|Pool(k)|, words) case None => None case Some(d) => Some(Pool(k)[d.value])
    requires picked.Some? ==> rest == Draw(|Pool(k)|, words).value.rest
    ensures Picks(k + 1, entropy) == if picked.None? then None else Some(Picked(chars + [picked.value], rest))
  {
  }

  method Put(chars: array<char>, length: nat, c: char)
    requires length < chars.Length
    modifies chars
    ensures chars[..length + 1] == old(chars[..length]) + [c]
  {
    chars[length] := c;
  }

  /** The pushes that fill the array. */
  method PushCharacters(chars: array<char>, entropy: seq<Word>) returns (rest: Option<seq<Word>>)
    modifies chars
    ensures Picks(chars.Length, entropy) == if rest.None? then None else Some(Picked(chars[..], rest.value))
  {
    var length, words := 0, entropy;
    while length < chars.Length
      invariant 0 <= length <= chars.Length
      invariant Picks(length, entropy) == Some(Picked(chars[..length], words))
    {
      var picked, left := Pick(Pool(length), words);
      PicksNext(length, entropy, chars[..length], words, picked, left);
      if picked.None? {
        NoPickLater(length + 1, chars.Length, entropy);
        return None;
      }
      Put(chars, length, picked.value);
      length, words := length + 1, left;
    }
    assert chars[..] == chars[..chars.Length];
    return Some(words);
  }

  method CreatePassword(entropy: seq<Word>) returns (password: Option<string>)
    ensures password == Password(entropy)
  {
    var chars := new char[PASSWORD_LENGTH];
    var words := PushCharacters(chars, entropy);
    if words.None? { return None; }
    var done := ShuffleInPlace(chars, words.value);
    return if done then Some(chars[..]) else None;
  }

  lemma {:induction false} NoPickLater(k: nat, n: nat, entropy: seq<Word>)
    requires k <= n && Picks(k, entropy).None?
    ensures Picks(n, entropy).None?
  {
    if k < n { NoPickLater(k, n - 1, entropy); }
  }

  // ----- what a password looks like -----

  lemma AlphabetMember(c: char)
    ensures c in ALL <==> c in LOWERCASE || c in UPPERCASE || c in DIGITS || c in SYMBOLS
  {
  }

  lemma {:induction false} PicksComeFromTheirPools(n: nat, entropy: seq<Word>, k: nat)
    requires Picks(n, entropy).Some? && k < n
    ensures Picks(n, entropy).value.values[k] in Pool(k)
  {
    if k < n - 1 { PicksComeFromTheirPools(n - 1, entropy, k); }
  }

  ghost predicate HasOneOf(password: string, characters: string) { exists c :: c in password && c in characters }

  lemma ShuffledMember<T>(s: seq<T>, c: seq<nat>, x: T)
    requires AreChoices(c) && |c| < |s|
    ensures x in Shuffle(s, c) <==> x in s
  {
    ShufflePermutes(s, c);
    assert x in multiset(s) <==> x in multiset(Shuffle(s, c));
  }

  lemma PoolSurvives(entropy: seq<Word>, k: nat)
    requires Password(entropy).Some? && k < PASSWORD_LENGTH
    ensures HasOneOf(Password(entropy).value, Pool(k))
  {
    var p := Picks(PASSWORD_LENGTH, entropy).value;
    PicksComeFromTheirPools(PASSWORD_LENGTH, entropy, k);
    ShuffledMember(p.values, DrawChoices(PASSWORD_LENGTH - 1, p.rest).value.values, p.values[k]);
  }

  lemma PoolIsInAlphabet(k: nat, c: char)
    requires c in Pool(k)
    ensures c in ALL
  {
    AlphabetMember(c);
  }

  lemma EveryCharacterIsAllowed(entropy: seq<Word>, c: char)
    requires Password(entropy).Some? && c in Password(entropy).value
    ensures c in ALL
  {
    var p := Picks(PASSWORD_LENGTH, entropy).value;
    ShuffledMember(p.values, DrawChoices(PASSWORD_LENGTH - 1, p.rest).value.values, c);
    var k :| 0 <= k < |p.values| && p.values[k] == c;
    PicksComeFromTheirPools(PASSWORD_LENGTH, entropy, k);
    PoolIsInAlphabet(k, c);
  }

  /** A password has 24 characters of the alphabet, and one of each class survives the shuffle. */
  lemma PasswordHasEveryClass(entropy: seq<Word>)
    requires Password(entropy).Some?
    ensures var password := Password(entropy).value;
            && |password| == PASSWORD_LENGTH
            && (forall c :: c in password ==> c in ALL)
            && HasOneOf(password, LOWERCASE) && HasOneOf(password, UPPERCASE)
            && HasOneOf(password, DIGITS) && HasOneOf(password, SYMBOLS)
  {
    forall c | c in Password(entropy).value ensures c in ALL { EveryCharacterIsAllowed(entropy, c); }
    PoolSurvives(entropy, 0);
    PoolSurvives(entropy, 1);
    PoolSurvives(entropy, 2);
    PoolSurvives(entropy, 3);
  }
}
