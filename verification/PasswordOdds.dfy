/** Every character of its alphabet is equally likely at each place where a password character is picked. */
module PasswordOdds {
  import opened Options
  import opened RandomNumbers
  import opened Passwords

  // ----- the alphabets -----

  predicate IsSymbol(c: char) {
    c in {'!', '@', '#', '$', '%', '^', '&', '*', '(', ')', '-', '_', '=', '+'}
  }

  lemma LettersAt(i: nat)
    requires i < 26
    ensures LOWERCASE[i] as int == 'a' as int + i && UPPERCASE[i] as int == 'A' as int + i
  {
  }

  lemma DigitsAt(i: nat)
    requires i < 10
    ensures DIGITS[i] as int == '0' as int + i
  {
  }

  lemma SymbolsAt(i: nat)
    requires i < 14
    ensures IsSymbol(SYMBOLS[i])
  {
  }

  lemma AllAt(i: nat)
    requires i < 76
    ensures |ALL| == 76
    ensures ALL[i] == (if i < 26 then LOWERCASE[i] else if i < 52 then UPPERCASE[i - 26]
                       else if i < 62 then DIGITS[i - 52] else SYMBOLS[i - 62])
  {
  }

  predicate IsLower(c: char) { 'a' <= c <= 'z' }

  predicate IsUpper(c: char) { 'A' <= c <= 'Z' }

  predicate IsNumeral(c: char) { '0' <= c <= '9' }

  /** The characters that may be pushed as number k. */
  predicate Belongs(k: nat, c: char) {
    if k == 0 then IsLower(c)
    else if k == 1 then IsUpper(c)
    else if k == 2 then IsNumeral(c)
    else if k == 3 then IsSymbol(c)
    else IsLower(c) || IsUpper(c) || IsNumeral(c) || IsSymbol(c)
  }

  function PoolSize(k: nat): nat { if k < 2 then 26 else if k == 2 then 10 else if k == 3 then 14 else 76 }

  lemma AllBelongs(i: nat)
    requires i < 76
    ensures |ALL| == 76
    ensures if i < 26 then IsLower(ALL[i]) else if i < 52 then IsUpper(ALL[i])
            else if i < 62 then IsNumeral(ALL[i]) else IsSymbol(ALL[i])
  {
    AllAt(i);
    if i < 26 { LettersAt(i); } else if i < 52 { LettersAt(i - 26); } else if i < 62 { DigitsAt(i - 52); } else {
      SymbolsAt(i - 62);
    }
  }

  lemma PoolBelongs(k: nat, i: nat)
    requires i < PoolSize(k)
    ensures |Pool(k)| == PoolSize(k) && Belongs(k, Pool(k)[i])
  {
    if k < 2 { LettersAt(i); } else if k == 2 { DigitsAt(i); } else if k == 3 { SymbolsAt(i); } else { AllBelongs(i); }
  }

  /** Where a character stands in the alphabet. */
  function Position(c: char): nat
    requires Belongs(4, c)
  {
    if IsLower(c) then c as int - 'a' as int
    else if IsUpper(c) then 26 + (c as int - 'A' as int)
    else if IsNumeral(c) then 52 + (c as int - '0' as int)
    else
      62 + (if c == '!' then 0 else if c == '@' then 1 else if c == '#' then 2 else if c == '$' then 3
            else if c == '%' then 4 else if c == '^' then 5 else if c == '&' then 6 else if c == '*' then 7
            else if c == '(' then 8 else if c == ')' then 9 else if c == '-' then 10 else if c == '_' then 11
            else if c == '=' then 12 else 13)
  }

  lemma SymbolPosition(i: nat)
    requires i < 14
    ensures IsSymbol(SYMBOLS[i]) && Position(SYMBOLS[i]) == 62 + i
  {
  }

  lemma LetterPositions(i: nat)
    requires i < 26
    ensures IsLower(LOWERCASE[i]) && Position(LOWERCASE[i]) == i
    ensures IsUpper(UPPERCASE[i]) && Position(UPPERCASE[i]) == 26 + i
  {
    LettersAt(i);
  }

  lemma DigitPosition(i: nat)
    requires i < 10
    ensures IsNumeral(DIGITS[i]) && Position(DIGITS[i]) == 52 + i
  {
    DigitsAt(i);
  }

  lemma PositionOf(i: nat)
    requires i < 76
    ensures |ALL| == 76 && Belongs(4, ALL[i]) && Position(ALL[i]) == i
  {
    AllAt(i);
    if i < 26 { LetterPositions(i); } else if i < 52 { LetterPositions(i - 26); } else if i < 62 {
      DigitPosition(i - 52);
    } else {
      SymbolPosition(i - 62);
    }
  }

  lemma PoolIsDistinct(k: nat, i: nat, j: nat)
    requires i < j < PoolSize(k)
    ensures |Pool(k)| == PoolSize(k) && Pool(k)[i] != Pool(k)[j]
  {
    if k < 2 {
      LettersAt(i);
      LettersAt(j);
    } else if k == 2 {
      DigitsAt(i);
      DigitsAt(j);
    } else if k == 3 {
      SymbolPosition(i);
      SymbolPosition(j);
    } else {
      PositionOf(i);
      PositionOf(j);
    }
  }

  lemma PositionIs(c: char)
    requires Belongs(4, c)
    ensures Position(c) < 76 == |ALL| && ALL[Position(c)] == c
  {
    var i := Position(c);
    AllAt(i);
    if i < 26 { LettersAt(i); } else if i < 52 { LettersAt(i - 26); } else if i < 62 { DigitsAt(i - 52); }
  }

  /** Each alphabet holds exactly its characters. */
  lemma PoolsHoldExactly(k: nat, c: char)
    ensures |Pool(k)| == PoolSize(k)
    ensures c in Pool(k) <==> Belongs(k, c)
  {
    PoolBelongs(k, 0);
    if c in Pool(k) {
      var i :| 0 <= i < |Pool(k)| && Pool(k)[i] == c;
      PoolBelongs(k, i);
    }
    if Belongs(k, c) { FoundInPool(k, c); }
  }

  lemma FoundInPool(k: nat, c: char)
    requires Belongs(k, c)
    ensures c in Pool(k)
  {
    if k == 0 {
      LettersAt(Position(c));
      assert LOWERCASE[Position(c)] == c;
    } else if k == 1 {
      LettersAt(Position(c) - 26);
      assert UPPERCASE[Position(c) - 26] == c;
    } else if k == 2 {
      DigitsAt(Position(c) - 52);
      assert DIGITS[Position(c) - 52] == c;
    } else if k == 3 {
      assert SYMBOLS[Position(c) - 62] == c;
    } else {
      PositionIs(c);
    }
  }

  // ----- the odds -----

  /** The words that make `c` the k-th character pushed. */
  ghost function WordsFor(k: nat, c: char): set<int> {
    set w: int | 0 <= w < WORDS && w < Limit(|Pool(k)|) && Pool(k)[w % |Pool(k)|] == c
  }

  /** Of the next words, the first that is below the limit makes the next character. */
  lemma AcceptedWordPicks(k: nat, entropy: seq<Word>, w: Word, chars: string, rest: seq<Word>)
    requires Picks(k, entropy) == Some(Picked(chars, [w] + rest)) && w < Limit(|Pool(k)|)
    ensures Picks(k + 1, entropy) == Some(Picked(chars + [Pool(k)[w % |Pool(k)|]], rest))
  {
    assert ([w] + rest)[1..] == rest;
  }

  /**
   Every character of the alphabet of place k is equally likely to be pushed there:
   26 lower-case letters at place 0, 26 upper-case letters at 1, ten digits at 2, fourteen
   symbols at 3, and each of all 76 at every later place, where each of them is
   picked by exactly floor(2^32 / 76) words.
   */
  lemma EveryCharacterIsEquallyLikely(k: nat, c: char)
    requires Belongs(k, c)
    ensures |WordsFor(k, c)| == WORDS / PoolSize(k)
  {
    PoolsHoldExactly(k, c);
    var i: nat :| i < |Pool(k)| && Pool(k)[i] == c;
    forall j: nat | j < |Pool(k)| && j != i ensures Pool(k)[j] != c {
      PoolIsDistinct(k, if i < j then i else j, if i < j then j else i);
    }
    assert WordsFor(k, c) == AcceptedFor(|Pool(k)|, i);
    RandomIntIsUniform(|Pool(k)|, i);
  }
}
