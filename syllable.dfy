/**
 * The precomposed-syllable arithmetic of `HangulMaker`
 * (testKeyboard/KeyboardViewController.swift): `decomposeKoreanCharacter`, the arithmetic
 * of `makeHan`, `removeFinalConsonant`, `isHangulSyllable` and `removeFirstHangulSyllable`.
 * The arithmetic is the Hangul syllable composition and decomposition of The Unicode
 * Standard, chapter 3, section 3.12 ("Conjoining Jamo Behavior").
 */
module Syllable {
  import opened Wrappers
  import opened Jamo

  /** SBase, NCount (21 * 28) and TCount of The Unicode Standard, section 3.12. */
  const SBase: int := 0xAC00
  const NCount: int := 588
  const TCount: int := 28
  /** The last precomposed syllable, U+D7A3. */
  const SLast: int := 0xD7A3

  /** `isHangulSyllable` (:1469-1472): the character lies in U+AC00 ... U+D7A3. */
  predicate IsHangulSyllable(c: char) {
    SBase <= c as int <= SLast
  }

  /**
   * The triple of strings `decomposeKoreanCharacter` returns. Each string is either
   * empty or one jamo, so a part is modelled as None for "" and Some(jamo) otherwise:
   * all three are None for a character that is not a syllable, the trail is None for a
   * syllable without one.
   */
  datatype Parts = Parts(cho: Option<char>, jung: Option<char>, jong: Option<char>)

  const NoParts: Parts := Parts(None, None, None)

  /** Swift's `prevJong.isEmpty ? "\u{0000}" : prevJong`: the trail as a `jon` value. */
  function JonOf(jong: Option<char>): char {
    jong.GetOr(NUL)
  }

  /** Euclidean division by 588 and by 28, for a dividend given as quotient and remainder. */
  lemma DivideByNCount(a: int, q: int, r: int)
    requires 0 <= r < 588 && a == 588 * q + r
    ensures a / 588 == q && a % 588 == r
  {
  }

  lemma DivideByTCount(a: int, q: int, r: int)
    requires 0 <= r < 28 && a == 28 * q + r
    ensures a / 28 == q && a % 28 == r
  {
  }

  /** The quotient and remainders of 588 i + 28 j + k recover i, j and k. */
  lemma {:induction false} SyllableIndices(base: int, i: int, j: int, k: int)
    requires 0 <= i < 19 && 0 <= j < 21 && 0 <= k < 28
    requires base == NCount * i + TCount * j + k
    ensures 0 <= base <= SLast - SBase && base / NCount == i && (base % NCount) / TCount == j && base % TCount == k
  {
    DivideByNCount(base, i, TCount * j + k);
    DivideByTCount(TCount * j + k, j, k);
    DivideByTCount(base, 21 * i + j, k);
  }

  /** The parts of the syllable with lead, vowel and trail table entries i, j and k. */
  function PartsAt(i: int, j: int, k: int): (p: Parts)
    requires 0 <= i < 19 && 0 <= j < 21 && 0 <= k < 28
    ensures p.cho.Some? && IsCho(p.cho.value) && p.jung.Some? && IsJun(p.jung.value)
    ensures p.jong.Some? ==> IsJon(p.jong.value) && p.jong.value != NUL
  {
    assert Jons[0] == NUL && forall t :: 0 < t < 28 ==> Jons[t] != NUL;
    Parts(Some(Chos[i]), Some(Juns[j]), if k == 0 then None else Some(Jons[k]))
  }

  /**
   * `decomposeKoreanCharacter` (:1179-1195). Outside U+AC00 ... U+D7A3 all three parts
   * are ""; inside, the lead and the vowel are always present and the three table
   * indices 588 / 28 / 28 arithmetic produces stay below 19, 21 and 28.
   */
  function Decompose(c: char): (p: Parts)
    ensures !IsHangulSyllable(c) <==> p == NoParts
    ensures IsHangulSyllable(c) ==>
      && p.cho.Some? && IsCho(p.cho.value)
      && p.jung.Some? && IsJun(p.jung.value)
      && (p.jong.Some? ==> IsJon(p.jong.value) && p.jong.value != NUL)
  {
    if !IsHangulSyllable(c) then NoParts
    else
      var base := c as int - SBase;
      PartsAt(base / NCount, (base % NCount) / TCount, base % TCount)
  }

  /** A syllable decomposes by the quotient and remainders of its offset from SBase. */
  lemma DecomposeSyllable(c: char)
    requires IsHangulSyllable(c)
    ensures var base := c as int - SBase; Decompose(c) == PartsAt(base / NCount, (base % NCount) / TCount, base % TCount)
  {
  }

  /** The character at SBase + 588 i + 28 j + k is a syllable with table entries i, j and k. */
  lemma {:induction false} DecomposeAt(c: char, i: int, j: int, k: int)
    requires 0 <= i < 19 && 0 <= j < 21 && 0 <= k < 28
    requires c as int == SBase + NCount * i + TCount * j + k
    ensures IsHangulSyllable(c) && Decompose(c) == PartsAt(i, j, k)
  {
    SyllableIndices(c as int - SBase, i, j, k);
    DecomposeSyllable(c);
  }

  /**
   * The arithmetic of `makeHan` (:1227-1232): SBase + 588 * lead index + 28 * vowel
   * index + trail index, where a jamo missing from its table counts as index -1
   * (`firstIndex(of:) ?? -1`, which the lemmas `ChoIndexIsFirstIndex`,
   * `JunIndexIsFirstIndex` and `JonIndexIsFirstIndex` show `ChoIndex`, `JunIndex`
   * and `JonIndex` to be).
   * The code never reaches the surrogates, and for three table members it is a
   * precomposed syllable.
   */
  function SyllableCode(cho: char, jun: char, jon: char): (n: int)
    ensures SBase - NCount - TCount - 1 <= n <= SLast
    ensures IsCho(cho) && IsJun(jun) && IsJon(jon) ==> SBase <= n
  {
    ChoIndexFound(cho);
    JunIndexFound(jun);
    JonIndexFound(jon);
    SBase + NCount * ChoIndex(cho) + TCount * JunIndex(jun) + JonIndex(jon)
  }

  /** `makeHan`'s `UnicodeScalar(...)!` of that code, which therefore never fails. */
  function Compose(cho: char, jun: char, jon: char): (r: char)
    ensures SBase - NCount - TCount - 1 <= r as int <= SLast
    ensures IsCho(cho) && IsJun(jun) && IsJon(jon) ==> IsHangulSyllable(r)
  {
    SyllableCode(cho, jun, jon) as char
  }

  /** The character `makeHan` builds has that code. */
  lemma ComposeCode(cho: char, jun: char, jon: char)
    ensures Compose(cho, jun, jon) as int == SyllableCode(cho, jun, jon)
  {
  }

  /**
   * Round trip: three table members compose into the syllable that decomposes into
   * exactly them (the trail NUL, index 0, reads back as an absent trail).
   */
  lemma {:induction false} ComposeThenDecompose(cho: char, jun: char, jon: char)
    requires IsCho(cho) && IsJun(jun) && IsJon(jon)
    ensures Decompose(Compose(cho, jun, jon)) == Parts(Some(cho), Some(jun), if jon == NUL then None else Some(jon))
  {
    var i, j, k := IndexOf(Chos, cho), IndexOf(Juns, jun), IndexOf(Jons, jon);
    ChoIndexIsFirstIndex(cho);
    JunIndexIsFirstIndex(jun);
    JonIndexIsFirstIndex(jon);
    assert Jons[0] == NUL;
    ComposeCode(cho, jun, jon);
    DecomposeAt(Compose(cho, jun, jon), i, j, k);
  }

  /**
   * Round trip: composing the parts a syllable decomposes into gives the syllable back.
   */
  lemma {:induction false} DecomposeThenCompose(s: char)
    requires IsHangulSyllable(s)
    ensures var p := Decompose(s); Compose(p.cho.value, p.jung.value, JonOf(p.jong)) == s
  {
    var base := s as int - SBase;
    var i, j, k := base / NCount, (base % NCount) / TCount, base % TCount;
    assert NCount * i + TCount * j + k == base;
    DecomposeAt(s, i, j, k);
    var p := Decompose(s);
    var cho, jun, jon := p.cho.value, p.jung.value, JonOf(p.jong);
    assert cho == Chos[i] && jun == Juns[j] && jon == Jons[k];
    ChoIndexAt(i);
    JunIndexAt(j);
    JonIndexAt(k);
    ComposeCode(cho, jun, jon);
    assert Compose(cho, jun, jon) as int == s as int;
  }

  /**
   * `removeFinalConsonant` (:1440-1447). The subtraction is on UInt32, so the source traps
   * below U+AC00, and the result must be a valid scalar for `UnicodeScalar(...)!`.
   * For a syllable the result is the same syllable without its trail.
   */
  function RemoveFinalConsonant(hangul: char): (r: char)
    requires SBase <= hangul as int
    requires var u := hangul as int - SBase; !(0xD800 <= SBase + u / NCount * NCount + (u % NCount) / TCount * TCount < 0xE000)
    ensures IsHangulSyllable(hangul) ==>
      var p := Decompose(hangul); IsHangulSyllable(r) && Decompose(r) == Parts(p.cho, p.jung, None)
  {
    var u := hangul as int - SBase;
    var choIndex := u / NCount;
    var junIndex := (u % NCount) / TCount;
    var code := SBase + choIndex * NCount + junIndex * TCount;
    if IsHangulSyllable(hangul) then
      assert u == NCount * choIndex + TCount * junIndex + u % TCount;
      DecomposeAt(hangul, choIndex, junIndex, u % TCount);
      DecomposeAt(code as char, choIndex, junIndex, 0);
      code as char
    else
      code as char
  }

  /**
   * The characters `removeFirstHangulSyllable`'s while loop steps over (:1407-1411):
   * the longest prefix free of precomposed syllables.
   */
  function SkipNonSyllables(s: string): (r: string)
    ensures |r| <= |s| && r == s[|s| - |r|..]
    ensures r == [] || IsHangulSyllable(r[0])
    ensures forall i :: 0 <= i < |s| - |r| ==> !IsHangulSyllable(s[i])
  {
    if s == [] || IsHangulSyllable(s[0]) then s else SkipNonSyllables(s[1..])
  }

  /**
   * `removeFirstHangulSyllable` (:1396-1420): drops a leading syllable, or else every
   * character up to the first syllable. The result is a suffix of the input.
   */
  function RemoveFirstHangulSyllable(s: string): (r: string)
    ensures |r| <= |s| && r == s[|s| - |r|..]
    ensures s != [] && IsHangulSyllable(s[0]) ==> r == s[1..]
    ensures (s == [] || !IsHangulSyllable(s[0])) ==>
      (r == [] || IsHangulSyllable(r[0])) && forall i :: 0 <= i < |s| - |r| ==> !IsHangulSyllable(s[i])
  {
    if s == [] then s
    else if IsHangulSyllable(s[0]) then s[1..]
    else SkipNonSyllables(s)
  }
}
