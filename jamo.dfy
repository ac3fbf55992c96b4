/**
 * The jamo tables of `HangulMaker` (testKeyboard/KeyboardViewController.swift):
 * Hangul Compatibility Jamo (U+3131 ...) for the leading consonants, the vowels and
 * the trailing consonants, and the compound-trail and compound-vowel tables.
 * A Swift `Character` is modelled as one Unicode scalar, a Dafny `char`.
 */
module Jamo {
  import opened Wrappers

  /** U+0000: the value the composer's fields hold when they hold no jamo. */
  const NUL: char := '\0'

  /** `chos` (:1152): the 19 leading consonants, in syllable order (U+3131 ... U+314E). */
  const Chos: seq<char> :=
    ['ㄱ', 'ㄲ', 'ㄴ', 'ㄷ', 'ㄸ', 'ㄹ', 'ㅁ', 'ㅂ', 'ㅃ', 'ㅅ', 'ㅆ', 'ㅇ', 'ㅈ', 'ㅉ', 'ㅊ', 'ㅋ', 'ㅌ', 'ㅍ', 'ㅎ']

  /** `juns` (:1153): the 21 vowels, in syllable order (U+314F ... U+3163). */
  const Juns: seq<char> :=
    ['ㅏ', 'ㅐ', 'ㅑ', 'ㅒ', 'ㅓ', 'ㅔ', 'ㅕ', 'ㅖ', 'ㅗ', 'ㅘ', 'ㅙ', 'ㅚ', 'ㅛ', 'ㅜ', 'ㅝ', 'ㅞ', 'ㅟ', 'ㅠ', 'ㅡ', 'ㅢ', 'ㅣ']

  /** `jons` (:1154): "no trail" (U+0000) followed by the 27 trailing consonants, in syllable order. */
  const Jons: seq<char> :=
    [NUL, 'ㄱ', 'ㄲ', 'ㄳ', 'ㄴ', 'ㄵ', 'ㄶ', 'ㄷ', 'ㄹ', 'ㄺ', 'ㄻ', 'ㄼ', 'ㄽ', 'ㄾ', 'ㄿ', 'ㅀ', 'ㅁ', 'ㅂ', 'ㅄ', 'ㅅ', 'ㅆ', 'ㅇ', 'ㅈ', 'ㅊ', 'ㅋ', 'ㅌ', 'ㅍ', 'ㅎ']

  predicate IsCho(c: char) { c in Chos }
  predicate IsJun(c: char) { c in Juns }
  predicate IsJon(c: char) { c in Jons }

  /*
   * The same three tests written out entry by entry. Proofs that must tell every jamo
   * apart use these through the three lemmas below; everywhere else the tables are
   * left as sequences, which keeps the tests from splitting into cases.
   */
  predicate ChoCases(c: char) {
    match c
    case 'ㄱ' | 'ㄲ' | 'ㄴ' | 'ㄷ' | 'ㄸ' | 'ㄹ' | 'ㅁ' | 'ㅂ' | 'ㅃ' | 'ㅅ' | 'ㅆ' | 'ㅇ' | 'ㅈ' | 'ㅉ' | 'ㅊ' | 'ㅋ' | 'ㅌ' | 'ㅍ' | 'ㅎ' => true
    case _ => false
  }

  predicate JunCases(c: char) {
    match c
    case 'ㅏ' | 'ㅐ' | 'ㅑ' | 'ㅒ' | 'ㅓ' | 'ㅔ' | 'ㅕ' | 'ㅖ' | 'ㅗ' | 'ㅘ' | 'ㅙ' | 'ㅚ' | 'ㅛ' | 'ㅜ' | 'ㅝ' | 'ㅞ' | 'ㅟ' | 'ㅠ' | 'ㅡ' | 'ㅢ' | 'ㅣ' => true
    case _ => false
  }

  predicate JonCases(c: char) {
    match c
    case '\0' | 'ㄱ' | 'ㄲ' | 'ㄳ' | 'ㄴ' | 'ㄵ' | 'ㄶ' | 'ㄷ' | 'ㄹ' | 'ㄺ' | 'ㄻ' | 'ㄼ' | 'ㄽ' | 'ㄾ' | 'ㄿ' | 'ㅀ' | 'ㅁ' | 'ㅂ' | 'ㅄ' | 'ㅅ' | 'ㅆ' | 'ㅇ' | 'ㅈ' | 'ㅊ' | 'ㅋ' | 'ㅌ' | 'ㅍ' | 'ㅎ' => true
    case _ => false
  }

  lemma ChoMembership(c: char)
    ensures IsCho(c) <==> ChoCases(c)
  {
  }

  lemma JunMembership(c: char)
    ensures IsJun(c) <==> JunCases(c)
  {
  }

  lemma JonMembership(c: char)
    ensures IsJon(c) <==> JonCases(c)
  {
  }

  /** The three membership tests, told apart case by case. */
  lemma Membership(c: char)
    ensures IsCho(c) <==> ChoCases(c)
    ensures IsJun(c) <==> JunCases(c)
    ensures IsJon(c) <==> JonCases(c)
  {
    ChoMembership(c);
    JunMembership(c);
    JonMembership(c);
  }

  /** A character `commit` accepts as a jamo: found in one of the three tables (:1241). */
  predicate IsJamo(c: char) { IsCho(c) || IsJun(c) || IsJon(c) }

  /** The code points written in the source's `chos`, `juns` and `jons` arrays (:1152-1154). */
  const ChoCodes: seq<int> := [0x3131, 0x3132, 0x3134, 0x3137, 0x3138, 0x3139, 0x3141, 0x3142, 0x3143, 0x3145, 0x3146, 0x3147, 0x3148, 0x3149, 0x314a, 0x314b, 0x314c, 0x314d, 0x314e]
  const JunCodes: seq<int> := [0x314f, 0x3150, 0x3151, 0x3152, 0x3153, 0x3154, 0x3155, 0x3156, 0x3157, 0x3158, 0x3159, 0x315a, 0x315b, 0x315c, 0x315d, 0x315e, 0x315f, 0x3160, 0x3161, 0x3162, 0x3163]
  const JonCodes: seq<int> := [0x0000, 0x3131, 0x3132, 0x3133, 0x3134, 0x3135, 0x3136, 0x3137, 0x3139, 0x313a, 0x313b, 0x313c, 0x313d, 0x313e, 0x313f, 0x3140, 0x3141, 0x3142, 0x3144, 0x3145, 0x3146, 0x3147, 0x3148, 0x314a, 0x314b, 0x314c, 0x314d, 0x314e]

  /**
   * The glyph tables (which `decomposeKoreanCharacter` spells out as strings, :1181-1183)
   * are the code-point tables of `makeHan` and `commit`, entry for entry.
   */
  lemma ChosAreChoCodes()
    ensures |Chos| == |ChoCodes| == 19 && forall i :: 0 <= i < 19 ==> Chos[i] as int == ChoCodes[i]
  {
  }

  lemma JunsAreJunCodes()
    ensures |Juns| == |JunCodes| == 21 && forall i :: 0 <= i < 21 ==> Juns[i] as int == JunCodes[i]
  {
  }

  lemma JonsAreJonCodes()
    ensures |Jons| == |JonCodes| == 28 && forall i :: 0 <= i < 28 ==> Jons[i] as int == JonCodes[i]
  {
  }

  /** Swift's `firstIndex(of:) ?? -1`: the first position of `x` in `s`, or -1 when absent. */
  function IndexOf(s: seq<char>, x: char): (r: int)
    ensures -1 <= r < |s|
    ensures r == -1 <==> x !in s
    ensures 0 <= r ==> s[r] == x && forall k :: 0 <= k < r ==> s[k] != x
  {
    if |s| == 0 then -1
    else if s[0] == x then 0
    else
      assert s == [s[0]] + s[1..];
      var k := IndexOf(s[1..], x);
      if k == -1 then -1 else k + 1
  }

  /** The position of `c` in `Chos`, or -1, read off the table entry by entry. */
  function ChoIndex(c: char): (r: int)
    ensures -1 <= r < 19
  {
    match c
    case 'ㄱ' => 0
    case 'ㄲ' => 1
    case 'ㄴ' => 2
    case 'ㄷ' => 3
    case 'ㄸ' => 4
    case 'ㄹ' => 5
    case 'ㅁ' => 6
    case 'ㅂ' => 7
    case 'ㅃ' => 8
    case 'ㅅ' => 9
    case 'ㅆ' => 10
    case 'ㅇ' => 11
    case 'ㅈ' => 12
    case 'ㅉ' => 13
    case 'ㅊ' => 14
    case 'ㅋ' => 15
    case 'ㅌ' => 16
    case 'ㅍ' => 17
    case 'ㅎ' => 18
    case _ => -1
  }

  /** The position of `c` in `Juns`, or -1. */
  function JunIndex(c: char): (r: int)
    ensures -1 <= r < 21
  {
    match c
    case 'ㅏ' => 0
    case 'ㅐ' => 1
    case 'ㅑ' => 2
    case 'ㅒ' => 3
    case 'ㅓ' => 4
    case 'ㅔ' => 5
    case 'ㅕ' => 6
    case 'ㅖ' => 7
    case 'ㅗ' => 8
    case 'ㅘ' => 9
    case 'ㅙ' => 10
    case 'ㅚ' => 11
    case 'ㅛ' => 12
    case 'ㅜ' => 13
    case 'ㅝ' => 14
    case 'ㅞ' => 15
    case 'ㅟ' => 16
    case 'ㅠ' => 17
    case 'ㅡ' => 18
    case 'ㅢ' => 19
    case 'ㅣ' => 20
    case _ => -1
  }

  /** The position of `c` in `Jons`, or -1. */
  function JonIndex(c: char): (r: int)
    ensures -1 <= r < 28
  {
    match c
    case '\0' => 0
    case 'ㄱ' => 1
    case 'ㄲ' => 2
    case 'ㄳ' => 3
    case 'ㄴ' => 4
    case 'ㄵ' => 5
    case 'ㄶ' => 6
    case 'ㄷ' => 7
    case 'ㄹ' => 8
    case 'ㄺ' => 9
    case 'ㄻ' => 10
    case 'ㄼ' => 11
    case 'ㄽ' => 12
    case 'ㄾ' => 13
    case 'ㄿ' => 14
    case 'ㅀ' => 15
    case 'ㅁ' => 16
    case 'ㅂ' => 17
    case 'ㅄ' => 18
    case 'ㅅ' => 19
    case 'ㅆ' => 20
    case 'ㅇ' => 21
    case 'ㅈ' => 22
    case 'ㅊ' => 23
    case 'ㅋ' => 24
    case 'ㅌ' => 25
    case 'ㅍ' => 26
    case 'ㅎ' => 27
    case _ => -1
  }

  lemma ChoIndexAt(i: int)
    requires 0 <= i < 19
    ensures ChoIndex(Chos[i]) == i
  {
  }

  lemma ChoIndexFound(c: char)
    ensures IsCho(c) <==> ChoIndex(c) >= 0
  {
    ChoMembership(c);
  }

  /** `ChoIndex` is `firstIndex(of:) ?? -1` on `Chos`. */
  lemma ChoIndexIsFirstIndex(c: char)
    ensures IndexOf(Chos, c) == ChoIndex(c)
  {
    ChoIndexFound(c);
    if IsCho(c) {
      ChoIndexAt(IndexOf(Chos, c));
    }
  }

  lemma JunIndexAt(i: int)
    requires 0 <= i < 21
    ensures JunIndex(Juns[i]) == i
  {
  }

  lemma JunIndexFound(c: char)
    ensures IsJun(c) <==> JunIndex(c) >= 0
  {
    JunMembership(c);
  }

  /** `JunIndex` is `firstIndex(of:) ?? -1` on `Juns`. */
  lemma JunIndexIsFirstIndex(c: char)
    ensures IndexOf(Juns, c) == JunIndex(c)
  {
    JunIndexFound(c);
    if IsJun(c) {
      JunIndexAt(IndexOf(Juns, c));
    }
  }

  lemma JonIndexAt(i: int)
    requires 0 <= i < 28
    ensures JonIndex(Jons[i]) == i
  {
  }

  lemma JonIndexFound(c: char)
    ensures IsJon(c) <==> JonIndex(c) >= 0
  {
    JonMembership(c);
  }

  /** `JonIndex` is `firstIndex(of:) ?? -1` on `Jons`. */
  lemma JonIndexIsFirstIndex(c: char)
    ensures IndexOf(Jons, c) == JonIndex(c)
  {
    JonIndexFound(c);
    if IsJon(c) {
      JonIndexAt(IndexOf(Jons, c));
    }
  }

  /** No vowel is a consonant of either kind. */
  lemma VowelsAreNotConsonants(c: char)
    ensures IsJun(c) ==> !IsCho(c) && !IsJon(c)
  {
    Membership(c);
  }

  /** The 11 compound trailing consonants (`isDoubleJong`, :1448-1452). */
  predicate IsDoubleJong(jong: char) {
    match jong
    case 'ㄳ' | 'ㄵ' | 'ㄶ' | 'ㄺ' | 'ㄻ' | 'ㄼ' | 'ㄽ' | 'ㄾ' | 'ㄿ' | 'ㅀ' | 'ㅄ' => true
    case _ => false
  }

  /**
   * The table inside `doubleJonEnable` (:1655-1714): the compound trail that trail `jon`
   * followed by consonant `c` fuses into, if any.
   */
  function DoubleJon(jon: char, c: char): (r: Option<char>)
    ensures r.Some? ==> IsJon(jon) && jon != NUL && IsJon(c) && IsCho(c) && IsDoubleJong(r.value)
  {
    Membership(jon);
    Membership(c);
    match jon
    case 'ㄱ' => if c == 'ㅅ' then Some('ㄳ') else None
    case 'ㄴ' =>
      if c == 'ㅈ' then Some('ㄵ')
      else if c == 'ㅎ' then Some('ㄶ')
      else None
    case 'ㄹ' =>
      if c == 'ㄱ' then Some('ㄺ')
      else if c == 'ㅁ' then Some('ㄻ')
      else if c == 'ㅂ' then Some('ㄼ')
      else if c == 'ㅅ' then Some('ㄽ')
      else if c == 'ㅌ' then Some('ㄾ')
      else if c == 'ㅍ' then Some('ㄿ')
      else if c == 'ㅎ' then Some('ㅀ')
      else None
    case 'ㅂ' => if c == 'ㅅ' then Some('ㅄ') else None
    case _ => None
  }

  /**
   * `splitDoubleJong` (:1453-1468): the two trails a compound trail is made of.
   * It answers exactly for the characters `isDoubleJong` accepts, and fusing the
   * two halves again gives the compound back.
   */
  function SplitDoubleJong(jong: char): (r: Option<(char, char)>)
    ensures r.Some? <==> IsDoubleJong(jong)
    ensures r.Some? ==> DoubleJon(r.value.0, r.value.1) == Some(jong)
  {
    match jong
    case 'ㄳ' => Some(('ㄱ', 'ㅅ'))
    case 'ㄵ' => Some(('ㄴ', 'ㅈ'))
    case 'ㄶ' => Some(('ㄴ', 'ㅎ'))
    case 'ㄺ' => Some(('ㄹ', 'ㄱ'))
    case 'ㄻ' => Some(('ㄹ', 'ㅁ'))
    case 'ㄼ' => Some(('ㄹ', 'ㅂ'))
    case 'ㄽ' => Some(('ㄹ', 'ㅅ'))
    case 'ㄾ' => Some(('ㄹ', 'ㅌ'))
    case 'ㄿ' => Some(('ㄹ', 'ㅍ'))
    case 'ㅀ' => Some(('ㄹ', 'ㅎ'))
    case 'ㅄ' => Some(('ㅂ', 'ㅅ'))
    case _ => None
  }

  /** The other direction: whatever two trails fuse into splits back into those two. */
  lemma FuseThenSplit(jon: char, c: char)
    ensures DoubleJon(jon, c).Some? ==> SplitDoubleJong(DoubleJon(jon, c).value) == Some((jon, c))
  {
    var r := DoubleJon(jon, c);
    if r.Some? {
      var x := r.value;
      assert IsDoubleJong(x);
      var s := SplitDoubleJong(x);
      assert DoubleJon(s.value.0, s.value.1) == Some(x);
      // each compound arises from one pair only
      if jon == 'ㄹ' {
        if c == 'ㄱ' {} else if c == 'ㅁ' {} else if c == 'ㅂ' {} else if c == 'ㅅ' {} else if c == 'ㅌ' {} else if c == 'ㅍ' {}
      }
    }
  }

  /** The compound trails are trailing consonants that no syllable starts with. */
  lemma DoubleJongIsTrailOnly(x: char)
    ensures IsDoubleJong(x) ==> IsJon(x) && x != NUL && !IsCho(x)
  {
    Membership(x);
  }

  /** Every other trailing consonant can also lead a syllable. */
  lemma SingleTrailIsLead(x: char)
    ensures IsJon(x) && x != NUL && !IsDoubleJong(x) ==> IsCho(x)
  {
    Membership(x);
  }

  /**
   * A character the keyboard's keys can produce: a trailing consonant only when it
   * is also a leading one, so never U+0000 and never a compound trail.
   */
  predicate IsKey(c: char) {
    IsJon(c) ==> IsCho(c)
  }

  /** The 7 compound vowels (`isDoubleJun`, :1720-1722). */
  predicate IsDoubleJun(jun: char) {
    match jun
    case 'ㅙ' | 'ㅞ' | 'ㅚ' | 'ㅝ' | 'ㅟ' | 'ㅘ' | 'ㅢ' => true
    case _ => false
  }

  /** `junAvailable` (:1716-1718): false for the vowels listed there. */
  predicate JunAvailable(jun: char) {
    match jun
    case 'ㅙ' | 'ㅞ' | 'ㅢ' | 'ㅐ' | 'ㅔ' | 'ㅛ' | 'ㅒ' | 'ㅖ' => false
    case _ => true
  }

  /**
   * The table inside `doubleJunEnable` (:1607-1653): the compound vowel that vowel `jun`
   * followed by vowel `c` fuses into, if any.
   */
  function DoubleJun(jun: char, c: char): (r: Option<char>)
    ensures r.Some? ==> IsJun(jun) && IsJun(c) && JunAvailable(jun) && IsDoubleJun(r.value) && IsJun(r.value)
    ensures IsDoubleJun(c) ==> r.None?
  {
    JunMembership(jun);
    JunMembership(c);
    match jun
    case 'ㅗ' =>
      if c == 'ㅏ' then Some('ㅘ')
      else if c == 'ㅐ' then Some('ㅙ')
      else if c == 'ㅣ' then Some('ㅚ')
      else None
    case 'ㅜ' =>
      if c == 'ㅓ' then Some('ㅝ')
      else if c == 'ㅔ' then Some('ㅞ')
      else if c == 'ㅣ' then Some('ㅟ')
      else None
    case 'ㅡ' => if c == 'ㅣ' then Some('ㅢ') else None
    case _ => None
  }
}
