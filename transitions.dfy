/**
 * What single `commit` and `delete` steps of `HangulMaker`
 * (testKeyboard/KeyboardViewController.swift) do to the syllable being edited, stated
 * through the syllable arithmetic rather than through the steps themselves.
 */
module Transitions {
  import opened Wrappers
  import opened Jamo
  import opened Syllable
  import opened Composer
  import opened MakerInvariant

  /**
   * Round trip through the fields: with `cho`, `jun` and `jon` set to the parts of a
   * syllable, `makeHan` in state 2 or 3 gives that syllable back.
   */
  lemma {:induction false} MakeHanRebuilds(m: Maker, s: char)
    requires IsHangulSyllable(s) && m.state >= 2
    requires var p := Decompose(s); m.cho == p.cho.value && m.jun == p.jung.value && m.jon == JonOf(p.jong)
    ensures MakeHan(m) == s
  {
    DecomposeThenCompose(s);
  }

  /**
   * With the first half of a compound as the trail, `doubleJonEnable` of the second half
   * answers true and makes the compound the trail.
   */
  lemma {:induction false} SplitThenFuse(m: Maker, x: char)
    requires IsDoubleJong(x) && m.jon == SplitDoubleJong(x).value.0
    ensures var c := SplitDoubleJong(x).value.1;
      DoubleJonEnable(m, c) == (m.(jonFlag := m.jon, doubleJonFlag := c, jon := x), true)
  {
    var c := SplitDoubleJong(x).value.1;
    FuseThenSplit(m.jon, c);
  }

  /**
   * `delete` in state 3 with a single trail drops the trail: state 2, and `textStorage`
   * is the pending syllable without its trail, which is what `removeFinalConsonant`
   * (:1440-1447) computes.
   */
  lemma {:induction false} DeleteTrailDropsTrail(m: Maker, dec: bool, justPrevious: Option<char>)
    requires Valid(m) && m.state == 3 && !IsDoubleJong(m.jon)
    ensures var r := DeleteTrail(m, dec, justPrevious).maker;
      r.state == 2 && r.jon == NUL && r.textStorage == [RemoveFinalConsonant(m.textStorage[0])]
  {
    PendingSyllableParts(m);
    var s := m.textStorage[0];
    MakeHanParts(m);
    var t := RemoveFinalConsonant(s);
    var m2 := m.(jon := NUL, jonFlag := NUL, state := 2);
    assert Jons[0] == NUL;
    MakeHanParts(m2);
    MakeHanRebuilds(m2, t);
  }

  /**
   * `delete` in state 3 with a compound trail, the host reporting the pending syllable
   * before the cursor: the second half goes, the first half stays as the trail, and the
   * maker remains in state 3 on the syllable with that trail.
   */
  lemma {:induction false} DeleteCompoundKeepsFirstHalf(m: Maker, dec: bool)
    requires Valid(m) && m.state == 3 && IsDoubleJong(m.jon)
    ensures var h := SplitDoubleJong(m.jon).value;
      DeleteTrail(m, dec, Some(m.textStorage[0])) ==
      Deleted(m.(jon := h.0, jonFlag := h.0, doubleJonFlag := NUL, textStorage := [Compose(m.cho, m.jun, h.0)]), Some(true))
  {
    PendingSyllableParts(m);
    DoubleJongIsTrailOnly(m.jon);
    var h := SplitDoubleJong(m.jon).value;
    var m2 := m.(jon := h.0);
    var m3 := m2.(textStorage := [MakeHan(m2)]);
    assert DoubleJon(h.0, h.1).Some?;
    var p := Decompose(m.textStorage[0]);
    assert Reenter(m3, dec, p) == m3;
    SplitThenFuse(m3, m.jon);
    assert Commit(m3, h.1, dec, Some(m.textStorage[0])) == CommitTrail(m3, h.1, dec, m.textStorage[0]);
  }

  /**
   * `delete` in state 2 that resumes a syllable without a trail (:1542-1551): the lone
   * lead becomes that syllable's trail, as 가 + 나 gives 간.
   */
  lemma {:induction false} DeleteVowelRejoins(m: Maker, dec: bool, prevText: char)
    requires Valid(m) && m.state == 2 && Resumable(dec, prevText) && Decompose(prevText).jong.None? && IsJon(m.cho)
    ensures var r := DeleteVowel(m, dec, prevText); var p := Decompose(prevText);
      r.state == 3 && Decompose(r.textStorage[0]) == Parts(p.cho, p.jung, Some(m.cho))
  {
    var p := Decompose(prevText);
    assert m.cho != NUL;
    ComposeThenDecompose(p.cho.value, p.jung.value, m.cho);
  }

  /**
   * `delete` in state 2 that resumes a syllable with a trail (:1558-1571): when that trail
   * and the lone lead fuse, the compound becomes the syllable's trail, as 갈 + 기 gives
   * 갉 on backspace; otherwise the lone lead stays, `jonFlag` holding the old trail.
   */
  lemma {:induction false} DeleteVowelFusesTrail(m: Maker, dec: bool, prevText: char)
    requires Valid(m) && m.state == 2 && Resumable(dec, prevText) && Decompose(prevText).jong.Some?
    ensures var r := DeleteVowel(m, dec, prevText); var p := Decompose(prevText);
      var f := DoubleJon(p.jong.value, m.cho);
      && (f.Some? ==>
        && r.state == 3 && r.cho == p.cho.value && r.jun == p.jung.value && r.jon == f.value
        && SplitDoubleJong(r.jon) == Some((p.jong.value, m.cho))
        && r.textStorage == [Compose(p.cho.value, p.jung.value, f.value)])
      && (f.None? ==> r == LoneLead(m.cho).(jonFlag := p.jong.value))
  {
    var p := Decompose(prevText);
    if DoubleJon(p.jong.value, m.cho).Some? {
      FuseThenSplit(p.jong.value, m.cho);
    }
  }

  /**
   * `delete` in state 1 that resumes the syllable before the lone lead (:1487-1526): the
   * lead goes and that syllable, unchanged, is being edited again in state 3.
   */
  lemma {:induction false} DeleteLeadResumes(m: Maker, dec: bool, prevText: char)
    requires Valid(m) && m.state == 1 && Resumable(dec, prevText)
    ensures var r := DeleteLead(m, dec, prevText);
      r.state == 3 && r.textStorage == [prevText] && Decompose(prevText) == Parts(Some(r.cho), Some(r.jun), if r.jon == NUL then None else Some(r.jon))
  {
    var p := Decompose(prevText);
    var m2 := m.(jon := JonOf(p.jong), cho := p.cho.value, jun := p.jung.value, state := 3);
    MakeHanRebuilds(m2, prevText);
  }

  /** Without decomposable set, or with no syllable before the cursor, `commit` starts from the fields. */
  lemma RestingWhenNotResuming(m: Maker, dec: bool, justPrevious: Option<char>)
    requires !dec || !IsHangulSyllable(justPrevious.GetOr(' '))
    ensures Resting(m, dec, justPrevious)
  {
  }

  /**
   * In the host the pending syllable sits just before the cursor, so resuming it changes
   * nothing (for a trail, as long as there is one).
   */
  lemma {:induction false} RestingWhenSynced(m: Maker, dec: bool)
    requires Valid(m) && m.state >= 2 && (m.state == 3 ==> m.jon != NUL)
    ensures Resting(m, dec, Some(Last(m.textStorage)))
  {
    MakeHanParts(m);
  }

  /** `commit` of a consonant on an empty maker (:1263-1268): it waits as a lone lead. */
  lemma {:induction false} CommitStartsSyllable(m: Maker, c: char, dec: bool, justPrevious: Option<char>)
    requires Valid(m) && m.state == 0 && IsCho(c) && Resting(m, dec, justPrevious)
    ensures !CommitTraps(m, c, dec, justPrevious)
    ensures var r := Commit(m, c, dec, justPrevious);
      r.code == 0 && r.maker.state == 1 && r.maker.cho == c && r.maker.textStorage == [c]
  {
    VowelsAreNotConsonants(c);
  }

  /**
   * `commit` of a vowel on a lone lead (:1279-1285): the lead is kept, the vowel joins it,
   * and the one stored character is the syllable of the two.
   */
  lemma {:induction false} CommitVowelJoinsLead(m: Maker, c: char, dec: bool, justPrevious: Option<char>)
    requires Valid(m) && m.state == 1 && IsJun(c) && Resting(m, dec, justPrevious)
    ensures !CommitTraps(m, c, dec, justPrevious)
    ensures var r := Commit(m, c, dec, justPrevious);
      && r.code == 1 && r.maker.state == 2 && r.maker.cho == m.cho && r.maker.jun == c
      && |r.maker.textStorage| == 1 && Decompose(r.maker.textStorage[0]) == Parts(Some(m.cho), Some(c), None)
  {
    VowelsAreNotConsonants(c);
    ComposeThenDecompose(m.cho, c, NUL);
  }

  /**
   * `commit` of a trailing consonant on a lead and vowel (:1288-1293): the syllable
   * stored is the one with that trail.
   */
  lemma {:induction false} CommitTrailJoinsSyllable(m: Maker, c: char, dec: bool, justPrevious: Option<char>)
    requires Valid(m) && m.state == 2 && IsJon(c) && c != NUL && Resting(m, dec, justPrevious)
    ensures !CommitTraps(m, c, dec, justPrevious)
    ensures var r := Commit(m, c, dec, justPrevious);
      && r.code == 1 && r.maker.state == 3 && r.maker.cho == m.cho && r.maker.jun == m.jun && r.maker.jon == c
      && |r.maker.textStorage| == 1 && Decompose(r.maker.textStorage[0]) == Parts(Some(m.cho), Some(m.jun), Some(c))
  {
    VowelsAreNotConsonants(c);
    ComposeThenDecompose(m.cho, m.jun, c);
  }

  /**
   * `commit` of a consonant that fuses with the trail (:1308-1312): the trail becomes the
   * compound, `jonFlag` keeps its first half, and the stored syllable has the compound.
   */
  lemma {:induction false} CommitFusesCompound(m: Maker, c: char, dec: bool, justPrevious: Option<char>)
    requires Valid(m) && m.state == 3 && DoubleJon(m.jon, c).Some? && Resting(m, dec, justPrevious)
    ensures !CommitTraps(m, c, dec, justPrevious)
    ensures var r := Commit(m, c, dec, justPrevious); var x := DoubleJon(m.jon, c).value;
      && r.code == 1 && r.maker.state == 3 && r.maker.jon == x && r.maker.jonFlag == m.jon
      && SplitDoubleJong(x) == Some((m.jon, c))
      && Decompose(r.maker.textStorage[0]) == Parts(Some(m.cho), Some(m.jun), Some(x))
  {
    var x := DoubleJon(m.jon, c).value;
    FuseThenSplit(m.jon, c);
    DoubleJongIsTrailOnly(x);
    ComposeThenDecompose(m.cho, m.jun, x);
  }

  /**
   * `commit` of a vowel after a trail, in the host (decomposable set, the pending syllable
   * before the cursor; :1336-1369): the trail, or the second half of a compound trail,
   * leaves the first syllable and leads a new one with the vowel. Both syllables are
   * stored, and the result 2 tells the host to replace the one character before the cursor.
   */
  lemma {:induction false} CommitVowelSplitsTrail(m: Maker, c: char)
    requires Valid(m) && m.state == 3 && m.jon != NUL && IsJun(c)
    ensures !CommitTraps(m, c, true, Some(m.textStorage[0]))
    ensures var r := Commit(m, c, true, Some(m.textStorage[0]));
      var h := SplitDoubleJong(m.jon);
      var first := if h.Some? then h.value.0 else NUL;
      var lead := if h.Some? then h.value.1 else m.jon;
      && r.code == 2 && r.maker.state == 2 && r.maker.cho == lead && r.maker.jun == c
      && r.maker.textStorage == [Compose(m.cho, m.jun, first), Compose(lead, c, NUL)]
      && Decompose(r.maker.textStorage[0]) == Parts(Some(m.cho), Some(m.jun), if first == NUL then None else Some(first))
      && Decompose(r.maker.textStorage[1]) == Parts(Some(lead), Some(c), None)
  {
    VowelsAreNotConsonants(c);
    PendingSyllableParts(m);
    RestingWhenSynced(m, true);
    var h := SplitDoubleJong(m.jon);
    if h.Some? {
      assert DoubleJon(h.value.0, h.value.1).Some?;
      ComposeThenDecompose(m.cho, m.jun, h.value.0);
      ComposeThenDecompose(h.value.1, c, NUL);
    } else {
      SingleTrailIsLead(m.jon);
      ComposeThenDecompose(m.cho, m.jun, NUL);
      ComposeThenDecompose(m.jon, c, NUL);
    }
  }
}
