/**
 * Concrete key sequences on an empty document, key by key, through `processInput` and
 * `deleteBackward` of testKeyboard/KeyboardViewController.swift with the cursor left where
 * the keyboard put it.
 */
module Scenarios {
  import opened Wrappers
  import opened Jamo
  import opened Syllable
  import opened Composer
  import opened Host
  import opened Transitions

  /** ㄱ alone: a lead waiting for its vowel, shown as is. */
  const AfterG: Session := Session(Initial.(state := 1, cho := 'ㄱ', textStorage := "ㄱ"), "ㄱ", true)

  /** ㄱ ㅏ: the syllable 가 replaces the lead. */
  const AfterGa: Session := Session(Initial.(state := 2, cho := 'ㄱ', jun := 'ㅏ', textStorage := "가"), "가", true)

  /** ㄱ ㅏ ㄴ: the trail joins, 간. */
  const AfterGan: Session := Session(Initial.(state := 3, cho := 'ㄱ', jun := 'ㅏ', jon := 'ㄴ', textStorage := "간"), "간", true)

  /** ㄱ ㅏ ㄴ ㅣ: the trail moves on to lead the new syllable, 가니. */
  const AfterGaNi: Session := Session(Initial.(state := 2, cho := 'ㄴ', jun := 'ㅣ', textStorage := "가니"), "가니", true)

  /** ㄱ ㅏ ㄱ: 각, a single trail. */
  const AfterGak: Session := Session(Initial.(state := 3, cho := 'ㄱ', jun := 'ㅏ', jon := 'ㄱ', textStorage := "각"), "각", true)

  /** ㄱ ㅏ ㄱ ㅅ: the trails fuse into the compound ㄳ, 갃; `jonFlag` remembers ㄱ. */
  const AfterGaks: Session := Session(Initial.(state := 3, cho := 'ㄱ', jun := 'ㅏ', jon := 'ㄳ', jonFlag := 'ㄱ', textStorage := "갃"), "갃", true)

  /** The syllables of the scenarios, as `makeHan` builds them. */
  lemma Ga() ensures Compose('ㄱ', 'ㅏ', NUL) == '가' { ComposeCode('ㄱ', 'ㅏ', NUL); }
  lemma Gan() ensures Compose('ㄱ', 'ㅏ', 'ㄴ') == '간' { ComposeCode('ㄱ', 'ㅏ', 'ㄴ'); }
  lemma Ni() ensures Compose('ㄴ', 'ㅣ', NUL) == '니' { ComposeCode('ㄴ', 'ㅣ', NUL); }
  lemma Gak() ensures Compose('ㄱ', 'ㅏ', 'ㄱ') == '각' { ComposeCode('ㄱ', 'ㅏ', 'ㄱ'); }
  lemma Gaks() ensures Compose('ㄱ', 'ㅏ', 'ㄳ') == '갃' { ComposeCode('ㄱ', 'ㅏ', 'ㄳ'); }

  /** One key through `processInput` with the cursor where the keyboard left it. */
  lemma OneKey(s: Session, c: char)
    requires !CommitTraps(s.maker, c, s.isDecomposable, JustPrevious(s.doc))
    ensures var st := Commit(s.maker, c, s.isDecomposable, JustPrevious(s.doc));
      var t := Session(st.maker, if st.code == 1 || st.code == 2 then DropLast(s.doc) else s.doc, Pushed(s.isDecomposable, st.report));
      AfterInput(s, [c], false) == Some(if t.maker.textStorage != "" then t.(doc := t.doc + t.maker.textStorage) else t)
  {
    assert [c][..0] == [];
    assert CommitAll(s, [c]) == CommitChar(s, c);
    assert Settle(s, false) == s;
  }

  /** A consonant on an empty maker waits as a lone lead: result 0. */
  lemma CommitLeadOnEmpty()
    ensures !CommitTraps(Initial, 'ㄱ', false, None)
    ensures Commit(Initial, 'ㄱ', false, None) == Step(AfterG.maker, 0, Some(true))
  {
    assert Chos[0] == 'ㄱ';
    VowelsAreNotConsonants('ㄱ');
    assert Commit(Initial, 'ㄱ', false, None) == CommitEmpty(Initial, 'ㄱ');
  }

  lemma TypeLead()
    ensures AfterInput(Session(Initial, "", false), "ㄱ", false) == Some(AfterG)
  {
    CommitLeadOnEmpty();
    OneKey(Session(Initial, "", false), 'ㄱ');
  }

  /** A vowel on a lone lead makes the syllable: result 1, the lead is replaced. */
  lemma CommitVowelOnLead(dec: bool)
    ensures !CommitTraps(AfterG.maker, 'ㅏ', dec, Some('ㄱ'))
    ensures Commit(AfterG.maker, 'ㅏ', dec, Some('ㄱ')) == Step(AfterGa.maker, 1, Some(true))
  {
    assert Juns[0] == 'ㅏ';
    VowelsAreNotConsonants('ㅏ');
    Ga();
    var m := AfterG.maker;
    assert Commit(m, 'ㅏ', dec, Some('ㄱ')) == CommitLead(m, 'ㅏ');
  }

  lemma TypeVowel()
    ensures AfterInput(AfterG, "ㅏ", false) == Some(AfterGa)
  {
    CommitVowelOnLead(true);
    OneKey(AfterG, 'ㅏ');
  }

  /** A consonant on 가 becomes its trail: result 1. */
  lemma CommitTrailOnSyllable(dec: bool)
    ensures !CommitTraps(AfterGa.maker, 'ㄴ', dec, Some('가'))
    ensures Commit(AfterGa.maker, 'ㄴ', dec, Some('가')) == Step(AfterGan.maker, 1, Some(true))
  {
    assert Jons[4] == 'ㄴ';
    DecomposeAt('가', 0, 0, 0);
    Gan();
    var m := AfterGa.maker;
    assert Reenter(m, dec, Decompose('가')) == m;
    assert Commit(m, 'ㄴ', dec, Some('가')) == CommitVowel(m, 'ㄴ');
  }

  lemma TypeTrail()
    ensures AfterInput(AfterGa, "ㄴ", false) == Some(AfterGan)
  {
    CommitTrailOnSyllable(true);
    OneKey(AfterGa, 'ㄴ');
  }

  /** A vowel after 간 moves ㄴ on to lead a new syllable: result 2 and two characters. */
  lemma CommitVowelAfterTrail()
    ensures !CommitTraps(AfterGan.maker, 'ㅣ', true, Some('간'))
    ensures Commit(AfterGan.maker, 'ㅣ', true, Some('간')) == Step(AfterGaNi.maker, 2, Some(true))
  {
    assert Juns[20] == 'ㅣ';
    VowelsAreNotConsonants('ㅣ');
    DecomposeAt('간', 0, 0, 4);
    Ga();
    Ni();
    var m := AfterGan.maker;
    var p := Decompose('간');
    assert p == Parts(Some('ㄱ'), Some('ㅏ'), Some('ㄴ'));
    assert Reenter(m, true, p) == m;
    var z := SetStateZero(m.(jon := NUL));
    assert SplitSyllable(m, 'ㅣ', true, '간') == Pair(z, 'ㄱ', 'ㅏ', NUL, 'ㄴ', 'ㅣ');
    assert Commit(m, 'ㅣ', true, Some('간')) == CommitTrail(m, 'ㅣ', true, '간');
  }

  /**
   * The same step with decomposable unset: `commit` works from its own fields and
   * `removeFirstHangulSyllable`, whatever the character before the cursor, to the same end.
   */
  lemma CommitVowelAfterTrailAlone(justPrevious: Option<char>)
    ensures !CommitTraps(AfterGan.maker, 'ㅣ', false, justPrevious)
    ensures Commit(AfterGan.maker, 'ㅣ', false, justPrevious) == Step(AfterGaNi.maker, 2, Some(true))
  {
    assert Juns[20] == 'ㅣ';
    VowelsAreNotConsonants('ㅣ');
    Ga();
    Gan();
    Ni();
    var m := AfterGan.maker;
    var z := SetStateZero(m.(jon := NUL));
    assert z.textStorage == "간가";
    assert RemoveFirstHangulSyllable(z.textStorage) == "가";
    var prev := justPrevious.GetOr(' ');
    assert SplitSyllable(m, 'ㅣ', false, prev) == Finish(z, 'ㄴ', 'ㅣ');
    assert Commit(m, 'ㅣ', false, justPrevious) == CommitTrail(m, 'ㅣ', false, prev);
  }

  /** 간 + ㅣ on screen is 가니. */
  lemma TypeVowelAfterTrail()
    ensures AfterInput(AfterGan, "ㅣ", false) == Some(AfterGaNi)
  {
    CommitVowelAfterTrail();
    OneKey(AfterGan, 'ㅣ');
  }

  /** Backspace after 가니 takes back the vowel and returns ㄴ to the trail: 간 again. */
  lemma BackspaceRejoins()
    ensures AfterBackspace(AfterGaNi) == Some(AfterGan.(maker := AfterGan.maker.(jonFlag := NUL)))
  {
    DecomposeAt('가', 0, 0, 0);
    Gan();
  }
  /** A consonant that fuses with the trail makes a compound trail: result 1. */
  lemma CommitFusesTrail()
    ensures !CommitTraps(AfterGak.maker, 'ㅅ', true, Some('각'))
    ensures Commit(AfterGak.maker, 'ㅅ', true, Some('각')) == Step(AfterGaks.maker, 1, Some(true))
  {
    assert Jons[19] == 'ㅅ';
    DecomposeAt('각', 0, 0, 1);
    Gaks();
    var m := AfterGak.maker;
    assert Reenter(m, true, Decompose('각')) == m;
    assert Commit(m, 'ㅅ', true, Some('각')) == CommitTrail(m, 'ㅅ', true, '각');
  }

  /** ㄱ on 가 becomes its trail: result 1. */
  lemma CommitTrailOnGa(dec: bool)
    ensures !CommitTraps(AfterGa.maker, 'ㄱ', dec, Some('가'))
    ensures Commit(AfterGa.maker, 'ㄱ', dec, Some('가')) == Step(AfterGak.maker, 1, Some(true))
  {
    assert Jons[1] == 'ㄱ';
    DecomposeAt('가', 0, 0, 0);
    Gak();
    var m := AfterGa.maker;
    assert Reenter(m, dec, Decompose('가')) == m;
    assert Commit(m, 'ㄱ', dec, Some('가')) == CommitVowel(m, 'ㄱ');
  }

  lemma TypeTrailOfGak()
    ensures AfterInput(AfterGa, "ㄱ", false) == Some(AfterGak)
  {
    CommitTrailOnGa(true);
    OneKey(AfterGa, 'ㄱ');
  }

  lemma TypeCompoundTrail()
    ensures AfterInput(AfterGak, "ㅅ", false) == Some(AfterGaks)
  {
    CommitFusesTrail();
    OneKey(AfterGak, 'ㅅ');
  }

  /** The nested `commit` of the second half ㅅ on top of 각 fuses them again. */
  lemma RecommitSecondHalfOfGaks()
    ensures var m3 := AfterGaks.maker.(jon := 'ㄱ', textStorage := "각");
      Commit(m3, 'ㅅ', true, Some('갃')) == Step(AfterGaks.maker.(doubleJonFlag := NUL), 1, Some(true))
  {
    assert Jons[19] == 'ㅅ';
    DecomposeAt('갃', 0, 0, 3);
    Gaks();
    var m3 := AfterGaks.maker.(jon := 'ㄱ', textStorage := "각");
    assert Reenter(m3, true, Decompose('갃')) == m3;
    assert Commit(m3, 'ㅅ', true, Some('갃')) == CommitTrail(m3, 'ㅅ', true, '갃');
  }

  /** `delete` on 갃 splits off ㅅ and keeps ㄱ as the trail. */
  lemma DeleteTrailOfGaks()
    ensures DeleteTrail(AfterGaks.maker, true, Some('갃')) == Deleted(AfterGak.maker.(jonFlag := 'ㄱ'), Some(true))
  {
    assert Chos[0] == 'ㄱ' && Juns[0] == 'ㅏ' && Jons[3] == 'ㄳ';
    DecomposeAt('갃', 0, 0, 3);
    assert Decompose('갃') == Parts(Some('ㄱ'), Some('ㅏ'), Some('ㄳ'));
    Gak();
    var m := AfterGaks.maker;
    var m2 := m.(jon := 'ㄱ');
    assert MakeHan(m2) == '각';
    RecommitSecondHalfOfGaks();
    var st := Commit(m2.(textStorage := "각"), 'ㅅ', true, Some('갃'));
    var m4 := st.maker.(jon := st.maker.jonFlag, doubleJonFlag := NUL);
    assert m4 == AfterGak.maker.(jonFlag := 'ㄱ', textStorage := "갃");
    assert MakeHan(m4) == '각';
  }

  /**
   * Backspace after 갃 drops the second half of the compound: 각 again. The nested
   * `commit` fuses ㄱ and ㅅ once more, and `jon = jonFlag` then takes the first half back.
   */
  lemma BackspaceSplitsCompound()
    ensures AfterBackspace(AfterGaks) == Some(AfterGak.(maker := AfterGak.maker.(jonFlag := 'ㄱ')))
  {
    DeleteTrailOfGaks();
  }

  /**
   * When the text before the cursor is not what the maker last inserted, as after the
   * user moves the cursor behind a space, a vowel on the pending 간 reaches the trap of
   * :1340: decomposable is still set, so `processInput` keeps the maker.
   */
  lemma MovedCursorTrap()
    ensures CommitTraps(AfterGan.maker, 'ㅣ', true, Some(' '))
    ensures AfterInput(Session(AfterGan.maker, "a ", true), "ㅣ", true).None?
  {
    assert Juns[20] == 'ㅣ';
    VowelsAreNotConsonants('ㅣ');
    var s := Session(AfterGan.maker, "a ", true);
    assert "ㅣ"[..0] == [];
    assert CommitAll(Settle(s, true), "ㅣ") == CommitChar(s, 'ㅣ');
  }

  /** 나 pending after 각, as ㄱ ㅏ ㄱ ㄴ ㅏ leave it. */
  const NaAfterGak: Maker := Initial.(state := 2, cho := 'ㄴ', jun := 'ㅏ', textStorage := "나")

  /** 낟 pending after 각, as ㅏ ㄷ then make it. */
  const NatAfterGak: Maker := Initial.(state := 3, cho := 'ㄴ', jun := 'ㅏ', jon := 'ㄷ', textStorage := "낟")

  /** The flags the as-written backspace on 나 after 각 leaves behind. */
  function WithStaleFlags(m: Maker): Maker {
    m.(jonFlag := 'ㄱ', doubleJonFlag := 'ㄴ')
  }

  lemma Na() ensures Compose('ㄴ', 'ㅏ', NUL) == '나' { ComposeCode('ㄴ', 'ㅏ', NUL); }
  lemma Nat() ensures Compose('ㄴ', 'ㅏ', 'ㄷ') == '낟' { ComposeCode('ㄴ', 'ㅏ', 'ㄷ'); }
  lemma Nak() ensures Compose('ㄴ', 'ㅏ', 'ㄱ') == '낙' { ComposeCode('ㄴ', 'ㅏ', 'ㄱ'); }
  lemma Di() ensures Compose('ㄷ', 'ㅣ', NUL) == '디' { ComposeCode('ㄷ', 'ㅣ', NUL); }

  /**
   * Backspace on 나 after 각 tests whether ㄱ and ㄴ fuse; they do not, and the lead ㄴ
   * goes back alone. As written `doubleJonFlag` keeps ㄴ; corrected it is cleared.
   */
  lemma BackspaceOnNa()
    ensures DeleteVowelAsWritten(NaAfterGak, true, '각') == WithStaleFlags(LoneLead('ㄴ'))
    ensures DeleteVowel(NaAfterGak, true, '각') == LoneLead('ㄴ').(jonFlag := 'ㄱ')
  {
    assert Chos[2] == 'ㄴ' && Jons[1] == 'ㄱ';
    DecomposeAt('각', 0, 0, 1);
  }

  /** ㅏ on the lone ㄴ after 각 makes 나, keeping whatever flags the lead had. */
  lemma RetypeNa(jonFlag: char, doubleJonFlag: char)
    ensures var m := LoneLead('ㄴ').(jonFlag := jonFlag, doubleJonFlag := doubleJonFlag);
      && !CommitTraps(m, 'ㅏ', true, Some('ㄴ'))
      && Commit(m, 'ㅏ', true, Some('ㄴ')).maker == NaAfterGak.(jonFlag := jonFlag, doubleJonFlag := doubleJonFlag)
  {
    assert Chos[2] == 'ㄴ' && Juns[0] == 'ㅏ';
    VowelsAreNotConsonants('ㅏ');
    Na();
    var m := LoneLead('ㄴ').(jonFlag := jonFlag, doubleJonFlag := doubleJonFlag);
    assert Commit(m, 'ㅏ', true, Some('ㄴ')) == CommitLead(m, 'ㅏ');
  }

  /** ㄷ on that 나 becomes its trail, 낟, the flags again kept. */
  lemma RetypeNat(jonFlag: char, doubleJonFlag: char)
    ensures var m := NaAfterGak.(jonFlag := jonFlag, doubleJonFlag := doubleJonFlag);
      && !CommitTraps(m, 'ㄷ', true, Some('나'))
      && Commit(m, 'ㄷ', true, Some('나')).maker == NatAfterGak.(jonFlag := jonFlag, doubleJonFlag := doubleJonFlag)
  {
    assert Chos[2] == 'ㄴ' && Juns[0] == 'ㅏ' && Jons[7] == 'ㄷ';
    Nat();
    DecomposeAt('나', 2, 0, 0);
    var m := NaAfterGak.(jonFlag := jonFlag, doubleJonFlag := doubleJonFlag);
    assert Reenter(m, true, Decompose('나')) == m;
    assert Commit(m, 'ㄷ', true, Some('나')) == CommitVowel(m, 'ㄷ');
  }

  /**
   * As written, ㅣ on that 낟 goes down :1372-1376: the stale `doubleJonFlag` ㄴ leads the
   * new syllable and the stale `jonFlag` ㄱ becomes the first one's trail, 낙니 instead of 나디.
   */
  lemma StaleFlagMisplacesTrail()
    ensures !CommitTraps(WithStaleFlags(NatAfterGak), 'ㅣ', true, Some('낟'))
    ensures Commit(WithStaleFlags(NatAfterGak), 'ㅣ', true, Some('낟')).maker.textStorage == "낙니"
  {
    assert Juns[20] == 'ㅣ';
    VowelsAreNotConsonants('ㅣ');
    NatParts();
    var m := WithStaleFlags(NatAfterGak);
    assert Reenter(m, true, Decompose('낟')) == m;
    StaleFlagSplit();
    assert Commit(m, 'ㅣ', true, Some('낟')) == CommitTrail(m, 'ㅣ', true, '낟');
  }

  lemma NatParts()
    ensures IsHangulSyllable('낟') && Decompose('낟') == Parts(Some('ㄴ'), Some('ㅏ'), Some('ㄷ'))
  {
    assert Chos[2] == 'ㄴ' && Juns[0] == 'ㅏ' && Jons[7] == 'ㄷ';
    DecomposeAt('낟', 2, 0, 7);
  }

  /** The split itself: 낟 followed by 낙 loses its first syllable, and 니 is appended. */
  lemma StaleFlagSplit()
    ensures SplitSyllable(WithStaleFlags(NatAfterGak), 'ㅣ', true, '낟').maker.textStorage == "낙니"
  {
    NatParts();
    assert !IsDoubleJong('ㄷ');
    var m := WithStaleFlags(NatAfterGak);
    var r := SplitSyllable(m, 'ㅣ', true, '낟');
    assert r.maker.textStorage == RemoveFirstHangulSyllable("낟" + [Compose('ㄴ', 'ㅏ', 'ㄱ')]) + [Compose('ㄴ', 'ㅣ', NUL)];
    Nak();
    Ni();
    assert RemoveFirstHangulSyllable("낟낙") == "낙";
  }

  /** With the flag cleared, the same keys give 나디: ㄷ moves on to lead the new syllable. */
  lemma ClearedFlagSplitsTrail()
    ensures !CommitTraps(NatAfterGak.(jonFlag := 'ㄱ'), 'ㅣ', true, Some('낟'))
    ensures Commit(NatAfterGak.(jonFlag := 'ㄱ'), 'ㅣ', true, Some('낟')).maker.textStorage == "나디"
  {
    assert Chos[2] == 'ㄴ' && Chos[3] == 'ㄷ' && Juns[0] == 'ㅏ' && Jons[7] == 'ㄷ' && Juns[20] == 'ㅣ';
    Nat();
    Na();
    Di();
    CommitVowelSplitsTrail(NatAfterGak.(jonFlag := 'ㄱ'), 'ㅣ');
  }
}
