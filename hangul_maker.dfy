/**
 * `HangulMaker` (testKeyboard/KeyboardViewController.swift:1144-1723) as a class whose
 * methods update its fields step by step, as the Swift methods do. Each method is proved
 * to leave the fields as the matching function of module Composer says, so everything
 * proved about those functions (module MakerInvariant, the round trips of module
 * Syllable) holds of the class. The host queries made through `delegate` are parameters;
 * the values pushed with `updateDecomposableState` come back as `report`.
 */
module Machine {
  import opened Wrappers
  import opened Jamo
  import opened Syllable
  import Composer

  class HangulMaker {
    var state: int
    var cho: char
    var jun: char
    var jon: char
    var jonFlag: char
    var doubleJonFlag: char
    var junFlag: char
    var textStorage: string

    /** The fields, as the value the functions of module Composer work on. */
    function Snapshot(): Composer.Maker
      reads this
    {
      Composer.Maker(state, cho, jun, jon, jonFlag, doubleJonFlag, junFlag, textStorage)
    }

    /** The field initialisers of :1145-1150 and :1203-1204. */
    constructor()
      ensures Snapshot() == Composer.Initial
    {
      state := 0;
      cho := NUL;
      jun := NUL;
      jon := NUL;
      jonFlag := NUL;
      doubleJonFlag := NUL;
      junFlag := NUL;
      textStorage := "";
    }

    /** `clear` (:1211-1218). */
    method Clear()
      modifies this
      ensures Snapshot() == Composer.Clear(old(Snapshot()))
    {
      cho := NUL;
      jun := NUL;
      jon := NUL;
      jonFlag := NUL;
      doubleJonFlag := NUL;
      junFlag := NUL;
    }

    /** `makeHan` (:1220-1233): the character the pending jamo make. */
    method MakeHan() returns (r: char)
      ensures r == Composer.MakeHan(Snapshot())
    {
      if state == 0 {
        return NUL;
      }
      if state == 1 {
        return cho;
      }
      var choIndex := IndexOf(Chos, cho);
      var junIndex := IndexOf(Juns, jun);
      var jonIndex := IndexOf(Jons, jon);
      ChoIndexIsFirstIndex(cho);
      JunIndexIsFirstIndex(jun);
      JonIndexIsFirstIndex(jon);
      var makeResult := SBase + NCount * choIndex + TCount * junIndex + jonIndex;
      r := makeResult as char;
    }

    /** `setStateZero` (:1428-1438). */
    method SetStateZero()
      modifies this
      ensures Snapshot() == Composer.SetStateZero(old(Snapshot()))
    {
      if state == 0 {
        return;
      }
      if state == 1 {
        state := 1;
        return;
      }
      var h := MakeHan();
      textStorage := textStorage + [h];
      state := 0;
      Clear();
    }

    /** `commitSpace` (:1423-1426). */
    method CommitSpace()
      modifies this
      ensures Snapshot() == Composer.CommitSpace(old(Snapshot()))
    {
      SetStateZero();
      textStorage := textStorage + [' '];
    }

    /** `afterDelete` (:1205-1210). */
    method AfterDelete()
      modifies this
      ensures Snapshot() == Composer.AfterDelete(old(Snapshot()))
    {
      SetStateZero();
      textStorage := "";
      Clear();
      state := 0;
    }

    /** `doubleJonEnable` (:1655-1714). */
    method DoubleJonEnable(c: char) returns (fused: bool)
      modifies this
      ensures (Snapshot(), fused) == Composer.DoubleJonEnable(old(Snapshot()), c)
    {
      jonFlag := jon;
      doubleJonFlag := c;
      match jon
      case 'ㄱ' =>
        if c == 'ㅅ' { jon := 'ㄳ'; return true; }
        return false;
      case 'ㄴ' =>
        if c == 'ㅈ' { jon := 'ㄵ'; return true; }
        if c == 'ㅎ' { jon := 'ㄶ'; return true; }
        return false;
      case 'ㄹ' =>
        if c == 'ㄱ' { jon := 'ㄺ'; return true; }
        if c == 'ㅁ' { jon := 'ㄻ'; return true; }
        if c == 'ㅂ' { jon := 'ㄼ'; return true; }
        if c == 'ㅅ' { jon := 'ㄽ'; return true; }
        if c == 'ㅌ' { jon := 'ㄾ'; return true; }
        if c == 'ㅍ' { jon := 'ㄿ'; return true; }
        if c == 'ㅎ' { jon := 'ㅀ'; return true; }
        return false;
      case 'ㅂ' =>
        if c == 'ㅅ' { jon := 'ㅄ'; return true; }
        return false;
      case _ =>
        return false;
    }

    /**
     * `removeFirstHangulSyllable` (:1396-1420): the loop steps over characters outside
     * U+AC00 ... U+D7A3 until it meets a syllable.
     */
    method RemoveFirstHangulSyllable(s: string) returns (r: string)
      ensures r == Syllable.RemoveFirstHangulSyllable(s)
    {
      if s == [] {
        return s;
      }
      var index := 0;
      if IsHangulSyllable(s[0]) {
        index := 1;
      } else {
        while index < |s| && !IsHangulSyllable(s[index])
          invariant 0 <= index <= |s|
          invariant SkipNonSyllables(s[index..]) == SkipNonSyllables(s)
        {
          assert s[index..][1..] == s[index + 1..];
          index := index + 1;
        }
      }
      if index == |s| {
        return "";
      }
      r := s[index..];
    }

    /** `commit` in state 0 (:1260-1271). */
    method CommitEmpty(c: char) returns (code: int, report: Option<bool>)
      modifies this
      ensures var st := Composer.CommitEmpty(old(Snapshot()), c);
        Snapshot() == st.maker && code == st.code && report == st.report
    {
      if IsJun(c) {
        SetStateZero();
        textStorage := [c];
        Clear();
      } else {
        state := 1;
        cho := c;
        textStorage := [cho];
      }
      return 0, Some(true);
    }

    /** `commit` in state 1 (:1272-1286). */
    method CommitLead(c: char) returns (code: int, report: Option<bool>)
      requires state == 1
      modifies this
      ensures var st := Composer.CommitLead(old(Snapshot()), c);
        Snapshot() == st.maker && code == st.code && report == st.report
    {
      if IsCho(c) {
        SetStateZero();
        textStorage := [c];
        Clear();
        cho := c;
      } else {
        state := 2;
        jun := c;
        var h := MakeHan();
        textStorage := [h];
        return 1, Some(true);
      }
      return 0, Some(true);
    }

    /** `commit` in state 2 (:1287-1304). */
    method CommitVowel(c: char) returns (code: int, report: Option<bool>)
      requires state == 2
      modifies this
      ensures var st := Composer.CommitVowel(old(Snapshot()), c);
        Snapshot() == st.maker && code == st.code && report == st.report
    {
      if IsJon(c) {
        jon := c;
        var h := MakeHan();
        textStorage := [h];
        state := 3;
        return 1, Some(true);
      } else {
        SetStateZero();
        textStorage := [c];
        Clear();
        state := 0;
        if IsCho(c) {
          state := 1;
          cho := c;
        }
      }
      return 0, Some(true);
    }

    /** :1320-1325 and :1328-1334: finish what is pending and start over with lead `c`. */
    method Restart(c: char)
      modifies this
      ensures Snapshot() == Composer.Restart(old(Snapshot()), c)
    {
      SetStateZero();
      textStorage := [c];
      Clear();
      state := 1;
      cho := c;
      textStorage := [cho];
    }

    /** :1341-1352 and :1359-1369: two syllables, the second a new lead and vowel. */
    method Pair(cho1: char, jun1: char, jon1: char, cho2: char, c: char) returns (code: int, report: Option<bool>)
      modifies this
      ensures var st := Composer.Pair(old(Snapshot()), cho1, jun1, jon1, cho2, c);
        Snapshot() == st.maker && code == st.code && report == st.report
    {
      ghost var m := Snapshot();
      state := 2;
      cho := cho1;
      jun := jun1;
      jon := jon1;
      ghost var m2 := Snapshot();
      assert m2 == m.(state := 2, cho := cho1, jun := jun1, jon := jon1);
      var h := MakeHan();
      assert h == Composer.MakeHan(m2);
      textStorage := [h];
      cho := cho2;
      jun := c;
      jon := NUL;
      ghost var m3 := Snapshot();
      assert m3 == m2.(cho := cho2, jun := c, jon := NUL, textStorage := [h]);
      var h2 := MakeHan();
      assert h2 == Composer.MakeHan(m3);
      textStorage := textStorage + [h2];
      assert textStorage == [h, h2];
      return 2, Some(true);
    }

    /** :1380-1387: a new syllable of lead `temp` and vowel `c` after the text so far. */
    method Finish(temp: char, c: char) returns (code: int, report: Option<bool>)
      modifies this
      ensures var st := Composer.Finish(old(Snapshot()), temp, c);
        Snapshot() == st.maker && code == st.code && report == st.report
    {
      state := 2;
      Clear();
      cho := temp;
      jun := c;
      textStorage := RemoveFirstHangulSyllable(textStorage);
      var h := MakeHan();
      textStorage := textStorage + [h];
      return 2, Some(true);
    }

    /** A vowel in state 3 (:1336-1388). */
    method SplitSyllable(c: char, dec: bool, prev: char) returns (code: int, report: Option<bool>)
      requires dec ==> Decompose(prev).jong.Some?
      modifies this
      ensures var st := Composer.SplitSyllable(old(Snapshot()), c, dec, prev);
        Snapshot() == st.maker && code == st.code && report == st.report
    {
      var p := Decompose(prev);
      var temp := NUL;
      if dec && IsDoubleJong(p.jong.value) {
        var halves := SplitDoubleJong(p.jong.value).value;
        code, report := Pair(p.cho.value, p.jung.value, halves.0, halves.1, c);
        return;
      }
      if doubleJonFlag == NUL {
        temp := jon;
        jon := NUL;
        SetStateZero();
        if dec {
          temp := p.jong.value;
          code, report := Pair(p.cho.value, p.jung.value, NUL, temp, c);
          return;
        }
      } else {
        temp := doubleJonFlag;
        jon := jonFlag;
        SetStateZero();
      }
      code, report := Finish(temp, c);
    }

    /** `commit` in state 3 (:1305-1388). */
    method CommitTrail(c: char, dec: bool, prev: char) returns (code: int, report: Option<bool>)
      requires state == 3
      requires !IsJon(c) && !IsCho(c) && dec ==> Decompose(prev).jong.Some?
      modifies this
      ensures var st := Composer.CommitTrail(old(Snapshot()), c, dec, prev);
        Snapshot() == st.maker && code == st.code && report == st.report
    {
      if IsJon(c) {
        var fused := DoubleJonEnable(c);
        if fused {
          var h := MakeHan();
          textStorage := [h];
          doubleJonFlag := NUL;
          return 1, Some(true);
        }
        // the test at :1315 asks for state 1 inside state 3 and never holds
        Restart(c);
      } else if IsCho(c) {
        Restart(c);
      } else {
        code, report := SplitSyllable(c, dec, prev);
        return;
      }
      return 0, Some(true);
    }

    /**
     * `commit` (:1235-1395). `dec` is the host's decomposable flag and `justPrevious` the
     * character before the cursor. The returned code and the last value pushed to the host
     * are those of `Composer.Commit`, and the fields end as it says.
     */
    method Commit(c: char, dec: bool, justPrevious: Option<char>) returns (code: int, report: Option<bool>)
      requires !Composer.CommitTraps(Snapshot(), c, dec, justPrevious)
      modifies this
      ensures var st := Composer.Commit(old(Snapshot()), c, dec, justPrevious);
        Snapshot() == st.maker && code == st.code && report == st.report
    {
      var prev := justPrevious.GetOr(' ');
      var p := Decompose(prev);
      if !IsJamo(c) {
        SetStateZero();
        textStorage := [c];
        Clear();
        state := 0;
        return 0, Some(false);
      }
      if dec {
        if p.cho.Some? && p.jung.Some? && p.jong.Some? {
          state := 3;
        } else if p.cho.Some? && p.jung.Some? {
          cho := p.cho.value;
          jun := p.jung.value;
          state := 2;
        }
      }
      assert Snapshot() == Composer.Reenter(old(Snapshot()), dec, p);
      if state == 0 {
        code, report := CommitEmpty(c);
      } else if state == 1 {
        code, report := CommitLead(c);
      } else if state == 2 {
        code, report := CommitVowel(c);
      } else if state == 3 {
        code, report := CommitTrail(c, dec, prev);
      } else {
        code, report := 0, None;
      }
    }

    /** `delete` in state 1 (:1487-1526). */
    method DeleteLead(dec: bool, prevText: char)
      requires state == 1
      modifies this
      ensures Snapshot() == Composer.DeleteLead(old(Snapshot()), dec, prevText)
    {
      ghost var m := Snapshot();
      var p := Decompose(prevText);
      if dec && prevText != '\n' && prevText != ' ' && IsHangulSyllable(prevText) {
        if IsJon(cho) || IsCho(cho) {
          jon := JonOf(p.jong);
          cho := p.cho.value;
          jun := p.jung.value;
          state := 3;
          ghost var m2 := Snapshot();
          assert m2 == m.(jon := JonOf(p.jong), cho := p.cho.value, jun := p.jung.value, state := 3);
          var h := MakeHan();
          textStorage := [h];
          doubleJonFlag := NUL;
          assert Snapshot() == m2.(textStorage := [Composer.MakeHan(m2)], doubleJonFlag := NUL);
        } else {
          // :1507-1513; the rest of the branch (:1514-1519) needs `cho` in `jons` and is never reached
          cho := p.cho.value;
          jun := p.jung.value;
          state := 2;
          ghost var m2 := Snapshot();
          var h := MakeHan();
          textStorage := [h];
          assert Snapshot() == m2.(textStorage := [Composer.MakeHan(m2)]);
        }
      } else {
        cho := NUL;
        state := 0;
        textStorage := "";
      }
    }

    /**
     * `delete` in state 2 (:1528-1579), with `doubleJonFlag` cleared at the end as in
     * `Composer.DeleteVowel`.
     */
    method DeleteVowel(dec: bool, prevText: char)
      requires state == 2
      modifies this
      ensures Snapshot() == Composer.DeleteVowel(old(Snapshot()), dec, prevText)
    {
      var p := Decompose(prevText);
      if junFlag != NUL {
        jun := junFlag;
        junFlag := NUL;
        state := 2;
        var h := MakeHan();
        textStorage := [h];
      } else if dec && prevText != '\n' && prevText != ' ' && IsHangulSyllable(prevText) {
        if p.jong.None? {
          if IsJon(cho) {
            jon := cho;
            cho := p.cho.value;
            jun := p.jung.value;
            state := 3;
            var h := MakeHan();
            textStorage := [h];
          } else {
            state := 1;
            jun := NUL;
            textStorage := [cho];
          }
        } else {
          jon := p.jong.value;
          var merged := DoubleJonEnable(cho);
          if merged {
            state := 3;
            cho := p.cho.value;
            jun := p.jung.value;
            var h := MakeHan();
            textStorage := [h];
            doubleJonFlag := NUL;
            return;
          }
          jun := NUL;
          junFlag := NUL;
          jon := NUL;
          state := 1;
          textStorage := [cho];
        }
      } else {
        jun := NUL;
        junFlag := NUL;
        jon := NUL;
        state := 1;
        textStorage := [cho];
      }
      doubleJonFlag := NUL;
    }

    /**
     * `delete` in state 3 (:1580-1601) when the pending trail is a compound: the first half
     * becomes the trail again and the second half goes through `commit`, which may push a
     * flag to the host.
     */
    method DeleteCompoundTrail(dec: bool, justPrevious: Option<char>) returns (report: Option<bool>)
      requires |textStorage| == 1 && IsDoubleJong(JonOf(Decompose(textStorage[0]).jong))
      modifies this
      ensures var d := Composer.DeleteTrail(old(Snapshot()), dec, justPrevious);
        Snapshot() == d.maker && report == d.report
    {
      ghost var m := Snapshot();
      var q := Decompose(textStorage[0]);
      var halves := SplitDoubleJong(q.jong.value).value;
      assert DoubleJon(halves.0, halves.1).Some?;
      state := 3;
      cho := q.cho.value;
      jun := q.jung.value;
      jon := halves.0;
      ghost var m2 := Snapshot();
      assert m2 == m.(state := 3, cho := q.cho.value, jun := q.jung.value, jon := halves.0);
      var h := MakeHan();
      textStorage := [h];
      ghost var m3 := Snapshot();
      assert m3 == m2.(textStorage := [Composer.MakeHan(m2)]);
      var code;
      code, report := Commit(halves.1, dec, justPrevious);
      ghost var st := Composer.Commit(m3, halves.1, dec, justPrevious);
      jon := jonFlag;
      doubleJonFlag := NUL;
      ghost var m4 := Snapshot();
      assert m4 == st.maker.(jon := st.maker.jonFlag, doubleJonFlag := NUL);
      var h2 := MakeHan();
      textStorage := [h2];
      assert Composer.DeleteTrail(m, dec, justPrevious) == Composer.Deleted(m4.(textStorage := [Composer.MakeHan(m4)]), st.report);
    }

    /** `delete` in state 3 (:1580-1601). */
    method DeleteTrail(dec: bool, justPrevious: Option<char>) returns (report: Option<bool>)
      requires |textStorage| == 1
      modifies this
      ensures var d := Composer.DeleteTrail(old(Snapshot()), dec, justPrevious);
        Snapshot() == d.maker && report == d.report
    {
      var q := Decompose(textStorage[0]);
      var validPrevJong := JonOf(q.jong);
      if !IsDoubleJong(validPrevJong) {
        jon := NUL;
        jonFlag := NUL;
        state := 2;
        ghost var m2 := Snapshot();
        var h := MakeHan();
        textStorage := [h];
        assert Snapshot() == m2.(textStorage := [Composer.MakeHan(m2)]);
        report := None;
      } else {
        report := DeleteCompoundTrail(dec, justPrevious);
      }
    }

    /**
     * `delete` (:1474-1603). `previous` is the character two before the cursor and
     * `justPrevious` the one just before it; in state 3 `textStorage` must be exactly
     * one character (`Character(textStorage)`, :1581).
     */
    method Delete(dec: bool, previous: Option<char>, justPrevious: Option<char>) returns (report: Option<bool>)
      requires state == 3 ==> |textStorage| == 1
      modifies this
      ensures var d := Composer.Delete(old(Snapshot()), dec, previous, justPrevious);
        Snapshot() == d.maker && report == d.report
    {
      var prevText := previous.GetOr(NUL);
      report := None;
      if state == 0 {
        if textStorage != [] {
          textStorage := textStorage[..|textStorage| - 1];
        }
      } else if state == 1 {
        DeleteLead(dec, prevText);
      } else if state == 2 {
        DeleteVowel(dec, prevText);
      } else if state == 3 {
        report := DeleteTrail(dec, justPrevious);
      }
    }
  }
}
