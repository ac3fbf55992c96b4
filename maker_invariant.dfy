/**
 * What the fields of a `HangulMaker` satisfy between calls when it is fed the keys of the
 * keyboard, and the proof that `commit` and `delete` keep it so. Among its consequences:
 * `textStorage` ends with the pending syllable, `makeHan` in states 2 and 3 never meets
 * a jamo outside its table, and `delete` never finds more than one character in state 3.
 */
module MakerInvariant {
  import opened Wrappers
  import opened Jamo
  import opened Syllable
  import opened Composer

  predicate Valid(m: Maker) {
    && 0 <= m.state <= 3
    && m.junFlag == NUL
    && IsJon(m.jonFlag)
    && m.doubleJonFlag == NUL
    && (m.state != 3 ==> m.jon == NUL)
    && (m.state == 1 ==> IsCho(m.cho) && m.textStorage == [m.cho])
    && (m.state >= 2 ==> IsCho(m.cho) && IsJun(m.jun) && |m.textStorage| >= 1 && Last(m.textStorage) == MakeHan(m))
    && (m.state == 3 ==> IsJon(m.jon) && |m.textStorage| == 1)
  }

  /** The flag fields as `Valid` wants them, whatever the state. */
  predicate FlagsValid(m: Maker) {
    m.junFlag == NUL && IsJon(m.jonFlag) && m.doubleJonFlag == NUL
  }

  /** A key that is a jamo and not a vowel is a leading consonant. */
  lemma KeyConsonantIsLead(c: char)
    requires IsKey(c) && IsJamo(c) && !IsJun(c)
    ensures IsCho(c)
  {
  }

  /** Commit in state 0 and in state 1 keeps `Valid`. */
  lemma {:induction false} CommitEmptyOrLeadValid(m: Maker, c: char)
    requires Valid(m) && (m.state == 0 || m.state == 1) && IsKey(c) && IsJamo(c)
    ensures m.state == 0 ==> Valid(CommitEmpty(m, c).maker)
    ensures m.state == 1 ==> Valid(CommitLead(m, c).maker)
  {
    VowelsAreNotConsonants(c);
    if !IsJun(c) {
      KeyConsonantIsLead(c);
    }
  }

  /** Commit in state 2 keeps `Valid`, whichever lead and vowel are pending. */
  lemma {:induction false} CommitVowelValid(m: Maker, c: char)
    requires m.state == 2 && FlagsValid(m) && IsCho(m.cho) && IsJun(m.jun) && IsKey(c) && IsJamo(c)
    ensures Valid(CommitVowel(m, c).maker)
  {
    if !IsJon(c) {
      var z := Clear(SetStateZero(m).(textStorage := [c])).(state := 0);
      assert NoJamo(z) && z.textStorage == [c];
      if IsCho(c) {
        assert CommitVowel(m, c).maker == z.(state := 1, cho := c);
      } else {
        assert CommitVowel(m, c).maker == z;
      }
    }
  }

  /** A vowel in state 3 (with decomposable set) leaves a valid state 2. */
  lemma {:induction false} SplitSyllableValid(m: Maker, c: char, dec: bool, prev: char)
    requires m.state == 3 && FlagsValid(m) && IsJun(c)
    requires dec && Decompose(prev).jong.Some?
    ensures Valid(SplitSyllable(m, c, dec, prev).maker)
  {
    var p := Decompose(prev);
    var x := p.jong.value;
    if IsDoubleJong(x) {
      var halves := SplitDoubleJong(x).value;
      assert DoubleJon(halves.0, halves.1).Some?;
    } else if m.doubleJonFlag == NUL {
      SingleTrailIsLead(x);
    }
  }

  /** Commit in state 3 keeps `Valid`; a vowel needs decomposable set. */
  lemma {:induction false} CommitTrailValid(m: Maker, c: char, dec: bool, prev: char)
    requires m.state == 3 && FlagsValid(m) && IsJon(m.jon)
    requires m.jon != NUL ==> IsCho(m.cho) && IsJun(m.jun)
    requires IsKey(c) && IsJamo(c)
    requires IsJun(c) ==> dec && Decompose(prev).jong.Some?
    ensures Valid(CommitTrail(m, c, dec, prev).maker)
  {
    VowelsAreNotConsonants(c);
    if IsJon(c) {
      var (m2, fused) := DoubleJonEnable(m, c);
      if fused {
        DoubleJongIsTrailOnly(m2.jon);
        assert CommitTrail(m, c, dec, prev).maker == m2.(textStorage := [MakeHan(m2)], doubleJonFlag := NUL);
      } else {
        KeyConsonantIsLead(c);
        assert CommitTrail(m, c, dec, prev).maker == Restart(m2, c);
      }
    } else if IsCho(c) {
      assert CommitTrail(m, c, dec, prev).maker == Restart(m, c);
    } else {
      SplitSyllableValid(m, c, dec, prev);
    }
  }

  /**
   * `commit` keeps `Valid` for every keyboard key, provided it does not trap and a vowel
   * typed on a complete syllable comes with decomposable set, as it always does in the host.
   */
  lemma {:induction false} CommitPreservesValid(m: Maker, c: char, dec: bool, justPrevious: Option<char>)
    requires Valid(m) && IsKey(c) && !CommitTraps(m, c, dec, justPrevious)
    requires m.state == 3 && IsJun(c) ==> dec
    ensures Valid(Commit(m, c, dec, justPrevious).maker)
  {
    if IsJamo(c) {
      var prev := justPrevious.GetOr(' ');
      var p := Decompose(prev);
      var m1 := Reenter(m, dec, p);
      VowelsAreNotConsonants(c);
      if m1.state == 0 || m1.state == 1 {
        assert m1 == m;
        CommitEmptyOrLeadValid(m1, c);
      } else if m1.state == 2 {
        CommitVowelValid(m1, c);
      } else {
        assert m1 == m.(state := 3);
        CommitTrailValid(m1, c, dec, prev);
      }
    }
  }

  /** Delete in state 1 keeps `Valid`. */
  lemma {:induction false} DeleteLeadValid(m: Maker, dec: bool, prevText: char)
    requires Valid(m) && m.state == 1
    ensures Valid(DeleteLead(m, dec, prevText))
  {
  }

  /** Delete in state 2 keeps `Valid`. */
  lemma {:induction false} DeleteVowelValid(m: Maker, dec: bool, prevText: char)
    requires Valid(m) && m.state == 2
    ensures Valid(DeleteVowel(m, dec, prevText)) && DeleteVowel(m, dec, prevText).state != 0
  {
    if Resumable(dec, prevText) {
      var p := Decompose(prevText);
      if p.jong.Some? {
        var (m2, merged) := DoubleJonEnable(m.(jon := p.jong.value), m.cho);
        if merged {
          DoubleJongIsTrailOnly(m2.jon);
        }
      }
    }
  }

  /**
   * The nested `commit` of :1596: the second half of a compound trail, committed on top
   * of the first half, always ends in state 3 with a valid lead, vowel and `jonFlag`.
   */
  lemma {:induction false} RecommitSecondHalf(m: Maker, f: char, s: char, dec: bool, justPrevious: Option<char>)
    requires m.state == 3 && FlagsValid(m) && IsCho(m.cho) && IsJun(m.jun) && m.jon == f
    requires DoubleJon(f, s).Some?
    ensures !CommitTraps(m, s, dec, justPrevious)
    ensures var r := Commit(m, s, dec, justPrevious).maker;
      r.state == 3 && IsCho(r.cho) && IsJun(r.jun) && r.junFlag == NUL && IsJon(r.jonFlag)
  {
    var prev := justPrevious.GetOr(' ');
    var m1 := Reenter(m, dec, Decompose(prev));
    if m1.state == 3 {
      assert m1 == m;
      var (m2, fused) := DoubleJonEnable(m1, s);
      assert fused;
    }
  }

  /** In state 3 the one character of `textStorage` decomposes into `cho`, `jun` and `jon`. */
  lemma PendingSyllableParts(m: Maker)
    requires Valid(m) && m.state == 3
    ensures Decompose(m.textStorage[0]) == Parts(Some(m.cho), Some(m.jun), if m.jon == NUL then None else Some(m.jon))
  {
    MakeHanParts(m);
  }

  /** Delete in state 3 keeps `Valid`. */
  lemma {:induction false} DeleteTrailValid(m: Maker, dec: bool, justPrevious: Option<char>)
    requires Valid(m) && m.state == 3
    ensures Valid(DeleteTrail(m, dec, justPrevious).maker) && DeleteTrail(m, dec, justPrevious).maker.state != 0
  {
    var q := Decompose(m.textStorage[0]);
    if IsDoubleJong(JonOf(q.jong)) {
      DoubleJongIsTrailOnly(JonOf(q.jong));
      PendingSyllableParts(m);
      var halves := SplitDoubleJong(m.jon).value;
      var m2 := m.(state := 3, cho := m.cho, jun := m.jun, jon := halves.0);
      var m3 := m2.(textStorage := [MakeHan(m2)]);
      assert DoubleJon(halves.0, halves.1).Some?;
      RecommitSecondHalf(m3, halves.0, halves.1, dec, justPrevious);
    }
  }

  /**
   * `delete` keeps `Valid`, whatever the host answers, and empties the maker only when
   * it removes the lone lead, so that nothing is left to show.
   */
  lemma {:induction false} DeletePreservesValid(m: Maker, dec: bool, previous: Option<char>, justPrevious: Option<char>)
    requires Valid(m)
    ensures var r := Delete(m, dec, previous, justPrevious).maker;
      Valid(r) && (m.state != 0 && r.state == 0 ==> m.state == 1 && r.textStorage == [])
  {
    var prevText := previous.GetOr(NUL);
    if m.state == 1 {
      DeleteLeadValid(m, dec, prevText);
    } else if m.state == 2 {
      DeleteVowelValid(m, dec, prevText);
    } else if m.state == 3 {
      DeleteTrailValid(m, dec, justPrevious);
    }
  }
}
