/**
 * The state machine of `HangulMaker` (testKeyboard/KeyboardViewController.swift:1144-1723)
 * as functions on a snapshot of its fields. Every host query the Swift code makes through
 * `delegate` is a parameter here: `dec` is `requestDecomposableState()`, `justPrevious`
 * is `requestJustPreviousCharacter()` (the character before the cursor) and `previous`
 * is `requestPreviousCharacter()` (the one before that). The values the code pushes with
 * `updateDecomposableState` come back as `report`: the last value pushed, or None.
 * The class in hangul_maker.dfy performs the same steps on fields and is proved to
 * agree with these functions.
 */
module Composer {
  import opened Wrappers
  import opened Jamo
  import opened Syllable

  /**
   * The fields of a `HangulMaker`. `state` is 0 (nothing pending), 1 (a lead), 2 (lead
   * and vowel) or 3 (lead, vowel and trail), :1196-1203; `cho`, `jun` and `jon` hold the
   * pending jamo; `jonFlag`, `doubleJonFlag` and `junFlag` are bookkeeping for compound
   * trails and vowels; `textStorage` is what the host is to show for the pending input.
   */
  datatype Maker = Maker(
    state: int,
    cho: char, jun: char, jon: char,
    jonFlag: char, doubleJonFlag: char, junFlag: char,
    textStorage: string)

  /** A freshly made `HangulMaker`: state 0, every jamo field U+0000, nothing stored. */
  const Initial: Maker := Maker(0, NUL, NUL, NUL, NUL, NUL, NUL, "")

  /** The outcome of `commit`: the new fields, the returned code, the last flag pushed. */
  datatype Step = Step(maker: Maker, code: int, report: Option<bool>)

  /** The outcome of `delete`: the new fields and the last flag pushed (by a nested `commit`). */
  datatype Deleted = Deleted(maker: Maker, report: Option<bool>)

  /** All six jamo and flag fields hold U+0000. */
  predicate NoJamo(m: Maker) {
    m.cho == NUL && m.jun == NUL && m.jon == NUL && m.jonFlag == NUL && m.doubleJonFlag == NUL && m.junFlag == NUL
  }

  function Last(s: string): char
    requires |s| > 0
  {
    s[|s| - 1]
  }

  /** `String.removeLast()` guarded by `isEmpty`, and the host's `deleteBackward()` on its buffer. */
  function DropLast(s: string): (r: string)
    ensures s == [] ==> r == []
    ensures s != [] ==> r + [Last(s)] == s
  {
    if s == [] then [] else s[..|s| - 1]
  }

  /** `clear` (:1211-1218): the six jamo and flag fields become U+0000, nothing else changes. */
  function Clear(m: Maker): (r: Maker)
    ensures NoJamo(r) && r.state == m.state && r.textStorage == m.textStorage
  {
    m.(cho := NUL, jun := NUL, jon := NUL, jonFlag := NUL, doubleJonFlag := NUL, junFlag := NUL)
  }

  /**
   * `makeHan` (:1220-1233): nothing in state 0, the lone lead in state 1, and the
   * composed syllable otherwise, which is a precomposed syllable when every slot holds
   * a table member (MakeHanParts says which one).
   */
  function MakeHan(m: Maker): (r: char)
    ensures m.state == 0 ==> r == NUL
    ensures m.state == 1 ==> r == m.cho
    ensures m.state != 0 && m.state != 1 && IsCho(m.cho) && IsJun(m.jun) && IsJon(m.jon) ==> IsHangulSyllable(r)
  {
    if m.state == 0 then NUL
    else if m.state == 1 then m.cho
    else Compose(m.cho, m.jun, m.jon)
  }

  /** In states 2 and 3 `makeHan` builds the syllable whose parts are exactly `cho`, `jun` and `jon`. */
  lemma MakeHanParts(m: Maker)
    requires m.state != 0 && m.state != 1 && IsCho(m.cho) && IsJun(m.jun) && IsJon(m.jon)
    ensures Decompose(MakeHan(m)) == Parts(Some(m.cho), Some(m.jun), if m.jon == NUL then None else Some(m.jon))
  {
    ComposeThenDecompose(m.cho, m.jun, m.jon);
  }

  /**
   * `setStateZero` (:1428-1438): in states 0 and 1 nothing happens; otherwise the pending
   * syllable is appended to `textStorage` and the machine is emptied.
   */
  function SetStateZero(m: Maker): (r: Maker)
    ensures m.state == 0 || m.state == 1 ==> r == m
    ensures m.state != 0 && m.state != 1 ==>
      r.state == 0 && NoJamo(r) && r.textStorage == m.textStorage + [MakeHan(m)]
  {
    if m.state == 0 || m.state == 1 then m
    else Clear(m.(textStorage := m.textStorage + [MakeHan(m)])).(state := 0)
  }

  /**
   * `commitSpace` (:1423-1426): the pending syllable, if any, is finished into
   * `textStorage`, and a space follows it.
   */
  function CommitSpace(m: Maker): (r: Maker)
    ensures m.state == 0 || m.state == 1 ==> r == m.(textStorage := m.textStorage + [' '])
    ensures m.state != 0 && m.state != 1 ==>
      r.state == 0 && NoJamo(r) && r.textStorage == m.textStorage + [MakeHan(m), ' ']
  {
    var z := SetStateZero(m);
    z.(textStorage := z.textStorage + [' '])
  }

  /** `afterDelete` (:1205-1210): whatever the fields were, the maker is as freshly made. */
  function AfterDelete(m: Maker): (r: Maker)
    ensures r == Initial
  {
    Clear(SetStateZero(m).(textStorage := "")).(state := 0)
  }

  /**
   * `doubleJonEnable` (:1655-1714): `jonFlag` and `doubleJonFlag` are always overwritten
   * with the old trail and `c`; the trail becomes the compound exactly when the table
   * has one, and is left alone otherwise. The answer is true exactly then, and the new
   * compound splits back into the old trail and `c`.
   */
  function DoubleJonEnable(m: Maker, c: char): (r: (Maker, bool))
    ensures r.0 == m.(jonFlag := m.jon, doubleJonFlag := c, jon := r.0.jon)
    ensures r.1 <==> DoubleJon(m.jon, c).Some?
    ensures r.1 ==> IsDoubleJong(r.0.jon) && SplitDoubleJong(r.0.jon) == Some((m.jon, c))
    ensures !r.1 ==> r.0.jon == m.jon
  {
    var fused := DoubleJon(m.jon, c);
    FuseThenSplit(m.jon, c);
    (m.(jonFlag := m.jon, doubleJonFlag := c, jon := fused.GetOr(m.jon)), fused.Some?)
  }

  /**
   * The start of `commit` (:1249-1257): when the host says the text is decomposable and
   * the character before the cursor is a syllable, editing resumes on it: state 3 if it
   * has a trail, otherwise state 2 with its lead and vowel.
   */
  function Reenter(m: Maker, dec: bool, p: Parts): Maker
  {
    if dec && p.cho.Some? && p.jung.Some? && p.jong.Some? then m.(state := 3)
    else if dec && p.cho.Some? && p.jung.Some? then m.(cho := p.cho.value, jun := p.jung.value, state := 2)
    else m
  }

  /** The start of `commit` leaves the maker as it is: no syllable before the cursor is resumed. */
  predicate Resting(m: Maker, dec: bool, justPrevious: Option<char>) {
    Reenter(m, dec, Decompose(justPrevious.GetOr(' '))) == m
  }

  /**
   * The one place `commit` traps: `Character(prevJong0)` at :1340 with an empty string,
   * reached for a vowel in state 3 when decomposable is set and the character before the
   * cursor is not a syllable with a trail.
   */
  predicate CommitTraps(m: Maker, c: char, dec: bool, justPrevious: Option<char>) {
    var p := Decompose(justPrevious.GetOr(' '));
    IsJamo(c) && !IsJon(c) && !IsCho(c) && dec && p.jong.None? && Reenter(m, dec, p).state == 3
  }

  /** A maker holding just the lead `c`, every other field U+0000. */
  function LoneLead(c: char): Maker {
    Initial.(state := 1, cho := c, textStorage := [c])
  }

  /**
   * `commit` in state 0 (:1263-1271): a vowel is shown alone and leaves the maker empty,
   * anything else becomes the lead of a new syllable.
   */
  function CommitEmpty(m: Maker, c: char): (r: Step)
    ensures r.code == 0 && r.maker.textStorage == [c] && r.report == Some(true)
    ensures m.state == 0 && IsJun(c) ==> r.maker == Initial.(textStorage := [c])
    ensures !IsJun(c) ==> r.maker.state == 1 && r.maker.cho == c && MakeHan(r.maker) == c
  {
    if IsJun(c) then Step(Clear(SetStateZero(m).(textStorage := [c])), 0, Some(true))
    else Step(m.(state := 1, cho := c, textStorage := [c]), 0, Some(true))
  }

  /** `commit` in state 1 (:1272-1286): a second lead replaces the first, a vowel composes. */
  function CommitLead(m: Maker, c: char): (r: Step)
    ensures m.state == 1 && IsCho(c) ==> r.code == 0 && r.maker == LoneLead(c)
    ensures !IsCho(c) ==>
      && r.code == 1 && r.maker.state == 2 && r.maker.cho == m.cho && r.maker.jun == c
      && r.maker.jon == m.jon && r.maker.textStorage == [Compose(m.cho, c, m.jon)]
    ensures r.code == 0 ==> r.maker.textStorage == [c]
    ensures r.code == 1 ==> |r.maker.textStorage| == 1 && r.maker.state == 2
    ensures r.code == 0 || r.code == 1
    ensures r.report == Some(true)
  {
    if IsCho(c) then Step(Clear(SetStateZero(m).(textStorage := [c])).(cho := c), 0, Some(true))
    else
      var m2 := m.(state := 2, jun := c);
      Step(m2.(textStorage := [MakeHan(m2)]), 1, Some(true))
  }

  /** `commit` in state 2 (:1287-1304): a trail completes the syllable, anything else starts anew. */
  function CommitVowel(m: Maker, c: char): (r: Step)
    ensures IsJon(c) ==>
      && r.code == 1 && r.maker.state == 3 && r.maker.cho == m.cho && r.maker.jun == m.jun
      && r.maker.jon == c && (m.state == 2 ==> r.maker.textStorage == [Compose(m.cho, m.jun, c)])
    ensures !IsJon(c) ==> r.code == 0 && r.maker == if IsCho(c) then LoneLead(c) else Initial.(textStorage := [c])
    ensures r.code == 0 ==> r.maker.textStorage == [c]
    ensures r.code == 1 ==> |r.maker.textStorage| == 1 && r.maker.state == 3
    ensures r.code == 0 || r.code == 1
    ensures r.report == Some(true)
  {
    if IsJon(c) then
      var m2 := m.(jon := c);
      Step(m2.(textStorage := [MakeHan(m2)], state := 3), 1, Some(true))
    else
      var z := Clear(SetStateZero(m).(textStorage := [c])).(state := 0);
      if IsCho(c) then Step(z.(state := 1, cho := c), 0, Some(true))
      else Step(z, 0, Some(true))
  }

  /** :1320-1325 and :1328-1334: finish what is pending and start a new syllable with lead `c`. */
  function Restart(m: Maker, c: char): (r: Maker)
    ensures r == LoneLead(c)
  {
    Clear(SetStateZero(m).(textStorage := [c])).(state := 1, cho := c, textStorage := [c])
  }

  /**
   * :1380-1387: a new lead `temp` and vowel `c` in state 2; the first syllable of the
   * text so far is dropped and the new syllable appended.
   */
  function Finish(z: Maker, temp: char, c: char): (r: Step)
    ensures r.code == 2 && r.maker.state == 2 && |r.maker.textStorage| >= 1
    ensures Last(r.maker.textStorage) == MakeHan(r.maker)
    ensures NoJamo(r.maker.(cho := NUL, jun := NUL)) && r.maker.cho == temp && r.maker.jun == c
    ensures r.maker.textStorage == RemoveFirstHangulSyllable(z.textStorage) + [Compose(temp, c, NUL)]
  {
    var w := Clear(z).(state := 2, cho := temp, jun := c);
    Step(w.(textStorage := RemoveFirstHangulSyllable(z.textStorage) + [MakeHan(w)]), 2, Some(true))
  }

  /**
   * :1341-1352 and :1359-1369: the syllable of `cho1`, `jun1` and `jon1` followed by a new
   * syllable of lead `cho2` and vowel `c`, both in `textStorage`; the maker is left in
   * state 2 on the second.
   */
  function Pair(m: Maker, cho1: char, jun1: char, jon1: char, cho2: char, c: char): (r: Step)
    ensures r.code == 2 && r.maker.state == 2 && |r.maker.textStorage| == 2
    ensures r.maker.cho == cho2 && r.maker.jun == c && r.maker.jon == NUL
    ensures r.maker.textStorage == [Compose(cho1, jun1, jon1), Compose(cho2, c, NUL)]
    ensures r.maker.jonFlag == m.jonFlag && r.maker.doubleJonFlag == m.doubleJonFlag && r.maker.junFlag == m.junFlag
  {
    var m2 := m.(state := 2, cho := cho1, jun := jun1, jon := jon1);
    var m3 := m2.(cho := cho2, jun := c, jon := NUL);
    Step(m3.(textStorage := [MakeHan(m2), MakeHan(m3)]), 2, Some(true))
  }

  /**
   * A vowel in state 3 (:1336-1388): the trail (or the second half of a compound trail)
   * moves over to lead a new syllable with the vowel. With decomposable set the trail is
   * read off the syllable before the cursor and both syllables are stored; otherwise it
   * comes from the fields and the new syllable follows the text so far.
   */
  function SplitSyllable(m: Maker, c: char, dec: bool, prev: char): (r: Step)
    requires dec ==> Decompose(prev).jong.Some?
    ensures r.code == 2 && r.maker.state == 2 && |r.maker.textStorage| >= 1
    ensures r.report == Some(true)
    ensures r.maker.jun == c && r.maker.jon == NUL && Last(r.maker.textStorage) == Compose(r.maker.cho, c, NUL)
    ensures dec && (IsDoubleJong(Decompose(prev).jong.value) || m.doubleJonFlag == NUL) ==>
      var p := Decompose(prev);
      var h := SplitDoubleJong(p.jong.value);
      r.maker.textStorage ==
        if h.Some? then [Compose(p.cho.value, p.jung.value, h.value.0), Compose(h.value.1, c, NUL)]
        else [Compose(p.cho.value, p.jung.value, NUL), Compose(p.jong.value, c, NUL)]
    ensures m.state == 3 && !(dec && (IsDoubleJong(Decompose(prev).jong.value) || m.doubleJonFlag == NUL)) ==>
      var first := if m.doubleJonFlag == NUL then NUL else m.jonFlag;
      var lead := if m.doubleJonFlag == NUL then m.jon else m.doubleJonFlag;
      && r.maker.cho == lead
      && r.maker.textStorage == RemoveFirstHangulSyllable(m.textStorage + [Compose(m.cho, m.jun, first)]) + [Compose(lead, c, NUL)]
  {
    var p := Decompose(prev);
    if dec && IsDoubleJong(p.jong.value) then
      var halves := SplitDoubleJong(p.jong.value).value;
      Pair(m, p.cho.value, p.jung.value, halves.0, halves.1, c)
    else if m.doubleJonFlag == NUL then
      var temp := m.jon;
      var z := SetStateZero(m.(jon := NUL));
      if dec then Pair(z, p.cho.value, p.jung.value, NUL, p.jong.value, c)
      else
        assert m.state == 3 ==> z.textStorage == m.textStorage + [Compose(m.cho, m.jun, NUL)];
        Finish(z, temp, c)
    else
      var temp := m.doubleJonFlag;
      var z := SetStateZero(m.(jon := m.jonFlag));
      assert m.state == 3 ==> z.textStorage == m.textStorage + [Compose(m.cho, m.jun, m.jonFlag)];
      Finish(z, temp, c)
  }

  /** `commit` in state 3 (:1305-1388). */
  function CommitTrail(m: Maker, c: char, dec: bool, prev: char): (r: Step)
    requires m.state == 3
    requires !IsJon(c) && !IsCho(c) && dec ==> Decompose(prev).jong.Some?
    ensures r.code == 0 ==> r.maker.textStorage == [c]
    ensures r.code == 1 ==> |r.maker.textStorage| == 1 && r.maker.state == 3
    ensures r.code == 2 ==> r.maker.state == 2 && |r.maker.textStorage| >= 1
    ensures 0 <= r.code <= 2
    ensures r.report == Some(true)
    ensures DoubleJon(m.jon, c).Some? ==>
      var x := DoubleJon(m.jon, c).value;
      && r.code == 1 && r.maker.state == 3 && r.maker.cho == m.cho && r.maker.jun == m.jun && r.maker.jon == x
      && r.maker.jonFlag == m.jon && r.maker.doubleJonFlag == NUL && r.maker.textStorage == [Compose(m.cho, m.jun, x)]
    ensures IsCho(c) && DoubleJon(m.jon, c).None? ==> r.code == 0 && r.maker == LoneLead(c)
  {
    if IsJon(c) then
      var (m2, fused) := DoubleJonEnable(m, c);
      if fused then Step(m2.(textStorage := [MakeHan(m2)], doubleJonFlag := NUL), 1, Some(true))
      // the test at :1315 asks for state 1 inside state 3 and never holds
      else Step(Restart(m2, c), 0, Some(true))
    else if IsCho(c) then Step(Restart(m, c), 0, Some(true))
    else SplitSyllable(m, c, dec, prev)
  }

  /**
   * `commit` (:1235-1395). A character in none of the tables resets the maker to hold just
   * that character, returns 0 and reports "not decomposable". A jamo always reports
   * "decomposable". The code tells the host what to do before inserting `textStorage`:
   * 0 when `textStorage` is just the key, 1 when the single character before the cursor
   * is replaced by a single one, 2 when a new lead-and-vowel syllable has been split off.
   */
  function Commit(m: Maker, c: char, dec: bool, justPrevious: Option<char>): (r: Step)
    requires !CommitTraps(m, c, dec, justPrevious)
    ensures 0 <= r.code <= 2
    ensures !IsJamo(c) ==> r == Step(Initial.(textStorage := [c]), 0, Some(false))
    ensures IsJamo(c) && 0 <= m.state <= 3 ==> r.report == Some(true)
    ensures 0 <= m.state <= 3 && r.code == 0 ==> r.maker.textStorage == [c]
    ensures r.code == 1 ==> |r.maker.textStorage| == 1 && (r.maker.state == 2 || r.maker.state == 3)
    ensures r.code == 2 ==> r.maker.state == 2 && |r.maker.textStorage| >= 1
  {
    if !IsJamo(c) then Step(Initial.(textStorage := [c]), 0, Some(false))
    else
      var prev := justPrevious.GetOr(' ');
      var m1 := Reenter(m, dec, Decompose(prev));
      if m1.state == 0 then CommitEmpty(m1, c)
      else if m1.state == 1 then CommitLead(m1, c)
      else if m1.state == 2 then CommitVowel(m1, c)
      else if m1.state == 3 then CommitTrail(m1, c, dec, prev)
      else Step(m1, 0, None)
  }

  /**
   * The test `delete` applies to the character two before the cursor before it pulls it
   * back into editing (:1482 and :1532).
   */
  predicate Resumable(dec: bool, prevText: char) {
    dec && prevText != '\n' && prevText != ' ' && IsHangulSyllable(prevText)
  }

  /** `delete` in state 1 (:1487-1526). */
  function DeleteLead(m: Maker, dec: bool, prevText: char): (r: Maker)
    ensures !Resumable(dec, prevText) ==> r == m.(cho := NUL, state := 0, textStorage := "")
    ensures Resumable(dec, prevText) ==> |r.textStorage| == 1 && (r.state == 2 || r.state == 3)
  {
    var p := Decompose(prevText);
    if Resumable(dec, prevText) then
      if IsJon(m.cho) || IsCho(m.cho) then
        var m2 := m.(jon := JonOf(p.jong), cho := p.cho.value, jun := p.jung.value, state := 3);
        m2.(textStorage := [MakeHan(m2)], doubleJonFlag := NUL)
      else
        // :1507-1513; the rest of the branch (:1514-1519) needs `cho` in `jons` and is never reached
        var m2 := m.(cho := p.cho.value, jun := p.jung.value, state := 2);
        m2.(textStorage := [MakeHan(m2)])
    else
      m.(cho := NUL, state := 0, textStorage := "")
  }

  /**
   * `delete` in state 2 as written (:1528-1579). When the syllable before the cursor has a
   * trail, `doubleJonEnable` is called at :1548 only to test whether that trail and the
   * lone lead fuse, but it sets `jonFlag` and `doubleJonFlag` either way, and neither
   * outcome clears them again.
   */
  function DeleteVowelAsWritten(m: Maker, dec: bool, prevText: char): (r: Maker)
    ensures |r.textStorage| == 1
    ensures m.junFlag == NUL && !Resumable(dec, prevText) ==>
      r == m.(jun := NUL, junFlag := NUL, jon := NUL, state := 1, textStorage := [m.cho])
    ensures m.junFlag == NUL && Resumable(dec, prevText) && Decompose(prevText).jong.Some? ==>
      r.jonFlag == Decompose(prevText).jong.value && r.doubleJonFlag == m.cho
  {
    if m.junFlag != NUL then
      var m2 := m.(jun := m.junFlag, junFlag := NUL, state := 2);
      m2.(textStorage := [MakeHan(m2)])
    else if Resumable(dec, prevText) then
      var p := Decompose(prevText);
      if p.jong.None? then
        if IsJon(m.cho) then
          var m2 := m.(jon := m.cho, cho := p.cho.value, jun := p.jung.value, state := 3);
          m2.(textStorage := [MakeHan(m2)])
        else
          m.(state := 1, jun := NUL, textStorage := [m.cho])
      else
        var (m2, merged) := DoubleJonEnable(m.(jon := p.jong.value), m.cho);
        if merged then
          var m3 := m2.(state := 3, cho := p.cho.value, jun := p.jung.value);
          m3.(textStorage := [MakeHan(m3)])
        else
          m2.(jun := NUL, junFlag := NUL, jon := NUL, state := 1, textStorage := [m2.cho])
    else
      m.(jun := NUL, junFlag := NUL, jon := NUL, state := 1, textStorage := [m.cho])
  }

  /**
   * `delete` in state 2, corrected: as written, except that `doubleJonFlag` is cleared
   * afterwards, as `commit` does after its own fuse at :1310. The flag left behind by the
   * test at :1548 otherwise sends a later vowel after a trail down :1372-1376.
   */
  function DeleteVowel(m: Maker, dec: bool, prevText: char): (r: Maker)
    ensures |r.textStorage| == 1 && r.doubleJonFlag == NUL
    ensures m.junFlag == NUL && m.doubleJonFlag == NUL && !Resumable(dec, prevText) ==>
      r == m.(jun := NUL, junFlag := NUL, jon := NUL, state := 1, textStorage := [m.cho])
    ensures r.(doubleJonFlag := m.doubleJonFlag) == DeleteVowelAsWritten(m, dec, prevText).(doubleJonFlag := m.doubleJonFlag)
  {
    DeleteVowelAsWritten(m, dec, prevText).(doubleJonFlag := NUL)
  }

  /**
   * `delete` in state 3 (:1580-1601): a plain trail is dropped; a compound trail loses its
   * second half, which is split off and committed again on top of the first half.
   */
  function DeleteTrail(m: Maker, dec: bool, justPrevious: Option<char>): (r: Deleted)
    requires |m.textStorage| == 1
    ensures |r.maker.textStorage| == 1
    ensures r.report == None || r.report == Some(true)
    ensures !IsDoubleJong(JonOf(Decompose(m.textStorage[0]).jong)) ==>
      r.report == None && r.maker.state == 2 && r.maker.jon == NUL && r.maker.jonFlag == NUL
  {
    var q := Decompose(m.textStorage[0]);
    if !IsDoubleJong(JonOf(q.jong)) then
      var m2 := m.(jon := NUL, jonFlag := NUL, state := 2);
      Deleted(m2.(textStorage := [MakeHan(m2)]), None)
    else
      var halves := SplitDoubleJong(q.jong.value).value;
      var m2 := m.(state := 3, cho := q.cho.value, jun := q.jung.value, jon := halves.0);
      var m3 := m2.(textStorage := [MakeHan(m2)]);
      DoubleJongIsTrailOnly(q.jong.value);
      var st := Commit(m3, halves.1, dec, justPrevious);
      var m4 := st.maker.(jon := st.maker.jonFlag, doubleJonFlag := NUL);
      Deleted(m4.(textStorage := [MakeHan(m4)]), st.report)
  }

  /**
   * `delete` (:1474-1603): undoes the last step. In state 3 the source needs `textStorage`
   * to be exactly one character (`Character(textStorage)`, :1581).
   */
  function Delete(m: Maker, dec: bool, previous: Option<char>, justPrevious: Option<char>): (r: Deleted)
    requires m.state == 3 ==> |m.textStorage| == 1
    ensures m.state == 0 ==> r == Deleted(m.(textStorage := DropLast(m.textStorage)), None)
    ensures m.state == 1 || m.state == 2 ==> r.report == None
    ensures m.state == 2 || m.state == 3 ==> |r.maker.textStorage| == 1
    ensures m.state == 1 ==> r.maker == DeleteLead(m, dec, previous.GetOr(NUL))
    ensures m.state == 2 ==> r.maker == DeleteVowel(m, dec, previous.GetOr(NUL))
    ensures m.state == 3 ==> r == DeleteTrail(m, dec, justPrevious)
  {
    var prevText := previous.GetOr(NUL);
    if m.state == 0 then Deleted(m.(textStorage := DropLast(m.textStorage)), None)
    else if m.state == 1 then Deleted(DeleteLead(m, dec, prevText), None)
    else if m.state == 2 then Deleted(DeleteVowel(m, dec, prevText), None)
    else if m.state == 3 then DeleteTrail(m, dec, justPrevious)
    else Deleted(m, None)
  }
}
