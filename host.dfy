/**
 * The host side of the composer in testKeyboard/KeyboardViewController.swift:
 * `processInput` (:1012-1034) and `deleteBackward` (:1036-1083) of
 * `KeyboardViewController`, together with the answers the controller gives `HangulMaker`
 * as its delegate (:594-646). The document is the text before the cursor
 * (`documentContextBeforeInput`): the proxy's `deleteBackward()` drops its last character
 * and `insertText` appends to it.
 */
module Host {
  import opened Wrappers
  import opened Jamo
  import opened Syllable
  import opened Composer
  import opened MakerInvariant
  import Machine

  /** The controller's `currentHangul`, the document before the cursor and `isDecomposable`. */
  datatype Session = Session(maker: Maker, doc: string, isDecomposable: bool)

  /** `requestJustPreviousCharacter` (:625-646): the character just before the cursor. */
  function JustPrevious(doc: string): Option<char> {
    if doc == [] then None else Some(Last(doc))
  }

  /**
   * `requestPreviousCharacter` (:603-624): the character before that one, and nil when the
   * document holds fewer than two characters.
   */
  function Previous(doc: string): Option<char> {
    if |doc| < 2 then None else Some(doc[|doc| - 2])
  }

  /** `updateDecomposableState` (:594-597) applied to every value pushed: the last one stays. */
  function Pushed(flag: bool, report: Option<bool>): bool {
    report.GetOr(flag)
  }

  predicate EndsWith(doc: string, t: string) {
    |t| <= |doc| && doc[|doc| - |t|..] == t
  }

  /**
   * One pass of the loop at :1018-1024: `commit` asks the host for the flag and the
   * character before the cursor, and a result of 1 or 2 removes that character from the
   * document. None exactly where `commit` traps.
   */
  function CommitChar(s: Session, c: char): (r: Option<Session>)
    ensures r.None? <==> CommitTraps(s.maker, c, s.isDecomposable, JustPrevious(s.doc))
    ensures r.Some? ==> |r.value.doc| <= |s.doc| <= |r.value.doc| + 1 && r.value.doc == s.doc[..|r.value.doc|]
    ensures r.Some? && !IsJamo(c) ==> r.value == Session(Initial.(textStorage := [c]), s.doc, false)
  {
    var jp := JustPrevious(s.doc);
    if CommitTraps(s.maker, c, s.isDecomposable, jp) then None
    else
      var st := Commit(s.maker, c, s.isDecomposable, jp);
      var doc := if st.code == 1 || st.code == 2 then DropLast(s.doc) else s.doc;
      Some(Session(st.maker, doc, Pushed(s.isDecomposable, st.report)))
  }

  /** The whole loop of :1018-1024, one character after the other; None once one traps. */
  function CommitAll(s: Session, input: string): Option<Session>
    decreases |input|
  {
    if input == [] then Some(s)
    else
      match CommitAll(s, input[..|input| - 1])
      case None => None
      case Some(t) => CommitChar(t, input[|input| - 1])
  }

  /** Where the whole loop gets through, so does every shorter run of it. */
  lemma {:induction false} CommitAllPrefix(s: Session, input: string, i: int)
    requires 0 <= i <= |input| && CommitAll(s, input).Some?
    ensures CommitAll(s, input[..i]).Some?
  {
    if i < |input| {
      assert CommitAll(s, input[..|input| - 1]).Some?;
      assert input[..|input| - 1][..i] == input[..i];
      CommitAllPrefix(s, input[..|input| - 1], i);
    } else {
      assert input[..i] == input;
    }
  }

  /**
   * :1013-1017: when the cursor has moved and the text is not decomposable, the maker
   * forgets what was pending. The controller's own `delegate` is never assigned, so its
   * `requestDecomposableState() != true` always holds and the push at :1016 does nothing.
   */
  function Settle(s: Session, cursorMoved: bool): (r: Session)
    ensures r.doc == s.doc && r.isDecomposable == s.isDecomposable
    ensures cursorMoved && !s.isDecomposable ==> r.maker == Initial
    ensures !(cursorMoved && !s.isDecomposable) ==> r == s
  {
    if cursorMoved && !s.isDecomposable then s.(maker := AfterDelete(s.maker)) else s
  }

  /**
   * `processInput` (:1012-1034): settle, commit every character, then insert what the
   * maker holds. The document always ends with the maker's `textStorage` afterwards.
   */
  function AfterInput(s: Session, input: string, cursorMoved: bool): (r: Option<Session>)
    ensures r.Some? ==> EndsWith(r.value.doc, r.value.maker.textStorage)
    ensures r.None? <==> CommitAll(Settle(s, cursorMoved), input).None?
  {
    match CommitAll(Settle(s, cursorMoved), input)
    case None => None
    case Some(t) =>
      if t.maker.textStorage != "" then Some(t.(doc := t.doc + t.maker.textStorage)) else Some(t)
  }

  /**
   * The edit of the document after `delete` (:1040-1082), chosen by the state before
   * (`prevState`) and after it: how many characters go and whether `textStorage` is put
   * back. The assignment `currentHangul.state = 3` at :1067 does not change the state.
   */
  function DeleteEdit(prevState: int, now: int, doc: string, text: string): (r: string)
    ensures prevState == 0 ==> r == DropLast(doc)
    ensures prevState == 1 && now == 0 ==> r == DropLast(doc)
    ensures prevState == 1 && (now == 2 || now == 3) ==> r == DropLast(DropLast(doc)) + text
    ensures prevState == 2 && now == 3 ==> r == DropLast(DropLast(doc)) + text
    ensures (prevState == 2 && now == 1) || (prevState == 3 && (now == 2 || now == 3)) ==> r == DropLast(doc) + text
    ensures 1 <= prevState <= 3 && now != 0 ==> EndsWith(r, text)
  {
    if prevState == 0 then DropLast(doc)
    else if prevState == 1 then
      if now == 0 then DropLast(doc)
      else if now == 2 then DropLast(DropLast(doc)) + text
      else if now == 3 then DropLast(DropLast(doc)) + text
      else doc + text
    else if prevState == 2 then
      if now == 1 then DropLast(doc) + text
      else if now == 3 then DropLast(DropLast(doc)) + text
      else doc + text
    else if prevState == 3 then
      if now == 2 then DropLast(doc) + text
      else if now == 3 then DropLast(doc) + text
      else doc + text
    else doc
  }

  /**
   * `deleteBackward` (:1036-1083): `delete` on the maker, then the edit of the document.
   * None exactly where `delete` traps (`Character(textStorage)` at :1581 in state 3 with a
   * `textStorage` that is not one character).
   */
  function AfterBackspace(s: Session): (r: Option<Session>)
    ensures r.None? <==> s.maker.state == 3 && |s.maker.textStorage| != 1
  {
    if s.maker.state == 3 && |s.maker.textStorage| != 1 then None
    else
      var d := Delete(s.maker, s.isDecomposable, Previous(s.doc), JustPrevious(s.doc));
      var doc := DeleteEdit(s.maker.state, d.maker.state, s.doc, d.maker.textStorage);
      Some(Session(d.maker, doc, Pushed(s.isDecomposable, d.report)))
  }

  /**
   * What holds between two key presses: the maker is `Valid`, the document ends with what
   * the maker holds, and a pending trail comes with the decomposable flag set.
   */
  predicate Synced(s: Session) {
    && Valid(s.maker)
    && EndsWith(s.doc, s.maker.textStorage)
    && (s.maker.state == 3 ==> s.isDecomposable)
  }

  /** A controller over any document starts synced. */
  lemma StartSynced(doc: string)
    ensures Synced(Session(Initial, doc, false))
  {
    assert doc[|doc|..] == [];
  }

  /**
   * `Synced` but for `doubleJonFlag`, which the state-2 `delete` as written can leave set
   * (see `Composer.DeleteVowelAsWritten`).
   */
  predicate SyncedButFlag(s: Session) {
    Synced(s.(maker := s.maker.(doubleJonFlag := NUL)))
  }

  /**
   * In a synced session `commit` never traps: before the cursor sits the pending syllable.
   * The trap does not look at `doubleJonFlag`, so this holds whatever the flag holds.
   */
  lemma {:induction false} SyncedCommitDoesNotTrap(s: Session, c: char)
    requires SyncedButFlag(s)
    ensures !CommitTraps(s.maker, c, s.isDecomposable, JustPrevious(s.doc))
  {
    var m := s.maker.(doubleJonFlag := NUL);
    assert Synced(s.(maker := m));
    var p := Decompose(JustPrevious(s.doc).GetOr(' '));
    if m.state == 3 {
      assert JustPrevious(s.doc) == Some(m.textStorage[0]);
      PendingSyllableParts(m);
      assert p.cho.Some? && p.jung.Some?;
    }
    assert Reenter(m, s.isDecomposable, p).state == 3 ==> p.jong.Some?;
  }

  /** A commit in a synced session leaves the flag set whenever a trail is pending. */
  lemma {:induction false} CommitChar3Flag(s: Session, c: char)
    requires Synced(s) && !CommitTraps(s.maker, c, s.isDecomposable, JustPrevious(s.doc))
    ensures var r := CommitChar(s, c).value; r.maker.state == 3 ==> r.isDecomposable
  {
  }

  /**
   * Typing one key (the keyboard sends one character per key) in a synced session never
   * traps and leaves the session synced. `cursorMoved` only says what the cursor test of
   * :1014 sees: the text before the cursor is the same either way, so a move that
   * puts other text before the cursor is not covered (see `Scenarios.MovedCursorTrap`).
   */
  lemma {:induction false} ProcessKeyKeepsSynced(s: Session, c: char, cursorMoved: bool)
    requires Synced(s) && IsKey(c)
    ensures AfterInput(s, [c], cursorMoved).Some?
    ensures Synced(AfterInput(s, [c], cursorMoved).value)
  {
    var s1 := Settle(s, cursorMoved);
    assert Synced(s1) by {
      if s1 != s {
        StartSynced(s.doc);
      }
    }
    SyncedCommitDoesNotTrap(s1, c);
    CommitPreservesValid(s1.maker, c, s1.isDecomposable, JustPrevious(s1.doc));
    CommitChar3Flag(s1, c);
    assert [c][..0] == [];
    var t := CommitChar(s1, c).value;
    assert CommitAll(s1, [c]) == Some(t);
  }

  lemma DropLastEndsWith(doc: string, t: string)
    requires EndsWith(doc, t)
    ensures EndsWith(DropLast(doc), DropLast(t))
  {
  }

  /** A trail pending after `delete` comes with the flag set, when it did before. */
  lemma {:induction false} DeleteKeepsFlag(m: Maker, dec: bool, previous: Option<char>, justPrevious: Option<char>)
    requires Valid(m) && (m.state == 3 ==> dec)
    ensures var d := Delete(m, dec, previous, justPrevious); d.maker.state == 3 ==> Pushed(dec, d.report)
  {
  }

  /** Backspace in a synced session never traps and leaves the session synced. */
  lemma {:induction false} DeleteBackwardKeepsSynced(s: Session)
    requires Synced(s)
    ensures AfterBackspace(s).Some?
    ensures Synced(AfterBackspace(s).value)
  {
    var m := s.maker;
    var previous, justPrevious := Previous(s.doc), JustPrevious(s.doc);
    DeletePreservesValid(m, s.isDecomposable, previous, justPrevious);
    DeleteKeepsFlag(m, s.isDecomposable, previous, justPrevious);
    var d := Delete(m, s.isDecomposable, previous, justPrevious);
    var doc := DeleteEdit(m.state, d.maker.state, s.doc, d.maker.textStorage);
    assert AfterBackspace(s) == Some(Session(d.maker, doc, Pushed(s.isDecomposable, d.report)));
    if m.state == 0 {
      DropLastEndsWith(s.doc, m.textStorage);
    } else if d.maker.state == 0 {
      assert doc[|doc|..] == [];
    }
  }

  /**
   * `KeyboardViewController` (:648-1083), reduced to what the composer touches: the
   * maker it drives, the document before the cursor, and `isDecomposable`.
   */
  class KeyboardViewController {
    const currentHangul: Machine.HangulMaker
    var doc: string
    var isDecomposable: bool

    function Current(): Session
      reads this, currentHangul
    {
      Session(currentHangul.Snapshot(), doc, isDecomposable)
    }

    /** A fresh controller (:655, :664-665) over a document that already holds `text`. */
    constructor(text: string)
      ensures Current() == Session(Initial, text, false)
    {
      currentHangul := new Machine.HangulMaker();
      doc := text;
      isDecomposable := false;
    }

    /** `processInput` (:1012-1034); `cursorMoved` is `hasCursorPositionChanged()` (:742-748). */
    method ProcessInput(input: string, cursorMoved: bool)
      requires AfterInput(Current(), input, cursorMoved).Some?
      modifies this, currentHangul
      ensures Some(Current()) == AfterInput(old(Current()), input, cursorMoved)
    {
      if cursorMoved && !isDecomposable {
        currentHangul.AfterDelete();
      }
      ghost var s1 := Current();
      assert s1 == Settle(old(Current()), cursorMoved);
      for i := 0 to |input|
        invariant CommitAll(s1, input[..i]) == Some(Current())
      {
        CommitAllPrefix(s1, input, i + 1);
        assert input[..i + 1][..i] == input[..i];
        ghost var t := Current();
        assert CommitChar(t, input[i]).Some?;
        CommitOne(input[i]);
        assert Some(Current()) == CommitChar(t, input[i]);
      }
      assert input[..|input|] == input;
      if currentHangul.textStorage != "" {
        doc := doc + currentHangul.textStorage;
      }
    }

    /** The body of the loop at :1018-1024. */
    method CommitOne(c: char)
      requires CommitChar(Current(), c).Some?
      modifies this, currentHangul
      ensures Some(Current()) == CommitChar(old(Current()), c)
    {
      var code, report := currentHangul.Commit(c, isDecomposable, JustPrevious(doc));
      if report.Some? {
        isDecomposable := report.value;
      }
      if code == 1 {
        doc := DropLast(doc);
      } else if code == 2 {
        doc := DropLast(doc);
      }
    }

    /** `deleteBackward` (:1036-1083). */
    method DeleteBackward()
      requires AfterBackspace(Current()).Some?
      modifies this, currentHangul
      ensures Some(Current()) == AfterBackspace(old(Current()))
    {
      var prevState := currentHangul.state;
      var report := currentHangul.Delete(isDecomposable, Previous(doc), JustPrevious(doc));
      if report.Some? {
        isDecomposable := report.value;
      }
      EditAfterDelete(prevState, currentHangul.state);
    }

    /** The edit of the document at :1040-1082, once `delete` has run. */
    method EditAfterDelete(prevState: int, now: int)
      modifies this
      ensures doc == DeleteEdit(prevState, now, old(doc), currentHangul.textStorage)
      ensures isDecomposable == old(isDecomposable)
    {
      if prevState == 0 {
        doc := DropLast(doc);
      } else if prevState == 1 {
        if now == 0 {
          doc := DropLast(doc);
        } else if now == 2 {
          doc := DropLast(DropLast(doc));
          doc := doc + currentHangul.textStorage;
        } else if now == 3 {
          doc := DropLast(DropLast(doc));
          doc := doc + currentHangul.textStorage;
        } else {
          doc := doc + currentHangul.textStorage;
        }
      } else if prevState == 2 {
        if now == 1 {
          doc := DropLast(doc);
          doc := doc + currentHangul.textStorage;
        } else if now == 3 {
          doc := DropLast(DropLast(doc));
          doc := doc + currentHangul.textStorage;
        } else {
          doc := doc + currentHangul.textStorage;
        }
      } else if prevState == 3 {
        if now == 2 {
          doc := DropLast(doc);
          doc := doc + currentHangul.textStorage;
        } else if now == 3 {
          doc := DropLast(doc);
          doc := doc + currentHangul.textStorage;
        } else {
          doc := doc + currentHangul.textStorage;
        }
      }
    }
  }
}
