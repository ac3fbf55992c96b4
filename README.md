# Hangul composer of testKeyboard, in Dafny

This project models the Korean syllable composer of the custom iOS keyboard in
testKeyboard/KeyboardViewController.swift. It covers two parts:

- The class `HangulMaker`, a four-state machine (0 nothing pending, 1 a lead consonant,
  2 lead and vowel, 3 lead, vowel and trail). It turns Hangul Compatibility Jamo, typed
  one key at a time, into precomposed syllables. `commit` takes one key and returns 0, 1
  or 2. `delete` undoes one step and can pull the syllable before the cursor back into
  editing.
- The two controller methods that apply its results to the document: `processInput` and
  `deleteBackward`.

The syllable arithmetic is the Hangul syllable composition and decomposition of The
Unicode Standard, chapter 3, section 3.12 ("Conjoining Jamo Behavior"): SBase U+AC00,
NCount 588, TCount 28, last syllable U+D7A3.

Modules:

- `Wrappers`: `Option`.
- `Jamo`: the tables `chos`, `juns` and `jons`, the compound-trail and compound-vowel
  tables, and the index lookups of `makeHan`.
- `Syllable`: `decomposeKoreanCharacter`, the arithmetic of `makeHan`,
  `removeFinalConsonant`, `isHangulSyllable` and `removeFirstHangulSyllable`, with both
  round trips.
- `Composer`: every method of `HangulMaker` as a function on a value `Maker` that holds
  its fields. The delegate queries are parameters:
  - `dec` is `requestDecomposableState()`;
  - `justPrevious` is the character just before the cursor;
  - `previous` is the character before that.

  The flags the code pushes with `updateDecomposableState` come back as `report`.
- `Machine`: the class `HangulMaker`. Its fields are those of the Swift class, and its
  methods update them step by step as the Swift methods do, with one exception: `delete`
  in state 2 clears `doubleJonFlag` at the end, the correction described under Findings.
  Each method is proved to end in the state the matching `Composer` function gives.
- `MakerInvariant`: `Valid`, which holds between key presses. `commit` (for keyboard keys)
  and `delete` preserve it.
- `Transitions`: what single `commit`/`delete` steps do to the pending syllable, stated
  through the syllable arithmetic.
- `Host`: a session is the maker, the document before the cursor and the controller's
  `isDecomposable`.
  - `AfterInput` and `AfterBackspace` specify `processInput` and `deleteBackward`.
  - The class `KeyboardViewController` performs them on fields and is proved to match.
  - `Synced` is preserved by every key press and every backspace, with the cursor where
    the keyboard left it.
- `Scenarios`: the key sequences ㄱ ㅏ ㄴ ㅣ and ㄱ ㅏ ㄱ ㅅ, and backspace after them, on
  an empty document, and the steps behind the finding below.

Where the controller's behaviour depends on the code rather than on the intent, the code
is followed:

- The controller's own `delegate` property is never assigned, so
  `delegate?.requestDecomposableState() != true` always holds at :1014, and the push at
  :1016 does nothing.
- The document receives `textStorage` only after every character of the input has been
  committed (:1018-1030).

## Model

All source paths are in testKeyboard/KeyboardViewController.swift.

| member | source | states |
|---|---|---|
| Jamo.ChosAreChoCodes | testKeyboard/KeyboardViewController.swift:1152 | the leading-consonant glyphs of `decomposeKoreanCharacter` are the 19 code points of `chos`, entry for entry |
| Jamo.JunsAreJunCodes | testKeyboard/KeyboardViewController.swift:1153 | the vowel glyphs are the 21 code points of `juns`, entry for entry |
| Jamo.JonsAreJonCodes | testKeyboard/KeyboardViewController.swift:1154 | the trailing glyphs are the 28 code points of `jons` (U+0000 first), entry for entry |
| Jamo.Membership | testKeyboard/KeyboardViewController.swift:1152-1154 | membership in each table agrees with the entry-by-entry case split |
| Jamo.IndexOf | testKeyboard/KeyboardViewController.swift:1227-1229 | `firstIndex(of:) ?? -1`: -1 exactly when absent, otherwise the first position holding the value |
| Jamo.ChoIndexIsFirstIndex | testKeyboard/KeyboardViewController.swift:1227 | the case-split lead index equals the first index in `chos`, or -1 |
| Jamo.JunIndexIsFirstIndex | testKeyboard/KeyboardViewController.swift:1228 | the case-split vowel index equals the first index in `juns`, or -1 |
| Jamo.JonIndexIsFirstIndex | testKeyboard/KeyboardViewController.swift:1229 | the case-split trail index equals the first index in `jons`, or -1 |
| Jamo.VowelsAreNotConsonants | testKeyboard/KeyboardViewController.swift:1152-1154 | no vowel is in `chos` or `jons` |
| Jamo.DoubleJon | testKeyboard/KeyboardViewController.swift:1655-1714 | a fused compound comes only from a non-null trail and a consonant that can also lead, and it is one of the 11 compounds |
| Jamo.SplitDoubleJong | testKeyboard/KeyboardViewController.swift:1453-1468 | a pair exactly for the 11 characters `isDoubleJong` accepts (:1448-1452), and the pair fuses back into the compound |
| Jamo.FuseThenSplit | testKeyboard/KeyboardViewController.swift:1453-1468 | whatever two trails fuse into splits back into those two |
| Jamo.DoubleJongIsTrailOnly | testKeyboard/KeyboardViewController.swift:1448-1452 | every compound trail is in `jons`, is not U+0000 and is not in `chos` |
| Jamo.SingleTrailIsLead | testKeyboard/KeyboardViewController.swift:1152-1154 | every other non-null trail is also in `chos` |
| Jamo.DoubleJun | testKeyboard/KeyboardViewController.swift:1607-1653 | a compound vowel comes only from two vowels with `junAvailable` (:1716-1718) of the first, and is one of the 7 of `isDoubleJun` (:1720-1722); a compound vowel typed second never fuses |
| Syllable.SyllableIndices | testKeyboard/KeyboardViewController.swift:1189-1192 | the quotient and remainders by 588 and 28 recover the three table indices |
| Syllable.PartsAt | testKeyboard/KeyboardViewController.swift:1194 | table entries are present for lead and vowel; trail index 0 is "" and any other trail is a non-null `jons` entry |
| Syllable.Decompose | testKeyboard/KeyboardViewController.swift:1179-1195 | ("", "", "") exactly outside U+AC00...U+D7A3; inside, lead and vowel are always table members and the trail is absent or a non-null trail |
| Syllable.DecomposeAt | testKeyboard/KeyboardViewController.swift:1189-1194 | the character at SBase + 588 i + 28 j + k is a syllable that decomposes into entries i, j, k |
| Syllable.SyllableCode | testKeyboard/KeyboardViewController.swift:1227-1231 | the code `makeHan` computes never exceeds U+D7A3 nor falls below U+AC00 - 617, and is a syllable for three table members |
| Syllable.Compose | testKeyboard/KeyboardViewController.swift:1231-1232 | the character built is a precomposed syllable when all three jamo are table members |
| Syllable.ComposeThenDecompose | testKeyboard/KeyboardViewController.swift:1179-1195 | round trip: three table members compose into the syllable that decomposes into exactly them |
| Syllable.DecomposeThenCompose | testKeyboard/KeyboardViewController.swift:1220-1233 | round trip: composing a syllable's parts gives the syllable back |
| Syllable.RemoveFinalConsonant | testKeyboard/KeyboardViewController.swift:1440-1447 | for a syllable, the result is the syllable with the same lead and vowel and no trail |
| Syllable.SkipNonSyllables | testKeyboard/KeyboardViewController.swift:1407-1411 | the longest suffix that starts at a syllable, after a prefix free of syllables |
| Syllable.RemoveFirstHangulSyllable | testKeyboard/KeyboardViewController.swift:1396-1420 | a suffix of the input: one leading syllable dropped, or everything before the first syllable dropped |
| Composer.DropLast | testKeyboard/KeyboardViewController.swift:1482-1486 | the empty string stays empty; otherwise the result followed by the last character is the input |
| Composer.Clear | testKeyboard/KeyboardViewController.swift:1211-1218 | all six jamo and flag fields become U+0000, state and `textStorage` unchanged |
| Composer.MakeHan | testKeyboard/KeyboardViewController.swift:1220-1233 | U+0000 in state 0, `cho` in state 1, a precomposed syllable in states 2 and 3 when the fields are table members |
| Composer.MakeHanParts | testKeyboard/KeyboardViewController.swift:1220-1233 | in states 2 and 3 the syllable built decomposes into exactly `cho`, `jun`, `jon` |
| Composer.SetStateZero | testKeyboard/KeyboardViewController.swift:1428-1438 | no change in states 0 and 1; otherwise the pending syllable is appended and the maker is emptied |
| Composer.CommitSpace | testKeyboard/KeyboardViewController.swift:1423-1426 | a space after `textStorage`, preceded by the pending syllable in states 2 and 3, which then end in state 0 |
| Composer.AfterDelete | testKeyboard/KeyboardViewController.swift:1205-1210 | whatever the fields, the maker is as freshly made (so a second call changes nothing) |
| Composer.DoubleJonEnable | testKeyboard/KeyboardViewController.swift:1655-1714 | `jonFlag` and `doubleJonFlag` always overwritten; true exactly when the trail fuses with `c`, and the new trail then splits back into the old trail and `c`; `jon` unchanged otherwise |
| Composer.CommitEmpty | testKeyboard/KeyboardViewController.swift:1260-1271 | a vowel is shown alone, returns 0 and leaves the maker empty; any other key becomes the lead of a new syllable in state 1 and is what `makeHan` gives; reports decomposable |
| Composer.CommitLead | testKeyboard/KeyboardViewController.swift:1272-1286 | a second lead replaces the first (0, a lone lead); a vowel returns 1 in state 2 with the lead kept, the vowel as `jun` and the one syllable of the two stored |
| Composer.CommitVowel | testKeyboard/KeyboardViewController.swift:1287-1304 | a trail returns 1 in state 3 with lead and vowel kept and the syllable with that trail stored; a lead returns 0 as a lone lead; anything else returns 0 with just the key and an empty maker |
| Composer.Restart | testKeyboard/KeyboardViewController.swift:1320-1334 | the maker holds only the key, as a lead in state 1; every other jamo and flag field is U+0000 |
| Composer.Finish | testKeyboard/KeyboardViewController.swift:1380-1387 | returns 2 in state 2 on lead `temp` and vowel `c`, flags cleared; `textStorage` is the text so far without its first syllable, then the new syllable |
| Composer.Pair | testKeyboard/KeyboardViewController.swift:1341-1369 | returns 2 in state 2 on the second syllable; `textStorage` is exactly the two syllables; the flags are untouched |
| Composer.SplitSyllable | testKeyboard/KeyboardViewController.swift:1336-1388 | returns 2 in state 2 with the vowel and no trail, `textStorage` ending with the new syllable; with decomposable set and a compound trail or no `doubleJonFlag`, the two syllables from the syllable before the cursor (split compound, or trail moved on); otherwise the branch at :1372-1387, with its exact `textStorage` |
| Composer.CommitTrail | testKeyboard/KeyboardViewController.swift:1305-1388 | a trail that fuses returns 1 on the compound, `jonFlag` the old trail, the one syllable stored; a lead that does not fuse restarts as a lone lead with 0; a vowel is split off (code 2) |
| Composer.Commit | testKeyboard/KeyboardViewController.swift:1235-1395 | a non-jamo resets the maker to hold just it, returns 0, reports not decomposable; a jamo reports decomposable; what codes 0, 1 and 2 mean for `textStorage` |
| Composer.DeleteLead | testKeyboard/KeyboardViewController.swift:1487-1526 | not resumable: state 0 and nothing stored; resumable: one character in state 2 or 3 |
| Composer.DeleteVowelAsWritten | testKeyboard/KeyboardViewController.swift:1527-1579 | one character stored; not resumable: state 1 with the lead; after a syllable with a trail, `jonFlag` is that trail and `doubleJonFlag` the lead, fused or not |
| Composer.DeleteVowel | testKeyboard/KeyboardViewController.swift:1527-1579 | corrected (see Findings): as written except that `doubleJonFlag` is cleared; one character stored; not resumable: state 1 with `textStorage` the lead |
| Composer.DeleteTrail | testKeyboard/KeyboardViewController.swift:1580-1601 | one character stored; a single trail: state 2 without trail, no flag pushed |
| Composer.Delete | testKeyboard/KeyboardViewController.swift:1474-1603 | state 0 drops the last stored character only; states 1, 2 and 3 are exactly `DeleteLead`, `DeleteVowel` and `DeleteTrail` on the characters before the cursor; states 1 and 2 push no flag |
| MakerInvariant.KeyConsonantIsLead | testKeyboard/KeyboardViewController.swift:1152-1154 | a key that is a jamo and no vowel is a leading consonant |
| MakerInvariant.CommitEmptyOrLeadValid | testKeyboard/KeyboardViewController.swift:1260-1286 | `commit` in states 0 and 1 keeps `Valid` |
| MakerInvariant.CommitVowelValid | testKeyboard/KeyboardViewController.swift:1287-1304 | `commit` in state 2 keeps `Valid` |
| MakerInvariant.SplitSyllableValid | testKeyboard/KeyboardViewController.swift:1336-1388 | a vowel in state 3, decomposable set, leaves a valid state 2 |
| MakerInvariant.CommitTrailValid | testKeyboard/KeyboardViewController.swift:1305-1388 | `commit` in state 3 keeps `Valid` |
| MakerInvariant.CommitPreservesValid | testKeyboard/KeyboardViewController.swift:1235-1395 | `commit` of any keyboard key keeps `Valid` |
| MakerInvariant.DeleteLeadValid | testKeyboard/KeyboardViewController.swift:1487-1526 | `delete` in state 1 keeps `Valid` |
| MakerInvariant.DeleteVowelValid | testKeyboard/KeyboardViewController.swift:1527-1579 | `delete` in state 2, corrected, keeps `Valid` (which includes `doubleJonFlag` U+0000) and never empties the maker |
| MakerInvariant.RecommitSecondHalf | testKeyboard/KeyboardViewController.swift:1594-1597 | the nested `commit` of a compound's second half never traps and ends in state 3 |
| MakerInvariant.PendingSyllableParts | testKeyboard/KeyboardViewController.swift:1580-1586 | in state 3 the stored character decomposes into `cho`, `jun`, `jon` |
| MakerInvariant.DeleteTrailValid | testKeyboard/KeyboardViewController.swift:1580-1601 | `delete` in state 3 keeps `Valid` and never empties the maker |
| MakerInvariant.DeletePreservesValid | testKeyboard/KeyboardViewController.swift:1474-1603 | `delete` keeps `Valid`, and empties the maker only when removing a lone lead, leaving nothing stored |
| Machine.HangulMaker.constructor | testKeyboard/KeyboardViewController.swift:1145-1150 | the fields start as `Composer.Initial` |
| Machine.HangulMaker.Clear | testKeyboard/KeyboardViewController.swift:1211-1218 | the fields end as `Composer.Clear` says |
| Machine.HangulMaker.MakeHan | testKeyboard/KeyboardViewController.swift:1220-1233 | computes `Composer.MakeHan` of the fields through the `firstIndex` lookups |
| Machine.HangulMaker.SetStateZero | testKeyboard/KeyboardViewController.swift:1428-1438 | the fields end as `Composer.SetStateZero` says |
| Machine.HangulMaker.CommitSpace | testKeyboard/KeyboardViewController.swift:1423-1426 | the fields end as `Composer.CommitSpace` says |
| Machine.HangulMaker.AfterDelete | testKeyboard/KeyboardViewController.swift:1205-1210 | the fields end as `Composer.AfterDelete` says |
| Machine.HangulMaker.DoubleJonEnable | testKeyboard/KeyboardViewController.swift:1655-1714 | fields and answer as `Composer.DoubleJonEnable` says |
| Machine.HangulMaker.RemoveFirstHangulSyllable | testKeyboard/KeyboardViewController.swift:1396-1420 | the index loop returns `Syllable.RemoveFirstHangulSyllable` of its input |
| Machine.HangulMaker.CommitEmpty | testKeyboard/KeyboardViewController.swift:1260-1271 | fields, code and pushed flag as `Composer.CommitEmpty` says |
| Machine.HangulMaker.CommitLead | testKeyboard/KeyboardViewController.swift:1272-1286 | fields, code and pushed flag as `Composer.CommitLead` says |
| Machine.HangulMaker.CommitVowel | testKeyboard/KeyboardViewController.swift:1287-1304 | fields, code and pushed flag as `Composer.CommitVowel` says |
| Machine.HangulMaker.Restart | testKeyboard/KeyboardViewController.swift:1320-1334 | fields as `Composer.Restart` says |
| Machine.HangulMaker.Pair | testKeyboard/KeyboardViewController.swift:1341-1369 | fields, code and pushed flag as `Composer.Pair` says |
| Machine.HangulMaker.Finish | testKeyboard/KeyboardViewController.swift:1380-1387 | fields, code and pushed flag as `Composer.Finish` says |
| Machine.HangulMaker.SplitSyllable | testKeyboard/KeyboardViewController.swift:1336-1388 | fields, code and pushed flag as `Composer.SplitSyllable` says |
| Machine.HangulMaker.CommitTrail | testKeyboard/KeyboardViewController.swift:1305-1388 | fields, code and pushed flag as `Composer.CommitTrail` says |
| Machine.HangulMaker.Commit | testKeyboard/KeyboardViewController.swift:1235-1395 | fields, code and pushed flag as `Composer.Commit` says |
| Machine.HangulMaker.DeleteLead | testKeyboard/KeyboardViewController.swift:1487-1526 | fields as `Composer.DeleteLead` says |
| Machine.HangulMaker.DeleteVowel | testKeyboard/KeyboardViewController.swift:1527-1579 | fields as `Composer.DeleteVowel` says (the corrected `delete` of Findings) |
| Machine.HangulMaker.DeleteCompoundTrail | testKeyboard/KeyboardViewController.swift:1587-1600 | fields and pushed flag as `Composer.DeleteTrail` says, for a compound trail |
| Machine.HangulMaker.DeleteTrail | testKeyboard/KeyboardViewController.swift:1580-1601 | fields and pushed flag as `Composer.DeleteTrail` says |
| Machine.HangulMaker.Delete | testKeyboard/KeyboardViewController.swift:1474-1603 | fields and pushed flag as `Composer.Delete` says |
| Host.CommitChar | testKeyboard/KeyboardViewController.swift:1018-1024 | None exactly where `commit` traps; the document loses at most its last character; a non-jamo leaves the document and clears the flag |
| Host.CommitAllPrefix | testKeyboard/KeyboardViewController.swift:1018-1024 | where the loop gets through an input, it gets through each of its prefixes |
| Host.Settle | testKeyboard/KeyboardViewController.swift:1013-1017 | a moved cursor without the decomposable flag empties the maker; otherwise nothing changes |
| Host.AfterInput | testKeyboard/KeyboardViewController.swift:1012-1034 | afterwards the document ends with the maker's `textStorage`; None exactly when a commit traps |
| Host.DeleteEdit | testKeyboard/KeyboardViewController.swift:1040-1082 | the characters removed and reinserted for each pair of states before and after `delete`; the document then ends with `textStorage` |
| Host.AfterBackspace | testKeyboard/KeyboardViewController.swift:1036-1083 | None exactly when state 3 holds other than one character (:1581) |
| Host.StartSynced | testKeyboard/KeyboardViewController.swift:1203-1204 | a fresh maker over any document is synced |
| Host.SyncedCommitDoesNotTrap | testKeyboard/KeyboardViewController.swift:1249-1257 | in a session synced but for `doubleJonFlag` (so also after the `delete` as written) `commit` never reaches the trap at :1340 |
| Host.CommitChar3Flag | testKeyboard/KeyboardViewController.swift:1246-1270 | after a commit in a synced session a pending trail comes with the flag set |
| Host.ProcessKeyKeepsSynced | testKeyboard/KeyboardViewController.swift:1012-1034 | one key in a synced session, with the text before the cursor as the keyboard left it, never traps and leaves the session synced |
| Host.DropLastEndsWith | testKeyboard/KeyboardViewController.swift:1482-1486 | dropping the last character of both keeps the document ending with `textStorage` |
| Host.DeleteKeepsFlag | testKeyboard/KeyboardViewController.swift:1580-1601 | after `delete`, a pending trail comes with the flag set |
| Host.DeleteBackwardKeepsSynced | testKeyboard/KeyboardViewController.swift:1036-1083 | backspace in a synced session, with the text before the cursor as the keyboard left it, never traps and leaves it synced |
| Host.KeyboardViewController.constructor | testKeyboard/KeyboardViewController.swift:651-665 | a fresh maker, the given document, the flag unset |
| Host.KeyboardViewController.ProcessInput | testKeyboard/KeyboardViewController.swift:1012-1034 | the loop over the input ends in the session `AfterInput` gives |
| Host.KeyboardViewController.CommitOne | testKeyboard/KeyboardViewController.swift:1019-1024 | one pass of the loop ends in the session `CommitChar` gives |
| Host.KeyboardViewController.DeleteBackward | testKeyboard/KeyboardViewController.swift:1036-1083 | ends in the session `AfterBackspace` gives |
| Host.KeyboardViewController.EditAfterDelete | testKeyboard/KeyboardViewController.swift:1040-1082 | the document ends as `DeleteEdit` says, the flag unchanged |
| Transitions.MakeHanRebuilds | testKeyboard/KeyboardViewController.swift:1220-1233 | with the fields set to a syllable's parts, `makeHan` in state 2 or 3 returns that syllable |
| Transitions.SplitThenFuse | testKeyboard/KeyboardViewController.swift:1655-1714 | with the first half of a compound as trail, `doubleJonEnable` of the second returns true and makes the compound the trail |
| Transitions.DeleteTrailDropsTrail | testKeyboard/KeyboardViewController.swift:1580-1586 | `delete` in state 3 with a single trail gives state 2 and `removeFinalConsonant` of the syllable |
| Transitions.DeleteCompoundKeepsFirstHalf | testKeyboard/KeyboardViewController.swift:1587-1600 | `delete` in state 3 with a compound trail, in a synced session (the pending syllable before the cursor), stays in state 3 on the syllable with the first half |
| Transitions.DeleteVowelRejoins | testKeyboard/KeyboardViewController.swift:1542-1551 | `delete` in state 2 after a syllable without trail makes the lone lead its trail, as 가 + 나 gives 간 |
| Transitions.DeleteVowelFusesTrail | testKeyboard/KeyboardViewController.swift:1558-1571 | `delete` in state 2 after a syllable with a trail: if that trail and the lone lead fuse, state 3 on the syllable with the compound, which splits back into the two; otherwise a lone lead with `jonFlag` the old trail |
| Transitions.DeleteLeadResumes | testKeyboard/KeyboardViewController.swift:1487-1505 | `delete` in state 1 after a syllable resumes it unchanged in state 3 |
| Transitions.RestingWhenNotResuming | testKeyboard/KeyboardViewController.swift:1249-1257 | without decomposable set, or with no syllable before the cursor, `commit` starts from the maker's own fields |
| Transitions.RestingWhenSynced | testKeyboard/KeyboardViewController.swift:1249-1257 | with the pending syllable (with its trail, in state 3) before the cursor, resuming it changes nothing |
| Transitions.CommitStartsSyllable | testKeyboard/KeyboardViewController.swift:1263-1268 | a lead on an empty maker never traps, returns 0 and waits in state 1 with `cho` the key and `textStorage` just the key |
| Transitions.CommitVowelJoinsLead | testKeyboard/KeyboardViewController.swift:1279-1285 | a vowel on a lone lead returns 1 in state 2, lead kept, `jun` the vowel, and the one stored character decomposes into exactly those two |
| Transitions.CommitTrailJoinsSyllable | testKeyboard/KeyboardViewController.swift:1288-1293 | a trail on lead and vowel returns 1 in state 3, `jon` the key, and the one stored character decomposes into lead, vowel and that trail |
| Transitions.CommitFusesCompound | testKeyboard/KeyboardViewController.swift:1308-1312 | a consonant that fuses with the trail returns 1 in state 3 on the compound, which splits back into the old trail and the key, and the stored syllable decomposes with it as trail |
| Transitions.CommitVowelSplitsTrail | testKeyboard/KeyboardViewController.swift:1336-1369 | in a synced session a vowel after a trail returns 2 in state 2, storing the syllable with the first half of the trail (or none) and the syllable the rest leads with the vowel, each decomposing into exactly those parts |
| Scenarios.OneKey | testKeyboard/KeyboardViewController.swift:1012-1034 | one key with the cursor unmoved: commit, delete one character for 1 or 2, insert `textStorage` |
| Scenarios.CommitLeadOnEmpty | testKeyboard/KeyboardViewController.swift:1263-1268 | ㄱ on an empty maker returns 0, state 1, "ㄱ" |
| Scenarios.TypeLead | testKeyboard/KeyboardViewController.swift:1012-1034 | typing ㄱ on an empty document shows ㄱ |
| Scenarios.CommitVowelOnLead | testKeyboard/KeyboardViewController.swift:1279-1284 | ㅏ after ㄱ returns 1, state 2, "가", for either flag |
| Scenarios.TypeVowel | testKeyboard/KeyboardViewController.swift:1012-1034 | the document becomes 가 |
| Scenarios.CommitTrailOnSyllable | testKeyboard/KeyboardViewController.swift:1288-1293 | ㄴ after 가 returns 1, state 3, "간", for either flag |
| Scenarios.TypeTrail | testKeyboard/KeyboardViewController.swift:1012-1034 | the document becomes 간 |
| Scenarios.CommitTrailOnGa | testKeyboard/KeyboardViewController.swift:1288-1293 | ㄱ after 가 returns 1, state 3, "각", for either flag |
| Scenarios.TypeTrailOfGak | testKeyboard/KeyboardViewController.swift:1012-1034 | typing ㄱ after 가 makes the document 각 |
| Scenarios.CommitVowelAfterTrail | testKeyboard/KeyboardViewController.swift:1354-1369 | ㅣ after 간 with the flag set returns 2, state 2, "가니" |
| Scenarios.CommitVowelAfterTrailAlone | testKeyboard/KeyboardViewController.swift:1354-1387 | the same with the flag unset, whatever precedes the cursor |
| Scenarios.TypeVowelAfterTrail | testKeyboard/KeyboardViewController.swift:1018-1028 | one character is deleted and "가니" inserted: the document becomes 가니 |
| Scenarios.BackspaceRejoins | testKeyboard/KeyboardViewController.swift:1059-1068 | backspace after 가니 gives 간 again, in state 3 |
| Scenarios.CommitFusesTrail | testKeyboard/KeyboardViewController.swift:1308-1312 | ㅅ after 각 fuses into 갃 and returns 1 |
| Scenarios.TypeCompoundTrail | testKeyboard/KeyboardViewController.swift:1012-1034 | the document becomes 갃 |
| Scenarios.RecommitSecondHalfOfGaks | testKeyboard/KeyboardViewController.swift:1594-1597 | the nested `commit` of ㅅ on 각 fuses them again |
| Scenarios.DeleteTrailOfGaks | testKeyboard/KeyboardViewController.swift:1580-1601 | `delete` on 갃 leaves 각 in state 3 |
| Scenarios.BackspaceSplitsCompound | testKeyboard/KeyboardViewController.swift:1072-1081 | backspace after 갃 shows 각 |
| Scenarios.MovedCursorTrap | testKeyboard/KeyboardViewController.swift:1336-1340 | with a space before the cursor instead of the pending 간 and decomposable set, a vowel reaches the trap of :1340, so `processInput` traps |
| Scenarios.BackspaceOnNa | testKeyboard/KeyboardViewController.swift:1558-1571 | backspace on 나 after 각: as written the lead ㄴ stays in `doubleJonFlag`; corrected the flag is U+0000 |
| Scenarios.RetypeNa | testKeyboard/KeyboardViewController.swift:1272-1285 | ㅏ on the lone ㄴ after 각 returns to 나, keeping whatever flags the lead had |
| Scenarios.RetypeNat | testKeyboard/KeyboardViewController.swift:1287-1293 | ㄷ on that 나 makes 낟, the flags again kept |
| Scenarios.StaleFlagMisplacesTrail | testKeyboard/KeyboardViewController.swift:1336-1387 | with the stale flags, ㅣ on 낟 does not trap and stores 낙니 |
| Scenarios.StaleFlagSplit | testKeyboard/KeyboardViewController.swift:1372-1387 | the branch of :1372 keeps 낙 from "낟낙" and appends 니 |
| Scenarios.ClearedFlagSplitsTrail | testKeyboard/KeyboardViewController.swift:1336-1369 | with the flag cleared, ㅣ on 낟 stores 나디 |

## Left out

- `KeyCap`, the layout and key configuration, haptics, sound and all `print` logging:
  UI with nothing to verify.
- `correctTextIfNeeded` and `loadLexicon` (after the insert at :1029): they depend on
  `UILexicon` and the text proxy.
- `deleteWord`, `deleteAllText` and `deleteLine`: bulk edits that do not go through the
  composer.
- `saveCurrentCursorPosition`, `lastCursorPosition` and `hasCursorPositionChanged`:
  `processInput` takes whether the cursor moved as the parameter `cursorMoved`.
- `checkAndCallAfterDelete` and `textDidChange`: they react to proxy events the model
  does not have.
- The document is modelled as the text before the cursor only. `requestPreviousCharacter`
  and `requestJustPreviousCharacter` read its last two characters.
- A Swift `Character` is one Unicode scalar (a Dafny `char`). Grapheme clusters of
  several scalars are not modelled.
- `doubleJunEnable`, `junAvailable` and `isDoubleJun` are modelled as tables only
  (`Jamo.DoubleJun`, `Jamo.JunAvailable`, `Jamo.IsDoubleJun`). `commit` never calls
  them, so `junFlag` stays U+0000.
- The test at :1315 (`state == 1` inside `case 3`) never holds and is left out.
- The branch at :1514-1519 needs a `cho` in `jons` after a test that already caught
  every such `cho`; it is left out.
- Swift traps become preconditions or None:
  - `Character("")` at :1340 is `Composer.CommitTraps`;
  - `Character(textStorage)` at :1581 is the requirement of exactly one character in
    state 3;
  - the UInt32 subtraction and `UnicodeScalar(...)!` of `removeFinalConsonant` are the
    preconditions of `Syllable.RemoveFinalConsonant`.
- MakerInvariant.CommitPreservesValid: proved only for keys the keyboard can send
  (`Jamo.IsKey`: no U+0000, no compound trail) and for a vowel after a trail only with
  the decomposable flag set, which is how the host always calls it.
- Host.ProcessKeyKeepsSynced: proved for one character per call, which is what every
  key sends. With several characters the document gets `textStorage` only at the end,
  so `commit` sees stale characters before the cursor in between.
- Composer.DeleteLead, Composer.DeleteVowel, Composer.DeleteTrail: their own contracts
  give only the shape of the result. The full effect of each resuming branch is stated in
  module Transitions (`Transitions.DeleteVowelFusesTrail`, `Transitions.DeleteVowelRejoins`,
  `Transitions.DeleteLeadResumes`, `Transitions.DeleteTrailDropsTrail`,
  `Transitions.DeleteCompoundKeepsFirstHalf`), and `Composer.Delete` is stated in terms
  of the three.
- The members below run or assume the corrected state-2 `delete` of Findings
  (`Composer.DeleteVowel`, which clears `doubleJonFlag`), not :1558-1571 as written; the
  as-written step is `Composer.DeleteVowelAsWritten`. `Valid` requires `doubleJonFlag` to
  be U+0000, which the program as written breaks after that step (`Scenarios.BackspaceOnNa`).
- Composer.Delete: state 2 is the corrected `delete`.
- Machine.HangulMaker.Delete: state 2 is the corrected `delete`.
- Host.AfterBackspace: applies the corrected `delete` in state 2.
- Host.KeyboardViewController.DeleteBackward: ends in the corrected `AfterBackspace`.
- MakerInvariant.DeletePreservesValid: proved for the corrected `delete`; after the
  as-written state-2 step `Valid` fails on `doubleJonFlag` alone.
- Host.DeleteBackwardKeepsSynced: proved for the corrected `delete`, through `Valid`.
- Host.ProcessKeyKeepsSynced: `Synced` includes `doubleJonFlag` being U+0000, so sessions
  the as-written `delete` leaves behind are not covered; `Host.SyncedCommitDoesNotTrap`
  covers them for the absence of the trap.
- A cursor move is modelled only as the `cursorMoved` argument of `processInput`: the
  text before the cursor stays what the keyboard left there. A move that puts other text
  before the cursor while decomposable is set can reach the trap at :1340
  (`Scenarios.MovedCursorTrap`). `textDidChange` and `checkAndCallAfterDelete`
  (:755-774), which empty the maker when the document context changes, are not part of
  this model.
- Transitions.CommitStartsSyllable, Transitions.CommitVowelJoinsLead,
  Transitions.CommitTrailJoinsSyllable, Transitions.CommitFusesCompound: stated for a
  maker the character before the cursor does not resume (`Composer.Resting`). Otherwise
  `commit` first moves to the syllable before the cursor, as in
  `Scenarios.CommitFusesTrail`.

## Findings

| source | as written | input that shows it | evidently intended | confidence | as-written member | corrected member |
|---|---|---|---|---|---|---|
| testKeyboard/KeyboardViewController.swift:1558-1571 | `delete` in state 2 after a syllable with a trail calls `doubleJonEnable(cho)` only to test a fuse; when it fails, the maker returns to a lone lead with `doubleJonFlag` still holding that lead and `jonFlag` the old trail. A vowel after a later trail then takes the branch at :1372-1376, which uses those flags | with 각 before the pending 나 (as after ㄱ ㅏ ㄱ ㄴ ㅏ): backspace, then ㅏ ㄷ ㅣ store 낙니 | 나디, as without the backspace; clear `doubleJonFlag` after the test, as `commit` does after its own fuse at :1310 | not executed; medium | Composer.DeleteVowelAsWritten, Scenarios.StaleFlagMisplacesTrail | Composer.DeleteVowel, Transitions.CommitVowelSplitsTrail |
