# Reliable Digit Span test — a verified model

The repository implements the Reliable Digit Span (RDS) working-memory test.
A subject sees a short sequence of digits and types it back. They type it
first in the order shown (forward recall), then in reverse order (backward
recall). An adaptive staircase lengthens the sequence after a success and
ends the test after repeated failure. The repository has several rule
variants, each a separate script. This project models each variant's test
logic in Dafny and proves what the code promises about it.

Module layout:

- `Wrappers`, `Digits` (digits.dfy): digits and their characters, string reversal, the adjacency checks (`consecutive`), and exact-match scoring.
- `Generator` (generator.dfy): the sequence generators. The random draws are given as a finite stream or as an oracle.
- `Staircase` (staircase.dfy): the two-attempts-per-length staircase that the Tkinter variants share, as pure functions, with lemmas about whole sessions.
- `ResultLine` (result_line.dfy): the persisted `forward,backward,combined` line and the way the analysis scripts read it back. Also the `User ID` / `Score` reports.
- One module per variant:
  - `RdsTest` for `rds_test.py`
  - `DeprecatedRdsTest` for `deprecated/rds_test.py`
  - `DeprecatedRds` for `deprecated/RDS.py`
  - `Rds` for `RDS.py`
  - `Gpt` for `deprecated/gpt.py`
  - `RdsPyGame` for `deprecated/RDS_PyGame.py`
  - `Testy` for `deprecated/testy.py`
  - `LevelTest` for `test.py`
  - `App` for `app.py`

The Tkinter `DigitSpanTest` classes become Dafny classes whose fields mirror
the Python attributes. Each callback is a method:

- `run_test` becomes `RunTest`.
- `validate_input` becomes `ValidateInput`, which includes its trailing call of `run_test`.

What the screen would show next is returned as an `Action`. The methods are
specified against the `Staircase` functions `Next` (the decision of
`run_test`), `Raise` (the maxima update) and `Answer` (the counter update of
`validate_input`). The lemmas about sessions are proved on those functions.

Random draws are inputs:

- A rejection loop reads a finite `seq<Digit>`. If the draws run out before a candidate is accepted, the model reports `NoSequence`; the source's unbounded random source never runs out.
- A generator that never rejects reads a total oracle `nat -> Digit`.

Typed answers, window closes and Streamlit reruns are method arguments too.

Points where the code and its own comments disagree (the model follows the code):

- `consecutive` returns true when no adjacent pair is equal or one apart. This is the opposite of its docstring.
- `last_sequence` is never reset by `initialize_test_values` in `rds_test.py`, so the no-repeat rule spans sessions.
- In `rds_test.py` both branches of the practice check at a backward double failure call `end_test`. A practice session therefore ends through `end_test`, which writes nothing in practice mode.

## Model

| member | source | states |
|---|---|---|
| Digits.Consecutive | RDS.py:168-182 | the loop returns true exactly when every adjacent pair differs and is not one apart |
| Digits.SpreadIffGap | deprecated/RDS.py:193-197 | for digit strings, `consecutive` holds iff every adjacent pair of values is at least 2 apart; it always holds for length at most 1 |
| Digits.NotSpreadWitness | RDS.py:178-182 | `consecutive` is false iff some adjacent pair is equal or differs by exactly 1 |
| Digits.SpreadHasNoEqualAdjacent | deprecated/RDS.py:95 | a sequence passing `consecutive` has no two equal neighbours |
| Digits.Reversed | rds_test.py:201-203 | `[::-1]`: the same length, and element k is element n-1-k of the input |
| Digits.ReversedInvolution | rds_test.py:201-203 | reversing the expected answer twice gives the sequence back |
| Digits.ScoringCharacterised | rds_test.py:199-207 | scoring through `Expected` and `IsCorrect`: a forward trial accepts exactly the joined digits, a backward trial exactly their reverse; the forward order is wrong on a backward trial whose end digits differ |
| Digits.NonDigitAnswerIsWrong | rds_test.py:203-205 | an answer containing a non-digit never matches |
| Generator.DrawSequence | rds_test.py:126-139 | an accepted sequence has the requested length, only digits, no equal neighbours, differs from the previous one (and passes `consecutive` when that check is on); draws that already qualify are returned unchanged |
| Generator.DrawSpreadSequence | RDS.py:79-82 | a kept candidate has the requested length, only digits, and passes `consecutive`; a qualifying first candidate is kept |
| Generator.Drawn | deprecated/gpt.py:38 | the comprehension gives exactly `length` digit characters, the i-th being draw i |
| Staircase.Initial | rds_test.py:95-98 | the initial counters are forward, length 2 and no attempts, within the staircase's bounds |
| Staircase.Answer | rds_test.py:204-206 | direction and length are kept and the attempts grow; well-formed counters stay well formed, and bounded ones with an attempt left stay bounded |
| Staircase.Next | rds_test.py:140-175 | counters stay well formed, and bounded unless the session ends; a measured session ends only on a backward double failure and then leaves the counters as they were; under two attempts the trial repeats unchanged; forward never ends; backward stays backward; in practice the length stays at most 3 while the session goes on |
| Staircase.PassAdvances | rds_test.py:142-163 | a pass resets both counters and adds 1 to the length; in practice, above length 3, forward switches to backward at 2 and backward ends |
| Staircase.DoubleFailureSwitchesOrEnds | rds_test.py:164-175 | a forward double failure switches to backward at length 2 with counters 0; a backward double failure ends, in both modes |
| Staircase.Raise | rds_test.py:142-146 | the maxima never decrease, change only on a pass, and then the current direction's maximum reaches the length |
| Staircase.InitialTracks | rds_test.py:91-100 | the initial values are bounded and the maxima agree with them |
| Staircase.NextKeepsTracks | rds_test.py:142-175 | after each decision the current direction's maximum is the last length passed, and the backward maximum is 0 while still forward |
| Staircase.Step | rds_test.py:199-207 | an answer followed by the decision keeps the counters bounded, with a fresh attempt available unless the session ended |
| Staircase.RunMaximaMonotone | rds_test.py:142-146 | over any sequence of answers both maxima never decrease |
| Staircase.RunDirectionAndTracking | rds_test.py:164-175 | over any sequence of answers the direction flips at most once, a session ends only while backward, and the maxima keep tracking the last lengths passed |
| Staircase.PracticeStepShrinks | rds_test.py:151-162 | every practice step that does not end keeps the length at most 3 and uses up budget |
| Staircase.PracticeEnds | rds_test.py:151-162 | a practice session always ends within its budget of answers |
| Staircase.PracticeEndsWithinEight | rds_test.py:151-162 | a practice session ends within eight answers from the start |
| ResultLine.NatToString | rds_test.py:232 | a number is written as a non-empty string of digits |
| ResultLine.NumeralRoundTrip | analysis_pre_post.py:31 | `int(str(n)) == n` |
| ResultLine.Strip | rds_test.py:66 | `str.strip()`: the result is no longer than the input and neither starts nor ends with a blank |
| ResultLine.StripInfix | analysis_pre_post.py:31 | the stripped string is a contiguous slice of the input, and everything cut from either end is blank |
| ResultLine.Split | analysis_pre_post.py:31 | `str.split(',')` gives at least one piece, and no piece contains the separator |
| ResultLine.SplitWithoutSeparator | analysis_pre_post.py:31 | a string without the separator splits into itself alone |
| ResultLine.SplitAtSeparator | analysis_pre_post.py:31 | splitting at a comma gives the piece before it followed by the split of the rest |
| ResultLine.SplitThree | analysis_pre_post.py:31 | three comma-free pieces joined by commas split back into exactly those three pieces |
| ResultLine.RecordLineRoundTrip | rds_test.py:232 | `RecordLine` and `ParseRecordLine` agree: the line `f,b,c` plus newline, stripped, split at commas and parsed, gives exactly `(f, b, c)` |
| ResultLine.ScoreLineReadsBack | deprecated/gpt.py:87-88 | `ScoreLine` is `Score: `, digits that read back as exactly the score, and a newline |
| ResultLine.ScoreReportReadsBack | RDS.py:164-166 | `ScoreReport`: the report starts with `User ID: ` and the ID, and its last line carries `Score: ` followed by digits that read back as the score |
| RdsTest.Summarise | rds_test.py:214-232 | the record holds both maxima and their sum; a practice session writes nothing; a measured one writes one line for (user, test type) that parses back to the three numbers |
| RdsTest.DigitSpanTest.constructor | rds_test.py:66-68 | a session object exists only for a non-empty ID, with the initial counters |
| RdsTest.DigitSpanTest.InitializeTestValues | rds_test.py:91-100 | forward, length 2, counters and maxima 0; `last_sequence` untouched |
| RdsTest.DigitSpanTest.StartPractice | rds_test.py:102-108 | practice mode, initial values, and a first trial at length 2 |
| RdsTest.DigitSpanTest.StartTest | rds_test.py:110-120 | measured mode with the given test type, initial values, and a first trial at length 2 |
| RdsTest.DigitSpanTest.RunTest | rds_test.py:122-175 | the new counters and maxima are `Next` and `Raise` of the old ones; a presented sequence is acceptable and stored as both `sequence` and `last_sequence`; otherwise the backwards notice or the `end_test` record |
| RdsTest.DigitSpanTest.ValidateInput | rds_test.py:199-207 | one more attempt, one more correct attempt exactly on a match, then the staircase decision; the backwards notice and the end leave `sequence` and `last_sequence` as they were |
| RdsTest.DigitSpanTest.EndTest | rds_test.py:214-232 | the ending is the summary of the current maxima, mode, user and test type: the combined score is their sum, a line is written exactly outside practice mode, and it parses back to the two maxima and their sum |
| RdsTest.OneMissScenario | rds_test.py:110-207 | a measured session shown "15" and answering "51" counts one attempt with no correct one and shows "73" next |
| RdsTest.ForwardDoubleFailureScenario | rds_test.py:164-175 | two wrong answers at length 2 switch to backward at length 2 with the counters reset and both maxima 0 |
| DeprecatedRdsTest.DigitSpanTest.constructor | deprecated/rds_test.py:25-28 | a session exists only once a non-empty stripped ID was entered; nothing has been shown yet and the mode is measured until a start button sets it |
| DeprecatedRdsTest.DigitSpanTest.InitializeTestValues | deprecated/rds_test.py:49-55 | forward, length 2, counters and maxima 0 |
| DeprecatedRdsTest.DigitSpanTest.Start | deprecated/rds_test.py:57-65 | sets the mode, resets the values, presents the first trial |
| DeprecatedRdsTest.DigitSpanTest.RunTest | deprecated/rds_test.py:67-117 | counters and maxima follow `Next` and `Raise`; a finished practice session ends through `end_practice`, a measured one through `end_test`, which shows both maxima and persists nothing; the notice and the endings leave `sequence` and `last_sequence` as they were |
| DeprecatedRdsTest.DigitSpanTest.ValidateInput | deprecated/rds_test.py:138-146 | one more attempt, one more correct attempt exactly on a match, then the decision; the backwards notice and either ending leave `sequence` and `last_sequence` as they were |
| DeprecatedRds.DigitSpanTest.constructor | deprecated/RDS.py:64-69 | before any ID: no ID and no sequence yet; counters and maxima hold the values `start_intro` gives them |
| DeprecatedRds.DigitSpanTest.StartIntro | deprecated/RDS.py:41-69 | the stripped ID is stored; an empty one starts nothing; any other resets counters and maxima |
| DeprecatedRds.DigitSpanTest.RunTest | deprecated/RDS.py:78-118 | counters and maxima follow the measured staircase; a presented sequence passes `consecutive`, has no equal neighbours and differs from the previous one; the end reports forward plus backward maximum; the notice and the end leave `sequence` and `last_sequence` as they were |
| DeprecatedRds.DigitSpanTest.ValidateInput | deprecated/RDS.py:149-167 | one more attempt, one more correct attempt exactly on a match, then the decision; the notice and the end leave `sequence` and `last_sequence` as they were |
| DeprecatedRds.DigitSpanTest.EndTest | deprecated/RDS.py:169-181 | the final score is the sum of the two maxima, and the report carries it |
| Rds.CorrectCountAppend | RDS.py:148-150 | one more trial adds 1 to the correct count exactly when it was correct; the count never exceeds the trials |
| Rds.DigitSpanTest.constructor | RDS.py:60-64 | before any ID: no ID and no sequence yet; the counters and score hold the values `start_intro` gives them |
| Rds.DigitSpanTest.StartIntro | RDS.py:41-64 | an empty ID starts nothing; any other resets the counters and the score to 0 |
| Rds.DigitSpanTest.RunTest | RDS.py:73-102 | the counters follow the staircase without maxima; the score is untouched; a presented sequence has the current length and passes `consecutive`; the end reports the score; the notice and the end leave `sequence` as it was |
| Rds.DigitSpanTest.ValidateInput | RDS.py:134-153 | a correct answer adds 1 to both the correct attempts and the score, so the score stays the number of correct trials; then the decision: a presented sequence has the current length, only digits and passes `consecutive`, a qualifying first candidate is the one shown, and the notice and the end leave `sequence` as it was |
| Gpt.SumAppend | deprecated/gpt.py:78-80 | adding a correct trial's length adds exactly that length to the total |
| Gpt.DigitSpanTest.constructor | deprecated/gpt.py:24-28 | forward, length 2, counters and score 0 |
| Gpt.DigitSpanTest.StartTest | deprecated/gpt.py:30-34 | the data file number is kept as typed and the first trial is presented and stored as `sequence` |
| Gpt.DigitSpanTest.RunTest | deprecated/gpt.py:36-55 | the counters follow the staircase, and afterwards a trial is under way or the test has ended on a backward double failure; after a forward double failure the first backward trial is presented at once; a presented trial is stored as `sequence`; the end shows and writes the score and keeps `sequence` |
| Gpt.DigitSpanTest.ValidateInput | deprecated/gpt.py:70-83 | a correct answer adds the current length to the score, which never decreases and stays the sum of the correct trials' lengths; the entry stays bound after the end, so an answer is accepted at any well-formed counters and judged against the last sequence |
| Gpt.ForwardFailed | deprecated/gpt.py:36-83 | two wrong forward answers at length 2 leave the test backward at length 2 with score 0 |
| Gpt.EndedOnFortySeven | deprecated/gpt.py:36-88 | two wrong backward answers, the second on "47", end the test with score 0 and "47" still stored |
| Gpt.AnswerAfterEndScenario | deprecated/gpt.py:68-83 | after that end the answer "74" still scores 2 and resumes the test backward at length 3 with a new sequence |
| Gpt.DigitSpanTest.EndTest | deprecated/gpt.py:85-88 | the score shown is the one written as `Score: n` to `data_{number}.txt` |
| RdsPyGame.DigitsOnly | deprecated/RDS_PyGame.py:48-50 | the typed answer holds only digits, is no longer than the keys, and equals them when all keys are digits |
| RdsPyGame.TypedAnswer | deprecated/RDS_PyGame.py:41-50 | the keystroke loop appends exactly the digit keys |
| RdsPyGame.TrialDecides | deprecated/RDS_PyGame.py:52-65 | `Trial`: the first answer of a pair only counts; the second decides the span `length - 1` exactly when neither answer of the pair was correct, and otherwise moves to the next length with fresh counters |
| RdsPyGame.ReplayCharacterised | deprecated/RDS_PyGame.py:52-65 | while undecided: length `2 + trials/2`, attempts the parity, score 0 or 1; undecided exactly while every complete pair was passed; a decided span is the reference one |
| RdsPyGame.SpanIffReference | deprecated/RDS_PyGame.py:59-65 | the span returned is n exactly when the first n-1 pairs of trials each had a correct answer and pair n had none |
| RdsPyGame.ReplaySticks | deprecated/RDS_PyGame.py:64-65 | once `run_test` would have returned, later trials change nothing |
| RdsPyGame.FirstQuit | deprecated/RDS_PyGame.py:44-46 | every trial before the first window close was answered |
| RdsPyGame.PlayTrial | deprecated/RDS_PyGame.py:32-54 | one trial is correct exactly when the digit keys typed equal the digits drawn at the current length, reversed for a backward run |
| RdsPyGame.LoopFromReplay | deprecated/RDS_PyGame.py:52-65 | from any undecided point, the rest of the loop gives the span the replayed outcomes decide, else 0 after a close, else nothing |
| RdsPyGame.LoopMeetsReference | deprecated/RDS_PyGame.py:26-68 | the loop over the outcomes, started at length 2 with no attempts, gives the reference result |
| RdsPyGame.RunFromOutcomes | deprecated/RDS_PyGame.py:31-66 | the loop over the typed answers behaves as the loop over the trials' outcomes, a close after them returning 0 |
| RdsPyGame.RunMeetsReference | deprecated/RDS_PyGame.py:26-68 | what `run_test` returns is the span the trial outcomes determine, 0 if the window is closed first, and nothing if the answers run out |
| RdsPyGame.RunTest | deprecated/RDS_PyGame.py:26-68 | returns what its loop specification `Span` gives for the answers (the loop invariants: length `2 + t/2` at trial `t`, attempts the parity of `t`, score 0 or 1); `RunMeetsReference` ties `Span` to the reference result |
| RdsPyGame.Play | deprecated/RDS_PyGame.py:85-87 | the total is the forward run's span plus the backward run's span |
| Testy.Choices | deprecated/testy.py:16-19 | exactly `span` draws, each 0-9, in order |
| Testy.DigitValues | deprecated/testy.py:44 | the list of digit values of the answer, element by element |
| Testy.ReverseInPlace | deprecated/testy.py:29 | the list is reversed in place |
| Testy.BackwardAcceptsShownOrder | deprecated/testy.py:28-29 | a backward trial drawing [1, 2] is shown as 2, 1; `21` scores and `12` does not, the opposite of backward recall |
| Testy.IntendedBackwardRecall | deprecated/testy.py:45 | under the intended rule a backward answer is the drawn order; the as-written rule and the intended one never accept the same backward answer when the end digits differ |
| Testy.Session.constructor | deprecated/testy.py:8-13 | the globals: span 2, an empty sequence, forward, score 0, no number |
| Testy.Session.GenerateSequence | deprecated/testy.py:16-19 | a fresh list of `span` draws; nothing else changes |
| Testy.Session.DisplaySequence | deprecated/testy.py:21-37 | the list is reversed in place for a backward trial, and the shown order is the list afterwards |
| Testy.Session.StartTrial | deprecated/testy.py:63-68 | the shown order is the fresh draws, reversed when backward |
| Testy.Session.StartTest | deprecated/testy.py:89-108 | a number made of digits starts the first trial; anything else starts nothing |
| Testy.Session.CheckAnswer | deprecated/testy.py:39-61 | a non-digit answer changes nothing; a match adds 1 to score and span; a wrong forward answer switches to backward at span 2; a wrong backward answer ends with the row `[number, score]` |
| Testy.BackwardRecallScenario | deprecated/testy.py:39-61 | after a forward mistake, the backward answer `12` to the draws 1, 2 ends the test with score 0 |
| LevelTest.GenerateDigits | test.py:5-13 | the loop builds exactly the drawn digits, one character per turn (`app.py` has the same loop at lines 11-19) |
| LevelTest.RunDigitsSpanTest | test.py:16-63 | the score is the leading run of correct rounds, each at level `1 + j/2`; the level is `1 + score/2`; the loop stops at `q` (quit), at the first wrong answer, or when input runs out; each correct answer is logged with its digits, direction and answer at the raised score and level, and a wrong one at the unchanged score and level |
| App.Session.constructor | app.py:99 | a fresh browser session holds none of the test's state, so no answer is taken before the start button |
| App.Session.Start | app.py:85-96 | level 1, score 0, flag set, and a one-digit first sequence |
| App.Session.SubmitAnswer | app.py:103-126 | an empty answer changes nothing; `q` clears the flag; a correct answer adds 1 to the score with the level staying `1 + score/2`; a wrong one clears the flag; a new sequence at the current level is drawn only while the flag is set |

## Left out

- User interface: the Tkinter, pygame and Streamlit rendering, the timed presentation chains (`after`, `time.sleep`, `pygame.time.wait`) and the lazily created `sequence_index`. Presentation is the returned action or the shown sequence.
- File I/O: the paths are kept as strings and the written content as values. Opening and writing files, CSV quoting, append mode and `close` are not modelled.
- Randomness: `random.randint`, `random.choices` and `random.choice` become draw streams, oracles or `bool` parameters. An exhausted stream is reported as `NoSequence` (Tkinter variants) or `None` (`RdsPyGame.RunTest`).
- Generator.DrawSequence, Generator.DrawSpreadSequence: termination of the rejection loops is relative to the finite stream; the source's loops terminate only with probability 1.
- ID entry: `start_intro` in `rds_test.py` and `deprecated/rds_test.py` appears only as the non-empty precondition of the constructor. The other entry screens (`ask_for_id`, the data-file-number fields) are not modelled.
- ResultLine.Strip: the blanks removed are space, tab, newline and carriage return. `str.strip()` also removes `\v`, `\f`, `\x1c`-`\x1f`, `\x85`, U+00A0 and the other Unicode whitespace, so the stored ID in `DeprecatedRds.DigitSpanTest.StartIntro` and `Rds.DigitSpanTest.StartIntro` can keep such a character where Python would drop it.
- `str.isdigit` and `int()` are restricted to ASCII `'0'`-`'9'`. Unicode digits, and the signs and surrounding blanks that `int()` accepts, are not modelled. `ResultLine.ParseRecordLine` rejects them.
- RdsPyGame.RunTest: each trial's keys are taken up to its Return key. Further events delivered in the same `pygame.event.get()` batch after Return are not modelled. Neither is the crash after a window close in the forward run: `pygame.quit()` has run, and the backward run's first `show_message` then fails.
- RdsPyGame.Play: the forward and backward runs take separate answer and draw streams, rather than one shared event queue split at the point the forward run returns.
- RdsPyGame.Play: `main`'s file-number prompt and its write of `Score: {total}` to `data_{number}.txt` are not modelled; that line is `ResultLine.ScoreLine`.
- App.Session.SubmitAnswer: Streamlit's rerun-from-the-top semantics and `st.stop()` are reduced to one method call per submitted answer. As in the source, the flag is not checked before an answer is judged.
- LevelTest.RunDigitsSpanTest: the rounds are a finite list of answers. `OutOfAnswers` stands for `input()` raising `EOFError` when input ends, which the source does not catch. The opening "press any key" `input()` (test.py:30) is not modelled.
- The `run_digits_span_test` copy inside `app.py` is never called there and is the `test.py` loop modelled by `LevelTest.RunDigitsSpanTest`.
- The analysis and statistics scripts (`analysis*.py`, `plots_diff.py`, `ancova.py`, `lmm*.py`, `power_analysis.py`, `deprecated/test2.py`) are floating-point pandas/statsmodels work. Their only use of the test's output, reading back the record line, is `ResultLine.ParseRecordLine`.

## Findings

| source | as written | input that shows it | evidently intended | confidence | as-written member | corrected member |
|---|---|---|---|---|---|---|
| deprecated/testy.py:28-29 | a backward trial's list is reversed in place before it is displayed, and `check_answer` (line 45) compares the answer with that same reversed list, so backward mode asks for the digits in the order shown | backward mode, draws [1, 2]: shown 2, 1; the answer `21` scores, the backward answer `12` ends the test | the backward answer is the shown order reversed (`12`), as `Digits.IsCorrect` scores it in every other variant | high (not executed) | Testy.BackwardAcceptsShownOrder | Testy.IntendedBackwardRecall |
