/** `DigitSpanTest` of `rds_test.py`: the most complete variant, with a
    practice mode capped at length 3, pre/post measured sessions, maxima per
    direction and a persisted "forward,backward,combined" record. Every
    Tkinter callback that re-enters `run_test` is a call of `RunTest` here;
    what the screen would show is the returned `Action`. */
module RdsTest {
  import opened Wrappers
  import opened Digits
  import opened Staircase
  import Generator
  import ResultLine

  /** The `test_type` strings `'pre'` and `'post'`. */
  datatype TestType = Pre | Post

  /** The values `end_test` shows and, for a measured session, writes. */
  datatype Record = Record(maxForward: int, maxBackward: int, combined: int)

  /** One write of `data/{user_id}_{test_type}_test.txt`. */
  datatype Persisted = Persisted(userId: string, testType: TestType, line: string)

  datatype Ending = Ending(record: Record, persisted: Option<Persisted>)

  /** What a call leaves the subject looking at: a sequence being shown, the
      backwards notice, the end screen, or (only in the model) no sequence
      because the supplied draws ran out before one was accepted. */
  datatype Action = Present(sequence: string) | SwitchToBackward | End(ending: Ending) | NoSequence

  /** What `end_test` computes: the combined score is the sum of the two
      maxima; a practice session writes nothing, a measured one writes one line
      that reads back as exactly the three numbers. */
  function Summarise(maxForward: nat, maxBackward: nat, practice: bool, userId: string, testType: TestType): (e: Ending)
    ensures e.record == Record(maxForward, maxBackward, maxForward + maxBackward)
    ensures e.persisted.None? <==> practice
    ensures e.persisted.Some? ==>
              && e.persisted.value.userId == userId && e.persisted.value.testType == testType
              && ResultLine.ParseRecordLine(e.persisted.value.line) == Some((maxForward, maxBackward, maxForward + maxBackward))
  {
    var combined := maxForward + maxBackward;
    ResultLine.RecordLineRoundTrip(maxForward, maxBackward, combined);
    Ending(Record(maxForward, maxBackward, combined),
           if practice then None else Some(Persisted(userId, testType, ResultLine.RecordLine(maxForward, maxBackward, combined))))
  }

  class DigitSpanTest {
    const userId: string
    var forward: bool
    var sequenceLength: int
    var sequenceAttempts: int
    var correctAttempts: int
    var maxForwardLength: int
    var maxBackwardLength: int
    /** Never reset by `InitializeTestValues`: the no-repeat rule spans sessions. */
    var lastSequence: string
    var sequence: string
    var practiceMode: bool
    var testType: TestType

    function Counts(): Counters
      reads this
    {
      Counters(forward, sequenceLength, sequenceAttempts, correctAttempts)
    }

    function Maxes(): Maxima
      reads this
    {
      Maxima(maxForwardLength, maxBackwardLength)
    }

    ghost predicate Valid()
      reads this
    {
      && userId != []
      && Bounded(Counts())
      && Tracks(Counts(), Maxes())
    }

    /** After `RunTest` decided to present: either a fresh acceptable sequence
        is shown and remembered in both fields, or (draws exhausted) nothing
        changes; draws that are acceptable as they come are shown unchanged. */
    ghost predicate Shown(a: Action, draws: seq<Digit>, length: int, oldLast: string, oldSequence: string)
      reads this
    {
      && (|| (&& a.Present?
              && Generator.Acceptable(a.sequence, length, oldLast, false)
              && sequence == a.sequence && lastSequence == a.sequence)
          || (a == NoSequence && sequence == oldSequence && lastSequence == oldLast))
      && (Generator.CleanDraws(draws, length, oldLast, false) ==> a == Present(Chars(draws[..length])))
    }

    /** The session object once an ID has been entered (`start_intro` refuses an empty one). */
    constructor (userId: string)
      requires userId != []
      ensures Valid()
      ensures this.userId == userId
      ensures Counts() == Initial() && Maxes() == Maxima(0, 0)
      ensures lastSequence == [] && sequence == [] && !practiceMode
    {
      this.userId := userId;
      forward := true;
      sequenceLength := StartLength;
      sequenceAttempts := 0;
      correctAttempts := 0;
      maxForwardLength := 0;
      maxBackwardLength := 0;
      lastSequence := [];
      sequence := [];
      practiceMode := false;
      testType := Pre;
    }

    /** `initialize_test_values`: forward, length 2, both counters and both
        maxima 0; `last_sequence` is left alone. */
    method InitializeTestValues()
      requires Valid()
      modifies this
      ensures Valid()
      ensures Counts() == Initial() && Maxes() == Maxima(0, 0)
      ensures lastSequence == old(lastSequence) && sequence == old(sequence)
      ensures practiceMode == old(practiceMode) && testType == old(testType)
    {
      forward := true;
      sequenceLength := StartLength;
      sequenceAttempts := 0;
      correctAttempts := 0;
      maxForwardLength := 0;
      maxBackwardLength := 0;
    }

    /** `start_practice` */
    method StartPractice(draws: seq<Digit>) returns (a: Action)
      requires Valid()
      modifies this
      ensures Valid() && practiceMode && testType == old(testType)
      ensures Counts() == Initial() && Maxes() == Maxima(0, 0)
      ensures Shown(a, draws, StartLength, old(lastSequence), old(sequence))
    {
      practiceMode := true;
      InitializeTestValues();
      a := RunTest(draws);
    }

    /** `start_test('pre')` / `start_test('post')` */
    method StartTest(testType: TestType, draws: seq<Digit>) returns (a: Action)
      requires Valid()
      modifies this
      ensures Valid() && !practiceMode && this.testType == testType
      ensures Counts() == Initial() && Maxes() == Maxima(0, 0)
      ensures Shown(a, draws, StartLength, old(lastSequence), old(sequence))
    {
      this.testType := testType;
      practiceMode := false;
      InitializeTestValues();
      a := RunTest(draws);
    }

    /** `run_test`: present another trial while fewer than two attempts are
        recorded; otherwise decide by the staircase and present, show the
        backwards notice or end the test. */
    method RunTest(draws: seq<Digit>) returns (a: Action)
      requires Valid()
      modifies this
      decreases if sequenceAttempts < AttemptsPerLength then 0 else 1
      ensures Valid()
      ensures practiceMode == old(practiceMode) && testType == old(testType)
      ensures Counts() == Next(old(Counts()), practiceMode).1
      ensures Maxes() == Raise(old(Maxes()), old(Counts()))
      ensures Next(old(Counts()), practiceMode).0 == Proceed ==>
                Shown(a, draws, sequenceLength, old(lastSequence), old(sequence))
      ensures Next(old(Counts()), practiceMode).0 == SwitchBackward ==>
                a == SwitchToBackward && sequence == old(sequence) && lastSequence == old(lastSequence)
      ensures Next(old(Counts()), practiceMode).0 == Finish ==>
                && a == End(Summarise(maxForwardLength, maxBackwardLength, practiceMode, userId, testType))
                && sequence == old(sequence) && lastSequence == old(lastSequence)
    {
      NextKeepsTracks(Counts(), Maxes(), practiceMode);
      if sequenceAttempts < AttemptsPerLength {
        var drawn := Generator.DrawSequence(sequenceLength, lastSequence, draws, false);
        if drawn.Some? {
          sequence := drawn.value;
          lastSequence := drawn.value;
          a := Present(drawn.value);
        } else {
          a := NoSequence;
        }
      } else {
        if correctAttempts >= 1 {
          if forward {
            maxForwardLength := Max(maxForwardLength, sequenceLength);
          } else {
            maxBackwardLength := Max(maxBackwardLength, sequenceLength);
          }
          correctAttempts := 0;
          sequenceAttempts := 0;
          sequenceLength := sequenceLength + 1;

          if practiceMode {
            if sequenceLength > PracticeCeiling {
              if forward {
                forward := false;
                sequenceLength := StartLength;
                sequenceAttempts := 0;
                correctAttempts := 0;
                a := SwitchToBackward;
                return;
              } else {
                var e := EndTest();
                a := End(e);
                return;
              }
            }
          }
          a := RunTest(draws);
        } else {
          if forward {
            forward := false;
            sequenceLength := StartLength;
            sequenceAttempts := 0;
            correctAttempts := 0;
            a := SwitchToBackward;
          } else {
            var e := EndTest();
            a := End(e);
          }
        }
      }
    }

    /** `validate_input` followed by its call of `run_test`: one more attempt
        always, one more correct attempt exactly when the answer equals the
        digits joined in order (forward) or reversed (backward). */
    method ValidateInput(answer: string, draws: seq<Digit>) returns (a: Action)
      requires Valid() && sequenceAttempts < AttemptsPerLength
      modifies this
      ensures Valid()
      ensures practiceMode == old(practiceMode) && testType == old(testType)
      ensures var answered := Answer(old(Counts()), IsCorrect(old(sequence), old(forward), answer));
              && Counts() == Next(answered, practiceMode).1
              && Maxes() == Raise(old(Maxes()), answered)
              && (Next(answered, practiceMode).0 == Proceed ==> Shown(a, draws, sequenceLength, old(lastSequence), old(sequence)))
              && (Next(answered, practiceMode).0 == SwitchBackward ==> a == SwitchToBackward && sequence == old(sequence) && lastSequence == old(lastSequence))
              && (Next(answered, practiceMode).0 == Finish ==>
                    a == End(Summarise(maxForwardLength, maxBackwardLength, practiceMode, userId, testType)) && sequence == old(sequence) && lastSequence == old(lastSequence))
    {
      var correctSequence := sequence;
      if !forward {
        correctSequence := Reversed(correctSequence);
      }
      if answer == correctSequence {
        correctAttempts := correctAttempts + 1;
      }
      sequenceAttempts := sequenceAttempts + 1;
      a := RunTest(draws);
    }

    /** `end_test`: the record shown on screen and, unless practising, the line written. */
    method EndTest() returns (e: Ending)
      requires Valid()
      ensures e == Summarise(maxForwardLength, maxBackwardLength, practiceMode, userId, testType)
      ensures e.record.combined == maxForwardLength + maxBackwardLength
      ensures e.persisted.None? <==> practiceMode
      ensures e.persisted.Some? ==>
                ResultLine.ParseRecordLine(e.persisted.value.line) == Some((maxForwardLength, maxBackwardLength, maxForwardLength + maxBackwardLength))
    {
      e := Summarise(maxForwardLength, maxBackwardLength, practiceMode, userId, testType);
    }
  }

  /** Scenario, first part: a measured session is shown "15" at length 2
      and answers it wrongly; the next trial shows "73". */
  method OneMissScenario() returns (t: DigitSpanTest)
    ensures fresh(t) && t.Valid() && !t.practiceMode
    ensures t.Counts() == Counters(true, 2, 1, 0) && t.Maxes() == Maxima(0, 0)
    ensures t.sequence == "73"
  {
    t := new DigitSpanTest("s01");
    assert Chars([1, 5]) == "15";
    assert Generator.CleanDraws([1, 5], 2, [], false);
    var a := t.StartTest(Pre, [1, 5]);
    assert a == Present("15");
    assert !IsCorrect("15", true, "51");
    assert Chars([7, 3]) == "73";
    assert Generator.CleanDraws([7, 3], 2, "15", false);
    a := t.ValidateInput("51", [7, 3]);
  }

  /** Scenario: when both trials at length 2 are answered wrongly, the
      session switches to backward at length 2 with the counters reset and
      no maximum recorded. */
  method ForwardDoubleFailureScenario() returns (a: Action, counts: Counters, maxes: Maxima)
    ensures a == SwitchToBackward && counts == BackwardStart() && maxes == Maxima(0, 0)
  {
    var t := OneMissScenario();
    assert !IsCorrect("73", true, "x");
    a := t.ValidateInput("x", []);
    counts, maxes := t.Counts(), t.Maxes();
  }
}
