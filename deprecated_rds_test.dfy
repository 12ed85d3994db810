/** `DigitSpanTest` of `deprecated/rds_test.py`: the same staircase and
    generator as `rds_test.py`, but a practice session ends through
    `end_practice` (a notice, nothing kept) and a measured one through an
    `end_test` that only displays the two maxima and persists nothing. */
module DeprecatedRdsTest {
  import opened Wrappers
  import opened Digits
  import opened Staircase
  import Generator

  /** What a call leaves on screen. `EndTest` carries the two maxima it
      displays; `EndPractice` carries nothing. */
  datatype Action = Present(sequence: string) | SwitchToBackward | EndTest(maxForward: int, maxBackward: int) | EndPractice | NoSequence

  class DigitSpanTest {
    const userId: string
    var forward: bool
    var sequenceLength: int
    var sequenceAttempts: int
    var correctAttempts: int
    var maxForwardLength: int
    var maxBackwardLength: int
    var lastSequence: string
    var sequence: string
    var practiceMode: bool

    function Counts(): Counters
      reads this
    {
      Counters(forward, sequenceLength, sequenceAttempts, correctAttempts)
    }

    function Maxes(): Maxima
      reads this
    {
      Maxima(maxForwardLength, maxBackwardLength)
    }

    ghost predicate Valid()
      reads this
    {
      && userId != []
      && Bounded(Counts())
      && Tracks(Counts(), Maxes())
    }

    ghost predicate Shown(a: Action, draws: seq<Digit>, length: int, oldLast: string, oldSequence: string)
      reads this
    {
      && (|| (&& a.Present?
              && Generator.Acceptable(a.sequence, length, oldLast, false)
              && sequence == a.sequence && lastSequence == a.sequence)
          || (a == NoSequence && sequence == oldSequence && lastSequence == oldLast))
      && (Generator.CleanDraws(draws, length, oldLast, false) ==> a == Present(Chars(draws[..length])))
    }

    /** The ending screen once the staircase says `Finish`. */
    function Ending(): Action
      reads this
    {
      if practiceMode then EndPractice else EndTest(maxForwardLength, maxBackwardLength)
    }

    constructor (userId: string)
      requires userId != []
      ensures Valid()
      ensures this.userId == userId
      ensures Counts() == Initial() && Maxes() == Maxima(0, 0)
      ensures lastSequence == [] && sequence == [] && !practiceMode
    {
      this.userId := userId;
      forward := true;
      sequenceLength := StartLength;
      sequenceAttempts := 0;
      correctAttempts := 0;
      maxForwardLength := 0;
      maxBackwardLength := 0;
      lastSequence := [];
      sequence := [];
      practiceMode := false;
    }

    /** `initialize_test_values`: forward, length 2, both counters and both maxima 0. */
    method InitializeTestValues()
      requires Valid()
      modifies this
      ensures Valid()
      ensures Counts() == Initial() && Maxes() == Maxima(0, 0)
      ensures lastSequence == old(lastSequence) && sequence == old(sequence) && practiceMode == old(practiceMode)
    {
      forward := true;
      sequenceLength := StartLength;
      sequenceAttempts := 0;
      correctAttempts := 0;
      maxForwardLength := 0;
      maxBackwardLength := 0;
    }

    /** `start_practice` (`practice` true) and `start_test` (`practice` false). */
    method Start(practice: bool, draws: seq<Digit>) returns (a: Action)
      requires Valid()
      modifies this
      ensures Valid() && practiceMode == practice
      ensures Counts() == Initial() && Maxes() == Maxima(0, 0)
      ensures Shown(a, draws, StartLength, old(lastSequence), old(sequence))
    {
      practiceMode := practice;
      InitializeTestValues();
      a := RunTest(draws);
    }

    /** `run_test`, ending through `end_practice` in practice mode and through
        `end_test` otherwise. */
    method RunTest(draws: seq<Digit>) returns (a: Action)
      requires Valid()
      modifies this
      decreases if sequenceAttempts < AttemptsPerLength then 0 else 1
      ensures Valid()
      ensures practiceMode == old(practiceMode)
      ensures Counts() == Next(old(Counts()), practiceMode).1
      ensures Maxes() == Raise(old(Maxes()), old(Counts()))
      ensures Next(old(Counts()), practiceMode).0 == Proceed ==>
                Shown(a, draws, sequenceLength, old(lastSequence), old(sequence))
      ensures Next(old(Counts()), practiceMode).0 == SwitchBackward ==> a == SwitchToBackward && sequence == old(sequence) && lastSequence == old(lastSequence)
      ensures Next(old(Counts()), practiceMode).0 == Finish ==> a == Ending() && sequence == old(sequence) && lastSequence == old(lastSequence)
    {
      NextKeepsTracks(Counts(), Maxes(), practiceMode);
      if sequenceAttempts < AttemptsPerLength {
        var drawn := Generator.DrawSequence(sequenceLength, lastSequence, draws, false);
        if drawn.Some? {
          sequence := drawn.value;
          lastSequence := drawn.value;
          a := Present(drawn.value);
        } else {
          a := NoSequence;
        }
      } else {
        if correctAttempts >= 1 {
          if forward {
            maxForwardLength := Max(maxForwardLength, sequenceLength);
          } else {
            maxBackwardLength := Max(maxBackwardLength, sequenceLength);
          }
          correctAttempts := 0;
          sequenceAttempts := 0;
          sequenceLength := sequenceLength + 1;

          if practiceMode {
            if sequenceLength > PracticeCeiling {
              if forward {
                forward := false;
                sequenceLength := StartLength;
                sequenceAttempts := 0;
                correctAttempts := 0;
                a := SwitchToBackward;
                return;
              } else {
                a := EndPractice;
                return;
              }
            }
          }
          a := RunTest(draws);
        } else {
          if forward {
            forward := false;
            sequenceLength := StartLength;
            sequenceAttempts := 0;
            correctAttempts := 0;
            a := SwitchToBackward;
          } else {
            if practiceMode {
              a := EndPractice;
            } else {
              a := EndTest(maxForwardLength, maxBackwardLength);
            }
          }
        }
      }
    }

    /** `validate_input` and its call of `run_test`. */
    method ValidateInput(answer: string, draws: seq<Digit>) returns (a: Action)
      requires Valid() && sequenceAttempts < AttemptsPerLength
      modifies this
      ensures Valid()
      ensures practiceMode == old(practiceMode)
      ensures var answered := Answer(old(Counts()), IsCorrect(old(sequence), old(forward), answer));
              && Counts() == Next(answered, practiceMode).1
              && Maxes() == Raise(old(Maxes()), answered)
              && (Next(answered, practiceMode).0 == Proceed ==> Shown(a, draws, sequenceLength, old(lastSequence), old(sequence)))
              && (Next(answered, practiceMode).0 == SwitchBackward ==> a == SwitchToBackward && sequence == old(sequence) && lastSequence == old(lastSequence))
              && (Next(answered, practiceMode).0 == Finish ==> a == Ending() && sequence == old(sequence) && lastSequence == old(lastSequence))
    {
      var correctSequence := sequence;
      if !forward {
        correctSequence := Reversed(correctSequence);
      }
      if answer == correctSequence {
        correctAttempts := correctAttempts + 1;
      }
      sequenceAttempts := sequenceAttempts + 1;
      a := RunTest(draws);
    }
  }
}
