/** `DigitSpanTest` of `deprecated/RDS.py`: no practice mode; the generator
    also requires the candidate to be spread (`consecutive`); the final score
    is the sum of the two maxima, written as a two-line report. */
module DeprecatedRds {
  import opened Wrappers
  import opened Digits
  import opened Staircase
  import Generator
  import ResultLine

  /** `End` carries the score shown and the report written. */
  datatype Action = Present(sequence: string) | SwitchToBackward | End(score: int, report: string) | NoSequence

  class DigitSpanTest {
    var userId: string
    var forward: bool
    var sequenceLength: int
    var sequenceAttempts: int
    var correctAttempts: int
    var maxForwardLength: int
    var maxBackwardLength: int
    /** Read through `getattr(self, 'last_sequence', [])`: empty until the first trial. */
    var lastSequence: string
    var sequence: string

    function Counts(): Counters
      reads this
    {
      Counters(forward, sequenceLength, sequenceAttempts, correctAttempts)
    }

    function Maxes(): Maxima
      reads this
    {
      Maxima(maxForwardLength, maxBackwardLength)
    }

    ghost predicate Valid()
      reads this
    {
      Bounded(Counts()) && Tracks(Counts(), Maxes())
    }

    ghost predicate Shown(a: Action, draws: seq<Digit>, length: int, oldLast: string, oldSequence: string)
      reads this
    {
      && (|| (&& a.Present?
              && Generator.Acceptable(a.sequence, length, oldLast, true)
              && sequence == a.sequence && lastSequence == a.sequence)
          || (a == NoSequence && sequence == oldSequence && lastSequence == oldLast))
      && (Generator.CleanDraws(draws, length, oldLast, true) ==> a == Present(Chars(draws[..length])))
    }

    /** The window before an ID is entered; the counters are those
        `start_intro` sets. */
    constructor ()
      ensures Valid()
      ensures userId == [] && lastSequence == [] && sequence == []
      ensures Counts() == Initial() && Maxes() == Maxima(0, 0)
    {
      userId := [];
      forward := true;
      sequenceLength := StartLength;
      sequenceAttempts := 0;
      correctAttempts := 0;
      maxForwardLength := 0;
      maxBackwardLength := 0;
      lastSequence := [];
      sequence := [];
    }

    /** `start_intro`: the stripped ID is stored; an empty one stops there,
        any other starts a fresh session. */
    method StartIntro(entered: string) returns (started: bool)
      requires Valid()
      modifies this
      ensures Valid()
      ensures userId == ResultLine.Strip(entered)
      ensures started <==> userId != []
      ensures started ==> Counts() == Initial() && Maxes() == Maxima(0, 0)
      ensures !started ==> Counts() == old(Counts()) && Maxes() == old(Maxes())
      ensures lastSequence == old(lastSequence) && sequence == old(sequence)
    {
      userId := ResultLine.Strip(entered);
      if userId == [] {
        return false;
      }
      forward := true;
      sequenceLength := StartLength;
      sequenceAttempts := 0;
      correctAttempts := 0;
      maxForwardLength := 0;
      maxBackwardLength := 0;
      started := true;
    }

    /** `run_test` (also what `start_test` calls). */
    method RunTest(draws: seq<Digit>) returns (a: Action)
      requires Valid()
      modifies this
      decreases if sequenceAttempts < AttemptsPerLength then 0 else 1
      ensures Valid() && userId == old(userId)
      ensures Counts() == Next(old(Counts()), false).1
      ensures Maxes() == Raise(old(Maxes()), old(Counts()))
      ensures Next(old(Counts()), false).0 == Proceed ==>
                Shown(a, draws, sequenceLength, old(lastSequence), old(sequence))
      ensures Next(old(Counts()), false).0 == SwitchBackward ==> a == SwitchToBackward && sequence == old(sequence) && lastSequence == old(lastSequence)
      ensures Next(old(Counts()), false).0 == Finish ==>
                a == End(maxForwardLength + maxBackwardLength,
                         ResultLine.ScoreReport(userId, maxForwardLength + maxBackwardLength)) && sequence == old(sequence) && lastSequence == old(lastSequence)
    {
      NextKeepsTracks(Counts(), Maxes(), false);
      if sequenceAttempts < AttemptsPerLength {
        var drawn := Generator.DrawSequence(sequenceLength, lastSequence, draws, true);
        if drawn.Some? {
          sequence := drawn.value;
          lastSequence := drawn.value;
          a := Present(drawn.value);
        } else {
          a := NoSequence;
        }
      } else {
        if correctAttempts >= 1 {
          if forward {
            maxForwardLength := Max(maxForwardLength, sequenceLength);
          } else {
            maxBackwardLength := Max(maxBackwardLength, sequenceLength);
          }
          correctAttempts := 0;
          sequenceAttempts := 0;
          sequenceLength := sequenceLength + 1;
          a := RunTest(draws);
        } else {
          if forward {
            forward := false;
            sequenceLength := StartLength;
            sequenceAttempts := 0;
            correctAttempts := 0;
            a := SwitchToBackward;
          } else {
            a := EndTest();
          }
        }
      }
    }

    /** `validate_input` and its call of `run_test`. */
    method ValidateInput(answer: string, draws: seq<Digit>) returns (a: Action)
      requires Valid() && sequenceAttempts < AttemptsPerLength
      modifies this
      ensures Valid() && userId == old(userId)
      ensures var answered := Answer(old(Counts()), IsCorrect(old(sequence), old(forward), answer));
              && Counts() == Next(answered, false).1
              && Maxes() == Raise(old(Maxes()), answered)
              && (Next(answered, false).0 == Proceed ==> Shown(a, draws, sequenceLength, old(lastSequence), old(sequence)))
              && (Next(answered, false).0 == SwitchBackward ==> a == SwitchToBackward && sequence == old(sequence) && lastSequence == old(lastSequence))
              && (Next(answered, false).0 == Finish ==>
                    a == End(maxForwardLength + maxBackwardLength,
                             ResultLine.ScoreReport(userId, maxForwardLength + maxBackwardLength)) && sequence == old(sequence) && lastSequence == old(lastSequence))
    {
      var correctSequence := sequence;
      if !forward {
        correctSequence := Reversed(correctSequence);
      }
      if answer == correctSequence {
        correctAttempts := correctAttempts + 1;
      }
      sequenceAttempts := sequenceAttempts + 1;
      a := RunTest(draws);
    }

    /** `end_test`: the final score is the sum of the two maxima, and the
        report written reads back as that score. */
    method EndTest() returns (a: Action)
      requires Valid()
      ensures a.End? && a.score == maxForwardLength + maxBackwardLength && a.score >= 0
      ensures a.report == ResultLine.ScoreReport(userId, maxForwardLength + maxBackwardLength)
    {
      var finalScore := maxForwardLength + maxBackwardLength;
      a := End(finalScore, ResultLine.ScoreReport(userId, finalScore));
    }
  }
}
