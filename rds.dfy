/** `DigitSpanTest` of `RDS.py`: the staircase without maxima; the score is
    one point per correct trial; a candidate is drawn whole and kept only when
    spread, with no check against the previous trial. */
module Rds {
  import opened Wrappers
  import opened Digits
  import opened Staircase
  import Generator
  import ResultLine

  datatype Action = Present(sequence: string) | SwitchToBackward | End(score: int, report: string) | NoSequence

  /** The number of correct trials in a list of trial outcomes. */
  function CorrectCount(outcomes: seq<bool>): nat {
    if outcomes == [] then 0 else (if outcomes[0] then 1 else 0) + CorrectCount(outcomes[1..])
  }

  /** One more outcome adds one exactly when it is correct; the count never
      exceeds the number of trials. */
  lemma {:induction false} CorrectCountAppend(outcomes: seq<bool>, b: bool)
    ensures CorrectCount(outcomes + [b]) == CorrectCount(outcomes) + (if b then 1 else 0)
    ensures CorrectCount(outcomes) <= |outcomes|
    decreases |outcomes|
  {
    if outcomes == [] {
      assert [] + [b] == [b];
    } else {
      assert (outcomes + [b])[1..] == outcomes[1..] + [b];
      CorrectCountAppend(outcomes[1..], b);
    }
  }

  class DigitSpanTest {
    var userId: string
    var forward: bool
    var sequenceLength: int
    var sequenceAttempts: int
    var correctAttempts: int
    var score: int
    var sequence: string
    /** The outcome of every trial answered since `start_intro`. */
    ghost var outcomes: seq<bool>

    function Counts(): Counters
      reads this
    {
      Counters(forward, sequenceLength, sequenceAttempts, correctAttempts)
    }

    ghost predicate Valid()
      reads this
    {
      && Bounded(Counts())
      && score == CorrectCount(outcomes)
      && correctAttempts <= score <= |outcomes|
    }

    constructor ()
      ensures Valid()
      ensures userId == [] && sequence == [] && Counts() == Initial() && score == 0
    {
      userId := [];
      forward := true;
      sequenceLength := StartLength;
      sequenceAttempts := 0;
      correctAttempts := 0;
      score := 0;
      sequence := [];
      outcomes := [];
    }

    /** `start_intro`: an empty stripped ID stops; any other starts a fresh
        session with score 0. */
    method StartIntro(entered: string) returns (started: bool)
      requires Valid()
      modifies this
      ensures Valid()
      ensures userId == ResultLine.Strip(entered)
      ensures started <==> userId != []
      ensures started ==> Counts() == Initial() && score == 0 && outcomes == []
      ensures !started ==> Counts() == old(Counts()) && score == old(score) && outcomes == old(outcomes)
      ensures sequence == old(sequence)
    {
      userId := ResultLine.Strip(entered);
      if userId == [] {
        return false;
      }
      forward := true;
      sequenceLength := StartLength;
      sequenceAttempts := 0;
      correctAttempts := 0;
      score := 0;
      outcomes := [];
      started := true;
    }

    /** `run_test` (also what `start_test` calls). The score is never touched here. */
    method RunTest(draws: seq<Digit>) returns (a: Action)
      requires Valid()
      modifies this
      decreases if sequenceAttempts < AttemptsPerLength then 0 else 1
      ensures Valid() && userId == old(userId)
      ensures score == old(score) && outcomes == old(outcomes)
      ensures Counts() == Next(old(Counts()), false).1
      ensures Next(old(Counts()), false).0 == Proceed ==>
                || (&& a.Present? && sequence == a.sequence && |a.sequence| == sequenceLength
                    && AllDigits(a.sequence) && Spread(a.sequence))
                || (a == NoSequence && sequence == old(sequence))
      ensures Next(old(Counts()), false).0 == Proceed && sequenceLength <= |draws| && Spread(Chars(draws[..sequenceLength])) ==>
                a == Present(Chars(draws[..sequenceLength]))
      ensures Next(old(Counts()), false).0 == SwitchBackward ==> a == SwitchToBackward && sequence == old(sequence)
      ensures Next(old(Counts()), false).0 == Finish ==> a == End(score, ResultLine.ScoreReport(userId, score)) && sequence == old(sequence)
    {
      if sequenceAttempts < AttemptsPerLength {
        var drawn := Generator.DrawSpreadSequence(sequenceLength, draws);
        if drawn.Some? {
          sequence := drawn.value;
          a := Present(drawn.value);
        } else {
          a := NoSequence;
        }
      } else {
        if correctAttempts >= 1 {
          correctAttempts := 0;
          sequenceAttempts := 0;
          sequenceLength := sequenceLength + 1;
          a := RunTest(draws);
        } else {
          if forward {
            forward := false;
            sequenceLength := StartLength;
            sequenceAttempts := 0;
            correctAttempts := 0;
            a := SwitchToBackward;
          } else {
            a := End(score, ResultLine.ScoreReport(userId, score));
          }
        }
      }
    }

    /** `validate_input` and its call of `run_test`: a correct answer adds one
        to both `correct_attempts` and `score`, so the score stays the number of
        correct trials of the session. */
    method ValidateInput(answer: string, draws: seq<Digit>) returns (a: Action)
      requires Valid() && sequenceAttempts < AttemptsPerLength
      modifies this
      ensures Valid() && userId == old(userId)
      ensures var correct := IsCorrect(old(sequence), old(forward), answer);
              && outcomes == old(outcomes) + [correct]
              && score == old(score) + (if correct then 1 else 0)
              && Counts() == Next(Answer(old(Counts()), correct), false).1
              && (Next(Answer(old(Counts()), correct), false).0 == Proceed ==>
                    || (&& a.Present? && sequence == a.sequence && |a.sequence| == sequenceLength
                        && AllDigits(a.sequence) && Spread(a.sequence))
                    || (a == NoSequence && sequence == old(sequence)))
              && (Next(Answer(old(Counts()), correct), false).0 == Proceed && sequenceLength <= |draws| && Spread(Chars(draws[..sequenceLength])) ==>
                    a == Present(Chars(draws[..sequenceLength])))
              && (Next(Answer(old(Counts()), correct), false).0 == SwitchBackward ==> a == SwitchToBackward && sequence == old(sequence))
              && (Next(Answer(old(Counts()), correct), false).0 == Finish ==> a == End(score, ResultLine.ScoreReport(userId, score)) && sequence == old(sequence))
    {
      var correctSequence := sequence;
      if !forward {
        correctSequence := Reversed(correctSequence);
      }
      ghost var correct := answer == correctSequence;
      CorrectCountAppend(outcomes, correct);
      outcomes := outcomes + [correct];
      if answer == correctSequence {
        correctAttempts := correctAttempts + 1;
        score := score + 1;
      }
      sequenceAttempts := sequenceAttempts + 1;
      a := RunTest(draws);
    }
  }
}
