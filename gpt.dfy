/** `DigitSpanTest` of `deprecated/gpt.py`: no maxima, no generator
    constraint, a correct trial scores its own length, and the switch to
    backward recall presents the first backward trial at once. */
module Gpt {
  import opened Digits
  import opened Staircase
  import Generator
  import ResultLine

  datatype Action = Present(sequence: string) | End(score: int, file: string, content: string)

  /** The total of a list of trial lengths. */
  function Sum(lengths: seq<int>): int {
    if lengths == [] then 0 else lengths[0] + Sum(lengths[1..])
  }

  lemma {:induction false} SumAppend(lengths: seq<int>, x: int)
    ensures Sum(lengths + [x]) == Sum(lengths) + x
    decreases |lengths|
  {
    if lengths == [] {
      assert [] + [x] == [x];
    } else {
      assert (lengths + [x])[1..] == lengths[1..] + [x];
      SumAppend(lengths[1..], x);
    }
  }

  /** The counters between two calls: a trial is under way, or the test has
      ended on a backward double failure. */
  predicate Settled(c: Counters) {
    Bounded(c) || (DoubleFailure(c) && !c.forward && c.length >= StartLength)
  }

  class DigitSpanTest {
    var dataFileNum: string
    var forward: bool
    var sequenceLength: int
    var sequenceAttempts: int
    var correctAttempts: int
    var score: int
    var sequence: string
    /** The length of every trial answered correctly so far. */
    ghost var correctLengths: seq<int>

    function Counts(): Counters
      reads this
    {
      Counters(forward, sequenceLength, sequenceAttempts, correctAttempts)
    }

    /** The score is the sum of the lengths of the correct trials, each at
        least 2, so it is never negative. The counters are only well formed:
        `end_test` leaves the entry bound, so answers keep arriving after the
        end with the attempts at 2 or more. */
    ghost predicate Valid()
      reads this
    {
      && WellFormed(Counts())
      && (forall i :: 0 <= i < |correctLengths| ==> correctLengths[i] >= StartLength)
      && score == Sum(correctLengths)
      && score >= 0
    }

    /** `__init__`: forward, length 2, both counters and the score 0. */
    constructor ()
      ensures Valid() && Settled(Counts())
      ensures Counts() == Initial() && score == 0 && correctLengths == [] && sequence == []
    {
      dataFileNum := [];
      forward := true;
      sequenceLength := StartLength;
      sequenceAttempts := 0;
      correctAttempts := 0;
      score := 0;
      sequence := [];
      correctLengths := [];
    }

    /** `start_test`: the data file number is taken as typed, then `run_test`. */
    method StartTest(entered: string, draw: nat -> Digit) returns (a: Action)
      requires Valid()
      modifies this
      ensures Valid() && Settled(Counts()) && dataFileNum == entered
      ensures score == old(score) && correctLengths == old(correctLengths)
      ensures Counts() == Next(old(Counts()), false).1
      ensures Next(old(Counts()), false).0 != Finish ==>
                a == Present(Generator.Drawn(sequenceLength, draw)) && sequence == a.sequence
      ensures Next(old(Counts()), false).0 == Finish ==>
                a == End(score, "data_" + dataFileNum + ".txt", ResultLine.ScoreLine(score)) && sequence == old(sequence)
    {
      dataFileNum := entered;
      a := RunTest(draw);
    }

    /** `run_test`: a trial at the current length, or the staircase decision;
        after a forward double failure the first backward trial (length 2) is
        presented in the same call. */
    method RunTest(draw: nat -> Digit) returns (a: Action)
      requires Valid()
      modifies this
      decreases if sequenceAttempts < AttemptsPerLength then 0 else 1
      ensures Valid() && Settled(Counts()) && dataFileNum == old(dataFileNum)
      ensures score == old(score) && correctLengths == old(correctLengths)
      ensures Counts() == Next(old(Counts()), false).1
      ensures Next(old(Counts()), false).0 != Finish ==>
                a == Present(Generator.Drawn(sequenceLength, draw)) && sequence == a.sequence
      ensures Next(old(Counts()), false).0 == Finish ==>
                a == End(score, "data_" + dataFileNum + ".txt", ResultLine.ScoreLine(score)) && sequence == old(sequence)
    {
      if sequenceAttempts < AttemptsPerLength {
        sequence := Generator.Drawn(sequenceLength, draw);
        a := Present(sequence);
      } else {
        if correctAttempts >= 1 {
          correctAttempts := 0;
          sequenceAttempts := 0;
          sequenceLength := sequenceLength + 1;
          a := RunTest(draw);
        } else {
          if forward {
            forward := false;
            sequenceLength := StartLength;
            sequenceAttempts := 0;
            correctAttempts := 0;
            a := RunTest(draw);
          } else {
            a := EndTest();
          }
        }
      }
    }

    /** `validate_input` and its call of `run_test`: a correct answer adds the
        current length to the score, so the score never decreases and stays
        the sum of the correct trials' lengths. After the end the answer is
        still judged against the last sequence: a correct one resumes the test
        one length up, a wrong one ends it again. */
    method ValidateInput(answer: string, draw: nat -> Digit) returns (a: Action)
      requires Valid()
      modifies this
      ensures Valid() && Settled(Counts()) && dataFileNum == old(dataFileNum)
      ensures var correct := IsCorrect(old(sequence), old(forward), answer);
              && correctLengths == old(correctLengths) + (if correct then [old(sequenceLength)] else [])
              && score == old(score) + (if correct then old(sequenceLength) else 0)
              && score >= old(score)
              && Counts() == Next(Answer(old(Counts()), correct), false).1
              && (Next(Answer(old(Counts()), correct), false).0 != Finish ==>
                    a == Present(Generator.Drawn(sequenceLength, draw)) && sequence == a.sequence)
              && (Next(Answer(old(Counts()), correct), false).0 == Finish ==>
                    a == End(score, "data_" + dataFileNum + ".txt", ResultLine.ScoreLine(score)) && sequence == old(sequence))
    {
      var correctSequence := sequence;
      if !forward {
        correctSequence := Reversed(correctSequence);
      }
      if answer == correctSequence {
        correctAttempts := correctAttempts + 1;
        SumAppend(correctLengths, sequenceLength);
        correctLengths := correctLengths + [sequenceLength];
        score := score + sequenceLength;
      }
      sequenceAttempts := sequenceAttempts + 1;
      a := RunTest(draw);
    }

    /** `end_test`: the score shown and the one line written to `data_{n}.txt`. */
    method EndTest() returns (a: Action)
      requires Valid()
      ensures a == End(score, "data_" + dataFileNum + ".txt", ResultLine.ScoreLine(score))
    {
      a := End(score, "data_" + dataFileNum + ".txt", ResultLine.ScoreLine(score));
    }
  }

  /** Scenario, first part: two wrong forward answers at length 2 switch the
      test to backward recall with the score still 0. */
  method ForwardFailed() returns (t: DigitSpanTest)
    ensures fresh(t) && t.Valid()
    ensures t.Counts() == BackwardStart() && t.score == 0 && t.dataFileNum == "5"
    ensures t.sequence == "44"
  {
    t := new DigitSpanTest();
    var a := t.StartTest("5", _ => 4);
    assert t.sequence == "44";
    a := t.ValidateInput("x", _ => 4);
    assert t.Counts() == Counters(true, 2, 1, 0) && t.sequence == "44";
    a := t.ValidateInput("x", _ => 4);
    assert t.sequence == Generator.Drawn(2, _ => 4) == "44";
  }

  /** Scenario, second part: two wrong backward answers, the second on "47",
      end the test with score 0. */
  method EndedOnFortySeven() returns (t: DigitSpanTest)
    ensures fresh(t) && t.Valid()
    ensures t.Counts() == Counters(false, 2, 2, 0) && t.score == 0
    ensures t.sequence == "47" && t.dataFileNum == "5"
  {
    t := ForwardFailed();
    assert !IsCorrect(t.sequence, t.forward, "x");
    var draw: nat -> Digit := i => if i == 0 then 4 else 7;
    var a := t.ValidateInput("x", draw);
    assert t.sequence == Generator.Drawn(2, draw) == "47";
    assert t.Counts() == Counters(false, 2, 1, 0);
    assert !IsCorrect(t.sequence, t.forward, "x");
    a := t.ValidateInput("x", _ => 4);
    assert a == End(0, "data_5.txt", ResultLine.ScoreLine(0));
  }

  /** Scenario, last part: the ended test still takes "74", which scores 2
      and resumes the test backward at length 3. */
  method AnswerAfterEndScenario() returns (score: int, counts: Counters, a: Action)
    ensures score == 2 && counts == Counters(false, 3, 0, 0) && a == Present("111")
  {
    var t := EndedOnFortySeven();
    assert IsCorrect(t.sequence, t.forward, "74");
    a := t.ValidateInput("74", _ => 1);
    score, counts := t.score, t.Counts();
  }
}
