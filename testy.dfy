/** `deprecated/testy.py`: a script over module globals (`span`, `sequence`,
    `forward`, `score`, `number`), held here as the fields of one `Session`
    object. The span goes up by one on every correct answer; a wrong forward
    answer switches to backward at span 2; a wrong backward answer ends the
    test. The drawn list is reversed in place before a backward trial is
    displayed, and answers are compared with that reversed list. */
module Testy {
  import opened Wrappers
  import opened Digits

  /** `random.choices(digits, k=span)`: `span` draws, in order. */
  function Choices(k: nat, draw: nat -> Digit): (s: seq<Digit>)
    ensures |s| == k
    ensures forall i :: 0 <= i < k ==> s[i] == draw(i)
  {
    seq(k, i requires 0 <= i => draw(i))
  }

  /** `[int(digit) for digit in answer]` */
  function DigitValues(answer: string): (values: seq<int>)
    ensures |values| == |answer|
    ensures forall i :: 0 <= i < |answer| ==> values[i] == DigitValue(answer[i])
  {
    seq(|answer|, i requires 0 <= i < |answer| => DigitValue(answer[i]))
  }

  /** The order in which a trial's digits are displayed. */
  function ShownOrder(generated: seq<Digit>, forward: bool): seq<Digit> {
    if forward then generated else Reversed(generated)
  }

  /** The answers `check_answer` accepts, as written: a digit string whose
      digits are the list after `display_sequence` reversed it, that is, the
      order shown, in both directions. */
  predicate AcceptedAsWritten(generated: seq<Digit>, forward: bool, answer: string) {
    IsDigitString(answer) && DigitValues(answer) == ShownOrder(generated, forward)
  }

  /** Trial `[1, 2]` in backward mode is shown as 2, 1. As written, typing
      the shown order `21` scores and typing it backwards, `12`, does not; the
      backward-recall rule of the other variants (`Digits.IsCorrect` on the
      shown digits) decides the opposite. */
  lemma BackwardAcceptsShownOrder()
    ensures ShownOrder([1, 2], false) == [2, 1]
    ensures AcceptedAsWritten([1, 2], false, "21")
    ensures !AcceptedAsWritten([1, 2], false, "12")
    ensures IsCorrect("21", false, "12") && !IsCorrect("21", false, "21")
  {
    assert Reversed([1, 2]) == Reversed([2]) + [1] == [2, 1];
    assert DigitValues("21") == [2, 1];
    assert DigitValues("12") == [1, 2];
    assert Reversed("21") == Reversed("1") + ['2'] == "12";
  }

  /** The evidently intended rule: in backward mode the answer is the order
      shown, reversed. */
  predicate AcceptedAsIntended(generated: seq<Digit>, forward: bool, answer: string) {
    var shown := ShownOrder(generated, forward);
    IsDigitString(answer) && DigitValues(answer) == if forward then shown else Reversed(shown)
  }

  /** Under the intended rule a backward trial is answered by the digits in
      the order they were drawn (the shown order reversed), and whenever the
      first and last drawn digits differ the as-written rule and the intended
      rule never accept the same backward answer. */
  lemma IntendedBackwardRecall(generated: seq<Digit>, answer: string)
    ensures AcceptedAsIntended(generated, true, answer) <==> AcceptedAsWritten(generated, true, answer)
    ensures AcceptedAsIntended(generated, false, answer) <==> IsDigitString(answer) && DigitValues(answer) == generated
    ensures |generated| >= 2 && generated[0] != generated[|generated| - 1] && AcceptedAsWritten(generated, false, answer) ==>
              !AcceptedAsIntended(generated, false, answer)
  {
    ReversedInvolution(generated);
    if |generated| >= 2 && AcceptedAsWritten(generated, false, answer) && AcceptedAsIntended(generated, false, answer) {
      var values := DigitValues(answer);
      assert values == Reversed(generated) && values == generated;
      assert values[0] == generated[|generated| - 1];
    }
  }

  /** `list.reverse()` on the drawn list. */
  method ReverseInPlace(a: array<Digit>)
    modifies a
    ensures a[..] == Reversed(old(a[..]))
  {
    var i := 0;
    var j := a.Length - 1;
    while i < j
      invariant 0 <= i <= a.Length && j == a.Length - 1 - i
      invariant i <= j + 1
      invariant forall k :: 0 <= k < i ==> a[k] == old(a[a.Length - 1 - k])
      invariant forall k :: 0 <= k < i ==> a[a.Length - 1 - k] == old(a[k])
      invariant forall k :: i <= k <= j ==> a[k] == old(a[k])
    {
      a[i], a[j] := a[j], a[i];
      i := i + 1;
      j := j - 1;
    }
  }

  class Session {
    var number: string
    var span: int
    var sequence: array<Digit>
    var forward: bool
    var score: int
    /** `end_test` has run: the entry and the button are disabled. */
    var ended: bool

    ghost predicate Valid()
      reads this
    {
      span >= 2 && score >= 0
    }

    /** The globals as the script defines them. */
    constructor ()
      ensures Valid()
      ensures number == [] && span == 2 && sequence.Length == 0 && forward && score == 0 && !ended
    {
      number := [];
      span := 2;
      sequence := new Digit[0];
      forward := true;
      score := 0;
      ended := false;
    }

    /** `generate_sequence` */
    method GenerateSequence(draw: nat -> Digit)
      requires Valid()
      modifies this
      ensures Valid() && fresh(sequence)
      ensures sequence[..] == Choices(span, draw)
      ensures span == old(span) && forward == old(forward) && score == old(score)
      ensures number == old(number) && ended == old(ended)
    {
      sequence := new Digit[span](i requires 0 <= i => draw(i));
    }

    /** `display_sequence`: a backward trial reverses the list in place before
        showing it; the result is the order shown. */
    method DisplaySequence() returns (shown: seq<Digit>)
      modifies sequence
      ensures shown == sequence[..] == ShownOrder(old(sequence[..]), forward)
    {
      if !forward {
        ReverseInPlace(sequence);
      }
      shown := sequence[..];
    }

    /** `start_trial`: a fresh draw, displayed. */
    method StartTrial(draw: nat -> Digit) returns (shown: seq<Digit>)
      requires Valid()
      modifies this
      ensures Valid() && fresh(sequence)
      ensures shown == sequence[..] == ShownOrder(Choices(span, draw), forward)
      ensures span == old(span) && forward == old(forward) && score == old(score)
      ensures number == old(number) && ended == old(ended)
    {
      GenerateSequence(draw);
      shown := DisplaySequence();
    }

    /** `start_test`: a number made of digits starts the first trial; anything
        else leaves everything as it was. */
    method StartTest(entered: string, draw: nat -> Digit) returns (shown: Option<seq<Digit>>)
      requires Valid()
      modifies this
      ensures Valid() && number == entered
      ensures shown.Some? <==> IsDigitString(entered)
      ensures shown.Some? ==> shown.value == sequence[..] == ShownOrder(Choices(span, draw), forward)
      ensures span == old(span) && forward == old(forward) && score == old(score) && ended == old(ended)
    {
      number := entered;
      if IsDigitString(number) {
        var s := StartTrial(draw);
        shown := Some(s);
      } else {
        shown := None;
      }
    }

    /** `check_answer` (with `end_test` and `save_data`): a non-digit answer
        changes nothing; a digit answer equal to the current list adds one to
        both the score and the span; any other digit answer switches a forward
        test to backward at span 2, and ends a backward test with the row
        `[number, score]` appended. */
    method CheckAnswer(answer: string) returns (row: Option<(string, int)>)
      requires Valid() && !ended
      modifies this
      ensures Valid() && number == old(number) && sequence == old(sequence)
      ensures row.Some? <==> ended
      ensures !IsDigitString(answer) ==>
                row.None? && span == old(span) && forward == old(forward) && score == old(score)
      ensures IsDigitString(answer) && DigitValues(answer) == sequence[..] ==>
                row.None? && span == old(span) + 1 && score == old(score) + 1 && forward == old(forward)
      ensures IsDigitString(answer) && DigitValues(answer) != sequence[..] && old(forward) ==>
                row.None? && !forward && span == 2 && score == old(score)
      ensures IsDigitString(answer) && DigitValues(answer) != sequence[..] && !old(forward) ==>
                row == Some((number, score)) && span == old(span) && score == old(score) && !forward
      ensures score >= old(score)
    {
      row := None;
      if IsDigitString(answer) {
        var values := DigitValues(answer);
        if values == sequence[..] {
          score := score + 1;
          span := span + 1;
        } else {
          if !forward {
            ended := true;
            row := Some((number, score));
            return;
          } else {
            forward := !forward;
            span := 2;
          }
        }
      }
    }
  }

  /** The finding on the script itself: after a forward mistake, a backward
      trial drawing 1 then 2 shows 2, 1, and the genuinely backward answer
      `12` ends the test. */
  method BackwardRecallScenario() returns (row: Option<(string, int)>)
    ensures row == Some(("7", 0))
  {
    var draw: nat -> Digit := i => if i == 0 then 1 else 2;
    var s := new Session();
    var shown := s.StartTest("7", draw);
    assert Choices(2, draw) == [1, 2];
    assert shown == Some([1, 2]);
    assert DigitValues("9") != [1, 2];
    row := s.CheckAnswer("9");
    assert !s.forward && s.span == 2;
    var shownBackward := s.StartTrial(draw);
    assert Reversed([1, 2]) == Reversed([2]) + [1] == [2, 1];
    assert shownBackward == [2, 1];
    assert DigitValues("12") == [1, 2];
    row := s.CheckAnswer("12");
  }
}
