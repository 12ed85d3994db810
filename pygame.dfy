/** `run_test(forward)` and `main` of `deprecated/RDS_PyGame.py`: one
    direction per call, two trials per length, a per-length score capped at 1,
    and a span equal to the last length passed. Each trial's keystrokes up to
    Return (or a window close) are supplied as a `Typed` value; the digits of
    trial `t` come from the oracle `draw(t)(i)`. */
module RdsPyGame {
  import opened Wrappers
  import opened Digits
  import Generator

  /** What the subject did during one trial: keys typed before Return, or
      closing the window. */
  datatype Typed = Entered(keys: string) | Quit

  /** The typed answer: only the characters `isdigit` accepts are appended. */
  function DigitsOnly(keys: string): (typed: string)
    ensures AllDigits(typed) && |typed| <= |keys|
    ensures AllDigits(keys) ==> typed == keys
  {
    if keys == [] then []
    else DigitsOnly(keys[..|keys| - 1]) + (if IsDigitChar(keys[|keys| - 1]) then [keys[|keys| - 1]] else [])
  }

  /** The keystroke loop of one trial. */
  method TypedAnswer(keys: string) returns (inputSequence: string)
    ensures inputSequence == DigitsOnly(keys)
  {
    inputSequence := "";
    var i := 0;
    while i < |keys|
      invariant 0 <= i <= |keys|
      invariant inputSequence == DigitsOnly(keys[..i])
    {
      assert keys[..i + 1][..i] == keys[..i];
      if IsDigitChar(keys[i]) {
        inputSequence := inputSequence + [keys[i]];
      }
      i := i + 1;
    }
    assert keys[..i] == keys;
  }

  /** The length of trial `t` while the test goes on: two trials per length. */
  function TrialLength(t: nat): nat {
    2 + t / 2
  }

  /** The digits presented at trial `t`. */
  function Presented(draw: nat -> nat -> Digit, t: nat): string {
    Generator.Drawn(TrialLength(t), draw(t))
  }

  /** Whether the answer typed at trial `t` matches: the presented digits,
      reversed for a backward run. */
  predicate TrialCorrect(forward: bool, draw: nat -> nat -> Digit, t: nat, keys: string) {
    IsCorrect(Presented(draw, t), forward, DigitsOnly(keys))
  }

  /** The loop's local counters, and the span once `run_test` has returned. */
  datatype Counters = Counters(length: int, attempts: int, score: int, span: Option<int>)

  /** One answered trial: score += 1 capped at 1, one more attempt, and at two
      attempts either the next length or the span `length - 1`. */
  function Trial(c: Counters, ok: bool): Counters {
    var score := if ok then (if c.score + 1 > 1 then 1 else c.score + 1) else c.score;
    var attempts := c.attempts + 1;
    if attempts == 2 then
      if score > 0 then Counters(c.length + 1, 0, 0, None)
      else c.(attempts := attempts, score := score, span := Some(c.length - 1))
    else Counters(c.length, attempts, score, None)
  }

  /** Within a length (score 0 or 1): the first answer of a pair only counts;
      the second decides the span `length - 1` exactly when neither answer
      of the pair was correct, and otherwise moves to the next length with
      fresh counters. */
  lemma TrialDecides(c: Counters, ok: bool)
    requires 0 <= c.score <= c.attempts <= 1 && c.span.None?
    ensures c.attempts == 0 ==> Trial(c, ok) == Counters(c.length, 1, if ok then 1 else 0, None)
    ensures c.attempts == 1 ==> (Trial(c, ok).span.Some? <==> !ok && c.score == 0)
    ensures c.attempts == 1 && !ok && c.score == 0 ==> Trial(c, ok).span == Some(c.length - 1)
    ensures c.attempts == 1 && (ok || c.score == 1) ==> Trial(c, ok) == Counters(c.length + 1, 0, 0, None)
  {
  }

  /** The counters after a list of trial outcomes; once the span is decided,
      later outcomes change nothing. */
  function Replay(oks: seq<bool>): Counters {
    if oks == [] then Counters(2, 0, 0, None)
    else
      var before := Replay(oks[..|oks| - 1]);
      if before.span.Some? then before else Trial(before, oks[|oks| - 1])
  }

  /** Pair `k` (trials `2k` and `2k + 1`, both at length `2 + k`) had a correct answer. */
  predicate PairPassed(oks: seq<bool>, k: nat)
    requires 2 * k + 1 < |oks|
  {
    oks[2 * k] || oks[2 * k + 1]
  }

  predicate PairsPassed(oks: seq<bool>, m: nat)
    requires 2 * m <= |oks|
  {
    forall k :: 0 <= k < m ==> PairPassed(oks, k)
  }

  /** The reference definition of a span of `n`: the first `n - 1` pairs each
      had a correct answer, and pair `n - 1` (at length `n + 1`) had none. */
  predicate SpanIs(oks: seq<bool>, n: int) {
    1 <= n && 2 * n <= |oks| && PairsPassed(oks, n - 1) && !PairPassed(oks, n - 1)
  }

  lemma PairsPassedPrefix(oks: seq<bool>, more: seq<bool>, m: nat)
    requires 2 * m <= |oks|
    ensures PairsPassed(oks, m) <==> PairsPassed(oks + more, m)
  {
    assert forall k :: 0 <= k < m ==> PairPassed(oks, k) == PairPassed(oks + more, k);
  }

  /** While undecided, the replayed counters are the loop's: length
      `2 + pairs`, attempts the parity, score the capped count of the open pair;
      the span is undecided exactly while every complete pair was passed, and a
      decided span is the reference one. */
  lemma {:induction false} ReplayCharacterised(oks: seq<bool>)
    ensures Replay(oks).span.None? <==> PairsPassed(oks, |oks| / 2)
    ensures Replay(oks).span.None? ==>
              && Replay(oks).length == TrialLength(|oks|)
              && Replay(oks).attempts == |oks| % 2
              && Replay(oks).score == (if |oks| % 2 == 1 && oks[|oks| - 1] then 1 else 0)
    ensures Replay(oks).span.Some? ==> SpanIs(oks, Replay(oks).span.value)
    decreases |oks|
  {
    if oks != [] {
      var init := oks[..|oks| - 1];
      var b := oks[|oks| - 1];
      assert oks == init + [b];
      ReplayCharacterised(init);
      PairsPassedPrefix(init, [b], |init| / 2);
      var before := Replay(init);
      if before.span.Some? {
        PairsPassedPrefix(init, [b], before.span.value - 1);
        assert PairPassed(init, before.span.value - 1) == PairPassed(oks, before.span.value - 1);
        assert !PairPassed(oks, before.span.value - 1);
      } else if |init| % 2 == 1 {
        var k := |init| / 2;
        assert PairPassed(oks, k) == (init[|init| - 1] || b);
        if PairPassed(oks, k) {
          assert PairsPassed(oks, |oks| / 2);
        } else {
          assert Replay(oks).span == Some(k + 1);
        }
      }
    }
  }

  /** Once `run_test` would have returned, later trials change nothing. */
  lemma {:induction false} ReplaySticks(oks: seq<bool>, more: seq<bool>)
    requires Replay(oks).span.Some?
    ensures Replay(oks + more) == Replay(oks)
    decreases |more|
  {
    if more == [] {
      assert oks + more == oks;
    } else {
      var init := more[..|more| - 1];
      ReplaySticks(oks, init);
      assert (oks + more)[..|oks + more| - 1] == oks + init;
    }
  }

  /** The span `run_test` reports is exactly the reference one. */
  lemma SpanIffReference(oks: seq<bool>, n: int)
    ensures Replay(oks).span == Some(n) <==> SpanIs(oks, n)
  {
    ReplayCharacterised(oks);
  }

  /** One more outcome replays as one more `Trial`, unless already decided. */
  lemma ReplayStep(oks: seq<bool>, t: nat)
    requires t < |oks|
    ensures Replay(oks[..t + 1]) == if Replay(oks[..t]).span.Some? then Replay(oks[..t]) else Trial(Replay(oks[..t]), oks[t])
  {
    assert oks[..t + 1][..t] == oks[..t];
  }

  /** The index of the first `Quit`, or the number of trials when there is none. */
  function FirstQuit(answers: seq<Typed>): (q: nat)
    ensures q <= |answers|
    ensures forall t :: 0 <= t < q ==> answers[t].Entered?
    ensures q < |answers| ==> answers[q].Quit?
  {
    if answers == [] || answers[0].Quit? then 0 else 1 + FirstQuit(answers[1..])
  }

  /** The outcome of every trial answered before the window is closed. */
  function Outcomes(forward: bool, draw: nat -> nat -> Digit, answers: seq<Typed>): (oks: seq<bool>)
    ensures |oks| == FirstQuit(answers)
    ensures forall t :: 0 <= t < |oks| ==> oks[t] == TrialCorrect(forward, draw, t, answers[t].keys)
  {
    var q := FirstQuit(answers);
    seq(q, t requires 0 <= t < q => TrialCorrect(forward, draw, t, answers[t].keys))
  }

  /** What `run_test` returns after the answered trials `oks`: the span once
      decided, 0 when the window was closed (`quit`) before that, and `None`
      when the answers run out first (the source would still be waiting for keys). */
  function Verdict(oks: seq<bool>, quit: bool): Option<int> {
    if Replay(oks).span.Some? then Replay(oks).span
    else if quit then Some(0)
    else None
  }

  function RunResult(forward: bool, draw: nat -> nat -> Digit, answers: seq<Typed>): Option<int> {
    Verdict(Outcomes(forward, draw, answers), FirstQuit(answers) < |answers|)
  }

  /** One pass of the trial loop up to Return: the digits drawn at the
      current length, the typed answer, and the comparison with the digits
      (reversed first for a backward run). */
  method PlayTrial(forward: bool, draw: nat -> nat -> Digit, t: nat, keys: string, sequenceLength: int) returns (ok: bool)
    requires sequenceLength == TrialLength(t)
    ensures ok == TrialCorrect(forward, draw, t, keys)
  {
    var sequence := Generator.Drawn(sequenceLength, draw(t));
    var inputSequence := TypedAnswer(keys);
    if !forward {
      sequence := Reversed(sequence);
    }
    ok := inputSequence == sequence;
  }

  /** The loop of `run_test` from trial `t` on, with counters `c`, given the
      outcomes `oks` of the answered trials and whether a close follows them. */
  function LoopFrom(oks: seq<bool>, quit: bool, t: nat, c: Counters): Option<int>
    decreases |oks| - t
  {
    if t >= |oks| then (if quit then Some(0) else None)
    else
      var next := Trial(c, oks[t]);
      if next.span.Some? then next.span else LoopFrom(oks, quit, t + 1, next)
  }

  /** From any undecided point, the loop ends with what the replayed outcomes
      determine. */
  lemma {:induction false} LoopFromReplay(oks: seq<bool>, quit: bool, t: nat)
    requires t <= |oks|
    requires Replay(oks[..t]).span.None?
    ensures LoopFrom(oks, quit, t, Replay(oks[..t])) == Verdict(oks, quit)
    decreases |oks| - t
  {
    if t == |oks| {
      assert oks[..t] == oks;
    } else {
      ReplayStep(oks, t);
      var next := Replay(oks[..t + 1]);
      if next.span.Some? {
        ReplaySticks(oks[..t + 1], oks[t + 1..]);
        assert oks[..t + 1] + oks[t + 1..] == oks;
      } else {
        LoopFromReplay(oks, quit, t + 1);
      }
    }
  }

  /** Run from the start over the outcomes, the loop's result is the reference one. */
  lemma LoopMeetsReference(oks: seq<bool>, quit: bool)
    ensures LoopFrom(oks, quit, 0, Counters(2, 0, 0, None)) == Verdict(oks, quit)
  {
    assert oks[..0] == [];
    LoopFromReplay(oks, quit, 0);
  }

  /** The loop of `run_test(forward)` from trial `t` on, with counters `c`,
      over the subject's answers: a close returns 0, running out of answers
      leaves no result. */
  function RunFrom(forward: bool, draw: nat -> nat -> Digit, answers: seq<Typed>, t: nat, c: Counters): Option<int>
    decreases |answers| - t
  {
    if t >= |answers| then None
    else if answers[t].Quit? then Some(0)
    else
      var next := Trial(c, TrialCorrect(forward, draw, t, answers[t].keys));
      if next.span.Some? then next.span else RunFrom(forward, draw, answers, t + 1, next)
  }

  /** Over the answered trials, the loop over the answers is the loop over
      their outcomes. */
  lemma {:induction false} RunFromOutcomes(forward: bool, draw: nat -> nat -> Digit, answers: seq<Typed>, oks: seq<bool>, t: nat, c: Counters)
    requires |oks| == FirstQuit(answers)
    requires forall i :: 0 <= i < |oks| ==> oks[i] == TrialCorrect(forward, draw, i, answers[i].keys)
    requires t <= |oks|
    ensures RunFrom(forward, draw, answers, t, c) == LoopFrom(oks, FirstQuit(answers) < |answers|, t, c)
    decreases |oks| - t
  {
    if t < |oks| {
      var next := Trial(c, oks[t]);
      if next.span.None? {
        RunFromOutcomes(forward, draw, answers, oks, t + 1, next);
      }
    }
  }

  /** What `run_test(forward)` returns: its loop from the first trial at length 2. */
  function Span(forward: bool, draw: nat -> nat -> Digit, answers: seq<Typed>): Option<int> {
    RunFrom(forward, draw, answers, 0, Counters(2, 0, 0, None))
  }

  /** What the loop returns from the start is the reference result. */
  lemma RunMeetsReference(forward: bool, draw: nat -> nat -> Digit, answers: seq<Typed>)
    ensures Span(forward, draw, answers) == RunResult(forward, draw, answers)
  {
    var oks := Outcomes(forward, draw, answers);
    RunFromOutcomes(forward, draw, answers, oks, 0, Counters(2, 0, 0, None));
    LoopMeetsReference(oks, FirstQuit(answers) < |answers|);
  }

  /** `run_test(forward)`: the trial loop with its local counters. Within one
      length the score is always 0 or 1, and the length is `2 + t/2` at trial `t`. */
  method RunTest(forward: bool, draw: nat -> nat -> Digit, answers: seq<Typed>) returns (r: Option<int>)
    ensures r == Span(forward, draw, answers)
  {
    var sequenceLength := 2;
    var attempts := 0;
    var score := 0;
    var t := 0;
    while attempts < 2
      invariant 0 <= t
      invariant RunFrom(forward, draw, answers, 0, Counters(2, 0, 0, None)) == RunFrom(forward, draw, answers, t, Counters(sequenceLength, attempts, score, None))
      invariant sequenceLength == TrialLength(t) && attempts == t % 2
      invariant 0 <= score <= 1
      decreases |answers| - t
    {
      if t >= |answers| {
        return None;
      }
      if answers[t].Quit? {
        return Some(0);
      }
      var ok := PlayTrial(forward, draw, t, answers[t].keys, sequenceLength);
      if ok {
        score := score + 1;
        if score > 1 {
          score := 1;
        }
      }
      attempts := attempts + 1;
      t := t + 1;
      if attempts == 2 {
        if score > 0 {
          sequenceLength := sequenceLength + 1;
          score := 0;
          attempts := 0;
        } else {
          return Some(sequenceLength - 1);
        }
      }
    }
    r := Some(sequenceLength - 1);
  }

  /** `main`: a forward run, then a backward run; the total is their sum. */
  method Play(forwardDraw: nat -> nat -> Digit, forwardAnswers: seq<Typed>,
              backwardDraw: nat -> nat -> Digit, backwardAnswers: seq<Typed>) returns (total: Option<int>)
    ensures var f := Span(true, forwardDraw, forwardAnswers);
            var b := Span(false, backwardDraw, backwardAnswers);
            total == if f.Some? && b.Some? then Some(f.value + b.value) else None
  {
    var forwardScore := RunTest(true, forwardDraw, forwardAnswers);
    var backwardScore := RunTest(false, backwardDraw, backwardAnswers);
    if forwardScore.Some? && backwardScore.Some? {
      total := Some(forwardScore.value + backwardScore.value);
    } else {
      total := None;
    }
  }
}
