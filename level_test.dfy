/** `test.py`: a console test with one trial per level-sized sequence, a
    direction drawn per trial, the level rising after every two correct
    answers, and the test stopping at the first mistake or at `q`. */
module LevelTest {
  import opened Digits
  import Generator

  /** `generate_digits(length)`: the string grows by one drawn digit per turn. */
  method GenerateDigits(length: nat, draw: nat -> Digit) returns (digits: string)
    ensures digits == Generator.Drawn(length, draw)
  {
    digits := "";
    var i := 0;
    while i < length
      invariant 0 <= i <= length
      invariant |digits| == i
      invariant forall k :: 0 <= k < i ==> digits[k] == DigitChar(draw(k))
    {
      digits := digits + [DigitChar(draw(i))];
      i := i + 1;
    }
  }

  /** The level reached after `score` correct answers. */
  function LevelFor(score: nat): nat {
    1 + score / 2
  }

  /** What one pass of the loop consumes: the digit draws, whether
      `random.choice` picked `"reverse"`, and the typed answer. */
  datatype Round = Round(draw: nat -> Digit, reverse: bool, answer: string)

  /** The answer matches: the digits as shown for `"same"`, reversed for `"reverse"`. */
  predicate RoundCorrect(r: Round, level: nat) {
    IsCorrect(Generator.Drawn(level, r.draw), !r.reverse, r.answer)
  }

  /** The line written after every answer other than `q`. */
  datatype Entry = Entry(level: int, digits: string, reverse: bool, answer: string, score: int)

  /** The line logged for round `j` (taken at the level of `j` earlier
      correct rounds) once the score has become `score`. */
  function LogLine(rounds: seq<Round>, j: nat, score: nat): Entry
    requires j < |rounds|
  {
    Entry(LevelFor(score), Generator.Drawn(LevelFor(j), rounds[j].draw), rounds[j].reverse, rounds[j].answer, score)
  }

  /** How the loop stopped; `OutOfAnswers` is the model's end of input. */
  datatype Stop = Quit | Mistake | OutOfAnswers

  /** `run_digits_span_test`. The score counts the leading run of correct
      rounds, each taken at the level its position implies; the round after
      them is a `q` (quit) or a wrong answer (mistake). */
  method RunDigitsSpanTest(rounds: seq<Round>) returns (score: int, level: int, stop: Stop, log: seq<Entry>)
    ensures 0 <= score <= |rounds| && level == LevelFor(score)
    ensures forall j :: 0 <= j < score ==> RoundCorrect(rounds[j], LevelFor(j))
    ensures stop == OutOfAnswers <==> score == |rounds|
    ensures stop == Quit <==> score < |rounds| && rounds[score].answer == "q"
    ensures stop == Mistake <==> score < |rounds| && rounds[score].answer != "q" && !RoundCorrect(rounds[score], LevelFor(score))
    ensures |log| == score + (if stop == Mistake then 1 else 0)
    ensures forall j :: 0 <= j < score ==>
              log[j] == LogLine(rounds, j, j + 1)
    // the wrong answer is logged too, at the unchanged level and score
    ensures stop == Mistake ==>
              log[score] == LogLine(rounds, score, score)
  {
    level := 1;
    score := 0;
    var flag := true;
    log := [];
    stop := OutOfAnswers;
    var t := 0;
    while flag
      invariant 0 <= score == t <= |rounds|
      invariant level == LevelFor(score)
      invariant forall j :: 0 <= j < score ==> RoundCorrect(rounds[j], LevelFor(j))
      invariant flag ==> stop == OutOfAnswers && |log| == score
      invariant !flag ==> stop != OutOfAnswers && t < |rounds|
      invariant !flag ==> (stop == Quit <==> rounds[t].answer == "q") && |log| == score + (if stop == Mistake then 1 else 0)
      invariant !flag && stop == Mistake ==> rounds[t].answer != "q" && !RoundCorrect(rounds[t], LevelFor(t))
      invariant !flag && stop == Mistake ==>
                  log[t] == LogLine(rounds, t, t)
      invariant forall j :: 0 <= j < score ==>
                  log[j] == LogLine(rounds, j, j + 1)
      decreases |rounds| - t, if flag then 1 else 0
    {
      if t == |rounds| {
        return;
      }
      var digits := GenerateDigits(level, rounds[t].draw);
      var reverse := rounds[t].reverse;
      var answer := rounds[t].answer;
      if answer == "q" {
        flag := false;
        stop := Quit;
      } else {
        if (!reverse && answer == digits) || (reverse && answer == Reversed(digits)) {
          score := score + 1;
          if score % 2 == 0 {
            level := level + 1;
          }
          t := t + 1;
        } else {
          flag := false;
          stop := Mistake;
        }
        log := log + [Entry(level, digits, reverse, answer, score)];
      }
    }
  }
}
