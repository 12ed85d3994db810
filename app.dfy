/** `app.py`: the `test.py` rule driven by Streamlit reruns. `st.session_state`
    is one `Session` object; the start button and each submitted answer are
    method calls. `generate_digits` is the same loop as in `test.py` and is
    `LevelTest.GenerateDigits` here. */
module App {
  import opened Wrappers
  import opened Digits
  import Generator
  import LevelTest

  class Session {
    /** `level`, `score`, `flag`, `digits`, `direction` are all in the session state. */
    var started: bool
    var level: int
    var score: int
    var flag: bool
    var digits: string
    /** `direction == "reverse"` */
    var reverse: bool

    ghost predicate Valid()
      reads this
    {
      started ==> score >= 0 && level == LevelTest.LevelFor(score)
    }

    /** A fresh browser session: nothing in the session state yet. */
    constructor ()
      ensures Valid() && !started
    {
      started := false;
      level := 1;
      score := 0;
      flag := true;
      digits := "";
      reverse := false;
    }

    /** The "Start the test" button: level 1, score 0, flag set, and a first
        one-digit sequence with its direction. */
    method Start(draw: nat -> Digit, nextReverse: bool)
      modifies this
      ensures Valid() && started
      ensures level == 1 && score == 0 && flag
      ensures digits == Generator.Drawn(1, draw) && reverse == nextReverse
    {
      started := true;
      level := 1;
      score := 0;
      flag := true;
      digits := LevelTest.GenerateDigits(level, draw);
      reverse := nextReverse;
    }

    /** A rerun with a non-empty answer in the text box. `q` clears the flag;
        a correct answer adds one to the score and raises the level on every
        second one; a wrong answer clears the flag. Every answer but `q` is
        logged. While the flag is set a new sequence at the current level is
        drawn. The flag is not consulted before the answer is judged. */
    method SubmitAnswer(answer: string, draw: nat -> Digit, nextReverse: bool) returns (entry: Option<LevelTest.Entry>)
      requires Valid() && started
      modifies this
      ensures Valid() && started
      ensures answer == [] ==> entry.None? && level == old(level) && score == old(score) && flag == old(flag)
      ensures answer == "q" ==> entry.None? && level == old(level) && score == old(score) && !flag
      ensures answer != [] && answer != "q" ==>
                var correct := IsCorrect(old(digits), !old(reverse), answer);
                && score == old(score) + (if correct then 1 else 0)
                && level == LevelTest.LevelFor(score)
                && flag == (old(flag) && correct)
                && entry == Some(LevelTest.Entry(level, old(digits), old(reverse), answer, score))
      ensures score >= old(score) && level >= old(level)
      ensures answer != [] && flag ==> digits == Generator.Drawn(level, draw) && reverse == nextReverse
      ensures answer == [] || !flag ==> digits == old(digits) && reverse == old(reverse)
    {
      entry := None;
      if answer != [] {
        if answer == "q" {
          flag := false;
        } else {
          var expected := if reverse then Reversed(digits) else digits;
          if answer == expected {
            score := score + 1;
            if score % 2 == 0 {
              level := level + 1;
            }
          } else {
            flag := false;
          }
          entry := Some(LevelTest.Entry(level, digits, reverse, answer, score));
        }
        if flag {
          digits := LevelTest.GenerateDigits(level, draw);
          reverse := nextReverse;
        }
      }
    }
  }
}
