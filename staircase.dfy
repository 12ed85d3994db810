/** The adaptive staircase shared by the Tkinter variants of `DigitSpanTest`:
    two attempts per length, advance on at least one correct answer, switch
    forward -> backward (length back to 2) on a forward double failure, end on
    a backward double failure, and, in practice mode, a ceiling of length 3.
    The classes of the variant modules keep these counters in their own fields
    and are specified against the functions here. */
module Staircase {

  /** `forward`, `sequence_length`, `sequence_attempts`, `correct_attempts`. */
  datatype Counters = Counters(forward: bool, length: int, attempts: int, correct: int)

  /** `max_forward_length`, `max_backward_length`. */
  datatype Maxima = Maxima(forward: int, backward: int)

  /** What `run_test` does after its decision: present a new trial, show the
      backwards notice (the next `run_test` then presents), or end the test. */
  datatype Move = Proceed | SwitchBackward | Finish

  const StartLength: int := 2
  const AttemptsPerLength: int := 2
  const PracticeCeiling: int := 3

  /** `initialize_test_values` (and the same assignments in `start_intro` / `__init__`). */
  function Initial(): (c: Counters)
    ensures Bounded(c) && c.forward && c.attempts == 0
  {
    Counters(true, StartLength, 0, 0)
  }

  /** The state right after the switch to backward recall. */
  function BackwardStart(): Counters {
    Counters(false, StartLength, 0, 0)
  }

  function Max(a: int, b: int): int { if a >= b then a else b }

  predicate Bounded(c: Counters) {
    c.length >= StartLength && 0 <= c.correct <= c.attempts <= AttemptsPerLength
  }

  /** The two attempts at this length are used up and at least one was right. */
  predicate Passed(c: Counters) {
    c.attempts >= AttemptsPerLength && c.correct >= 1
  }

  /** The two attempts at this length are used up and neither was right. */
  predicate DoubleFailure(c: Counters) {
    c.attempts >= AttemptsPerLength && c.correct == 0
  }

  /** The counter update of `validate_input`: one more attempt, and one more
      correct attempt exactly when the answer matched. */
  function Answer(c: Counters, correct: bool): (r: Counters)
    ensures WellFormed(c) ==> WellFormed(r)
    ensures Bounded(c) && c.attempts < AttemptsPerLength ==> Bounded(r)
    ensures r.forward == c.forward && r.length == c.length && r.attempts > c.attempts
  {
    c.(attempts := c.attempts + 1, correct := if correct then c.correct + 1 else c.correct)
  }

  /** Counters any sequence of calls can produce, including the answers a
      variant still accepts after its test has ended: the length is at least
      2 and there are no more correct attempts than attempts. */
  predicate WellFormed(c: Counters) {
    c.length >= StartLength && 0 <= c.correct <= c.attempts
  }

  /** The decision of `run_test` on the counters. */
  function Next(c: Counters, practice: bool): (r: (Move, Counters))
    requires WellFormed(c)
    ensures WellFormed(r.1)
    ensures r.0 != Finish || Bounded(c) ==> Bounded(r.1)
    // outside practice, the test ends only on a backward double failure, which it leaves as it is
    ensures !practice && r.0 == Finish ==> r.1 == c && DoubleFailure(c) && !c.forward
    // fewer than two attempts: another trial at the same length and direction
    ensures c.attempts < AttemptsPerLength ==> r == (Proceed, c)
    // a forward session never ends here, whatever the answers
    ensures c.forward ==> r.0 != Finish
    // the direction flips at most once: backward stays backward
    ensures !c.forward ==> !r.1.forward
    ensures r.0 != Finish ==> r.1.attempts < AttemptsPerLength
    // in practice mode the length never passes the ceiling while the session goes on
    ensures practice && c.length <= PracticeCeiling && r.0 != Finish ==> r.1.length <= PracticeCeiling
  {
    if c.attempts < AttemptsPerLength then (Proceed, c)
    else if c.correct >= 1 then
      var advanced := c.(length := c.length + 1, attempts := 0, correct := 0);
      if practice && advanced.length > PracticeCeiling then
        if advanced.forward then (SwitchBackward, BackwardStart()) else (Finish, advanced)
      else (Proceed, advanced)
    else if c.forward then (SwitchBackward, BackwardStart())
    else (Finish, c)
  }

  /** A pass resets both counters and advances the length in the same
      direction, except that a practice session that has just gone above the
      ceiling switches to backward (from forward) or ends (from backward). */
  lemma PassAdvances(c: Counters, practice: bool)
    requires Bounded(c) && Passed(c)
    ensures var advanced := c.(length := c.length + 1, attempts := 0, correct := 0);
            if practice && c.length + 1 > PracticeCeiling then
              Next(c, practice) == (if c.forward then (SwitchBackward, BackwardStart()) else (Finish, advanced))
            else
              Next(c, practice) == (Proceed, advanced)
  {
  }

  /** A double failure switches a forward session to backward at length 2 with
      both counters reset, and ends a backward session, in either mode. */
  lemma DoubleFailureSwitchesOrEnds(c: Counters, practice: bool)
    requires Bounded(c) && DoubleFailure(c)
    ensures c.forward ==> Next(c, practice) == (SwitchBackward, BackwardStart())
    ensures !c.forward ==> Next(c, practice).0 == Finish
  {
  }

  /** The maxima update of `run_test`: on a pass, the current direction's
      maximum becomes `max(old, length)`; otherwise nothing changes. */
  function Raise(m: Maxima, c: Counters): (r: Maxima)
    ensures r.forward >= m.forward && r.backward >= m.backward
    ensures !Passed(c) ==> r == m
    ensures Passed(c) ==> if c.forward then r.forward >= c.length && r.backward == m.backward
                                       else r.backward >= c.length && r.forward == m.forward
  {
    if Passed(c) then
      if c.forward then m.(forward := Max(m.forward, c.length))
      else m.(backward := Max(m.backward, c.length))
    else m
  }

  /** The last length passed in the current direction, 0 when none was. */
  function LastPassed(length: int): int {
    if length <= StartLength then 0 else length - 1
  }

  /** The maxima agree with the counters: the current direction's maximum is
      the last length passed in it, and nothing backward has been passed while
      still forward. */
  predicate Tracks(c: Counters, m: Maxima) {
    && m.forward >= 0 && m.backward >= 0
    && if c.forward then m.forward == LastPassed(c.length) && m.backward == 0
       else m.backward == LastPassed(c.length)
  }

  lemma InitialTracks()
    ensures Bounded(Initial()) && Tracks(Initial(), Maxima(0, 0))
  {
  }

  /** `run_test`'s decision and maxima update keep the maxima tracking. */
  lemma NextKeepsTracks(c: Counters, m: Maxima, practice: bool)
    requires Bounded(c) && Tracks(c, m)
    ensures Tracks(Next(c, practice).1, Raise(m, c))
  {
  }

  /** The state of a session after a run of answers. */
  datatype Session = Session(counters: Counters, maxima: Maxima, finished: bool)

  /** Answer, then decide: one `validate_input` followed by `run_test`. */
  function Step(s: Session, practice: bool, correct: bool): (r: Session)
    requires Bounded(s.counters) && s.counters.attempts < AttemptsPerLength
    ensures Bounded(r.counters) && (!r.finished ==> r.counters.attempts < AttemptsPerLength)
  {
    var answered := Answer(s.counters, correct);
    var (move, next) := Next(answered, practice);
    Session(next, Raise(s.maxima, answered), move == Finish)
  }

  /** A session driven by a list of trial outcomes, until it ends. */
  function Run(s: Session, practice: bool, outcomes: seq<bool>): (r: Session)
    requires Bounded(s.counters) && s.counters.attempts < AttemptsPerLength && !s.finished
    decreases |outcomes|
  {
    if outcomes == [] then s
    else
      var s' := Step(s, practice, outcomes[0]);
      if s'.finished then s' else Run(s', practice, outcomes[1..])
  }

  /** The maxima never decrease over a session. */
  lemma {:induction false} RunMaximaMonotone(s: Session, practice: bool, outcomes: seq<bool>)
    requires Bounded(s.counters) && s.counters.attempts < AttemptsPerLength && !s.finished
    ensures Run(s, practice, outcomes).maxima.forward >= s.maxima.forward
    ensures Run(s, practice, outcomes).maxima.backward >= s.maxima.backward
    decreases |outcomes|
  {
    if outcomes != [] {
      var s' := Step(s, practice, outcomes[0]);
      if !s'.finished {
        RunMaximaMonotone(s', practice, outcomes[1..]);
      }
    }
  }

  /** Over a whole session the direction flips at most once, a session only
      ever ends in the backward direction, and the maxima keep tracking the
      last passed lengths (so at the end `max_backward_length` is the last
      backward length passed). */
  lemma {:induction false} RunDirectionAndTracking(s: Session, practice: bool, outcomes: seq<bool>)
    requires Bounded(s.counters) && s.counters.attempts < AttemptsPerLength && !s.finished
    requires Tracks(s.counters, s.maxima)
    ensures var r := Run(s, practice, outcomes);
            && Tracks(r.counters, r.maxima)
            && (!s.counters.forward ==> !r.counters.forward)
            && (r.finished ==> !r.counters.forward)
    decreases |outcomes|
  {
    if outcomes != [] {
      var answered := Answer(s.counters, outcomes[0]);
      NextKeepsTracks(answered, s.maxima, practice);
      var s' := Step(s, practice, outcomes[0]);
      assert s'.counters == Next(answered, practice).1;
      if !s'.finished {
        RunDirectionAndTracking(s', practice, outcomes[1..]);
      }
    }
  }

  /** An upper bound on the answers a practice session can still take. */
  function PracticeBudget(c: Counters): int {
    (if c.forward then 2 * AttemptsPerLength else 0)
      + AttemptsPerLength * (PracticeCeiling - c.length)
      + (AttemptsPerLength - c.attempts)
  }

  /** Every practice step that does not end the session uses up budget. */
  lemma PracticeStepShrinks(s: Session, correct: bool)
    requires Bounded(s.counters) && s.counters.attempts < AttemptsPerLength
    requires s.counters.length <= PracticeCeiling
    ensures var s' := Step(s, true, correct);
            !s'.finished ==> s'.counters.length <= PracticeCeiling && PracticeBudget(s'.counters) < PracticeBudget(s.counters)
  {
  }

  /** A practice session always ends: within eight answers from the start
      (two lengths of two attempts in each direction). */
  lemma {:induction false} PracticeEnds(s: Session, outcomes: seq<bool>)
    requires Bounded(s.counters) && s.counters.attempts < AttemptsPerLength && !s.finished
    requires s.counters.length <= PracticeCeiling
    requires |outcomes| >= PracticeBudget(s.counters)
    ensures Run(s, true, outcomes).finished
    decreases |outcomes|
  {
    var s' := Step(s, true, outcomes[0]);
    PracticeStepShrinks(s, outcomes[0]);
    if !s'.finished {
      PracticeEnds(s', outcomes[1..]);
    }
  }

  lemma PracticeEndsWithinEight(outcomes: seq<bool>)
    requires |outcomes| >= 8
    ensures Run(Session(Initial(), Maxima(0, 0), false), true, outcomes).finished
  {
    PracticeEnds(Session(Initial(), Maxima(0, 0), false), outcomes);
  }
}
