/** The constrained sequence generator of `run_test`: a first digit, then each
    further digit redrawn until it differs from its predecessor, and the whole
    candidate redrawn until it passes the final check. The random draws are a
    finite stream supplied by the caller; the loops consume it left to right
    exactly as the source consumes `random.randint(0, 9)`. */
module Generator {
  import opened Wrappers
  import opened Digits

  /** What an accepted sequence satisfies: the requested length, digits only,
      no two equal neighbours, different from the previous trial's sequence,
      and (for the variant that also calls `consecutive`) spread. */
  predicate Acceptable(s: string, length: int, last: string, spread: bool) {
    && |s| == length
    && AllDigits(s)
    && NoEqualAdjacent(s)
    && s != last
    && (spread ==> Spread(s))
  }

  /** `draws` holds an acceptable sequence in its first `length` draws, so the
      generator needs no redraw at all. */
  predicate CleanDraws(draws: seq<Digit>, length: int, last: string, spread: bool) {
    0 <= length <= |draws| && Acceptable(Chars(draws[..length]), length, last, spread)
  }

  /** The two nested rejection loops. `None` means the stream ran out before a
      candidate was accepted; the source's unbounded random source never does. */
  method DrawSequence(length: int, last: string, draws: seq<Digit>, spread: bool) returns (r: Option<string>)
    requires length >= 1
    ensures r.Some? ==> Acceptable(r.value, length, last, spread)
    ensures CleanDraws(draws, length, last, spread) ==> r == Some(Chars(draws[..length]))
  {
    ghost var clean := CleanDraws(draws, length, last, spread);
    var next := 0;
    while next < |draws|
      invariant 0 <= next <= |draws|
      invariant clean ==> next == 0
      decreases |draws| - next
    {
      ghost var start := next;
      var candidate := [DigitChar(draws[next])];
      next := next + 1;
      assert clean ==> candidate == Chars(draws[..1]);
      var k := 1;
      while k < length
        invariant 1 <= k <= length
        invariant |candidate| == k && AllDigits(candidate) && NoEqualAdjacent(candidate)
        invariant start < next <= |draws|
        invariant clean ==> next == k && candidate == Chars(draws[..k])
        decreases length - k
      {
        var appended := false;
        while !appended
          invariant start < next <= |draws|
          invariant AllDigits(candidate) && NoEqualAdjacent(candidate)
          invariant |candidate| == if appended then k + 1 else k
          invariant clean ==> if appended then next == k + 1 && candidate == Chars(draws[..k + 1])
                                          else next == k && candidate == Chars(draws[..k])
          decreases |draws| - next, if appended then 0 else 1
        {
          if next == |draws| {
            return None;
          }
          var d := DigitChar(draws[next]);
          if d != candidate[|candidate| - 1] {
            assert clean ==> candidate + [d] == Chars(draws[..k + 1]);
            candidate := candidate + [d];
            appended := true;
          }
          next := next + 1;
        }
        k := k + 1;
      }
      var ok := true;
      if spread {
        ok := Consecutive(candidate);
      }
      if ok && candidate != last {
        return Some(candidate);
      }
    }
    r := None;
  }

  /** The `RDS.py` generator: a whole candidate of `length` draws at a time,
      kept only when `consecutive` holds; there is no previous-sequence check. */
  method DrawSpreadSequence(length: int, draws: seq<Digit>) returns (r: Option<string>)
    requires length >= 1
    ensures r.Some? ==> |r.value| == length && AllDigits(r.value) && Spread(r.value)
    ensures length <= |draws| && Spread(Chars(draws[..length])) ==> r == Some(Chars(draws[..length]))
  {
    var next := 0;
    while next + length <= |draws|
      invariant 0 <= next
      invariant length <= |draws| && Spread(Chars(draws[..length])) ==> next == 0
      decreases |draws| - next
    {
      var candidate := Chars(draws[next..next + length]);
      next := next + length;
      var ok := Consecutive(candidate);
      if ok {
        return Some(candidate);
      }
    }
    r := None;
  }

  /** `[str(random.randint(0, 9)) for _ in range(length)]`: the draws taken in
      order, with no constraint at all. */
  function Drawn(length: nat, draw: nat -> Digit): (s: string)
    ensures |s| == length && AllDigits(s)
    ensures forall i :: 0 <= i < length ==> s[i] == DigitChar(draw(i))
  {
    Chars(seq(length, i requires 0 <= i => draw(i)))
  }
}
