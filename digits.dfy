/** The small vocabulary every variant of the digit-span test shares:
    an optional value, the digits 0-9 and their characters, reversal,
    and the adjacency constraints the sequence generators check. */
module Wrappers {
  datatype Option<+T> = None | Some(value: T)
}

module Digits {

  /** A value drawn by `random.randint(0, 9)`. */
  type Digit = d: int | 0 <= d <= 9

  /** `str(d)` for a single digit. */
  function DigitChar(d: Digit): (c: char)
    ensures '0' <= c <= '9'
    ensures DigitValue(c) == d
  {
    (48 + d) as char
  }

  /** ASCII '0'..'9' (the model restricts `str.isdigit` to these). */
  predicate IsDigitChar(c: char) {
    '0' <= c <= '9'
  }

  /** `int(c)` for a digit character. */
  function DigitValue(c: char): int {
    c as int - 48
  }

  predicate AllDigits(s: string) {
    forall i :: 0 <= i < |s| ==> IsDigitChar(s[i])
  }

  /** `str.isdigit()` on an ASCII string: non-empty and digits only. */
  predicate IsDigitString(s: string) {
    |s| > 0 && AllDigits(s)
  }

  /** `s[::-1]` */
  function Reversed<T>(s: seq<T>): (r: seq<T>)
    ensures |r| == |s|
    ensures forall k :: 0 <= k < |s| ==> r[k] == s[|s| - 1 - k]
  {
    if s == [] then [] else Reversed(s[1..]) + [s[0]]
  }

  lemma {:induction false} ReversedInvolution<T>(s: seq<T>)
    ensures Reversed(Reversed(s)) == s
  {
    var r := Reversed(Reversed(s));
    assert |r| == |s|;
    forall k | 0 <= k < |s| ensures r[k] == s[k] {
      assert r[k] == Reversed(s)[|s| - 1 - k];
    }
  }

  /** No two adjacent elements are equal: the inner redraw loop's guarantee. */
  predicate NoEqualAdjacent<T(==)>(s: seq<T>) {
    forall i :: 0 <= i < |s| - 1 ==> s[i] != s[i + 1]
  }

  function Abs(x: int): int { if x < 0 then -x else x }

  /** What `consecutive` checks of every adjacent pair: the two characters
      differ and their values are not one apart. */
  predicate SpreadPair(a: char, b: char) {
    a != b && Abs(DigitValue(a) - DigitValue(b)) != 1
  }

  /** `consecutive(s)` as the code computes it (the name and docstring say the
      opposite: it is true when NO adjacent pair is equal or one apart). */
  predicate Spread(s: string) {
    forall i :: 0 <= i < |s| - 1 ==> SpreadPair(s[i], s[i + 1])
  }

  /** The loop of `consecutive`, with its early `return False`. */
  method Consecutive(s: string) returns (b: bool)
    ensures b <==> Spread(s)
  {
    var x := 0;
    while x < |s| - 1
      invariant 0 <= x && (x == 0 || x < |s|)
      invariant forall i :: 0 <= i < x && i < |s| - 1 ==> SpreadPair(s[i], s[i + 1])
    {
      if s[x] == s[x + 1] || Abs(DigitValue(s[x]) - DigitValue(s[x + 1])) == 1 {
        return false;
      }
      x := x + 1;
    }
    return true;
  }

  /** For a digit string, `consecutive` is true exactly when every adjacent
      pair of values is at least two apart; it is vacuously true for length <= 1. */
  lemma SpreadIffGap(s: string)
    requires AllDigits(s)
    ensures Spread(s) <==> forall i :: 0 <= i < |s| - 1 ==> Abs(DigitValue(s[i]) - DigitValue(s[i + 1])) >= 2
    ensures |s| <= 1 ==> Spread(s)
  {
  }

  /** Equivalently, it is false exactly when some adjacent pair is equal or one apart. */
  lemma NotSpreadWitness(s: string)
    requires AllDigits(s)
    ensures !Spread(s) <==> exists i :: 0 <= i < |s| - 1 && (s[i] == s[i + 1] || Abs(DigitValue(s[i]) - DigitValue(s[i + 1])) == 1)
  {
  }

  /** A spread sequence has no two equal neighbours. */
  lemma SpreadHasNoEqualAdjacent(s: string)
    requires Spread(s)
    ensures NoEqualAdjacent(s)
  {
  }

  /** `''.join(sequence)` for a sequence of single-digit strings, reversed when
      the trial is backward: the only answer that scores. */
  function Expected(sequence: string, forward: bool): string {
    if forward then sequence else Reversed(sequence)
  }

  /** Exact-match scoring: no normalisation; anything else is a mismatch. */
  predicate IsCorrect(sequence: string, forward: bool, answer: string) {
    answer == Expected(sequence, forward)
  }

  /** Scoring partner: a forward trial accepts the digits in order and nothing
      else; a backward trial accepts them reversed and nothing else; forward
      order on a backward trial of a sequence with two different end digits is wrong. */
  lemma ScoringCharacterised(sequence: string, answer: string)
    ensures IsCorrect(sequence, true, answer) <==> answer == sequence
    ensures IsCorrect(sequence, false, answer) <==> Reversed(answer) == sequence
    ensures |sequence| >= 2 && sequence[0] != sequence[|sequence| - 1] ==> !IsCorrect(sequence, false, sequence)
  {
    if IsCorrect(sequence, false, answer) {
      ReversedInvolution(sequence);
    }
    if Reversed(answer) == sequence {
      ReversedInvolution(answer);
    }
  }

  /** A non-digit character in the answer never scores against a digit sequence. */
  lemma NonDigitAnswerIsWrong(sequence: string, forward: bool, answer: string)
    requires AllDigits(sequence)
    requires !AllDigits(answer)
    ensures !IsCorrect(sequence, forward, answer)
  {
  }

  /** The characters of a list of drawn digits. */
  function Chars(ds: seq<Digit>): (s: string)
    ensures |s| == |ds|
    ensures AllDigits(s)
    ensures forall k :: 0 <= k < |ds| ==> s[k] == DigitChar(ds[k])
  {
    seq(|ds|, k requires 0 <= k < |ds| => DigitChar(ds[k]))
  }
}
