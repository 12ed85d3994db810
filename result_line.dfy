/** The one line a measured session persists, `f"{forward},{backward},{combined}\n"`,
    and the way the analysis scripts read it back:
    `[int(x) for x in content.strip().split(',')]` into three numbers. */
module ResultLine {
  import opened Wrappers
  import opened Digits

  /** `str(n)` for a natural number. */
  function NatToString(n: nat): (s: string)
    ensures IsDigitString(s)
    decreases n
  {
    if n < 10 then [DigitChar(n)] else NatToString(n / 10) + [DigitChar(n % 10)]
  }

  /** `int(s)` for a string of ASCII digits. */
  function NumeralValue(s: string): nat
    requires AllDigits(s)
  {
    if s == [] then 0 else NumeralValue(s[..|s| - 1]) * 10 + DigitValue(s[|s| - 1])
  }

  lemma {:induction false} NumeralRoundTrip(n: nat)
    ensures NumeralValue(NatToString(n)) == n
    decreases n
  {
    var s := NatToString(n);
    if n >= 10 {
      NumeralRoundTrip(n / 10);
      assert s[..|s| - 1] == NatToString(n / 10);
    }
  }

  predicate IsSpace(c: char) {
    c == ' ' || c == '\t' || c == '\n' || c == '\r'
  }

  /** `s` with its trailing blanks removed: a prefix of `s` (see `StripInfix`). */
  function TrimEnd(s: string): (r: string)
    ensures |r| <= |s|
    ensures r != [] ==> !IsSpace(r[|r| - 1])
  {
    if s != [] && IsSpace(s[|s| - 1]) then TrimEnd(s[..|s| - 1]) else s
  }

  /** `s` with its leading blanks removed: a suffix of `s`, so its last
      character is the last of `s`. */
  function TrimStart(s: string): (r: string)
    ensures |r| <= |s|
    ensures r != [] ==> !IsSpace(r[0]) && r[|r| - 1] == s[|s| - 1]
  {
    if s != [] && IsSpace(s[0]) then TrimStart(s[1..]) else s
  }

  /** `str.strip()` on ASCII whitespace: a middle part of the input (see
      `StripInfix`) that neither starts nor ends with a blank. */
  function Strip(s: string): (r: string)
    ensures |r| <= |s|
    ensures r != [] ==> !IsSpace(r[0]) && !IsSpace(r[|r| - 1])
  {
    TrimStart(TrimEnd(s))
  }

  lemma {:induction false} TrimEndPrefix(s: string)
    ensures TrimEnd(s) == s[..|TrimEnd(s)|]
    ensures forall i :: |TrimEnd(s)| <= i < |s| ==> IsSpace(s[i])
    decreases |s|
  {
    if s != [] && IsSpace(s[|s| - 1]) {
      TrimEndPrefix(s[..|s| - 1]);
    }
  }

  lemma {:induction false} TrimStartSuffix(s: string)
    ensures TrimStart(s) == s[|s| - |TrimStart(s)|..]
    ensures forall i :: 0 <= i < |s| - |TrimStart(s)| ==> IsSpace(s[i])
    decreases |s|
  {
    if s != [] && IsSpace(s[0]) {
      TrimStartSuffix(s[1..]);
    }
  }

  /** `Strip(s)` is `s` with some blanks cut from each end: the characters
      before and after it are all blanks. */
  lemma StripInfix(s: string)
    ensures var t := TrimEnd(s);
            && |Strip(s)| <= |t| <= |s|
            && Strip(s) == s[|t| - |Strip(s)|..|t|]
            && (forall i :: 0 <= i < |t| - |Strip(s)| ==> IsSpace(s[i]))
            && (forall i :: |t| <= i < |s| ==> IsSpace(s[i]))
  {
    var t := TrimEnd(s);
    TrimEndPrefix(s);
    TrimStartSuffix(t);
    assert forall i :: 0 <= i < |t| ==> t[i] == s[i];
  }

  /** `str.split(sep)`: the pieces between separators, `[""]` for the empty string. */
  function Split(s: string, sep: char): (parts: seq<string>)
    ensures |parts| >= 1
    ensures forall i :: 0 <= i < |parts| ==> sep !in parts[i]
  {
    if s == [] then [[]]
    else if s[0] == sep then [[]] + Split(s[1..], sep)
    else
      var rest := Split(s[1..], sep);
      [[s[0]] + rest[0]] + rest[1..]
  }

  /** What a measured session writes. */
  function RecordLine(forward: nat, backward: nat, combined: nat): string {
    NatToString(forward) + "," + NatToString(backward) + "," + NatToString(combined) + "\n"
  }

  /** What the analysis scripts read back; `None` where `int()` would raise or
      the unpacking into three names would fail. */
  function ParseRecordLine(content: string): Option<(nat, nat, nat)> {
    var parts := Split(Strip(content), ',');
    if |parts| == 3 && IsDigitString(parts[0]) && IsDigitString(parts[1]) && IsDigitString(parts[2]) then
      Some((NumeralValue(parts[0]), NumeralValue(parts[1]), NumeralValue(parts[2])))
    else None
  }

  lemma {:induction false} SplitWithoutSeparator(a: string, sep: char)
    requires sep !in a
    ensures Split(a, sep) == [a]
    decreases |a|
  {
    if a != [] {
      SplitWithoutSeparator(a[1..], sep);
      assert a[0] != sep && [a[0]] + a[1..] == a;
    }
  }

  lemma {:induction false} SplitAtSeparator(a: string, sep: char, rest: string)
    requires sep !in a
    ensures Split(a + [sep] + rest, sep) == [a] + Split(rest, sep)
    decreases |a|
  {
    if a == [] {
      assert a + [sep] + rest == [sep] + rest;
    } else {
      SplitAtSeparator(a[1..], sep, rest);
      var whole := a + [sep] + rest;
      assert whole[0] == a[0] != sep;
      assert whole[1..] == a[1..] + [sep] + rest;
      assert [a[0]] + a[1..] == a;
    }
  }

  lemma {:induction false} TrimSpaces(s: string, tail: string)
    requires s != [] && !IsSpace(s[0]) && !IsSpace(s[|s| - 1])
    requires forall i :: 0 <= i < |tail| ==> IsSpace(tail[i])
    ensures TrimEnd(s + tail) == s
    ensures TrimStart(s) == s
    decreases |tail|
  {
    if tail != [] {
      assert (s + tail)[..|s + tail| - 1] == s + tail[..|tail| - 1];
      TrimSpaces(s, tail[..|tail| - 1]);
    } else {
      assert s + tail == s;
    }
  }

  /** Three pieces without commas, joined by commas, split back into the pieces. */
  lemma SplitThree(f: string, b: string, c: string)
    requires ',' !in f && ',' !in b && ',' !in c
    ensures Split(f + "," + b + "," + c, ',') == [f, b, c]
  {
    SplitWithoutSeparator(c, ',');
    assert f + "," + b + "," + c == f + [','] + (b + [','] + c);
    SplitAtSeparator(b, ',', c);
    SplitAtSeparator(f, ',', b + [','] + c);
  }

  /** Writer and reader agree: the analysis side recovers exactly the three
      numbers a session persisted. */
  lemma RecordLineRoundTrip(forward: nat, backward: nat, combined: nat)
    ensures ParseRecordLine(RecordLine(forward, backward, combined)) == Some((forward, backward, combined))
  {
    var f, b, c := NatToString(forward), NatToString(backward), NatToString(combined);
    var body := f + "," + b + "," + c;
    assert body[0] == f[0] && body[|body| - 1] == c[|c| - 1];
    assert RecordLine(forward, backward, combined) == body + "\n";
    assert Strip(body + "\n") == body by {
      TrimSpaces(body, "\n");
    }
    assert ',' !in f && ',' !in b && ',' !in c;
    SplitThree(f, b, c);
    NumeralRoundTrip(forward);
    NumeralRoundTrip(backward);
    NumeralRoundTrip(combined);
  }

  /** The report `end_test` of `RDS.py` and `deprecated/RDS.py` writes to
      `data/{user_id}_results.txt`: an ID line and a score line. */
  function ScoreReport(userId: string, score: nat): string {
    "User ID: " + userId + "\n" + ScoreLine(score)
  }

  /** The `Score: {score}` line, the whole of what `deprecated/gpt.py` and
      `deprecated/RDS_PyGame.py` write. */
  function ScoreLine(score: nat): string {
    "Score: " + NatToString(score) + "\n"
  }

  /** The score line is the `Score: ` label, digits that read back as
      exactly the score, and a newline. */
  lemma ScoreLineReadsBack(score: nat)
    ensures var r := ScoreLine(score);
            && |r| == |NatToString(score)| + 8
            && r[..7] == "Score: " && r[|r| - 1] == '\n'
            && IsDigitString(r[7..|r| - 1])
            && NumeralValue(r[7..|r| - 1]) == score
  {
    var r := ScoreLine(score);
    assert r[7..|r| - 1] == NatToString(score);
    NumeralRoundTrip(score);
  }

  /** The report starts with the ID line, and its last line carries, after the
      `Score: ` label, digits that read back as exactly the score. */
  lemma ScoreReportReadsBack(userId: string, score: nat)
    ensures var r := ScoreReport(userId, score);
            var n := |NatToString(score)|;
            && |r| == |userId| + n + 18
            && r[..9] == "User ID: " && r[9..9 + |userId|] == userId
            && r[|r| - n - 8..|r| - n - 1] == "Score: "
            && IsDigitString(r[|r| - n - 1..|r| - 1])
            && NumeralValue(r[|r| - n - 1..|r| - 1]) == score
  {
    var r := ScoreReport(userId, score);
    var digits := NatToString(score);
    var n := |digits|;
    assert r == ("User ID: " + userId + "\nScore: ") + digits + "\n";
    assert r[|r| - n - 1..|r| - 1] == digits;
    assert r[|r| - n - 8..|r| - n - 1] == "Score: ";
    NumeralRoundTrip(score);
  }
}
