/** `formatDuration`: whole seconds shown as minutes, a colon and two-digit seconds
    (`%d:%02d`); minutes are not folded into hours. */
module DurationFormat {
  import opened Wrappers

  predicate IsDigit(c: char) {
    '0' <= c <= '9'
  }

  function DigitChar(d: nat): (c: char)
    requires d < 10
    ensures IsDigit(c)
  {
    "0123456789"[d]
  }

  function DigitValue(c: char): nat
    requires IsDigit(c)
  {
    (c as int - '0' as int) as nat
  }

  /** `%d` of a non-negative integer: decimal digits without leading zeros. */
  function NatToString(n: nat): (s: string)
    ensures |s| > 0 && forall i :: 0 <= i < |s| ==> IsDigit(s[i])
    ensures n < 10 <==> |s| == 1
    ensures s[0] != '0' || n == 0
    decreases n
  {
    if n < 10 then [DigitChar(n)] else NatToString(n / 10) + [DigitChar(n % 10)]
  }

  /** The number a string of decimal digits denotes. */
  function DigitsValue(s: string): nat
    requires forall i :: 0 <= i < |s| ==> IsDigit(s[i])
    decreases |s|
  {
    if |s| == 0 then 0 else DigitsValue(s[..|s| - 1]) * 10 + DigitValue(s[|s| - 1])
  }

  /** The decimal digits of `n` denote `n`. */
  lemma {:induction false} NatToStringValue(n: nat)
    ensures DigitsValue(NatToString(n)) == n
    decreases n
  {
    var s := NatToString(n);
    if n >= 10 {
      NatToStringValue(n / 10);
      assert s[..|s| - 1] == NatToString(n / 10);
      assert DigitValue(s[|s| - 1]) == n % 10;
    } else {
      assert DigitValue(s[0]) == n;
    }
  }

  /** `%02d` of a seconds count below 60: two digits, zero-padded. */
  function Pad2(n: nat): (s: string)
    requires n < 60
    ensures |s| == 2 && IsDigit(s[0]) && IsDigit(s[1]) && '0' <= s[0] <= '5'
    ensures DigitsValue(s) == n
  {
    var s := if n < 10 then "0" + NatToString(n) else NatToString(n);
    NatToStringValue(n);
    assert DigitsValue(s) == n by {
      if n < 10 {
        assert s[..1] == "0";
      }
    }
    s
  }

  /** `formatDuration` on `Int(duration)` for a duration that is not negative. */
  function FormatDuration(total: nat): (r: string)
    ensures |r| >= 4 && r[|r| - 3] == ':' && IsDigit(r[|r| - 1]) && '0' <= r[|r| - 2] <= '5'
    ensures |r| == 4 <==> total < 600
  {
    NatToString(total / 60) + ":" + Pad2(total % 60)
  }

  /** The total a clock string `m:ss` stands for, if it has that form. */
  function Clock(s: string): (r: Option<nat>)
  {
    if |s| >= 4 && s[|s| - 3] == ':'
       && (forall i :: 0 <= i < |s| - 3 ==> IsDigit(s[i]))
       && IsDigit(s[|s| - 2]) && IsDigit(s[|s| - 1])
    then Some(DigitsValue(s[..|s| - 3]) * 60 + DigitsValue(s[|s| - 2..]))
    else None
  }

  /** The shape of the output: minutes in decimal without leading zeros, a colon, and
      exactly two digits of seconds, the first of them at most 5. */
  lemma FormatDurationShape(total: nat)
    ensures var r := FormatDuration(total);
      && |r| >= 4 && r[|r| - 3] == ':'
      && r[..|r| - 3] == NatToString(total / 60)
      && (forall i :: 0 <= i < |r| - 3 ==> IsDigit(r[i]))
      && IsDigit(r[|r| - 2]) && IsDigit(r[|r| - 1]) && r[|r| - 2] <= '5'
  {
    var m := NatToString(total / 60);
    var r := FormatDuration(total);
    assert r[..|r| - 3] == m;
    assert r[|r| - 2..] == Pad2(total % 60);
  }

  /** A string `m:ss` of digits reads as `m` minutes and `ss` seconds. */
  lemma ClockReads(m: string, p: string)
    requires |m| > 0 && forall i :: 0 <= i < |m| ==> IsDigit(m[i])
    requires |p| == 2 && IsDigit(p[0]) && IsDigit(p[1])
    ensures Clock(m + ":" + p) == Some(DigitsValue(m) * 60 + DigitsValue(p))
  {
    var s := m + ":" + p;
    assert s[..|s| - 3] == m;
    assert s[|s| - 2..] == p;
    assert forall i :: 0 <= i < |s| - 3 ==> s[i] == m[i];
  }

  /** `m` minutes and `sec` seconds, formatted, read back as both parts. */
  lemma ClockOfParts(m: nat, sec: nat)
    requires sec < 60
    ensures var r := NatToString(m) + ":" + Pad2(sec);
      && Clock(r) == Some(m * 60 + sec)
      && DigitsValue(r[..|r| - 3]) == m && DigitsValue(r[|r| - 2..]) == sec
  {
    var minutes, seconds := NatToString(m), Pad2(sec);
    var r := minutes + ":" + seconds;
    ClockReads(minutes, seconds);
    NatToStringValue(m);
    assert r[..|r| - 3] == minutes;
    assert r[|r| - 2..] == seconds;
  }

  /** Reading the clock back gives the total: minutes times 60 plus the seconds, the
      seconds part below 60. */
  lemma FormatDurationRoundTrip(total: nat)
    ensures Clock(FormatDuration(total)) == Some(total)
    ensures var r := FormatDuration(total);
      DigitsValue(r[..|r| - 3]) == total / 60 && DigitsValue(r[|r| - 2..]) == total % 60 < 60
  {
    ClockOfParts(total / 60, total % 60);
  }

  /** Distinct durations are shown differently. */
  lemma FormatDurationInjective(s: nat, t: nat)
    requires FormatDuration(s) == FormatDuration(t)
    ensures s == t
  {
    FormatDurationRoundTrip(s);
    FormatDurationRoundTrip(t);
  }

  /** Zero seconds, one minute, and an hour, which is shown as sixty minutes. */
  lemma FormatDurationExamples()
    ensures FormatDuration(0) == "0:00"
    ensures FormatDuration(60) == "1:00"
    ensures FormatDuration(3600) == "60:00"
  {
    assert NatToString(6) == "6";
    assert NatToString(60) == "60";
  }
}
