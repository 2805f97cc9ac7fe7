/**
 * The `M:SS` rendering of a time in whole seconds, as the player's
 * `formatTime` and the server's duration formatting produce it, together
 * with its inverse: decimal digits are read back and the two-digit seconds
 * field is recombined with the minutes.
 */
module TimeFormat {
  import opened Wrappers

  predicate IsDigit(c: char) { '0' <= c <= '9' }

  function DigitChar(d: nat): (c: char)
    requires d < 10
    ensures IsDigit(c) && c as int - '0' as int == d
  {
    (d + '0' as int) as char
  }

  function DigitValue(c: char): nat
    requires IsDigit(c)
  {
    c as int - '0' as int
  }

  /** Decimal rendering of a non-negative integer, as JavaScript's template strings give it. */
  function NatToString(n: nat): (s: string)
    ensures 1 <= |s|
    ensures forall i :: 0 <= i < |s| ==> IsDigit(s[i])
    ensures n < 10 <==> |s| == 1
    ensures s[0] == '0' ==> n == 0
  {
    if n < 10 then [DigitChar(n)] else NatToString(n / 10) + [DigitChar(n % 10)]
  }

  predicate AllDigits(s: string) { forall i :: 0 <= i < |s| ==> IsDigit(s[i]) }

  /** The value of a string of decimal digits (the empty string reads as 0). */
  function DecimalValue(s: string): nat
    requires AllDigits(s)
  {
    if s == [] then 0 else DecimalValue(s[..|s| - 1]) * 10 + DigitValue(s[|s| - 1])
  }

  lemma {:induction false} DecimalRoundTrip(n: nat)
    ensures DecimalValue(NatToString(n)) == n
  {
    var s := NatToString(n);
    if n >= 10 {
      DecimalRoundTrip(n / 10);
      assert s[..|s| - 1] == NatToString(n / 10);
    }
  }

  lemma TwoDigits(n: nat)
    requires 10 <= n < 100
    ensures NatToString(n) == [DigitChar(n / 10), DigitChar(n % 10)]
  {
  }

  /** Minutes, a colon, and the seconds zero-padded below 10. */
  function FormatTime(seconds: nat): (r: string)
    ensures 4 <= |r| && r[|r| - 3] == ':'
    ensures r[..|r| - 3] == NatToString(seconds / 60)
    ensures IsDigit(r[|r| - 2]) && IsDigit(r[|r| - 1])
    ensures r[|r| - 2] == '0' <==> seconds % 60 < 10
    ensures DigitValue(r[|r| - 2]) * 10 + DigitValue(r[|r| - 1]) == seconds % 60
  {
    var minutes := seconds / 60;
    var sec := seconds % 60;
    assert 10 <= sec ==> NatToString(sec) == [DigitChar(sec / 10), DigitChar(sec % 10)] by {
      if 10 <= sec { TwoDigits(sec); }
    }
    NatToString(minutes) + ":" + (if sec < 10 then "0" else "") + NatToString(sec)
  }

  /** Reads an `M:SS` string back into seconds; `None` for anything else. */
  function ParseTime(t: string): (r: Option<nat>)
  {
    if 4 <= |t| && t[|t| - 3] == ':' && AllDigits(t[..|t| - 3])
       && IsDigit(t[|t| - 2]) && IsDigit(t[|t| - 1]) && DigitValue(t[|t| - 2]) < 6
    then Some(DecimalValue(t[..|t| - 3]) * 60 + DigitValue(t[|t| - 2]) * 10 + DigitValue(t[|t| - 1]))
    else None
  }

  lemma FormatTimeRoundTrip(seconds: nat)
    ensures ParseTime(FormatTime(seconds)) == Some(seconds)
  {
    var r := FormatTime(seconds);
    DecimalRoundTrip(seconds / 60);
    assert DecimalValue(r[..|r| - 3]) == seconds / 60;
  }

  lemma FormatTimeInjective(a: nat, b: nat)
    ensures FormatTime(a) == FormatTime(b) ==> a == b
  {
    FormatTimeRoundTrip(a);
    FormatTimeRoundTrip(b);
  }

  lemma FormatTimeExamples()
    ensures FormatTime(65) == "1:05"
    ensures FormatTime(5) == "0:05"
    ensures FormatTime(600) == "10:00"
    ensures FormatTime(0) == "0:00"
  {
  }
}
