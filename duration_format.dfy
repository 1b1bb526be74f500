/**
  formatDuration (src/pages/Index.tsx): elapsed seconds rendered as
  minutes and seconds, each written in decimal and left-padded with '0' to
  two characters, joined by ':'. Beside it, a decoder that reads such a clock
  back into seconds.
 */
module DurationFormat {
  import opened Options

  predicate IsDigit(c: char) {
    '0' <= c <= '9'
  }

  predicate AllDigits(s: string) {
    forall i :: 0 <= i < |s| ==> IsDigit(s[i])
  }

  function DigitChar(d: nat): char
    requires d < 10
  {
    (d + '0' as int) as char
  }

  function DigitValue(c: char): nat
    requires IsDigit(c)
  {
    c as int - '0' as int
  }

  /** `n.toString()` for a non-negative integer: decimal digits, no leading zeros. */
  function Decimal(n: nat): string
    decreases n
  {
    if n < 10 then [DigitChar(n)] else Decimal(n / 10) + [DigitChar(n % 10)]
  }

  /** `s.padStart(2, "0")`. */
  function PadStart2(s: string): string {
    if |s| < 2 then seq(2 - |s|, _ => '0') + s else s
  }

  function Pad2(n: nat): string {
    PadStart2(Decimal(n))
  }

  /** `${mins}:${secs}` with mins = floor(seconds / 60) and secs = seconds % 60, both padded. */
  function FormatDuration(seconds: nat): string {
    Pad2(seconds / 60) + ":" + Pad2(seconds % 60)
  }

  /** A run of decimal digits read as a number, most significant first. */
  function ParseDigits(s: string): nat
    requires AllDigits(s)
  {
    if s == [] then 0 else ParseDigits(s[..|s| - 1]) * 10 + DigitValue(s[|s| - 1])
  }

  /** A clock "MM:SS" (two or more minute digits, two second digits below 60) read back as seconds. */
  function ParseClock(r: string): Option<nat> {
    if |r| >= 5 && r[|r| - 3] == ':' && AllDigits(r[..|r| - 3]) && AllDigits(r[|r| - 2..])
       && ParseDigits(r[|r| - 2..]) < 60
    then Some(ParseDigits(r[..|r| - 3]) * 60 + ParseDigits(r[|r| - 2..]))
    else None
  }

  /** The decimal text of n is digits only, has one digit below 10, at most two below 100, and reads back as n. */
  lemma {:induction false} DecimalRoundTrip(n: nat)
    ensures |Decimal(n)| >= 1 && AllDigits(Decimal(n))
    ensures n < 10 ==> |Decimal(n)| == 1
    ensures n < 100 ==> |Decimal(n)| <= 2
    ensures ParseDigits(Decimal(n)) == n
    decreases n
  {
    if n >= 10 {
      DecimalRoundTrip(n / 10);
      var d := Decimal(n);
      assert d[..|d| - 1] == Decimal(n / 10);
    }
  }

  /** A leading '0' does not change the value read. */
  lemma {:induction false} LeadingZero(s: string)
    requires AllDigits(s)
    ensures AllDigits("0" + s) && ParseDigits("0" + s) == ParseDigits(s)
    decreases |s|
  {
    if s != [] {
      var t := "0" + s;
      assert t[..|t| - 1] == "0" + s[..|s| - 1];
      LeadingZero(s[..|s| - 1]);
    }
  }

  /** Padding keeps the value: the text has at least two digits, exactly two below 100, and reads back as n. */
  lemma Pad2RoundTrip(n: nat)
    ensures |Pad2(n)| >= 2 && AllDigits(Pad2(n))
    ensures n < 100 ==> |Pad2(n)| == 2
    ensures ParseDigits(Pad2(n)) == n
  {
    DecimalRoundTrip(n);
    var d := Decimal(n);
    if |d| < 2 {
      assert Pad2(n) == "0" + d;
      LeadingZero(d);
    }
  }

  /** Decoding a formatted duration gives back the seconds it came from. */
  lemma FormatDurationRoundTrip(seconds: nat)
    ensures ParseClock(FormatDuration(seconds)) == Some(seconds)
  {
    var m, s := Pad2(seconds / 60), Pad2(seconds % 60);
    Pad2RoundTrip(seconds / 60);
    Pad2RoundTrip(seconds % 60);
    var r := FormatDuration(seconds);
    assert r == m + ":" + s;
    assert r[..|r| - 3] == m;
    assert r[|r| - 2..] == s;
  }

  /** Distinct durations render differently. */
  lemma FormatDurationInjective(a: nat, b: nat)
    requires FormatDuration(a) == FormatDuration(b)
    ensures a == b
  {
    FormatDurationRoundTrip(a);
    FormatDurationRoundTrip(b);
  }

  /** Below 100 minutes the clock is exactly "MM:SS". */
  lemma FormatDurationShape(seconds: nat)
    requires seconds < 6000
    ensures var r := FormatDuration(seconds);
      |r| == 5 && r[2] == ':' && IsDigit(r[0]) && IsDigit(r[1]) && IsDigit(r[3]) && IsDigit(r[4])
  {
    Pad2RoundTrip(seconds / 60);
    Pad2RoundTrip(seconds % 60);
  }

  lemma FormatDurationExamples()
    ensures FormatDuration(0) == "00:00"
    ensures FormatDuration(75) == "01:15"
    ensures FormatDuration(1800) == "30:00"
  {
    assert Decimal(0) == "0" && Decimal(1) == "1" && Decimal(15) == "15" && Decimal(30) == "30";
  }
}
