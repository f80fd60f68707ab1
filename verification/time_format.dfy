/**
 * The `MM:SS` clock strings of the widget: `formatDuration`
 * (AudioPlayerBase.js and its copy in ChatMessage.js) and `formatTime`
 * (ChatMessage.js), built from `toString()` and `padStart(2, '0')`, and a
 * parser that reads such a string back, so that what the strings say about
 * their inputs can be stated as a round trip.
 */
module TimeFormat {
  import opened Wrappers
  import opened Browser

  predicate IsDigit(c: char) {
    '0' <= c <= '9'
  }

  predicate AllDigits(s: string) {
    forall i :: 0 <= i < |s| ==> IsDigit(s[i])
  }

  function DigitChar(d: nat): (c: char)
    requires d < 10
    ensures IsDigit(c)
  {
    (48 + d) as char
  }

  function DigitValue(c: char): (d: nat)
    requires IsDigit(c)
    ensures d < 10
  {
    c as int - 48
  }

  /** `n.toString()` for a non-negative integer: its decimal digits, no leading zero. */
  function NatToString(n: nat): (s: string)
    ensures |s| >= 1 && AllDigits(s)
    ensures |s| == 1 <==> n < 10
  {
    if n < 10 then [DigitChar(n)] else NatToString(n / 10) + [DigitChar(n % 10)]
  }

  /** `i.toString()` for any integer. */
  function IntToString(i: int): string {
    if i < 0 then "-" + NatToString(-i) else NatToString(i)
  }

  /** `s.padStart(2, '0')` */
  function PadStart2(s: string): string {
    if |s| < 2 then seq(2 - |s|, _ => '0') + s else s
  }

  /** `i.toString().padStart(2, '0')` */
  function Pad2(i: int): string {
    PadStart2(IntToString(i))
  }

  /** Two padded integer fields joined by a colon. */
  function Clock(left: int, right: int): string {
    Pad2(left) + ":" + Pad2(right)
  }

  /**
   * `formatDuration(seconds)`: `00:00` for anything that is not a finite
   * number, otherwise `floor(seconds / 60)` and `round(seconds % 60)`, each
   * padded to two digits.
   */
  function FormatDuration(v: JsValue): (r: string)
    ensures !IsFiniteNumber(v) ==> r == "00:00"
    ensures |r| >= 5
  {
    match v
    case Number(x) => Clock((x / 60.0).Floor, Round(Rem60(x)))
    case _ => "00:00"
  }

  /** `formatTime(date)`: the hours and minutes of a timestamp as `HH:MM`. */
  function FormatTime(hours: nat, minutes: nat): (r: string)
    requires hours < 24 && minutes < 60
    ensures |r| == 5 && r[2] == ':'
    ensures ParseClock(r) == Some((hours, minutes))
  {
    ClockRoundTrip(hours, minutes);
    Clock(hours, minutes)
  }

  // ---- Reading a clock string back ----

  /** The value of a string of decimal digits. */
  function DigitsValue(s: string): nat
    requires AllDigits(s)
  {
    if s == [] then 0 else DigitsValue(s[..|s| - 1]) * 10 + DigitValue(s[|s| - 1])
  }

  function ParseNat(s: string): Option<nat> {
    if s != [] && AllDigits(s) then Some(DigitsValue(s)) else None
  }

  /** The parts before and after the first colon, if there is one. */
  function SplitAtColon(s: string): Option<(string, string)> {
    if s == [] then None
    else if s[0] == ':' then Some(([], s[1..]))
    else
      match SplitAtColon(s[1..])
      case None => None
      case Some((a, b)) => Some(([s[0]] + a, b))
  }

  /** The two numbers of an `MM:SS` string, if it is one. */
  function ParseClock(s: string): Option<(nat, nat)> {
    match SplitAtColon(s)
    case None => None
    case Some((a, b)) =>
      match (ParseNat(a), ParseNat(b))
      case (Some(m), Some(x)) => Some((m, x))
      case _ => None
  }

  lemma {:induction false} NatToStringRoundTrip(n: nat)
    ensures DigitsValue(NatToString(n)) == n
  {
    if n >= 10 {
      var s := NatToString(n / 10);
      assert (s + [DigitChar(n % 10)])[..|s|] == s;
      NatToStringRoundTrip(n / 10);
    }
  }

  /** A padded field of a non-negative number reads back as that number. */
  lemma Pad2RoundTrip(n: nat)
    ensures AllDigits(Pad2(n)) && ParseNat(Pad2(n)) == Some(n)
    ensures |Pad2(n)| >= 2
    ensures n < 100 ==> |Pad2(n)| == 2
  {
    NatToStringRoundTrip(n);
    if n < 10 {
      var s := Pad2(n);
      assert s == ['0', DigitChar(n)];
      assert s[..1] == ['0'] && DigitsValue(s[..1]) == 0;
    } else if n < 100 {
      assert |NatToString(n / 10)| == 1;
    }
  }

  lemma {:induction false} SplitAtFirstColon(a: string, b: string)
    requires AllDigits(a)
    ensures SplitAtColon(a + ":" + b) == Some((a, b))
  {
    if a != [] {
      assert (a + ":" + b)[1..] == a[1..] + ":" + b;
      SplitAtFirstColon(a[1..], b);
      assert [a[0]] + a[1..] == a;
    }
  }

  /** Joining two non-negative fields with a colon loses nothing. */
  lemma ClockRoundTrip(left: nat, right: nat)
    ensures ParseClock(Clock(left, right)) == Some((left, right))
  {
    Pad2RoundTrip(left);
    Pad2RoundTrip(right);
    SplitAtFirstColon(Pad2(left), Pad2(right));
  }

  /**
   * A clock of a non-negative left field and a right field below 100: at
   * least two digits, a colon, then exactly two digits.
   */
  lemma ClockShape(left: nat, right: nat)
    requires right < 100
    ensures var r := Clock(left, right);
            && |r| >= 5 && r[|r| - 3] == ':'
            && r[..|r| - 3] == Pad2(left) && r[|r| - 2..] == Pad2(right)
            && AllDigits(r[..|r| - 3]) && AllDigits(r[|r| - 2..])
  {
    Pad2RoundTrip(left);
    Pad2RoundTrip(right);
    var r := Clock(left, right);
    assert r[..|r| - 3] == Pad2(left);
    assert r[|r| - 2..] == Pad2(right);
  }

  /**
   * For a finite non-negative number of seconds, the minutes field is
   * `floor(s / 60)` and the seconds field is `s mod 60` rounded, which can
   * reach 60 but not exceed it.
   */
  lemma FormatDurationFields(s: real)
    requires 0.0 <= s
    ensures var minutes := (s / 60.0).Floor;
            var seconds := (s - 60.0 * minutes as real + 0.5).Floor;
            && 0 <= minutes && 0 <= seconds <= 60
            && ParseClock(FormatDuration(Number(s))) == Some((minutes, seconds))
  {
    var minutes := (s / 60.0).Floor;
    var seconds := (s - 60.0 * minutes as real + 0.5).Floor;
    assert 0 <= minutes && 0 <= seconds <= 60 && Round(Rem60(s)) == seconds by {
      Rem60OfNonNegative(s);
    }
    FormatDurationReadsBack(s, minutes, seconds);
  }

  /** A finite number formats as the clock of its two fields. */
  lemma FormatDurationIsClock(x: real)
    ensures FormatDuration(Number(x)) == Clock((x / 60.0).Floor, Round(Rem60(x)))
  {
  }

  /** A finite number's clock reads back as its two fields. */
  lemma FormatDurationReadsBack(x: real, minutes: nat, seconds: nat)
    requires minutes == (x / 60.0).Floor && seconds == Round(Rem60(x))
    ensures ParseClock(FormatDuration(Number(x))) == Some((minutes, seconds))
  {
    FormatDurationIsClock(x);
    ClockRoundTrip(minutes, seconds);
  }

  /** On non-negative numbers the remainder is taken against the floor. */
  lemma Rem60OfNonNegative(s: real)
    requires 0.0 <= s
    ensures 0 <= (s / 60.0).Floor && Rem60(s) == s - 60.0 * (s / 60.0).Floor as real
  {
  }

  /**
   * For a finite non-negative number of seconds, the seconds field is
   * exactly two digits and the minutes field at least two.
   */
  lemma FormatDurationPadded(s: real)
    requires 0.0 <= s
    ensures var r := FormatDuration(Number(s));
            && |r| >= 5 && r[|r| - 3] == ':'
            && AllDigits(r[..|r| - 3]) && AllDigits(r[|r| - 2..])
  {
    Rem60OfNonNegative(s);
    ClockShape((s / 60.0).Floor, Round(Rem60(s)));
  }

  /** 65 seconds read as one minute and five seconds. */
  lemma FormatDurationSixtyFive()
    ensures FormatDuration(Number(65.0)) == "01:05"
  {
  }

  /** Rounding happens after the remainder, so 59.6 seconds shows a seconds field of 60. */
  lemma FormatDurationSixtySeconds()
    ensures FormatDuration(Number(59.6)) == "00:60"
  {
  }
}
