/**
 * Clock times as the scheduler exchanges them: "HH:MM" text, 24-hour.
 * Both the API route and the client split such a string at ':' and turn
 * each half into a number; `HourOf` and `MinuteOf` are that conversion for
 * well-formed text. Neither side checks that the minutes are below 60.
 */
module ClockText {

  predicate IsDigit(c: char) {
    '0' <= c <= '9'
  }

  function DigitValue(c: char): (n: nat)
    requires IsDigit(c)
    ensures n < 10
  {
    (c as int) - ('0' as int)
  }

  function DigitChar(n: nat): (c: char)
    requires n < 10
    ensures IsDigit(c) && DigitValue(c) == n
  {
    ((('0' as int) + n) as char)
  }

  /** The number written by the two digits at s[i], s[i+1]. */
  function TwoDigitValue(s: string, i: nat): (n: nat)
    requires i + 2 <= |s| && IsDigit(s[i]) && IsDigit(s[i + 1])
    ensures n < 100
  {
    10 * DigitValue(s[i]) + DigitValue(s[i + 1])
  }

  /** `String(n).padStart(2, '0')` for a number below 100. */
  function Pad2(n: nat): (s: string)
    requires n < 100
    ensures |s| == 2 && IsDigit(s[0]) && IsDigit(s[1])
    ensures TwoDigitValue(s, 0) == n
  {
    [DigitChar(n / 10), DigitChar(n % 10)]
  }

  /** Shape of a time value: two digits, a colon, two digits. */
  predicate IsTimeText(t: string) {
    |t| == 5 && IsDigit(t[0]) && IsDigit(t[1]) && t[2] == ':' && IsDigit(t[3]) && IsDigit(t[4])
  }

  /** The hour half of `t.split(':').map(Number)`. */
  function HourOf(t: string): (h: nat)
    requires IsTimeText(t)
    ensures h < 100
  {
    TwoDigitValue(t, 0)
  }

  /** The minute half of `t.split(':').map(Number)`. */
  function MinuteOf(t: string): (m: nat)
    requires IsTimeText(t)
    ensures m < 100
  {
    TwoDigitValue(t, 3)
  }

  /** Minutes since midnight; orders the slot catalog. */
  function MinuteOfDay(t: string): nat
    requires IsTimeText(t)
  {
    60 * HourOf(t) + MinuteOf(t)
  }

  /** `${Pad2(h)}:${Pad2(m)}`, the way the route writes an end time. */
  function FormatTime(h: nat, m: nat): (t: string)
    requires h < 100 && m < 100
    ensures IsTimeText(t) && HourOf(t) == h && MinuteOf(t) == m
  {
    Pad2(h) + ":" + Pad2(m)
  }

  /** Reading a well-formed time and writing it back gives the same text. */
  lemma FormatParseRoundTrip(t: string)
    requires IsTimeText(t)
    ensures FormatTime(HourOf(t), MinuteOf(t)) == t
  {
    var u := FormatTime(HourOf(t), MinuteOf(t));
    DigitRoundTrip(t[0]);
    DigitRoundTrip(t[1]);
    DigitRoundTrip(t[3]);
    DigitRoundTrip(t[4]);
    assert u[0] == t[0] && u[1] == t[1] && u[2] == t[2] && u[3] == t[3] && u[4] == t[4];
  }

  /** Padding the value of two digits writes those two digits back. */
  lemma Pad2RoundTrip(s: string, i: nat)
    requires i + 2 <= |s| && IsDigit(s[i]) && IsDigit(s[i + 1])
    ensures Pad2(TwoDigitValue(s, i)) == s[i..i + 2]
  {
    DigitRoundTrip(s[i]);
    DigitRoundTrip(s[i + 1]);
    var n := TwoDigitValue(s, i);
    assert n / 10 == DigitValue(s[i]) && n % 10 == DigitValue(s[i + 1]);
  }

  lemma DigitRoundTrip(c: char)
    requires IsDigit(c)
    ensures DigitChar(DigitValue(c)) == c
  {
  }

  /** Two well-formed times with the same numbers are the same text. */
  lemma TimeTextInjective(a: string, b: string)
    requires IsTimeText(a) && IsTimeText(b)
    requires HourOf(a) == HourOf(b) && MinuteOf(a) == MinuteOf(b)
    ensures a == b
  {
    FormatParseRoundTrip(a);
    FormatParseRoundTrip(b);
  }
}
