/**
 * durationToText: a duration rounded to whole seconds and printed with
 * fmt's "%02d:%02d:%02d" from its hour, minute and second parts.
 */
module Format {
  import opened GoTime

  predicate IsDigit(c: char) { '0' <= c <= '9' }

  predicate AllDigits(s: string) { forall i :: 0 <= i < |s| ==> IsDigit(s[i]) }

  function DigitChar(n: int): (c: char)
    requires 0 <= n < 10
    ensures IsDigit(c) && c as int - '0' as int == n
  {
    ('0' as int + n) as char
  }

  /** The number a string of decimal digits denotes. */
  function Value(s: string): (v: nat)
    requires AllDigits(s)
  {
    if s == [] then 0 else 10 * Value(s[..|s| - 1]) + (s[|s| - 1] as int - '0' as int)
  }

  /** fmt's "%d" of a non-negative integer: its decimal digits, most significant first. */
  function Decimal(n: nat): (s: string)
  {
    if n < 10 then [DigitChar(n)] else Decimal(n / 10) + [DigitChar(n % 10)]
  }

  /** Reading back the digits of n gives n; one digit below ten, at most two below a hundred. */
  lemma {:induction false} DecimalRoundTrip(n: nat)
    ensures AllDigits(Decimal(n)) && Value(Decimal(n)) == n
    ensures 1 <= |Decimal(n)| && (n < 10 <==> |Decimal(n)| == 1)
    ensures n < 100 ==> |Decimal(n)| <= 2
  {
    if n >= 10 {
      DecimalRoundTrip(n / 10);
      var s := Decimal(n);
      assert s[..|s| - 1] == Decimal(n / 10);
    }
  }

  /**
   * fmt's "%02d": at least two characters, zero-padded; a negative number keeps
   * its sign in front and is then already two characters wide.
   */
  function Pad2(n: int): (s: string)
  {
    if n < 0 then "-" + Decimal(-n)
    else if n < 10 then "0" + Decimal(n)
    else Decimal(n)
  }

  /** A non-negative number prints as at least two digits that read back as the number. */
  lemma Pad2Digits(n: nat)
    ensures AllDigits(Pad2(n)) && Value(Pad2(n)) == n
    ensures 2 <= |Pad2(n)| && (n < 100 ==> |Pad2(n)| == 2)
  {
    DecimalRoundTrip(n);
    if n < 10 {
      var s := Pad2(n);
      assert s[..1] == "0";
      assert Value(s[..1]) == 0;
    }
  }

  /** durationToText: the runes of "%02d:%02d:%02d" of the rounded duration's h, m and s. */
  function DurationToText(d: int): (t: string)
  {
    var d := Round(d, Second);
    var h := Quot(d, Hour);
    var d := d - h * Hour;
    var m := Quot(d, Minute);
    var d := d - m * Minute;
    var s := Quot(d, Second);
    ClockFace(h, m, s)
  }

  /** "%02d:%02d:%02d" of an hour, minute and second count. */
  function ClockFace(h: int, m: int, s: int): (t: string)
  {
    Pad2(h) + ":" + Pad2(m) + ":" + Pad2(s)
  }

  /**
   * A clock face "hh:mm:ss": at least two hour digits, then exactly two minute
   * and two second digits below 60, separated by colons.
   */
  predicate IsClockText(t: string)
  {
    8 <= |t| && t[|t| - 6] == ':' && t[|t| - 3] == ':' &&
    AllDigits(t[..|t| - 6]) && AllDigits(t[|t| - 5..|t| - 3]) && AllDigits(t[|t| - 2..]) &&
    Value(t[|t| - 5..|t| - 3]) < 60 && Value(t[|t| - 2..]) < 60
  }

  /** The number of seconds a clock face shows. */
  function ClockSeconds(t: string): (n: nat)
    requires IsClockText(t)
  {
    3600 * Value(t[..|t| - 6]) + 60 * Value(t[|t| - 5..|t| - 3]) + Value(t[|t| - 2..])
  }

  /** How a whole number of seconds splits into hours, minutes below 60 and seconds below 60. */
  lemma SplitSeconds(d: int)
    requires 0 <= d && d % Second == 0
    ensures var h := Quot(d, Hour);
            var m := Quot(d - h * Hour, Minute);
            var s := Quot(d - h * Hour - m * Minute, Second);
            0 <= h && 0 <= m < 60 && 0 <= s < 60 &&
            3600 * h + 60 * m + s == d / Second
  {
    var q := d / Second;
    assert d == q * Second;
    var h := Quot(d, Hour);
    assert h == q / 3600;
    var m := Quot(d - h * Hour, Minute);
    assert d - h * Hour == (q % 3600) * Second;
    assert m == (q % 3600) / 60;
    var s := Quot(d - h * Hour - m * Minute, Second);
    assert d - h * Hour - m * Minute == ((q % 3600) % 60) * Second;
  }

  /** Minutes and seconds below 60 give a clock face that shows exactly their total. */
  lemma ClockFaceMeaning(h: nat, m: nat, s: nat)
    requires m < 60 && s < 60
    ensures IsClockText(ClockFace(h, m, s))
    ensures ClockSeconds(ClockFace(h, m, s)) == 3600 * h + 60 * m + s
  {
    Pad2Digits(h);
    Pad2Digits(m);
    Pad2Digits(s);
    var t := ClockFace(h, m, s);
    assert t[..|t| - 6] == Pad2(h);
    assert t[|t| - 5..|t| - 3] == Pad2(m);
    assert t[|t| - 2..] == Pad2(s);
  }

  /**
   * For a non-negative duration the text is a clock face, and the seconds it
   * shows are the duration rounded to whole seconds.
   */
  lemma DurationToTextMeaning(d: int)
    requires 0 <= d
    ensures IsClockText(DurationToText(d))
    ensures ClockSeconds(DurationToText(d)) * Second == Round(d, Second)
    ensures Round(d, Second) < 100 * Hour ==> |DurationToText(d)| == 8
  {
    RoundToNearestSecond(d);
    var r := Round(d, Second);
    SplitSeconds(r);
    var h := Quot(r, Hour);
    var m := Quot(r - h * Hour, Minute);
    var s := Quot(r - h * Hour - m * Minute, Second);
    assert DurationToText(d) == ClockFace(h, m, s);
    ClockFaceMeaning(h, m, s);
    if r < 100 * Hour {
      assert h < 100;
      Pad2Digits(h);
      Pad2Digits(m);
      Pad2Digits(s);
    }
  }

  /**
   * The text is not clamped at zero: a duration 0.6 s past the deadline rounds
   * to minus one second and prints with a sign in the seconds field.
   */
  lemma NegativeDurationShowsSign()
    ensures DurationToText(-600_000_000) == "00:00:-1"
  {
    assert Round(-600_000_000, Second) == -Second by {
      assert Rem(-600_000_000, Second) == -600_000_000;
    }
    assert Quot(-Second, Hour) == 0 && Quot(-Second, Minute) == 0 && Quot(-Second, Second) == -1;
    assert ClockFace(0, 0, -1) == "00:00:-1" by {
      assert Pad2(0) == "00";
      assert Pad2(-1) == "-1";
    }
    assert DurationToText(-600_000_000) == ClockFace(0, 0, -1);
  }
}
