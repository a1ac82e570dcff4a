/**
 * Go's time.Duration arithmetic on nanosecond counts: the unit constants,
 * integer division as Go performs it (truncated toward zero), and
 * Duration.Round.  Durations are unbounded integers here; the saturation of
 * Round at the int64 extremes is not modelled.
 */
module GoTime {

  const Second: int := 1_000_000_000
  const Minute: int := 60 * Second
  const Hour: int := 60 * Minute

  /** Go's `a / b` on integers: the quotient truncated toward zero. */
  function Quot(a: int, b: int): (q: int)
    requires b > 0
    ensures 0 <= a ==> 0 <= a - q * b < b
    ensures a < 0 ==> -b < a - q * b <= 0
  {
    if a >= 0 then a / b else -((-a) / b)
  }

  /** Go's `a % b` on integers: the remainder that goes with Quot, with the sign of `a`. */
  function Rem(a: int, b: int): (r: int)
    requires b > 0
    ensures 0 <= a ==> 0 <= r < b
    ensures a < 0 ==> -b < r <= 0
    ensures (a - r) % b == 0
  {
    var r := a - Quot(a, b) * b;
    assert a - r == Quot(a, b) * b;
    r
  }

  /**
   * d.Round(m): d rounded to a multiple of m, halfway values away from zero;
   * a non-positive m leaves d as it is.
   */
  function Round(d: int, m: int): (r: int)
  {
    if m <= 0 then d
    else
      var r := Rem(d, m);
      if d < 0 then
        var r := -r;
        if r + r < m then d + r else d - m + r
      else
        if r + r < m then d - r else d + m - r
  }

  /**
   * Rounding to whole seconds gives the one multiple of a second nearest to d;
   * from a non-negative d a remainder below half a second goes down and half
   * or more goes up, so halves go away from zero on both sides.
   */
  lemma RoundToNearestSecond(d: int)
    ensures Round(d, Second) % Second == 0
    ensures 0 <= d ==> -Second < 2 * (Round(d, Second) - d) <= Second
    ensures d < 0 ==> -Second <= 2 * (Round(d, Second) - d) < Second
    ensures 0 <= d ==> (2 * (d % Second) < Second <==> Round(d, Second) <= d)
    ensures 0 <= d ==> 0 <= Round(d, Second)
  {
    var r := Rem(d, Second);
    if d >= 0 {
      assert r == d % Second;
    }
  }

  /** Rounding commutes with negation: -d rounds to the negation of what d rounds to. */
  lemma RoundIsOdd(d: int)
    ensures Round(-d, Second) == -Round(d, Second)
  {
    if d < 0 {
      assert Rem(d, Second) == -Rem(-d, Second);
    } else if d > 0 {
      assert Rem(-d, Second) == -Rem(d, Second);
    }
  }
}
