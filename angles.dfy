/** Hand angles of the analog face, in the drawing layer's fixed-point angle
    units: `turn` units make one full revolution, 0 is twelve o'clock and
    angles grow clockwise. Each hand multiplies a non-negative time field by
    `turn` and divides by a positive constant; on non-negative operands C's
    truncating division and Dafny's division agree. */
module Angles {

  /** The drawing layer's angle for one full turn (TRIG_MAX_ANGLE). */
  const TrigMaxAngle: int := 0x10000

  /** Largest value of a C `int32_t`. */
  const Int32Max: int := 0x7fff_ffff

  /** Angle of the second hand, `tm_sec * TRIG_MAX_ANGLE / 60`. */
  function SecondAngle(turn: int, sec: int): (r: int)
    requires turn > 0 && 0 <= sec < 60
    ensures 0 <= r < turn
    ensures sec == 0 ==> r == 0
  {
    Commute(sec, turn);
    ScaledBelow(turn, sec, 60);
    sec * turn / 60
  }

  /** Angle of the minute hand, `TRIG_MAX_ANGLE * tm_min / 60`. */
  function MinuteAngle(turn: int, min: int): (r: int)
    requires turn > 0 && 0 <= min < 60
    ensures 0 <= r < turn
    ensures min == 0 ==> r == 0
  {
    ScaledBelow(turn, min, 60);
    turn * min / 60
  }

  /** Angle of the hour hand, `TRIG_MAX_ANGLE * (tm_hour * 60 + tm_min) / 720`:
      it advances with every minute on a 12-hour dial. Hours run 0..23 and
      are not reduced modulo 12, so an afternoon angle lies in the second
      turn. */
  function HourAngle(turn: int, hour: int, min: int): (r: int)
    requires turn > 0 && 0 <= hour < 24 && 0 <= min < 60
    ensures 0 <= r < 2 * turn
    ensures hour < 12 <==> r < turn
    ensures hour == 0 && min == 0 ==> r == 0
  {
    DialBounds(turn, hour * 60 + min);
    turn * (hour * 60 + min) / 720
  }

  // ---------------------------------------------------------------------------
  // Properties of the hands.

  /** The second hand never moves backwards within a minute. */
  lemma SecondAngleMonotone(turn: int, s1: int, s2: int)
    requires turn > 0 && 0 <= s1 <= s2 < 60
    ensures SecondAngle(turn, s1) <= SecondAngle(turn, s2)
  {
    Commute(s1, turn);
    Commute(s2, turn);
    ScaledMonotone(turn, s1, s2, 60);
  }

  /** With at least 60 units per turn, the second hand moves on every second,
      so second 0 is the only one drawn at twelve o'clock. */
  lemma SecondAngleAdvances(turn: int, sec: int)
    requires turn >= 60 && 0 <= sec < 59
    ensures SecondAngle(turn, sec) < SecondAngle(turn, sec + 1)
  {
    Commute(sec, turn);
    Commute(sec + 1, turn);
    ScaledAdvances(turn, sec, 60);
  }

  /** The minute hand never moves backwards within an hour. */
  lemma MinuteAngleMonotone(turn: int, m1: int, m2: int)
    requires turn > 0 && 0 <= m1 <= m2 < 60
    ensures MinuteAngle(turn, m1) <= MinuteAngle(turn, m2)
  {
    ScaledMonotone(turn, m1, m2, 60);
  }

  /** With at least 60 units per turn, the minute hand moves every minute. */
  lemma MinuteAngleAdvances(turn: int, min: int)
    requires turn >= 60 && 0 <= min < 59
    ensures MinuteAngle(turn, min) < MinuteAngle(turn, min + 1)
  {
    ScaledAdvances(turn, min, 60);
  }

  /** The hour hand is monotone in the minutes of the day, across hour
      boundaries too: there is no jump back at the top of an hour. */
  lemma HourAngleMonotone(turn: int, h1: int, m1: int, h2: int, m2: int)
    requires turn > 0 && 0 <= h1 < 24 && 0 <= m1 < 60 && 0 <= h2 < 24 && 0 <= m2 < 60
    requires h1 * 60 + m1 <= h2 * 60 + m2
    ensures HourAngle(turn, h1, m1) <= HourAngle(turn, h2, m2)
  {
    ScaledMonotone(turn, h1 * 60 + m1, h2 * 60 + m2, 720);
  }

  /** From one minute to the next the hour hand advances by `turn / 720`
      units, or by one unit more where the rounding carries, and this holds
      from `h:59` to `(h+1):00` as well. */
  lemma HourAngleStep(turn: int, h1: int, m1: int, h2: int, m2: int)
    requires turn > 0 && 0 <= h1 < 24 && 0 <= m1 < 60 && 0 <= h2 < 24 && 0 <= m2 < 60
    requires h2 * 60 + m2 == h1 * 60 + m1 + 1
    ensures var step := HourAngle(turn, h2, m2) - HourAngle(turn, h1, m1);
            step == turn / 720 || step == turn / 720 + 1
  {
    assert turn * (h2 * 60 + m2) == turn * (h1 * 60 + m1) + turn;
    DivOfSum(turn * (h1 * 60 + m1), turn, 720);
  }

  /** An afternoon hour is drawn exactly one full turn past the same morning
      hour, so the two agree modulo a turn. */
  lemma HourAnglePm(turn: int, hour: int, min: int)
    requires turn > 0 && 0 <= hour < 12 && 0 <= min < 60
    ensures HourAngle(turn, hour + 12, min) == HourAngle(turn, hour, min) + turn
  {
    var x := turn * (hour * 60 + min);
    assert turn * ((hour + 12) * 60 + min) == x + 720 * turn;
    DivShift(x, turn, 720);
  }

  /** With the platform's TRIG_MAX_ANGLE and in-range fields, every product
      the three expressions compute fits a C `int32_t`, and so do the angles. */
  lemma AngleProductsFitInt32(sec: int, min: int, hour: int)
    requires 0 <= sec < 60 && 0 <= min < 60 && 0 <= hour < 24
    ensures 0 <= sec * TrigMaxAngle <= Int32Max
    ensures 0 <= TrigMaxAngle * min <= Int32Max
    ensures 0 <= hour * 60 + min <= Int32Max
    ensures 0 <= TrigMaxAngle * (hour * 60 + min) <= Int32Max
    ensures SecondAngle(TrigMaxAngle, sec) <= Int32Max
    ensures MinuteAngle(TrigMaxAngle, min) <= Int32Max
    ensures HourAngle(TrigMaxAngle, hour, min) <= Int32Max
  {
  }

  // ---------------------------------------------------------------------------
  // Arithmetic on `turn * n / d`.

  lemma Commute(a: int, b: int)
    ensures a * b == b * a
  {
  }

  lemma MulLe(c: int, a: int, b: int)
    requires c >= 0 && a <= b
    ensures c * a <= c * b
  {
    assert c * b - c * a == c * (b - a);
  }

  lemma MulLtCancel(c: int, a: int, b: int)
    requires c > 0 && c * a < c * b
    ensures a < b
  {
    assert c * b - c * a == c * (b - a);
  }

  /** Quotient and remainder are unique. */
  lemma DivUnique(y: int, d: int, q: int, r: int)
    requires d > 0 && 0 <= r < d && y == d * q + r
    ensures y / d == q && y % d == r
  {
    var q', r' := y / d, y % d;
    assert y == d * q' + r';
    assert d * (q - q') == r' - r;
    if q - q' > 0 { MulLe(d, 1, q - q'); }
    if q - q' < 0 { MulLe(d, q - q', -1); }
  }

  lemma DivShift(x: int, k: int, d: int)
    requires d > 0
    ensures (x + d * k) / d == x / d + k
  {
    assert x + d * k == d * (x / d + k) + x % d;
    DivUnique(x + d * k, d, x / d + k, x % d);
  }

  lemma DivMonotone(x: int, y: int, d: int)
    requires x <= y && d > 0
    ensures x / d <= y / d
  {
    assert d * (x / d) <= x;
    assert y < d * (y / d + 1);
    MulLtCancel(d, x / d, y / d + 1);
  }

  /** Dividing a sum loses at most one carry. */
  lemma DivOfSum(x: int, t: int, d: int)
    requires d > 0
    ensures (x + t) / d == x / d + t / d || (x + t) / d == x / d + t / d + 1
  {
    var q, r := x / d, x % d;
    var q', r' := t / d, t % d;
    assert x + t == d * (q + q') + (r + r');
    if r + r' < d {
      DivUnique(x + t, d, q + q', r + r');
    } else {
      assert x + t == d * (q + q' + 1) + (r + r' - d);
      DivUnique(x + t, d, q + q' + 1, r + r' - d);
    }
  }

  lemma ScaledBelow(turn: int, n: int, d: int)
    requires turn > 0 && 0 <= n < d
    ensures 0 <= turn * n / d < turn
  {
    var x := turn * n;
    MulLe(turn, 0, n);
    MulLe(turn, n + 1, d);
    assert x < d * turn;
    assert d * (x / d) <= x;
    MulLtCancel(d, x / d, turn);
  }

  lemma ScaledMonotone(turn: int, n: int, m: int, d: int)
    requires turn > 0 && n <= m && d > 0
    ensures turn * n / d <= turn * m / d
  {
    MulLe(turn, n, m);
    DivMonotone(turn * n, turn * m, d);
  }

  lemma ScaledAdvances(turn: int, n: int, d: int)
    requires d > 0 && turn >= d
    ensures turn * n / d < turn * (n + 1) / d
  {
    assert turn * (n + 1) == turn * n + turn;
    DivShift(turn * n, 1, d);
    DivMonotone(turn * n + d, turn * n + turn, d);
  }

  /** Minutes of a 24-hour day on a 12-hour dial: the morning lies in the
      first turn, the afternoon in the second. */
  lemma DialBounds(turn: int, total: int)
    requires turn > 0 && 0 <= total < 1440
    ensures 0 <= turn * total / 720 < 2 * turn
    ensures total < 720 <==> turn * total / 720 < turn
    ensures total == 0 ==> turn * total / 720 == 0
  {
    if total < 720 {
      ScaledBelow(turn, total, 720);
    } else {
      ScaledBelow(turn, total - 720, 720);
      assert turn * total == turn * (total - 720) + 720 * turn;
      DivShift(turn * (total - 720), turn, 720);
    }
  }
}
