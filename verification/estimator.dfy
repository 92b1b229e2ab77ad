/**
 * The integer deadline estimator of 5_EDF_javi_noplanner.c and 5_EDF.c:
 * from two heights p0.y and p1.y sampled DELTATIME nanoseconds apart,
 * `p1.y / (p0.y - p1.y) * DELTATIME` extrapolates, in C `int` arithmetic,
 * the time left until the missile reaches the ground; the deadline is the
 * time of the second sample plus that many nanoseconds.
 */
module Estimator {
  import opened CInt
  import opened Time

  /** DELTATIME of 5_EDF_javi_noplanner.c: 10^7 ns (10 ms) between the samples. */
  const DELTATIME_NOPLANNER: int := 10_000_000
  /** DELTATIME of 5_EDF.c: 10^4 ns between the samples. */
  const DELTATIME_EDF: int := 10_000

  /**
   * The C expression is defined: the heights are `int`s, the denominator is
   * nonzero (there is no guard in the source) and no intermediate result
   * overflows an `int`.
   */
  predicate EstimateDefined(p0y: int, p1y: int, delta: int) {
    && IsInt(p0y) && IsInt(p1y) && IsInt(p0y - p1y)
    && p0y != p1y
    && IsInt(Quot(p1y, p0y - p1y) * delta)
  }

  lemma MulLe(a: int, b: int, c: int)
    requires a <= b && c >= 0
    ensures a * c <= b * c
  {
    assert b * c - a * c == (b - a) * c;
  }

  /** Scaling the truncated quotient q of a nonnegative y by a positive drop by a positive delta. */
  lemma ScaledAbove(y: int, drop: int, q: int, delta: int)
    requires drop > 0 && delta > 0 && y >= 0
    requires 0 <= y - q * drop < drop
    ensures q * delta >= 0 && q * delta * drop <= y * delta < (q * delta + delta) * drop
  {
    MulLe(q * drop, y, delta);
    MulLe(y, (q + 1) * drop - 1, delta);
    assert q * delta * drop == q * drop * delta;
    assert (q * delta + delta) * drop == (q + 1) * drop * delta;
    assert q >= 0 by {
      if q < 0 { MulLe(q, -1, drop); }
    }
    MulLe(0, q, delta);
  }

  /** The same for a negative y: the quotient is truncated toward zero, so it rounds up. */
  lemma ScaledBelow(y: int, drop: int, q: int, delta: int)
    requires drop > 0 && delta > 0 && y < 0
    requires -drop < y - q * drop <= 0
    ensures q * delta <= 0 && (q * delta - delta) * drop < y * delta <= q * delta * drop
  {
    MulLe(y, q * drop, delta);
    MulLe((q - 1) * drop + 1, y, delta);
    assert q * delta * drop == q * drop * delta;
    assert (q * delta - delta) * drop == (q - 1) * drop * delta;
    assert q <= 0 by {
      if q > 0 { MulLe(1, q, drop); }
    }
    MulLe(q, 0, delta);
  }

  /** A nonnegative y over a negative drop (a rising target): the quotient is nonpositive and truncated toward zero. */
  lemma ScaledRisingAbove(y: int, drop: int, q: int, delta: int)
    requires drop < 0 && delta > 0 && y >= 0
    requires 0 <= y - q * drop < -drop
    ensures q * delta <= 0 && -(q * delta) * -drop <= y * delta < (delta - q * delta) * -drop
  {
    assert (-q) * (-drop) == q * drop;
    ScaledAbove(y, -drop, -q, delta);
    assert (-q) * delta == -(q * delta);
  }

  /** A negative y over a negative drop: the quotient is nonnegative and truncated toward zero. */
  lemma ScaledRisingBelow(y: int, drop: int, q: int, delta: int)
    requires drop < 0 && delta > 0 && y < 0
    requires drop < y - q * drop <= 0
    ensures q * delta >= 0 && q * delta * -drop <= -y * delta < (q * delta + delta) * -drop
  {
    assert q * (-drop) == -(q * drop);
    ScaledAbove(-y, -drop, q, delta);
    assert (-y) * delta == -(y * delta);
  }

  /** Scaling the C quotient q of y by drop: the four sign cases above. */
  lemma ScaledQuotient(y: int, drop: int, q: int, delta: int)
    requires drop != 0 && delta > 0
    requires Abs(y - q * drop) < Abs(drop)
    requires y >= 0 ==> y - q * drop >= 0
    requires y <= 0 ==> y - q * drop <= 0
    ensures drop > 0 && y >= 0 ==>
      q * delta >= 0 && q * delta * drop <= y * delta < (q * delta + delta) * drop
    ensures drop > 0 && y < 0 ==>
      q * delta <= 0 && (q * delta - delta) * drop < y * delta <= q * delta * drop
    ensures drop < 0 && y >= 0 ==>
      q * delta <= 0 && -(q * delta) * -drop <= y * delta < (delta - q * delta) * -drop
    ensures drop < 0 && y < 0 ==>
      q * delta >= 0 && q * delta * -drop <= -y * delta < (q * delta + delta) * -drop
  {
    if drop > 0 && y >= 0 {
      ScaledAbove(y, drop, q, delta);
    } else if drop > 0 {
      ScaledBelow(y, drop, q, delta);
    } else if y >= 0 {
      ScaledRisingAbove(y, drop, q, delta);
    } else {
      ScaledRisingBelow(y, drop, q, delta);
    }
  }

  /** A multiple of delta leaves no remainder. */
  lemma MultipleMod(q: int, delta: int)
    requires delta > 0
    ensures (q * delta) % delta == 0
  {
    var r := (q * delta) % delta;
    var k := (q * delta) / delta;
    assert q * delta == k * delta + r;
    assert r == (q - k) * delta;
    if q - k > 0 { MulLe(1, q - k, delta); }
    if q - k < 0 { MulLe(q - k, -1, delta); }
  }

  /**
   * `p1.y / (p0.y - p1.y) * DELTATIME` with C's truncating division. For a
   * falling missile above ground the quotient is the number of whole
   * sampling intervals it needs, at the observed rate, to reach height 0;
   * below ground the quotient is truncated toward zero, not floored. For
   * a rising missile the quotient is not positive above ground and not negative
   * below it, truncated toward zero in both cases. The estimate is always
   * a whole number of sampling intervals.
   */
  function RemainingTicks(p0y: int, p1y: int, delta: int): (t: int)
    requires delta > 0 && EstimateDefined(p0y, p1y, delta)
    ensures IsInt(t)
    ensures t % delta == 0
    ensures p0y > p1y >= 0 ==>
      t >= 0 && t * (p0y - p1y) <= p1y * delta < (t + delta) * (p0y - p1y)
    ensures p0y > p1y && p1y < 0 ==>
      t <= 0 && (t - delta) * (p0y - p1y) < p1y * delta <= t * (p0y - p1y)
    ensures p0y < p1y && p1y >= 0 ==>
      t <= 0 && -t * (p1y - p0y) <= p1y * delta < (delta - t) * (p1y - p0y)
    ensures p0y < p1y && p1y < 0 ==>
      t >= 0 && t * (p1y - p0y) <= -p1y * delta < (t + delta) * (p1y - p0y)
  {
    var q := Quot(p1y, p0y - p1y);
    ScaledQuotient(p1y, p0y - p1y, q, delta);
    MultipleMod(q, delta);
    q * delta
  }

  /**
   * A CLOCK_MONOTONIC reading as `clock_gettime` returns it: normalised,
   * nonnegative, and far from the end of the `time_t` range.
   */
  predicate ClockReading(t: Timespec) {
    Normalized(t) && 0 <= t.sec <= LONG_MAX / 2
  }

  /**
   * The deadline of 5_EDF_javi_noplanner.c as written: `timeRemaining` is
   * an `unsigned long`, `deadline = (struct timespec){0, timeRemaining}`
   * converts it back to `long`, and `timeAdd(deadline, startThread)` carries
   * once. The instant is right, but tv_nsec stays at or above 10^9 once the
   * estimate exceeds about two seconds.
   */
  function DeadlineAsWritten(startThread: Timespec, ticks: int): (d: Timespec)
    requires ClockReading(startThread) && IsInt(ticks)
    ensures TotalNs(d) == TotalNs(startThread) + ticks
    ensures d.sec == startThread.sec || d.sec == startThread.sec + 1
    ensures ticks + startThread.nsec >= 2 * NSECS_PER_SEC ==> !Normalized(d)
  {
    var timeRemaining := ToUnsignedLong(ticks);
    LongThroughUnsigned(ticks);
    TimeAdd(Timespec(0, ToLong(timeRemaining)), startThread)
  }

  /**
   * The evidently intended deadline: the same instant, startThread plus
   * `ticks` nanoseconds, with the offset split into whole seconds and
   * nanoseconds before the single-carry addition, so the result is
   * normalised.
   */
  function Deadline(startThread: Timespec, ticks: int): (d: Timespec)
    requires ClockReading(startThread) && IsInt(ticks)
    ensures TotalNs(d) == TotalNs(startThread) + ticks
    ensures Normalized(d)
  {
    var offset := Timespec(ticks / NSECS_PER_SEC, ticks % NSECS_PER_SEC);
    TimeAdd(startThread, offset)
  }

  /**
   * The example of a target at height 100 and then 90, sampled 10 ms apart
   * from time 0: the estimate is 90 ms after the second sample, a deadline
   * of 100 ms.
   */
  lemma NoPlannerExample()
    ensures var startThread := TimeAdd(Timespec(0, 0), Timespec(0, DELTATIME_NOPLANNER));
      && RemainingTicks(100, 90, DELTATIME_NOPLANNER) == 90_000_000
      && Deadline(startThread, 90_000_000) == Timespec(0, 100_000_000)
      && DeadlineAsWritten(startThread, 90_000_000) == Timespec(0, 100_000_000)
  {
    assert Quot(90, 10) == 9;
  }
}
