/**
 * `struct timespec` arithmetic of the drivers: the difference `diff_ts`,
 * the single-carry macro `timeAdd` and the looping `addTime`, plus the
 * lexicographic order the deadline comparators implement.
 */
module Time {
  import opened CInt

  /** `NSECS_PER_SEC` (an `unsigned long` constant in the drivers). */
  const NSECS_PER_SEC: int := 1_000_000_000

  /** A `struct timespec`; both fields are C `long`s. */
  datatype Timespec = Timespec(sec: int, nsec: int)

  /** The instant a timespec denotes, in nanoseconds. */
  function TotalNs(t: Timespec): int {
    t.sec * NSECS_PER_SEC + t.nsec
  }

  /** The form `clock_gettime` returns: 0 <= tv_nsec < 10^9. */
  predicate Normalized(t: Timespec) {
    0 <= t.nsec < NSECS_PER_SEC
  }

  /** Lexicographic (tv_sec, tv_nsec) strict less-than: the order the deadline comparators test. */
  predicate Earlier(a: Timespec, b: Timespec) {
    a.sec < b.sec || (a.sec == b.sec && a.nsec < b.nsec)
  }

  /** On normalised timespecs the lexicographic order is the order of the instants. */
  lemma EarlierIsTimeOrder(a: Timespec, b: Timespec)
    requires Normalized(a) && Normalized(b)
    ensures Earlier(a, b) <==> TotalNs(a) < TotalNs(b)
  {
    if a.sec < b.sec {
      assert (b.sec - a.sec) * NSECS_PER_SEC >= NSECS_PER_SEC;
    } else if a.sec > b.sec {
      assert (a.sec - b.sec) * NSECS_PER_SEC >= NSECS_PER_SEC;
    }
  }

  /** Without normalisation they can disagree: (5, 1.5e9) is lexicographically before (6, 0) but later. */
  lemma EarlierNeedsNormalized()
    ensures var a, b := Timespec(5, 1_500_000_000), Timespec(6, 0);
      Earlier(a, b) && TotalNs(b) < TotalNs(a)
  {
  }

  /**
   * `diff_ts(a, b)`: `(a.tv_sec-b.tv_sec)*NSECS_PER_SEC + (a.tv_nsec-b.tv_nsec)`.
   * The two subtractions are signed `long` arithmetic (overflow would be
   * undefined, hence the precondition); the product and the sum are
   * `unsigned long` arithmetic, which wraps modulo 2^64, and the result is
   * converted back to `long`. Together that is the mathematical difference
   * reduced modulo 2^64 into the range of `long`.
   */
  function DiffTs(a: Timespec, b: Timespec): (d: int)
    requires IsLong(a.sec - b.sec) && IsLong(a.nsec - b.nsec)
    ensures IsLong(d)
    ensures (d - (TotalNs(a) - TotalNs(b))) % ULONG_MOD == 0
    ensures IsLong(TotalNs(a) - TotalNs(b)) ==> d == TotalNs(a) - TotalNs(b)
  {
    ToLong((a.sec - b.sec) * NSECS_PER_SEC + (a.nsec - b.nsec))
  }

  lemma DiffTsSelf(a: Timespec)
    ensures DiffTs(a, a) == 0
  {
  }

  lemma NegMod(x: int)
    ensures (-x) % ULONG_MOD == if x % ULONG_MOD == 0 then 0 else ULONG_MOD - x % ULONG_MOD
  {
    var q, u := x / ULONG_MOD, x % ULONG_MOD;
    assert x == q * ULONG_MOD + u;
    if u == 0 {
      assert -x == (-q) * ULONG_MOD;
    } else {
      assert -x == (-q - 1) * ULONG_MOD + (ULONG_MOD - u);
    }
  }

  /**
   * `diff_ts(a, b) == -diff_ts(b, a)`, except where the wrapped difference
   * is LONG_MIN, whose negation is not a `long`.
   */
  lemma DiffTsAntisymmetric(a: Timespec, b: Timespec)
    requires IsLong(a.sec - b.sec) && IsLong(a.nsec - b.nsec)
    requires IsLong(b.sec - a.sec) && IsLong(b.nsec - a.nsec)
    requires DiffTs(a, b) != LONG_MIN
    ensures DiffTs(b, a) == -DiffTs(a, b)
  {
    var x := (a.sec - b.sec) * NSECS_PER_SEC + (a.nsec - b.nsec);
    assert (b.sec - a.sec) * NSECS_PER_SEC + (b.nsec - a.nsec) == -x;
    NegMod(x);
  }

  /**
   * The carry test of the `timeAdd` macro, `a.tv_nsec >= NSECS_PER_SEC`:
   * the constant is an `unsigned long`, so tv_nsec is converted to
   * `unsigned long` before the comparison.
   */
  predicate MacroCarries(nsec: int) {
    ToUnsignedLong(nsec) >= NSECS_PER_SEC
  }

  /** A negative tv_nsec reads as a huge unsigned value, so it carries too. */
  lemma MacroCarriesIff(nsec: int)
    requires IsLong(nsec)
    ensures MacroCarries(nsec) <==> nsec >= NSECS_PER_SEC || nsec < 0
  {
  }

  /**
   * The `timeAdd(a, b)` macro: a.tv_sec += b.tv_sec; a.tv_nsec += b.tv_nsec;
   * then at most one carry. The macro updates `a` in place; callers assign
   * the result back to it. Signed overflow is excluded by the precondition.
   */
  function TimeAdd(a: Timespec, b: Timespec): (r: Timespec)
    requires IsLong(a.sec + b.sec) && IsLong(a.nsec + b.nsec)
    requires MacroCarries(a.nsec + b.nsec) ==>
      IsLong(a.sec + b.sec + 1) && IsLong(a.nsec + b.nsec - NSECS_PER_SEC)
    ensures TotalNs(r) == TotalNs(a) + TotalNs(b)
    ensures r.sec == a.sec + b.sec || r.sec == a.sec + b.sec + 1
    ensures Normalized(a) && Normalized(b) ==> Normalized(r)
    ensures a.nsec + b.nsec >= 2 * NSECS_PER_SEC ==> r.nsec >= NSECS_PER_SEC
  {
    var sec, nsec := a.sec + b.sec, a.nsec + b.nsec;
    if MacroCarries(nsec) then Timespec(sec + 1, nsec - NSECS_PER_SEC) else Timespec(sec, nsec)
  }

  /**
   * `addTime(ts, s, ns)` of 5_EDF.c: add s seconds and ns nanoseconds, then
   * carry whole seconds out of tv_nsec until it is below 10^9. Its
   * parameters are untyped in the source; they are taken to be `long`.
   */
  method AddTime(ts: Timespec, s: int, ns: int) returns (r: Timespec)
    requires IsLong(ts.sec + s) && IsLong(ts.nsec + ns)
    requires ts.nsec + ns >= NSECS_PER_SEC ==> IsLong(ts.sec + s + (ts.nsec + ns) / NSECS_PER_SEC)
    ensures TotalNs(r) == TotalNs(ts) + s * NSECS_PER_SEC + ns
    ensures r.nsec < NSECS_PER_SEC
    ensures ts.nsec + ns >= 0 ==> Normalized(r)
    ensures ts.nsec + ns < NSECS_PER_SEC ==> r == Timespec(ts.sec + s, ts.nsec + ns)
    ensures IsLong(r.sec) && IsLong(r.nsec)
  {
    var n0 := ts.nsec + ns;
    r := Timespec(ts.sec + s, n0);
    while r.nsec >= NSECS_PER_SEC
      invariant TotalNs(r) == TotalNs(ts) + s * NSECS_PER_SEC + ns
      invariant ts.sec + s <= r.sec
      invariant r.sec > ts.sec + s ==> n0 >= NSECS_PER_SEC && r.sec - (ts.sec + s) <= n0 / NSECS_PER_SEC
      invariant n0 >= 0 ==> r.nsec >= 0
      invariant r.nsec <= n0
      decreases r.nsec
    {
      r := Timespec(r.sec + 1, r.nsec - NSECS_PER_SEC);
    }
  }
}
