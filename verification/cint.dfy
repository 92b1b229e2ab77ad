/**
 * C integer semantics used by the drivers: the ranges of `int` and `long`
 * on an LP64 target, conversion to and from `unsigned long` (which wraps
 * modulo 2^64), and C's division, which truncates toward zero where
 * Dafny's `/` is Euclidean.
 */
module CInt {

  const INT_MIN: int := -0x8000_0000
  const INT_MAX: int := 0x7fff_ffff
  const LONG_MIN: int := -0x8000_0000_0000_0000
  const LONG_MAX: int := 0x7fff_ffff_ffff_ffff
  /** 2^64: the modulus of `unsigned long` arithmetic. */
  const ULONG_MOD: int := 0x1_0000_0000_0000_0000

  /** x is representable as a 32-bit C `int`. */
  predicate IsInt(x: int) {
    INT_MIN <= x <= INT_MAX
  }

  /** x is representable as a 64-bit C `long` (also `time_t`). */
  predicate IsLong(x: int) {
    LONG_MIN <= x <= LONG_MAX
  }

  function Abs(x: int): (r: nat)
    ensures r == x || r == -x
  {
    if x < 0 then -x else x
  }

  /** Conversion of any integer to `unsigned long`: reduction modulo 2^64. */
  function ToUnsignedLong(x: int): (r: int)
    ensures 0 <= r < ULONG_MOD
    ensures (r - x) % ULONG_MOD == 0
    ensures 0 <= x < ULONG_MOD ==> r == x
  {
    x % ULONG_MOD
  }

  /**
   * Conversion of an integer to `long` as gcc performs it (two's complement
   * wrap-around): the unique `long` congruent to x modulo 2^64.
   */
  function ToLong(x: int): (r: int)
    ensures IsLong(r)
    ensures (r - x) % ULONG_MOD == 0
    ensures IsLong(x) ==> r == x
  {
    var u := x % ULONG_MOD;
    if u <= LONG_MAX then u else u - ULONG_MOD
  }

  /** A `long` stored in an `unsigned long` and read back as a `long` is unchanged. */
  lemma LongThroughUnsigned(x: int)
    requires IsLong(x)
    ensures ToLong(ToUnsignedLong(x)) == x
  {
    var u := ToUnsignedLong(x);
    if x < 0 {
      assert u == x + ULONG_MOD;
    }
  }

  /**
   * C's `a / b` on integers (C99 6.5.5): the quotient truncated toward zero.
   * The remainder a - q*b has the sign of a and is smaller than b in
   * magnitude; these two facts determine q.
   */
  function Quot(a: int, b: int): (q: int)
    requires b != 0
    ensures Abs(a - q * b) < Abs(b)
    ensures a >= 0 ==> a - q * b >= 0
    ensures a <= 0 ==> a - q * b <= 0
  {
    var m := Abs(a) / Abs(b);
    QuotBounds(Abs(a), Abs(b));
    QuotSign(a, b, m);
    if (a >= 0) == (b > 0) then m else -m
  }

  lemma QuotBounds(x: nat, y: nat)
    requires y > 0
    ensures 0 <= x - (x / y) * y < y
  {
  }

  /** Giving m = |a| / |b| the sign that makes the remainder follow a. */
  lemma QuotSign(a: int, b: int, m: int)
    requires b != 0 && 0 <= Abs(a) - m * Abs(b) < Abs(b)
    ensures var q := if (a >= 0) == (b > 0) then m else -m;
      && Abs(a - q * b) < Abs(b)
      && (a >= 0 ==> a - q * b >= 0)
      && (a <= 0 ==> a - q * b <= 0)
  {
    var p := m * Abs(b);
    if b > 0 {
      assert m * b == p;
    } else {
      assert m * b == -p;
    }
    assert (-m) * b == -(m * b);
  }

  /** Where the dividend is nonnegative and the divisor positive, C and Dafny agree. */
  lemma QuotOfNonnegatives(a: int, b: int)
    requires a >= 0 && b > 0
    ensures Quot(a, b) == a / b
  {
  }

  /** They disagree on a negative dividend with a nonzero remainder: -7/2 is -3 in C, -4 in Dafny. */
  lemma QuotTruncatesTowardZero()
    ensures Quot(-7, 2) == -3 && -7 / 2 == -4
  {
  }
}
