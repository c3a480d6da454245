/** The pieces of Go's arithmetic the package relies on, written out
    because Dafny's integers are unbounded and its `/` is Euclidean. */
module GoNumeric {

  function Abs(x: int): nat { if x < 0 then -x else x }

  /** Go's integer quotient `a / b`: division truncated toward zero. The
      remainder `a - q * b` is smaller than `b` in magnitude and is zero or
      has the sign of `a`. Division by zero is a run-time panic in Go, hence
      the precondition. */
  function Quo(a: int, b: int): (q: int)
    requires b != 0
    ensures Abs(a - q * b) < Abs(b)
    ensures a - q * b == 0 || (a - q * b > 0 <==> a > 0)
    ensures Abs(q * b) <= Abs(a)
  {
    var x, y := Abs(a), Abs(b);
    var m, r := x / y, x % y;
    EuclidMagnitudes(x, y);
    var q := if (a < 0) == (b < 0) then m else -m;
    QuoSigns(a, b, m, r, q);
    q
  }

  lemma EuclidMagnitudes(x: nat, y: nat)
    requires y > 0
    ensures x / y >= 0 && 0 <= x % y < y && x == (x / y) * y + x % y
  {}

  /** The truncated quotient has the magnitude of the Euclidean quotient of
      the magnitudes, and the remainder takes the sign of `a`. */
  lemma QuoSigns(a: int, b: int, m: nat, r: nat, q: int)
    requires b != 0 && Abs(a) == m * Abs(b) + r && r < Abs(b)
    requires q == if (a < 0) == (b < 0) then m as int else -(m as int)
    ensures Abs(a - q * b) < Abs(b)
    ensures a - q * b == 0 || (a - q * b > 0 <==> a > 0)
    ensures Abs(q * b) <= Abs(a)
  {
    var y := Abs(b);
    var p := m * y;
    if a >= 0 && b > 0 {
      assert q * b == p;
    } else if a >= 0 {
      assert q * b == p;
    } else if b > 0 {
      assert q * b == -p;
    } else {
      assert q * b == -p;
    }
  }

  /** A quantity divided by itself is one; zero divided by anything is zero. */
  lemma QuoSelf(a: int)
    requires a != 0
    ensures Quo(a, a) == 1
    ensures Quo(0, a) == 0
  {}

  /** Go's conversion of a floating-point value to an integer, `int64(x)`:
      the fractional part is dropped, rounding toward zero. */
  function Trunc(x: real): (r: int)
    ensures 0.0 <= x ==> r as real <= x < r as real + 1.0
    ensures x < 0.0 ==> r as real - 1.0 < x <= r as real
  {
    if x >= 0.0 then x.Floor else -((-x).Floor)
  }

  /** `b` raised to a natural power, by repeated multiplication. */
  function Pow(b: real, n: nat): real
  {
    if n == 0 then 1.0 else b * Pow(b, n - 1)
  }

  /** `math.Pow(b, e)` for an integral exponent, on exact reals. A negative
      exponent is the reciprocal of the positive power, which Go evaluates to
      an infinity when `b` is zero; the precondition leaves that case out. */
  function IntPow(b: real, e: int): real
    requires e >= 0 || b != 0.0
  {
    if e >= 0 then Pow(b, e) else PowNonZero(b, -e); 1.0 / Pow(b, -e)
  }

  /** An exponent of one is the identity and an exponent of zero gives one,
      whatever the base, as `math.Pow` promises for `Pow(x, ±0)`. */
  lemma PowSmallExponents(b: real)
    ensures IntPow(b, 0) == 1.0
    ensures IntPow(b, 1) == b
  {}

  lemma {:induction false} PowNonZero(b: real, n: nat)
    requires b != 0.0
    ensures Pow(b, n) != 0.0
  {
    if n > 0 {
      PowNonZero(b, n - 1);
    }
  }

  /** Any base raised to an even power is non-negative. */
  lemma {:induction false} PowEvenNonNegative(b: real, k: nat)
    ensures Pow(b, 2 * k) >= 0.0
  {
    if k > 0 {
      PowEvenNonNegative(b, k - 1);
      var rest := Pow(b, 2 * k - 2);
      assert Pow(b, 2 * k) == b * (b * rest);
      assert b * (b * rest) == (b * b) * rest;
      assert b * b >= 0.0;
    }
  }

  /** A base of at least one never shrinks under a natural power. */
  lemma {:induction false} PowAtLeastOne(b: real, n: nat)
    requires b >= 1.0
    ensures Pow(b, n) >= 1.0
  {
    if n > 0 {
      PowAtLeastOne(b, n - 1);
      assert b * Pow(b, n - 1) >= Pow(b, n - 1);
    }
  }

  /** An even integral power, negative or not, is non-negative. */
  lemma IntPowEvenNonNegative(b: real, k: int)
    requires k >= 0 || b != 0.0
    ensures IntPow(b, 2 * k) >= 0.0
  {
    if k >= 0 {
      PowEvenNonNegative(b, k);
    } else {
      PowEvenNonNegative(b, -k);
      PowNonZero(b, -2 * k);
    }
  }
}
