/** The `<algorithm>` and `<cmath>` helpers the source uses that are exact on
    real numbers: abs, min/max, clamp, copysign, round, truncation, fmod and
    integer powers of two. */
module Numeric {

  function Abs(x: real): (r: real)
    ensures r >= 0.0 && (r == x || r == -x)
  {
    if x < 0.0 then -x else x
  }

  function Max(a: real, b: real): (r: real)
    ensures r >= a && r >= b && (r == a || r == b)
  {
    if a < b then b else a
  }

  function Min(a: real, b: real): (r: real)
    ensures r <= a && r <= b && (r == a || r == b)
  {
    if b < a then b else a
  }

  /** std::clamp, which demands lo <= hi of its caller. */
  function Clamp(v: real, lo: real, hi: real): (r: real)
    requires lo <= hi
    ensures lo <= r <= hi
    ensures lo <= v <= hi ==> r == v
    ensures v < lo ==> r == lo
    ensures hi < v ==> r == hi
  {
    if v < lo then lo else if hi < v then hi else v
  }

  function ClampInt(v: int, lo: int, hi: int): (r: int)
    requires lo <= hi
    ensures lo <= r <= hi
    ensures lo <= v <= hi ==> r == v
  {
    if v < lo then lo else if hi < v then hi else v
  }

  /** std::copysign: the magnitude of `mag` with the sign of `sgn` (reals have
      no negative zero, so a zero `sgn` counts as positive). */
  function CopySign(mag: real, sgn: real): (r: real)
    ensures Abs(r) == Abs(mag)
    ensures sgn >= 0.0 ==> r >= 0.0
    ensures sgn < 0.0 ==> r <= 0.0
  {
    if sgn < 0.0 then -Abs(mag) else Abs(mag)
  }

  /** std::round: nearest integer, halfway cases away from zero. */
  function Round(x: real): (r: int)
    ensures x - 0.5 <= r as real <= x + 0.5
    // a halfway case goes away from zero
    ensures x >= 0.0 ==> x - 0.5 < r as real
    ensures x < 0.0 ==> r as real < x + 0.5
    ensures x >= 0.0 ==> r >= 0
    ensures x <= 0.0 ==> r <= 0
  {
    if x >= 0.0 then (x + 0.5).Floor else -((-x + 0.5).Floor)
  }

  /** Truncation toward zero, as a C++ floating-to-integer conversion does. */
  function Trunc(x: real): (r: int)
    ensures x >= 0.0 ==> 0 <= r && r as real <= x < r as real + 1.0
    ensures x < 0.0 ==> r <= 0 && r as real - 1.0 < x <= r as real
  {
    if x >= 0.0 then x.Floor else -((-x).Floor)
  }

  /** std::fmod: x - n*y where n is x/y truncated toward zero.  The result
      differs from x by a whole multiple of y; for a non-negative dividend and
      a positive divisor it lies in [0, y), which fixes its value. */
  function Fmod(x: real, y: real): (r: real)
    requires y != 0.0
    ensures ((x - r) / y).Floor as real == (x - r) / y
    ensures x >= 0.0 && y > 0.0 ==> 0.0 <= r < y
  {
    var n := Trunc(x / y);
    FmodBounds(x, y, n);
    x - n as real * y
  }

  lemma FmodBounds(x: real, y: real, n: int)
    requires y != 0.0 && n == Trunc(x / y)
    ensures ((n as real * y) / y).Floor == n
    ensures x >= 0.0 && y > 0.0 ==> 0.0 <= x - n as real * y < y
  {
    DivUnique(n as real * y, y, n as real);
    if x >= 0.0 && y > 0.0 {
      QuotientBounds(x, y, n as real);
    }
  }

  lemma QuotientBounds(x: real, y: real, nr: real)
    requires x >= 0.0 && y > 0.0
    requires nr <= x / y < nr + 1.0
    ensures 0.0 <= x - nr * y < y
  {
    var q := x / y;
    var b := nr + 1.0;
    assert q * y == x;
    MulLeqRight(nr, q, y);
    MulLtRight(q, b, y);
    assert x < b * y;
  }

  /** Adding one period to a non-negative dividend leaves the remainder unchanged. */
  lemma FmodShift(a: real, p: real)
    requires a >= 0.0 && p > 0.0
    ensures Fmod(a + p, p) == Fmod(a, p)
  {
    var q := a / p;
    assert q * p == a;
    DivUnique(a + p, p, q + 1.0);
    assert Trunc((a + p) / p) == Trunc(q) + 1;
  }

  lemma MulLtRight(a: real, b: real, c: real)
    requires a < b && c > 0.0
    ensures a * c < b * c
  {
  }

  lemma MulLeqRight(a: real, b: real, c: real)
    requires a <= b && c >= 0.0
    ensures a * c <= b * c
  {
  }

  lemma MulNonNeg(a: real, b: real)
    requires a >= 0.0 && b >= 0.0
    ensures a * b >= 0.0
  {
  }

  /** A positive factor can be cancelled from a strict inequality. */
  lemma CancelPositive(a: real, b: real, c: real)
    requires c > 0.0 && a * c < b * c
    ensures a < b
  {
    if a >= b {
      MulLeqRight(b, a, c);
    }
  }

  lemma AbsMul(a: real, b: real)
    requires b >= 0.0
    ensures Abs(a * b) == Abs(a) * b
  {
    if a < 0.0 {
      assert a * b == -((-a) * b);
      MulNonNeg(-a, b);
    } else {
      MulNonNeg(a, b);
    }
  }

  /** The quotient is the only number that multiplies back to the dividend. */
  lemma DivUnique(n: real, d: real, q: real)
    requires d != 0.0 && q * d == n
    ensures n / d == q
  {
    assert (n / d) * d == n;
    assert (n / d - q) * d == 0.0;
  }

  lemma DivTimes(n: real, d: real)
    requires d != 0.0
    ensures (n / d) * d == n
  {
  }

  lemma NegDiv(n: real, d: real)
    requires d != 0.0
    ensures (-n) / d == -(n / d)
  {
    assert (n / d) * d == n;
    assert (-(n / d)) * d == -n;
    DivUnique(-n, d, -(n / d));
  }

  lemma AbsQuotient(a: real, b: real)
    requires b > 0.0
    ensures Abs(a / b) * b == Abs(a)
  {
    assert (a / b) * b == a;
    if a < 0.0 {
      assert a / b < 0.0;
    } else {
      assert a / b >= 0.0;
    }
  }

  lemma QuotientAtMostOne(a: real, b: real)
    requires b > 0.0 && Abs(a) <= b
    ensures Abs(a / b) <= 1.0
    ensures a == b ==> a / b == 1.0
  {
    AbsQuotient(a, b);
    var q := Abs(a / b);
    if q > 1.0 {
      MulLtRight(1.0, q, b);
      assert false;
    }
    if a == b {
      DivUnique(a, b, 1.0);
    }
  }

  /** x^3, which `std::pow(x, 3.0)` computes. */
  function Cube(x: real): real
  {
    x * x * x
  }

  lemma CubeOdd(x: real)
    ensures Cube(-x) == -Cube(x)
  {
    assert (-x) * (-x) == x * x;
    assert (x * x) * (-x) == -((x * x) * x);
  }

  lemma CubePositive(x: real)
    requires x > 0.0
    ensures Cube(x) > 0.0
  {
  }

  /** The cube keeps the sign of its argument and |x|^3 = |x^3|. */
  lemma CubeSign(x: real)
    ensures x > 0.0 ==> Cube(x) > 0.0
    ensures x < 0.0 ==> Cube(x) < 0.0
    ensures x == 0.0 ==> Cube(x) == 0.0
    ensures Cube(Abs(x)) == Abs(Cube(x))
  {
    if x > 0.0 {
      CubePositive(x);
    } else if x < 0.0 {
      CubePositive(-x);
      CubeOdd(x);
    }
  }

  /** The cube is non-decreasing on the non-negative reals. */
  lemma CubeMonotoneNonNeg(x: real, y: real)
    requires 0.0 <= x <= y
    ensures Cube(x) <= Cube(y)
  {
    MulLeqRight(x, y, x);
    MulLeqRight(x, y, y);
    MulNonNeg(x, x);
    MulLeqRight(x * x, y * y, x);
    MulNonNeg(y, y);
    MulLeqRight(x, y, y * y);
    assert y * y * x == x * (y * y);
    assert x * (y * y) <= y * (y * y);
    assert y * (y * y) == y * y * y;
  }

  /** The cube is non-decreasing. */
  lemma CubeMonotone(x: real, y: real)
    requires x <= y
    ensures Cube(x) <= Cube(y)
  {
    if 0.0 <= x {
      CubeMonotoneNonNeg(x, y);
    } else if y <= 0.0 {
      CubeMonotoneNonNeg(-y, -x);
      CubeOdd(x);
      CubeOdd(y);
    } else {
      CubeSign(x);
      CubeSign(y);
    }
  }

  /** On [-1, 1] the cube stays in [-1, 1]. */
  lemma CubeUnit(x: real)
    requires -1.0 <= x <= 1.0
    ensures -1.0 <= Cube(x) <= 1.0
  {
    CubeMonotone(x, 1.0);
    CubeMonotone(-1.0, x);
    assert Cube(1.0) == 1.0;
    assert Cube(-1.0) == -1.0;
  }

  function Pow2(n: nat): (r: int)
    ensures r >= 1
  {
    if n == 0 then 1 else 2 * Pow2(n - 1)
  }

  /** Rounding a value that lies in [-n, n] stays in [-n, n]. */
  lemma RoundWithin(v: real, n: int)
    requires -(n as real) <= v <= n as real
    ensures -n <= Round(v) <= n
  {
    if v >= 0.0 {
      assert (v + 0.5).Floor as real <= v + 0.5 < n as real + 1.0;
    } else {
      assert (-v + 0.5).Floor as real <= -v + 0.5 < n as real + 1.0;
    }
  }
}
