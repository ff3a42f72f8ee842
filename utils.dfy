/** The numeric helpers of the utilities header: the tolerance comparison
    used by the engine's bypass test and by the smoother, and the decibel
    conversions. */
module Utils {
  import opened Libm
  import opened Numeric

  /** std::numbers::pi_v<float>, the value the current biquad uses. */
  const KPi: real := 3.1415927410125732421875
  const KTwoPi: real := 2.0 * KPi
  /** std::numbers::pi_v<double>, the value the older biquad uses. */
  const KPi64: real := 3.141592653589793115997963468544185161590576171875
  const KTwoPi64: real := 2.0 * KPi64

  const Epsilon: real := 1e-12
  /** Floor applied to a linear gain before taking its logarithm. */
  const MinLinear: real := 1e-10

  /** |a - b| < 1e-12, with a strict comparison. */
  predicate AlmostEqual(a: real, b: real): (r: bool)
    ensures r <==> -Epsilon < a - b < Epsilon
  {
    Abs(a - b) < Epsilon
  }

  lemma AlmostEqualReflexive(a: real)
    ensures AlmostEqual(a, a)
  {
  }

  lemma AlmostEqualSymmetric(a: real, b: real)
    ensures AlmostEqual(a, b) <==> AlmostEqual(b, a)
  {
  }

  /** The comparison is strict: a difference of exactly the tolerance is not "almost equal". */
  lemma AlmostEqualStrict(a: real, b: real)
    requires Abs(a - b) >= Epsilon
    ensures !AlmostEqual(a, b)
  {
  }

  function DbToLinear(dB: real, m: Math): (r: real)
    ensures r > 0.0
  {
    m.pow(10.0, dB / 20.0)
  }

  function LinearToDB(linear: real, m: Math): (r: real)
    ensures linear <= MinLinear ==> r == 20.0 * m.log10(MinLinear)
    ensures linear >= MinLinear ==> r == 20.0 * m.log10(linear)
  {
    20.0 * m.log10(Max(linear, MinLinear))
  }

  /** Every gain at or below the floor maps to the same level. */
  lemma LinearToDBFloor(a: real, b: real, m: Math)
    requires a <= MinLinear && b <= MinLinear
    ensures LinearToDB(a, m) == LinearToDB(b, m)
  {
  }

  /** Converting a level to a gain and back gives the level, as long as the gain
      stays above the floor and log10 undoes pow(10, .). */
  lemma DbRoundTrip(dB: real, m: Math)
    requires forall e :: m.log10(m.pow(10.0, e)) == e
    requires DbToLinear(dB, m) >= MinLinear
    ensures LinearToDB(DbToLinear(dB, m), m) == dB
  {
    assert m.log10(m.pow(10.0, dB / 20.0)) == dB / 20.0;
  }

  /** Converting a gain above the floor to a level and back gives the gain,
      when pow(10, .) undoes log10 on the positives. */
  lemma GainRoundTrip(linear: real, m: Math)
    requires forall x :: x > 0.0 ==> m.pow(10.0, m.log10(x)) == x
    requires linear >= MinLinear
    ensures DbToLinear(LinearToDB(linear, m), m) == linear
  {
    assert (20.0 * m.log10(linear)) / 20.0 == m.log10(linear);
  }

  /** Every gain at or below the floor converts to the level of the floor. */
  lemma FloorRoundTrip(linear: real, m: Math)
    requires forall x :: x > 0.0 ==> m.pow(10.0, m.log10(x)) == x
    requires linear <= MinLinear
    ensures DbToLinear(LinearToDB(linear, m), m) == MinLinear
  {
    assert (20.0 * m.log10(MinLinear)) / 20.0 == m.log10(MinLinear);
  }
}
