/** The mapping helpers of the helpers header: a normalised value in [0, 1]
    mapped onto [min, max] on a linear or logarithmic scale, and back. */
module Helpers {
  import opened Libm
  import opened Numeric

  datatype Mapping = Linear | Logarithmic

  /** lo + t (hi - lo): the linear interpolation both scales use. */
  function Span(lo: real, hi: real, t: real): real
  {
    lo + t * (hi - lo)
  }

  lemma SpanWithin(lo: real, hi: real, t: real)
    requires lo <= hi && 0.0 <= t <= 1.0
    ensures lo <= Span(lo, hi, t) <= hi
  {
    var d := hi - lo;
    var p := t * d;
    assert Span(lo, hi, t) == lo + p;
    MulLeqRight(0.0, t, d);
    MulLeqRight(t, 1.0, d);
    assert 0.0 <= p <= d;
  }

  lemma SpanEnds(lo: real, hi: real)
    ensures Span(lo, hi, 0.0) == lo
    ensures Span(lo, hi, 1.0) == hi
  {
  }

  /** (value - min) / range, the linear position of a value. */
  function Position(value: real, min: real, range: real): real
    requires range != 0.0
  {
    (value - min) / range
  }

  /** The linear position undoes the interpolation. */
  lemma PositionOfSpan(min: real, max: real, t: real)
    requires min < max
    ensures Position(Span(min, max, t), min, max - min) == t
  {
    var d := max - min;
    assert Span(min, max, t) - min == t * d;
    DivUnique(t * d, d, t);
  }

  /** Interpolating at the linear position gives the value back. */
  lemma SpanOfPosition(min: real, max: real, v: real)
    requires min < max
    ensures Span(min, max, Position(v, min, max - min)) == v
  {
    var d := max - min;
    var q := Position(v, min, d);
    assert q * d == v - min;
  }

  /** The linear position is in [0, 1] exactly when the value is in [min, max]. */
  lemma PositionWithin(min: real, max: real, v: real)
    requires min < max
    ensures v < min ==> Position(v, min, max - min) < 0.0
    ensures max < v ==> Position(v, min, max - min) > 1.0
    ensures min <= v <= max ==> 0.0 <= Position(v, min, max - min) <= 1.0
  {
    var d := max - min;
    var q := Position(v, min, d);
    assert q * d == v - min;
    if v < min {
      if q >= 0.0 {
        MulNonNeg(q, d);
      }
    } else if max < v {
      if q <= 1.0 {
        MulLeqRight(q, 1.0, d);
      }
    } else {
      if q < 0.0 {
        MulLtRight(q, 0.0, d);
      }
      if q > 1.0 {
        MulLtRight(1.0, q, d);
      }
    }
  }

  /** `denormalize`: t is clamped to [0, 1], then mapped linearly, or on a
      logarithmic scale when both bounds are positive. */
  function Denormalize(mapping: Mapping, t: real, min: real, max: real, m: Math): (r: real)
    ensures mapping == Logarithmic && min > 0.0 && max > 0.0 ==> r > 0.0
    ensures (mapping == Linear || min <= 0.0 || max <= 0.0) && min <= max ==> min <= r <= max
  {
    var u := Clamp(t, 0.0, 1.0);
    match mapping
    case Linear =>
      LinearDenormalized(u, min, max)
    case Logarithmic =>
      if min <= 0.0 || max <= 0.0 then LinearDenormalized(u, min, max)
      else m.exp(Span(m.log(min), m.log(max), u))
  }

  /** The linear branch, on an already clamped t. */
  function LinearDenormalized(u: real, min: real, max: real): (r: real)
    requires 0.0 <= u <= 1.0
    ensures min <= max ==> min <= r <= max
  {
    if min <= max then SpanWithin(min, max, u); Span(min, max, u)
    else Span(min, max, u)
  }

  /** Arguments outside [0, 1] act as the nearest end. */
  lemma DenormalizeClamps(mapping: Mapping, t: real, min: real, max: real, m: Math)
    ensures t < 0.0 ==> Denormalize(mapping, t, min, max, m) == Denormalize(mapping, 0.0, min, max, m)
    ensures t > 1.0 ==> Denormalize(mapping, t, min, max, m) == Denormalize(mapping, 1.0, min, max, m)
    ensures Denormalize(mapping, t, min, max, m) == Denormalize(mapping, Clamp(t, 0.0, 1.0), min, max, m)
  {
  }

  /** The linear scale: min + t (max - min) on the clamped t, from min at 0 to max at 1. */
  lemma LinearDenormalize(t: real, min: real, max: real, m: Math)
    ensures Denormalize(Linear, t, min, max, m) == Span(min, max, Clamp(t, 0.0, 1.0))
    ensures t <= 0.0 ==> Denormalize(Linear, t, min, max, m) == min
    ensures t >= 1.0 ==> Denormalize(Linear, t, min, max, m) == max
  {
    SpanEnds(min, max);
  }

  /** A non-positive bound makes the logarithmic scale the linear one. */
  lemma LogDenormalizeFallback(t: real, min: real, max: real, m: Math)
    requires min <= 0.0 || max <= 0.0
    ensures Denormalize(Logarithmic, t, min, max, m) == Denormalize(Linear, t, min, max, m)
  {
  }

  /** With positive bounds the logarithmic scale is exp of the linear scale of the logs. */
  lemma LogDenormalize(t: real, min: real, max: real, m: Math)
    requires min > 0.0 && max > 0.0
    ensures Denormalize(Logarithmic, t, min, max, m)
      == m.exp(Denormalize(Linear, t, m.log(min), m.log(max), m))
  {
  }

  /** `normalize`: 0 for an empty or inverted range, otherwise the clamped
      linear or logarithmic position of the value. */
  function Normalize(mapping: Mapping, value: real, min: real, max: real, m: Math): (r: real)
    ensures 0.0 <= r <= 1.0
    ensures max - min <= 0.0 ==> r == 0.0
  {
    var range := max - min;
    if range <= 0.0 then 0.0
    else match mapping
      case Linear => Clamp(Position(value, min, range), 0.0, 1.0)
      case Logarithmic =>
        if min <= 0.0 || max <= 0.0 || value <= 0.0 then Clamp(Position(value, min, range), 0.0, 1.0)
        else Clamp(LogPosition(value, min, max, m), 0.0, 1.0)
  }

  /** (log v - log min) / (log max - log min); the denominator is positive
      because log is increasing. */
  function LogPosition(value: real, min: real, max: real, m: Math): real
    requires 0.0 < min < max
  {
    Position(m.log(value), m.log(min), m.log(max) - m.log(min))
  }

  /** A non-positive bound or value makes the logarithmic position the linear one. */
  lemma LogNormalizeFallback(value: real, min: real, max: real, m: Math)
    requires min <= 0.0 || max <= 0.0 || value <= 0.0
    ensures Normalize(Logarithmic, value, min, max, m) == Normalize(Linear, value, min, max, m)
  {
  }

  /** The linear round trip from the normalised side: normalize(denormalize(t)) == t. */
  lemma LinearRoundTrip(t: real, min: real, max: real, m: Math)
    requires min < max && 0.0 <= t <= 1.0
    ensures Normalize(Linear, Denormalize(Linear, t, min, max, m), min, max, m) == t
  {
    PositionOfSpan(min, max, t);
  }

  /** The linear round trip from the value side: denormalize(normalize(v)) is v clamped to [min, max]. */
  lemma LinearInverseRoundTrip(v: real, min: real, max: real, m: Math)
    requires min < max
    ensures Denormalize(Linear, Normalize(Linear, v, min, max, m), min, max, m) == Clamp(v, min, max)
  {
    PositionWithin(min, max, v);
    SpanEnds(min, max);
    if min <= v <= max {
      SpanOfPosition(min, max, v);
    }
  }

  /** On the logarithmic scale the bounds normalise to 0 and 1. */
  lemma LogNormalizeEnds(min: real, max: real, m: Math)
    requires 0.0 < min < max
    ensures Normalize(Logarithmic, min, min, max, m) == 0.0
    ensures Normalize(Logarithmic, max, min, max, m) == 1.0
  {
    var lo := m.log(min);
    var hi := m.log(max);
    assert lo < hi;
    assert Position(lo, lo, hi - lo) == 0.0;
    DivUnique(hi - lo, hi - lo, 1.0);
  }

  /** On the logarithmic scale a larger value never normalises lower. */
  lemma LogNormalizeMonotone(v: real, w: real, min: real, max: real, m: Math)
    requires 0.0 < min < max && 0.0 < v <= w
    ensures Normalize(Logarithmic, v, min, max, m) <= Normalize(Logarithmic, w, min, max, m)
  {
    var lo := m.log(min);
    var d := m.log(max) - lo;
    assert d > 0.0;
    assert m.log(v) <= m.log(w);
    DivMonotone(m.log(v) - lo, m.log(w) - lo, d);
  }

  lemma DivMonotone(a: real, b: real, d: real)
    requires a <= b && d > 0.0
    ensures a / d <= b / d
  {
  }

  /** The logarithmic round trip normalize(denormalize(t)) == t, given that
      log undoes exp at the interpolated exponent. */
  lemma LogRoundTrip(t: real, min: real, max: real, m: Math)
    requires 0.0 < min < max && 0.0 <= t <= 1.0
    requires m.log(m.exp(Span(m.log(min), m.log(max), t))) == Span(m.log(min), m.log(max), t)
    ensures Normalize(Logarithmic, Denormalize(Logarithmic, t, min, max, m), min, max, m) == t
  {
    var lo := m.log(min);
    var hi := m.log(max);
    assert lo < hi;
    PositionOfSpan(lo, hi, t);
  }
}
