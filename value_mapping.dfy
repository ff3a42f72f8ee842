/** A parameter's value mapping: a scale type and a [min, max] range, with
    normalisation into [0, 1] and back.  The linear and logarithmic scales are
    the ones of the helpers header; the bipolar S-curve shapes the
    normalised position by an odd cube so that the middle of the range has
    the finest resolution. */
module Mappings {
  import opened Libm
  import opened Numeric
  import Helpers

  datatype MappingType = Linear | Logarithmic | BipolarSCurve

  /** The stored range of the source is always max - min, so it is computed. */
  datatype ValueMapping = ValueMapping(mappingType: MappingType, min: real, max: real)
  {
    function Range(): real
    {
      max - min
    }

    function Mid(): real
    {
      0.5 * (min + max)
    }

    function Half(): real
    {
      0.5 * (max - min)
    }
  }

  /** A default-constructed mapping: linear over [0, 1]. */
  const DefaultMapping: ValueMapping := ValueMapping(Linear, 0.0, 1.0)

  /** mid + s half: a point of [-1, 1] placed on the range. */
  function Around(mid: real, half: real, s: real): real
  {
    mid + s * half
  }

  /** copysign(|s|^3, s), the odd-power shaping of the S-curve. */
  function SignedCube(s: real): real
  {
    CopySign(Cube(Abs(s)), s)
  }

  /** `normalize`. */
  function Normalize(vm: ValueMapping, value: real, m: Math): (r: real)
    ensures 0.0 <= r <= 1.0
    ensures vm.Range() <= 0.0 ==> r == 0.0
  {
    if vm.Range() <= 0.0 then 0.0
    else match vm.mappingType
      case Linear => Helpers.Normalize(Helpers.Linear, value, vm.min, vm.max, m)
      case Logarithmic => Helpers.Normalize(Helpers.Logarithmic, value, vm.min, vm.max, m)
      case BipolarSCurve =>
        var half := vm.Half();
        if half <= 0.0 then 0.0
        else
          var shaped := Shaped(vm, value);
          var s := CopySign(m.pow(Abs(shaped), 1.0 / 3.0), shaped);
          Clamp(0.5 * (s + 1.0), 0.0, 1.0)
  }

  /** The value's position relative to the midpoint, in half-ranges, clamped to [-1, 1]. */
  function Shaped(vm: ValueMapping, value: real): (r: real)
    requires vm.Half() > 0.0
    ensures -1.0 <= r <= 1.0
  {
    Clamp(Helpers.Position(value, vm.Mid(), vm.Half()), -1.0, 1.0)
  }

  /** `denormalize`: the argument is clamped to [0, 1] first. */
  function Denormalize(vm: ValueMapping, t: real, m: Math): (r: real)
    ensures vm.mappingType == Linear && vm.min <= vm.max ==> vm.min <= r <= vm.max
    ensures vm.mappingType == Logarithmic && vm.min > 0.0 && vm.max > 0.0 ==> r > 0.0
  {
    var u := Clamp(t, 0.0, 1.0);
    match vm.mappingType
    case Linear => Helpers.Denormalize(Helpers.Linear, u, vm.min, vm.max, m)
    case Logarithmic => Helpers.Denormalize(Helpers.Logarithmic, u, vm.min, vm.max, m)
    case BipolarSCurve => Around(vm.Mid(), vm.Half(), SignedCube(2.0 * u - 1.0))
  }

  /** The signed cube is the cube itself. */
  lemma SignedCubeIsCube(s: real)
    ensures SignedCube(s) == Cube(s)
  {
    CubeSign(s);
  }

  lemma AroundMonotone(mid: real, half: real, a: real, b: real)
    requires half >= 0.0 && a <= b
    ensures Around(mid, half, a) <= Around(mid, half, b)
  {
    MulLeqRight(a, b, half);
  }

  /** The position of mid + s half relative to mid, in units of half, is s. */
  lemma AroundPosition(mid: real, half: real, s: real)
    requires half > 0.0
    ensures Helpers.Position(Around(mid, half, s), mid, half) == s
  {
    assert Around(mid, half, s) - mid == s * half;
    DivUnique(s * half, half, s);
  }

  /** The position relative to mid times half, added back to mid, is the value. */
  lemma PositionAround(mid: real, half: real, v: real)
    requires half > 0.0
    ensures Around(mid, half, Helpers.Position(v, mid, half)) == v
  {
    var q := Helpers.Position(v, mid, half);
    assert q * half == v - mid;
  }

  /** The ends and the middle of the range, placed by the S-curve. */
  lemma AroundEnds(vm: ValueMapping)
    ensures Around(vm.Mid(), vm.Half(), -1.0) == vm.min
    ensures Around(vm.Mid(), vm.Half(), 0.0) == vm.Mid()
    ensures Around(vm.Mid(), vm.Half(), 1.0) == vm.max
  {
  }

  /** The S-curve sends 0 (and below) to min, 0.5 to the midpoint and 1 (and above) to max. */
  lemma SCurveDenormalizeEnds(vm: ValueMapping, m: Math)
    requires vm.mappingType == BipolarSCurve
    ensures Denormalize(vm, 0.0, m) == vm.min
    ensures Denormalize(vm, 0.5, m) == vm.Mid()
    ensures Denormalize(vm, 1.0, m) == vm.max
  {
    SCurveAtZero(vm, m);
    SCurveAtHalf(vm, m);
    SCurveAtOne(vm, m);
  }

  lemma SCurveAtZero(vm: ValueMapping, m: Math)
    requires vm.mappingType == BipolarSCurve
    ensures Denormalize(vm, 0.0, m) == vm.min
  {
    assert SignedCube(-1.0) == -1.0 by { assert Cube(1.0) == 1.0; }
    SCurveAt(vm, 0.0, m);
    AroundEnds(vm);
  }

  lemma SCurveAtHalf(vm: ValueMapping, m: Math)
    requires vm.mappingType == BipolarSCurve
    ensures Denormalize(vm, 0.5, m) == vm.Mid()
  {
    assert SignedCube(0.0) == 0.0 by { assert Cube(0.0) == 0.0; }
    SCurveAt(vm, 0.5, m);
    AroundEnds(vm);
  }

  lemma SCurveAtOne(vm: ValueMapping, m: Math)
    requires vm.mappingType == BipolarSCurve
    ensures Denormalize(vm, 1.0, m) == vm.max
  {
    assert SignedCube(1.0) == 1.0 by { assert Cube(1.0) == 1.0; }
    SCurveAt(vm, 1.0, m);
    AroundEnds(vm);
  }

  /** On [0, 1] the S-curve places the signed cube of the offset 2 t - 1. */
  lemma SCurveAt(vm: ValueMapping, t: real, m: Math)
    requires vm.mappingType == BipolarSCurve && 0.0 <= t <= 1.0
    ensures Denormalize(vm, t, m) == Around(vm.Mid(), vm.Half(), SignedCube(2.0 * t - 1.0))
  {
    assert Clamp(t, 0.0, 1.0) == t;
  }

  /** The S-curve is non-decreasing on an ordered range. */
  lemma SCurveDenormalizeMonotone(vm: ValueMapping, t1: real, t2: real, m: Math)
    requires vm.mappingType == BipolarSCurve && vm.min <= vm.max && t1 <= t2
    ensures Denormalize(vm, t1, m) <= Denormalize(vm, t2, m)
  {
    var s1 := 2.0 * Clamp(t1, 0.0, 1.0) - 1.0;
    var s2 := 2.0 * Clamp(t2, 0.0, 1.0) - 1.0;
    SignedCubeIsCube(s1);
    SignedCubeIsCube(s2);
    CubeMonotone(s1, s2);
    AroundMonotone(vm.Mid(), vm.Half(), Cube(s1), Cube(s2));
  }

  /** The S-curve stays within an ordered range. */
  lemma SCurveDenormalizeRange(vm: ValueMapping, t: real, m: Math)
    requires vm.mappingType == BipolarSCurve && vm.min <= vm.max
    ensures vm.min <= Denormalize(vm, t, m) <= vm.max
  {
    var s := 2.0 * Clamp(t, 0.0, 1.0) - 1.0;
    SignedCubeIsCube(s);
    CubeUnit(s);
    AroundMonotone(vm.Mid(), vm.Half(), -1.0, Cube(s));
    AroundMonotone(vm.Mid(), vm.Half(), Cube(s), 1.0);
    AroundEnds(vm);
  }

  /** The S-curve's normalisation sends the midpoint to 0.5, given that the
      library's cube root of 0 is 0. */
  lemma SCurveNormalizeMid(vm: ValueMapping, m: Math)
    requires vm.mappingType == BipolarSCurve && vm.min < vm.max
    requires m.pow(0.0, 1.0 / 3.0) == 0.0
    ensures Normalize(vm, vm.Mid(), m) == 0.5
  {
    assert Helpers.Position(vm.Mid(), vm.Mid(), vm.Half()) == 0.0;
  }

  /** The S-curve round trip normalize(denormalize(t)) == t for t in [0, 1]
      on a non-empty range, given that the library's cube root undoes the
      cube at |2t - 1|^3. */
  lemma SCurveRoundTrip(vm: ValueMapping, t: real, m: Math)
    requires vm.mappingType == BipolarSCurve && vm.min < vm.max && 0.0 <= t <= 1.0
    requires m.pow(Cube(Abs(2.0 * t - 1.0)), 1.0 / 3.0) == Abs(2.0 * t - 1.0)
    ensures Normalize(vm, Denormalize(vm, t, m), m) == t
  {
    var s := 2.0 * t - 1.0;
    var c := Cube(s);
    SignedCubeIsCube(s);
    CubeUnit(s);
    CubeSign(s);
    AroundPosition(vm.Mid(), vm.Half(), c);
    assert Clamp(c, -1.0, 1.0) == c;
    assert Abs(c) == Cube(Abs(s));
    assert CopySign(Abs(s), c) == s;
  }

  /** The S-curve inverse round trip denormalize(normalize(v)) is v clamped
      to the range, given that the library's cube root of |shaped position|
      is a non-negative number whose cube is that magnitude. */
  lemma SCurveInverseRoundTrip(vm: ValueMapping, v: real, m: Math)
    requires vm.mappingType == BipolarSCurve && vm.min < vm.max
    requires m.pow(Abs(Shaped(vm, v)), 1.0 / 3.0) >= 0.0
    requires Cube(m.pow(Abs(Shaped(vm, v)), 1.0 / 3.0)) == Abs(Shaped(vm, v))
    ensures Denormalize(vm, Normalize(vm, v, m), m) == Clamp(v, vm.min, vm.max)
  {
    var mid := vm.Mid();
    var half := vm.Half();
    var shaped := Shaped(vm, v);
    var root := m.pow(Abs(shaped), 1.0 / 3.0);
    assert Cube(root) == Abs(shaped);
    var s := CopySign(root, shaped);
    CubeUnitRoot(root);
    assert -1.0 <= s <= 1.0;
    var u := 0.5 * (s + 1.0);
    assert Normalize(vm, v, m) == u;
    assert 2.0 * u - 1.0 == s;
    SignedCubeIsCube(s);
    SignedRootCube(root, shaped);
    assert Cube(s) == shaped;
    assert Denormalize(vm, u, m) == Around(mid, half, shaped);
    ClampAround(vm, v);
  }

  /** A non-negative number whose cube is at most 1 is at most 1. */
  lemma CubeUnitRoot(r: real)
    requires r >= 0.0 && Cube(r) <= 1.0
    ensures r <= 1.0
  {
  }

  /** copysign(r, x) cubed is x when r is a non-negative cube root of |x|. */
  lemma SignedRootCube(r: real, x: real)
    requires r >= 0.0 && Cube(r) == Abs(x)
    ensures Cube(CopySign(r, x)) == x
  {
    if x < 0.0 {
      CubeOdd(r);
    }
  }

  /** Placing the clamped position back on the range clamps the value. */
  lemma ClampAround(vm: ValueMapping, v: real)
    requires vm.min < vm.max
    ensures Around(vm.Mid(), vm.Half(), Shaped(vm, v)) == Clamp(v, vm.min, vm.max)
  {
    var mid := vm.Mid();
    var half := vm.Half();
    var q := Helpers.Position(v, mid, half);
    AroundEnds(vm);
    PositionAround(mid, half, v);
    if q < -1.0 {
      AroundMonotone(mid, half, q, -1.0);
    } else if q > 1.0 {
      AroundMonotone(mid, half, 1.0, q);
    } else {
      AroundMonotone(mid, half, -1.0, q);
      AroundMonotone(mid, half, q, 1.0);
    }
  }

  /** The linear round trips of the helpers header carry over. */
  lemma LinearRoundTrips(vm: ValueMapping, t: real, v: real, m: Math)
    requires vm.mappingType == Linear && vm.min < vm.max
    ensures 0.0 <= t <= 1.0 ==> Normalize(vm, Denormalize(vm, t, m), m) == t
    ensures Denormalize(vm, Normalize(vm, v, m), m) == Clamp(v, vm.min, vm.max)
  {
    if 0.0 <= t <= 1.0 {
      Helpers.LinearRoundTrip(t, vm.min, vm.max, m);
    }
    Helpers.LinearInverseRoundTrip(v, vm.min, vm.max, m);
    Helpers.DenormalizeClamps(Helpers.Linear, Normalize(vm, v, m), vm.min, vm.max, m);
  }

  /** The linear scale: clamp first, then min + t (max - min). */
  lemma LinearDenormalize(vm: ValueMapping, t: real, m: Math)
    requires vm.mappingType == Linear
    ensures Denormalize(vm, t, m) == Helpers.Span(vm.min, vm.max, Clamp(t, 0.0, 1.0))
  {
    Helpers.LinearDenormalize(Clamp(t, 0.0, 1.0), vm.min, vm.max, m);
  }

  /** The logarithmic scale reduces to the linear one on a non-positive bound
      (and, when normalising, on a non-positive value). */
  lemma LogFallback(vm: ValueMapping, t: real, v: real, m: Math)
    requires vm.mappingType == Logarithmic
    ensures vm.min <= 0.0 || vm.max <= 0.0 ==>
      Denormalize(vm, t, m) == Denormalize(vm.(mappingType := Linear), t, m)
    ensures vm.min <= 0.0 || vm.max <= 0.0 || v <= 0.0 ==>
      Normalize(vm, v, m) == Normalize(vm.(mappingType := Linear), v, m)
  {
  }

  /** A default mapping normalises by clamping to [0, 1]. */
  lemma DefaultIsUnitClamp(v: real, m: Math)
    ensures Normalize(DefaultMapping, v, m) == Clamp(v, 0.0, 1.0)
    ensures Denormalize(DefaultMapping, v, m) == Clamp(v, 0.0, 1.0)
  {
    assert Helpers.Position(v, 0.0, 1.0) == v;
  }
}
