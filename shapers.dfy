/** The engine's eight waveshapers.  Each is a function of the input sample
    and of the current (smoothed) drive and asymmetry; the bitcrusher also
    reads and advances a phase counter and a held sample, which the model
    passes in and returns. */
module Shapers {
  import opened Libm
  import opened Numeric
  import opened Utils

  /** The distortion selector, in declaration order. */
  datatype DistortionType =
    | CubicSaturation
    | TubeSaturation
    | AsymmetricClip
    | Foldback
    | Bitcrusher
    | WaveShaper
    | TubeScreamer
    | FuzzFace

  const TypeCount: nat := 8

  const Types: seq<DistortionType> :=
    [CubicSaturation, TubeSaturation, AsymmetricClip, Foldback, Bitcrusher, WaveShaper, TubeScreamer, FuzzFace]

  /** The enumerator's underlying value. */
  function TypeIndex(t: DistortionType): (i: nat)
    ensures i < TypeCount && Types[i] == t
  {
    match t
    case CubicSaturation => 0
    case TubeSaturation => 1
    case AsymmetricClip => 2
    case Foldback => 3
    case Bitcrusher => 4
    case WaveShaper => 5
    case TubeScreamer => 6
    case FuzzFace => 7
  }

  /** static_cast from an underlying value back to the enumerator. */
  function FromIndex(i: nat): (t: DistortionType)
    requires i < TypeCount
    ensures TypeIndex(t) == i
  {
    Types[i]
  }

  /** The two conversions are inverse: the eight values are distinct and in order. */
  lemma IndexRoundTrip(t: DistortionType, i: nat)
    requires i < TypeCount
    ensures FromIndex(TypeIndex(t)) == t
    ensures TypeIndex(FromIndex(i)) == i
  {
  }

  // ---------------------------------------------------------------- cubic

  /** x (1 + asym x) inside |x| < 2/3 and sign(x) (1 - (2 - 3|x|)^2 / 3)
      outside it, where x = input * drive. */
  function Cubic(input: real, drive: real, asym: real): (r: real)
    ensures input * drive == 0.0 ==> r == 0.0
    // the outer branch never exceeds 1 in the direction of x
    ensures input * drive >= 2.0 / 3.0 ==> r <= 1.0
    ensures input * drive <= -2.0 / 3.0 ==> r >= -1.0
  {
    var x := input * drive;
    if Abs(x) < 2.0 / 3.0 then x * (1.0 + asym * x)
    else
      var sign := if x > 0.0 then 1.0 else -1.0;
      var d := 2.0 - 3.0 * Abs(x);
      sign * (1.0 - d * d / 3.0)
  }

  /** Without asymmetry the cubic shaper is odd. */
  lemma CubicOdd(input: real, drive: real)
    ensures Cubic(-input, drive, 0.0) == -Cubic(input, drive, 0.0)
  {
    assert (-input) * drive == -(input * drive);
  }

  /** Inside the inner band the asymmetry adds exactly an even part 2 asym x^2. */
  lemma CubicEvenPart(input: real, drive: real, asym: real)
    requires Abs(input * drive) < 2.0 / 3.0
    ensures Cubic(input, drive, asym) + Cubic(-input, drive, asym)
         == 2.0 * asym * (input * drive) * (input * drive)
  {
    var x := input * drive;
    assert (-input) * drive == -x;
    assert x * (1.0 + asym * x) + (-x) * (1.0 + asym * (-x)) == 2.0 * asym * x * x;
  }

  /** The two branches do not meet: at unit drive and no asymmetry the inner
      branch is the identity up to 2/3, and the outer branch starts at 1. */
  lemma CubicJump(x: real)
    requires 0.0 <= x < 2.0 / 3.0
    ensures Cubic(x, 1.0, 0.0) == x
    ensures Cubic(2.0 / 3.0, 1.0, 0.0) == 1.0
  {
  }

  /** The outer branch is not a saturation: a positive input of 2 comes out as -13/3. */
  lemma CubicOuterBranchTurns(asym: real)
    ensures Cubic(2.0, 1.0, asym) == -13.0 / 3.0
  {
  }

  // ---------------------------------------------------------------- tube

  /** The tanh gain, 0.7 (1 + asym), never below 1e-6. */
  function TubeGain(asym: real): (g: real)
    ensures g >= 1e-6 && g >= 0.7 * (1.0 + asym)
  {
    Max(1e-6, 0.7 * (1.0 + asym))
  }

  /** tanh(g x) / tanh(g) when tanh(g) is positive, tanh(g x) otherwise. */
  function Tube(input: real, drive: real, asym: real, m: Math): (r: real)
    ensures m.tanh(0.0) == 0.0 && input * drive == 0.0 ==> r == 0.0
    // the normalisation divides by tanh(g) whenever that is positive
    ensures m.tanh(TubeGain(asym)) > 0.0 ==>
      r * m.tanh(TubeGain(asym)) == m.tanh(TubeGain(asym) * (input * drive))
  {
    var g := TubeGain(asym);
    var x := input * drive;
    var y := m.tanh(g * x);
    var norm := m.tanh(g);
    if norm > 0.0 then
      var q := y / norm;
      assert q * norm == y by { DivTimes(y, norm); }
      Congruent(m.tanh, g, TubeGain(asym));
      Congruent(m.tanh, g * x, TubeGain(asym) * (input * drive));
      q
    else y
  }

  /** With an odd tanh the tube shaper is odd, whatever the asymmetry (which
      only changes the gain). */
  lemma TubeOdd(input: real, drive: real, asym: real, m: Math)
    requires forall v :: m.tanh(-v) == -m.tanh(v)
    ensures Tube(-input, drive, asym, m) == -Tube(input, drive, asym, m)
  {
    var g := TubeGain(asym);
    assert g * ((-input) * drive) == -(g * (input * drive));
  }

  /** The normalisation maps x = 1 to exactly 1, so changing the gain does not change the level there. */
  lemma TubeUnitPoint(input: real, drive: real, asym: real, m: Math)
    requires input * drive == 1.0 && m.tanh(TubeGain(asym)) > 0.0
    ensures Tube(input, drive, asym, m) == 1.0
  {
    assert Tube(input, drive, asym, m) == m.tanh(TubeGain(asym) * (input * drive)) / m.tanh(TubeGain(asym));
    Congruent(m.tanh, TubeGain(asym) * (input * drive), TubeGain(asym));
    DivUnique(m.tanh(TubeGain(asym)), m.tanh(TubeGain(asym)), 1.0);
  }

  // ---------------------------------------------------------------- asymmetric clip

  function PosThreshold(asym: real): real { 0.7 + asym * 0.3 }
  function NegThreshold(asym: real): real { -0.7 - asym * 0.3 }

  /** The identity between the thresholds, slope 0.1 beyond them. */
  function Clip(input: real, drive: real, asym: real): (r: real)
    ensures asym >= -7.0 / 3.0 && input * drive == 0.0 ==> r == 0.0
    // past the positive threshold the output is pulled back toward it
    ensures input * drive > PosThreshold(asym) ==> PosThreshold(asym) < r < input * drive
  {
    var x := input * drive;
    var pos := PosThreshold(asym);
    var neg := NegThreshold(asym);
    if x > pos then pos + (x - pos) * 0.1
    else if x < neg then neg + (x - neg) * 0.1
    else x
  }

  /** Between the thresholds the clip passes x through. */
  lemma ClipIdentityBand(input: real, drive: real, asym: real)
    requires NegThreshold(asym) <= input * drive <= PosThreshold(asym)
    ensures Clip(input, drive, asym) == input * drive
  {
  }

  /** Beyond a threshold the output moves a tenth as fast as x. */
  lemma ClipSlope(a: real, b: real, asym: real)
    requires PosThreshold(asym) < a && PosThreshold(asym) < b
    ensures Clip(b, 1.0, asym) - Clip(a, 1.0, asym) == 0.1 * (b - a)
  {
  }

  /** The clip is continuous: as long as the thresholds are ordered
      (asym >= -7/3) it never moves further than x does. */
  lemma ClipContinuous(a: real, b: real, asym: real)
    requires asym >= -7.0 / 3.0
    ensures Abs(Clip(b, 1.0, asym) - Clip(a, 1.0, asym)) <= Abs(b - a)
  {
  }

  /** The thresholds are mirror images, so the clip is odd while they are ordered. */
  lemma ClipOdd(input: real, drive: real, asym: real)
    requires asym >= -7.0 / 3.0
    ensures Clip(-input, drive, asym) == -Clip(input, drive, asym)
  {
    assert (-input) * drive == -(input * drive);
  }

  /** Past asym = -7/3 the thresholds cross and oddness fails. */
  lemma ClipNotOddWhenThresholdsCross()
    ensures Clip(-0.1, 1.0, -10.0 / 3.0) != -Clip(0.1, 1.0, -10.0 / 3.0)
  {
    assert Clip(0.1, 1.0, -10.0 / 3.0) == -0.26;
    assert Clip(-0.1, 1.0, -10.0 / 3.0) == -0.28;
  }

  // ---------------------------------------------------------------- foldback

  const FoldThreshold: real := 1.0
  const FoldScale: real := 0.7

  /** |x| folded into [0, 1] by reflection, given the sign of x, scaled by 0.7. */
  function Fold(input: real, drive: real): (r: real)
    ensures input * drive == 0.0 ==> r == 0.0
  {
    var x := input * drive;
    var ax := Abs(x);
    var y0 := Fmod(ax, 2.0 * FoldThreshold);
    var y := if y0 > FoldThreshold then 2.0 * FoldThreshold - y0 else y0;
    CopySign(y, x) * FoldScale
  }

  /** The folded output never exceeds 0.7 in magnitude and keeps the sign of x. */
  lemma FoldBounds(input: real, drive: real)
    ensures Abs(Fold(input, drive)) <= FoldScale
    ensures input * drive >= 0.0 ==> Fold(input, drive) >= 0.0
    ensures input * drive < 0.0 ==> Fold(input, drive) <= 0.0
  {
  }

  /** Up to the threshold nothing folds: the output is 0.7 x. */
  lemma FoldLinearBelowThreshold(input: real, drive: real)
    requires Abs(input * drive) <= FoldThreshold
    ensures Fold(input, drive) == FoldScale * (input * drive)
  {
    var ax := Abs(input * drive);
    assert Trunc(ax / 2.0) == 0;
  }

  /** Drive 2 and input 0.8: x = 1.6 folds back to 0.4, which scales to 0.28. */
  lemma FoldExample()
    ensures Fold(0.8, 2.0) == 0.28
  {
    assert Trunc(1.6 / 2.0) == 0;
    assert Fmod(1.6, 2.0) == 1.6;
  }

  /** The fold is periodic in |x| with period 2. */
  lemma FoldPeriodic(input: real, drive: real)
    requires drive > 0.0 && input >= 0.0
    ensures Fold(input + 2.0 / drive, drive) == Fold(input, drive)
  {
    var x := input * drive;
    assert (input + 2.0 / drive) * drive == x + 2.0;
    FmodShift(x, 2.0);
  }

  // ---------------------------------------------------------------- waveshaper

  /** The sigmoid x (1 + k) / (1 + k |x|), for a gain k >= 0. */
  function Sigmoid(x: real, k: real): real
    requires k >= 0.0
  {
    MulNonNeg(k, Abs(x));
    x * (1.0 + k) / (1.0 + k * Abs(x))
  }

  /** The waveshaper is the sigmoid at x = input drive with gain k = 2 drive. */
  function WaveShape(input: real, drive: real): (r: real)
    requires drive >= 0.0
    ensures input * drive == 0.0 ==> r == 0.0
    // the output keeps the sign of the input
    ensures input >= 0.0 ==> r >= 0.0
    ensures input <= 0.0 ==> r <= 0.0
  {
    Sigmoid(input * drive, 2.0 * drive)
  }

  lemma SigmoidOdd(x: real, k: real)
    requires k >= 0.0
    ensures Sigmoid(-x, k) == -Sigmoid(x, k)
  {
    MulNonNeg(k, Abs(x));
    assert Abs(-x) == Abs(x);
    assert (-x) * (1.0 + k) == -(x * (1.0 + k));
    NegDiv(x * (1.0 + k), 1.0 + k * Abs(x));
  }

  /** |x| <= 1 stays within [-1, 1], and x = 1 maps to exactly 1. */
  lemma SigmoidUnitRange(x: real, k: real)
    requires k >= 0.0 && Abs(x) <= 1.0
    ensures Abs(Sigmoid(x, k)) <= 1.0
    ensures x == 1.0 ==> Sigmoid(x, k) == 1.0
  {
    SigmoidRange(x, k);
    if x == 1.0 {
      SigmoidAtOne(k);
    }
  }

  lemma SigmoidRange(x: real, k: real)
    requires k >= 0.0 && Abs(x) <= 1.0
    ensures Abs(Sigmoid(x, k)) <= 1.0
  {
    assert Sigmoid(x, k) == x * (1.0 + k) / (1.0 + k * Abs(x));
    MulNonNeg(k, Abs(x));
    AbsMul(x, 1.0 + k);
    assert Abs(x) * (1.0 + k) == Abs(x) + k * Abs(x);
    QuotientAtMostOne(x * (1.0 + k), 1.0 + k * Abs(x));
  }

  lemma SigmoidAtOne(k: real)
    requires k >= 0.0
    ensures Sigmoid(1.0, k) == 1.0
  {
    assert Sigmoid(1.0, k) == (1.0 * (1.0 + k)) / (1.0 + k * Abs(1.0));
    assert 1.0 * (1.0 + k) == 1.0 + k * Abs(1.0);
    DivUnique(1.0 + k, 1.0 + k, 1.0);
  }

  /** For a positive gain the output stays below (1 + k) / k for every x. */
  lemma SigmoidBounded(x: real, k: real)
    requires k > 0.0
    ensures Abs(Sigmoid(x, k)) * k < 1.0 + k
  {
    MulNonNeg(k, Abs(x));
    AbsMul(x, 1.0 + k);
    AbsQuotient(x * (1.0 + k), 1.0 + k * Abs(x));
    ScaledBelow(Abs(Sigmoid(x, k)), k, k * Abs(x), Abs(x) * (1.0 + k));
  }

  /** From r (1 + t) = (t / k)(1 + k) with t >= 0 it follows that r k < 1 + k. */
  lemma ScaledBelow(r: real, k: real, t: real, n: real)
    requires k > 0.0 && t >= 0.0 && r * (1.0 + t) == n && n * k == t * (1.0 + k)
    ensures r * k < 1.0 + k
  {
    assert (r * k) * (1.0 + t) == (r * (1.0 + t)) * k;
    MulLtRight(t, 1.0 + t, 1.0 + k);
    CancelPositive(r * k, 1.0 + k, 1.0 + t);
  }

  lemma WaveShapeOdd(input: real, drive: real)
    requires drive >= 0.0
    ensures WaveShape(-input, drive) == -WaveShape(input, drive)
  {
    assert (-input) * drive == -(input * drive);
    SigmoidOdd(input * drive, 2.0 * drive);
  }

  /** |input drive| <= 1 stays within [-1, 1], and input drive = 1 gives exactly 1. */
  lemma WaveShapeUnitRange(input: real, drive: real)
    requires drive >= 0.0 && Abs(input * drive) <= 1.0
    ensures Abs(WaveShape(input, drive)) <= 1.0
    ensures input * drive == 1.0 ==> WaveShape(input, drive) == 1.0
  {
    SigmoidUnitRange(input * drive, 2.0 * drive);
  }

  /** For a positive drive every output is below (1 + 2 drive) / (2 drive) in magnitude. */
  lemma WaveShapeBounded(input: real, drive: real)
    requires drive > 0.0
    ensures Abs(WaveShape(input, drive)) * (2.0 * drive) < 1.0 + 2.0 * drive
  {
    SigmoidBounded(input * drive, 2.0 * drive);
  }

  // ---------------------------------------------------------------- tube screamer

  /** The magnitude curve: 2 t below 1/3, (3 - (2 - 3 t)^2) / 3 up to 2/3, then 1. */
  function ScreamerCurve(t: real): real
  {
    if t < 1.0 / 3.0 then 2.0 * t
    else if t < 2.0 / 3.0 then (3.0 - (2.0 - 3.0 * t) * (2.0 - 3.0 * t)) / 3.0
    else 1.0
  }

  /** Soft clipping of x = 2 input drive: sign(x) times the curve at |x|. */
  function Screamer(input: real, drive: real): (r: real)
    ensures input * drive == 0.0 ==> r == 0.0
    // below |x| = 1/3 the clipper is clean, with a gain of 2
    ensures -1.0 / 3.0 < input * drive * 2.0 < 1.0 / 3.0 ==> r == 2.0 * (input * drive * 2.0)
  {
    var x := input * drive * 2.0;
    var sign := if x >= 0.0 then 1.0 else -1.0;
    sign * ScreamerCurve(Abs(x))
  }

  /** The three branches meet: 2/3 at t = 1/3 and 1 at t = 2/3. */
  lemma ScreamerBranchesMeet()
    ensures 2.0 * (1.0 / 3.0) == ScreamerCurve(1.0 / 3.0) == 2.0 / 3.0
    ensures ScreamerCurve(2.0 / 3.0) == 1.0
    ensures (3.0 - (2.0 - 3.0 * (2.0 / 3.0)) * (2.0 - 3.0 * (2.0 / 3.0))) / 3.0 == 1.0
  {
  }

  /** On t >= 0 the curve lies in [0, 1] and never exceeds 2 t. */
  lemma ScreamerCurveRange(t: real)
    requires t >= 0.0
    ensures 0.0 <= ScreamerCurve(t) <= 1.0
    ensures ScreamerCurve(t) <= 2.0 * t
  {
    if 1.0 / 3.0 <= t < 2.0 / 3.0 {
      var u := 2.0 - 3.0 * t;
      assert ScreamerCurve(t) == (3.0 - u * u) / 3.0;
      assert 0.0 < u <= 1.0;
      MulLeqRight(u, 1.0, u);
      MulNonNeg(u, u);
      var d := 3.0 * t - 1.0;
      MulNonNeg(d, d);
      assert u * u == d * d + 3.0 - 6.0 * t;
    }
  }

  /** The curve is non-decreasing and rises at most twice as fast as t. */
  lemma {:induction false} ScreamerCurveSlope(a: real, b: real)
    requires 0.0 <= a <= b
    ensures 0.0 <= ScreamerCurve(b) - ScreamerCurve(a) <= 2.0 * (b - a)
  {
    var third, twoThirds := 1.0 / 3.0, 2.0 / 3.0;
    if a < third && b < third {
    } else if a < third && b < twoThirds {
      MiddleSlope(third, b);
    } else if a < third {
      // 1 - 2a <= 2 (b - a) because b >= 2/3
    } else if b < twoThirds {
      MiddleSlope(a, b);
    } else if a < twoThirds {
      MiddleSlope(a, twoThirds);
    }
  }

  /** Within the middle branch the curve rises by (b - a)(4 - 3a - 3b). */
  lemma MiddleSlope(a: real, b: real)
    requires 1.0 / 3.0 <= a <= b <= 2.0 / 3.0
    ensures var f := (t: real) => (3.0 - (2.0 - 3.0 * t) * (2.0 - 3.0 * t)) / 3.0;
      0.0 <= f(b) - f(a) <= 2.0 * (b - a)
  {
    var w := 4.0 - 3.0 * a - 3.0 * b;
    assert 0.0 <= w <= 2.0;
    var fa := (3.0 - (2.0 - 3.0 * a) * (2.0 - 3.0 * a)) / 3.0;
    var fb := (3.0 - (2.0 - 3.0 * b) * (2.0 - 3.0 * b)) / 3.0;
    assert fb - fa == (b - a) * w;
    MulNonNeg(b - a, w);
    MulLeqRight(w, 2.0, b - a);
  }

  /** Always within [-1, 1], exactly +-1 once |2 input drive| >= 2/3. */
  lemma ScreamerRange(input: real, drive: real)
    ensures Abs(Screamer(input, drive)) <= 1.0
    ensures Abs(input * drive * 2.0) >= 2.0 / 3.0 ==>
      Screamer(input, drive) == (if input * drive * 2.0 >= 0.0 then 1.0 else -1.0)
  {
    ScreamerCurveRange(Abs(input * drive * 2.0));
  }

  lemma ScreamerOdd(input: real, drive: real)
    ensures Screamer(-input, drive) == -Screamer(input, drive)
  {
    var x := input * drive * 2.0;
    assert (-input) * drive * 2.0 == -x;
    if x == 0.0 {
      assert ScreamerCurve(0.0) == 0.0;
    }
  }

  /** The shaper is continuous in x = 2 input drive: the output moves at
      most twice as far as x, across every branch and across zero. */
  lemma ScreamerContinuous(a: real, b: real, drive: real)
    ensures Abs(Screamer(b, drive) - Screamer(a, drive))
         <= 2.0 * Abs(b * drive * 2.0 - a * drive * 2.0)
  {
    var xa, xb := a * drive * 2.0, b * drive * 2.0;
    var ca, cb := ScreamerCurve(Abs(xa)), ScreamerCurve(Abs(xb));
    ScreamerCurveRange(Abs(xa));
    ScreamerCurveRange(Abs(xb));
    if (xa >= 0.0) == (xb >= 0.0) {
      if Abs(xa) <= Abs(xb) {
        ScreamerCurveSlope(Abs(xa), Abs(xb));
      } else {
        ScreamerCurveSlope(Abs(xb), Abs(xa));
      }
    }
  }

  // ---------------------------------------------------------------- fuzz

  /** The germanium-like curve 1 - exp(-t c). */
  function Curve(t: real, c: real, m: Math): real
  {
    1.0 - m.exp(-t * c)
  }

  /** On x = 1.5 input drive: sign(x) times the curve at |x| with rate
      2 + asym for x >= 0 and 2 - asym below, scaled by 0.8. */
  function FuzzShape(input: real, drive: real, asym: real, m: Math): (r: real)
    ensures m.exp(0.0) == 1.0 && input * drive == 0.0 ==> r == 0.0
    // whatever the asymmetry, the output stays short of 0.8 on the side of x
    ensures input * drive >= 0.0 ==> r < 0.8
    ensures input * drive < 0.0 ==> r > -0.8
  {
    var x := input * drive * 1.5;
    var sign := if x >= 0.0 then 1.0 else -1.0;
    var posCurve := Curve(Abs(x), 2.0 + asym, m);
    var negCurve := Curve(Abs(x), 2.0 - asym, m);
    assert x == 0.0 && m.exp(0.0) == 1.0 ==> posCurve == 0.0 by {
      if x == 0.0 && m.exp(0.0) == 1.0 {
        var e := -Abs(x) * (2.0 + asym);
        assert e == 0.0;
        assert posCurve == 1.0 - m.exp(e);
        Congruent(m.exp, e, 0.0);
      }
    }
    sign * (if sign > 0.0 then posCurve else negCurve) * 0.8
  }

  /** The curve lies in [0, 1) for t, c >= 0, given exp(0) = 1. */
  lemma CurveRange(t: real, c: real, m: Math)
    requires t >= 0.0 && c >= 0.0 && m.exp(0.0) == 1.0
    ensures 0.0 <= Curve(t, c, m) < 1.0
  {
    MulNonNeg(t, c);
    if t * c == 0.0 {
      Congruent(m.exp, -t * c, 0.0);
    }
  }

  /** For |asym| <= 2 the output has the sign of x and magnitude below 0.8. */
  lemma FuzzBounds(input: real, drive: real, asym: real, m: Math)
    requires -2.0 <= asym <= 2.0 && m.exp(0.0) == 1.0
    ensures Abs(FuzzShape(input, drive, asym, m)) < 0.8
    ensures input * drive * 1.5 >= 0.0 ==> FuzzShape(input, drive, asym, m) >= 0.0
    ensures input * drive * 1.5 < 0.0 ==> FuzzShape(input, drive, asym, m) <= 0.0
  {
    CurveRange(Abs(input * drive * 1.5), 2.0 + asym, m);
    CurveRange(Abs(input * drive * 1.5), 2.0 - asym, m);
  }

  /** Without asymmetry both curves coincide and the shaper is odd. */
  lemma FuzzOddWhenSymmetric(input: real, drive: real, m: Math)
    requires m.exp(0.0) == 1.0
    ensures FuzzShape(-input, drive, 0.0, m) == -FuzzShape(input, drive, 0.0, m)
  {
    assert (-input) * drive * 1.5 == -(input * drive * 1.5);
    assert Abs(-(input * drive * 1.5)) == Abs(input * drive * 1.5);
    if input * drive * 1.5 == 0.0 {
      CurveRange(0.0, 2.0, m);
      assert Curve(0.0, 2.0, m) == 0.0 by { Congruent(m.exp, -0.0 * 2.0, 0.0); }
    }
  }

  // ---------------------------------------------------------------- bitcrusher

  /** The bitcrusher's phase counter and held sample. */
  datatype Crush = Crush(phase: nat, hold: real)

  const CrushInitial: Crush := Crush(0, 0.0)

  /** `kMaxDriveDb`, the top of the drive range in dB; its declaration is not
      part of this model, and 36 dB is the value taken for it. */
  const MaxDriveDb: real := 36.0

  /** The drive in dB over the top of its range, clamped to [0, 1]. */
  function DriveNorm(drive: real, m: Math): (dn: real)
    ensures 0.0 <= dn <= 1.0
  {
    Clamp(LinearToDB(drive, m) / MaxDriveDb, 0.0, 1.0)
  }

  /** From 16 bits at no drive down to 4 at full drive. */
  function Bits(dn: real): (bits: nat)
    requires 0.0 <= dn <= 1.0
    ensures 4 <= bits <= 16
  {
    RoundWithin((1.0 - dn) * 12.0, 12);
    ClampInt(4 + Round((1.0 - dn) * 12.0), 1, 24)
  }

  /** 2^bits - 1 quantisation levels. */
  function Levels(bits: nat): (l: real)
    ensures bits >= 1 ==> l >= 1.0
    ensures l == l.Floor as real
  {
    assert bits >= 1 ==> Pow2(bits) >= 2 by {
      if bits >= 1 { Pow2Succ(bits - 1); }
    }
    (Pow2(bits) - 1) as real
  }

  lemma Pow2Succ(n: nat)
    ensures Pow2(n + 1) == 2 * Pow2(n)
  {
  }

  /** From holding every sample at no drive to holding each for 40 samples at full drive. */
  function HoldLength(dn: real): (n: nat)
    requires 0.0 <= dn <= 1.0
    ensures 1 <= n <= 40
  {
    RoundWithin(dn * 39.0, 39);
    1 + Round(dn * 39.0)
  }

  /** A sample rounded to the nearest of the levels. */
  function Quantise(x: real, levels: real): (r: real)
    requires levels >= 1.0
    // a whole number of steps 1 / levels, the nearest one to x
    ensures r * levels == Round(x * levels) as real
    ensures Abs(r - x) * levels <= 0.5
  {
    DivTimes(Round(x * levels) as real, levels);
    Round(x * levels) as real / levels
  }

  /** One bitcrusher call: a new held sample when the phase is 0, then the
      phase advances modulo the hold length; the output is the held sample. */
  function Bitcrush(input: real, drive: real, st: Crush, m: Math): (r: (real, Crush))
    ensures r.0 == r.1.hold
    ensures r.1.phase == (st.phase + 1) % HoldLength(DriveNorm(drive, m))
    ensures st.phase != 0 ==> r.1.hold == st.hold
    ensures st.phase == 0 ==> r.1.hold == Quantise(Clamp(input, -1.0, 1.0), Levels(Bits(DriveNorm(drive, m))))
  {
    var dn := DriveNorm(drive, m);
    var levels := Levels(Bits(dn));
    var holdN := HoldLength(dn);
    var hold := if st.phase == 0 then Quantise(Clamp(input, -1.0, 1.0), levels) else st.hold;
    (hold, Crush((st.phase + 1) % holdN, hold))
  }

  /** A quantised sample in [-1, 1] stays in [-1, 1] and within half a step of itself. */
  lemma QuantiseBounds(x: real, levels: real)
    requires levels >= 1.0 && levels == levels.Floor as real && -1.0 <= x <= 1.0
    ensures -1.0 <= Quantise(x, levels) <= 1.0
    ensures Abs(Quantise(x, levels) - x) * levels <= 0.5
  {
    QuantiseRange(x, levels);
    HalfStep(x, levels);
  }

  lemma QuantiseRange(x: real, levels: real)
    requires levels >= 1.0 && levels == levels.Floor as real && -1.0 <= x <= 1.0
    ensures -1.0 <= Quantise(x, levels) <= 1.0
  {
    ScaledWithin(x, levels);
    RoundWithin(x * levels, levels.Floor);
    RatioWithin(Round(x * levels) as real, levels);
    QuantiseUnfolds(x, levels);
  }

  /** The definition of `Quantise`, stated apart from the integrality of
      `levels`, under which the solver fails to unfold it. */
  lemma QuantiseUnfolds(x: real, levels: real)
    requires levels >= 1.0
    ensures Quantise(x, levels) == Round(x * levels) as real / levels
  {
  }

  lemma ScaledWithin(x: real, levels: real)
    requires levels >= 1.0 && -1.0 <= x <= 1.0
    ensures -levels <= x * levels <= levels
  {
    AbsMul(x, levels);
    MulLeqRight(Abs(x), 1.0, levels);
  }

  lemma RatioWithin(a: real, b: real)
    requires b > 0.0 && -b <= a <= b
    ensures -1.0 <= a / b <= 1.0
  {
    QuotientAtMostOne(a, b);
  }

  /** The rounding error is at most half a step 1 / levels. */
  lemma HalfStep(x: real, levels: real)
    requires levels >= 1.0
    ensures Abs(Quantise(x, levels) - x) * levels <= 0.5
  {
    assert Quantise(x, levels) * levels == Round(x * levels) as real;
    assert (Quantise(x, levels) - x) * levels == Round(x * levels) as real - x * levels;
    AbsMul(Quantise(x, levels) - x, levels);
  }

  /** Every output and every held sample lies in [-1, 1], and the phase stays below the hold length. */
  lemma BitcrushBounds(input: real, drive: real, st: Crush, m: Math)
    requires -1.0 <= st.hold <= 1.0
    ensures var r := Bitcrush(input, drive, st, m);
      -1.0 <= r.0 <= 1.0 && r.1.phase < HoldLength(DriveNorm(drive, m))
  {
    QuantiseBounds(Clamp(input, -1.0, 1.0), Levels(Bits(DriveNorm(drive, m))));
  }

  /** With the drive at or below 0 dB nothing is held: every call quantises
      afresh, at 16 bits. */
  lemma BitcrushTransparentRate(input: real, drive: real, st: Crush, m: Math)
    requires st.phase == 0 && DriveNorm(drive, m) == 0.0
    ensures Bitcrush(input, drive, st, m).1.phase == 0
    ensures Bits(DriveNorm(drive, m)) == 16
    ensures Bitcrush(input, drive, st, m).0 == Quantise(Clamp(input, -1.0, 1.0), Levels(16))
  {
  }

  /** The seven memoryless shapers, selected by type. */
  function Shape(t: DistortionType, input: real, drive: real, asym: real, m: Math): (r: real)
    requires t != Bitcrusher && drive >= 0.0
    // at zero drive every shaper is silent (given tanh(0) = 0, exp(0) = 1 and
    // clip thresholds on either side of 0)
    ensures drive == 0.0 && m.tanh(0.0) == 0.0 && m.exp(0.0) == 1.0 && asym >= -7.0 / 3.0 ==> r == 0.0
  {
    match t
    case CubicSaturation => Cubic(input, drive, asym)
    case TubeSaturation => Tube(input, drive, asym, m)
    case AsymmetricClip => Clip(input, drive, asym)
    case Foldback => Fold(input, drive)
    case WaveShaper => WaveShape(input, drive)
    case TubeScreamer => Screamer(input, drive)
    case FuzzFace => FuzzShape(input, drive, asym, m)
  }

  /** The stateless part of `applyDistortion` on the selector's underlying
      value: one of the seven memoryless shapers, or the input itself for a
      value that names no enumerator. */
  function Shaped(code: int, input: real, drive: real, asym: real, m: Math): (r: real)
    requires code != TypeIndex(Bitcrusher) && drive >= 0.0
    ensures !(0 <= code < TypeCount) ==> r == input
    ensures 0 <= code < TypeCount && drive == 0.0 && m.tanh(0.0) == 0.0 && m.exp(0.0) == 1.0 && asym >= -7.0 / 3.0 ==> r == 0.0
  {
    if 0 <= code < TypeCount then Shape(FromIndex(code), input, drive, asym, m) else input
  }

  /** `applyDistortion`: the bitcrusher reads and advances its state, every
      other selector value leaves that state alone. */
  function ApplyDistortion(code: int, input: real, drive: real, asym: real, st: Crush, m: Math): (r: (real, Crush))
    requires drive >= 0.0
    ensures code == TypeIndex(Bitcrusher) ==> r == Bitcrush(input, drive, st, m)
    ensures code != TypeIndex(Bitcrusher) ==> r == (Shaped(code, input, drive, asym, m), st)
  {
    if code == TypeIndex(Bitcrusher) then Bitcrush(input, drive, st, m)
    else (Shaped(code, input, drive, asym, m), st)
  }

  /** A selector value outside the enumeration passes the sample through untouched. */
  lemma UnlistedPassesThrough(code: int, input: real, drive: real, asym: real, st: Crush, m: Math)
    requires drive >= 0.0 && !(0 <= code < TypeCount)
    ensures ApplyDistortion(code, input, drive, asym, st, m) == (input, st)
  {
  }
}
