/** The older biquad revision: Direct Form I with a two-sample input and
    output history.  In this revision the `a` coefficients weight the inputs
    and the `b` coefficients the past outputs, and `update` leaves the
    coefficients alone for a type it does not handle. */
module BiquadDf1 {
  import opened Libm
  import opened Utils
  import Biquad

  /** The enumerators the update switch handles, and `Other` for any value it does not. */
  datatype FilterType = None | LowPass | HighPass | BandPass | Notch | Peak | Other

  predicate Handled(t: FilterType)
  {
    t != None && t != Other
  }

  /** Input weights a0..a2 and output weights b1, b2. */
  datatype Coeffs = Coeffs(a0: real, a1: real, a2: real, b1: real, b2: real)

  /** The last two inputs and the last two outputs. */
  datatype History = History(x1: real, x2: real, y1: real, y2: real)

  const Silence: History := History(0.0, 0.0, 0.0, 0.0)

  /** The fixed 6 dB of the PEAK design, as the exponent of pow(10, 6 / 40). */
  const PeakGainExponent: real := 6.0 / 40.0

  function Alpha(freq: real, q: real, sampleRate: real, m: Math): real
    requires sampleRate != 0.0 && q != 0.0
  {
    m.sin(KTwoPi64 * freq / sampleRate) / (2.0 * q)
  }

  /** What `update` needs to be defined on reals: for a handled type it
      divides by the sample rate, by 2q and by 1 + alpha. */
  predicate UpdateDefined(t: FilterType, freq: real, q: real, sampleRate: real, m: Math)
  {
    Handled(t) ==> sampleRate != 0.0 && q != 0.0 && 1.0 + Alpha(freq, q, sampleRate, m) != 0.0
  }

  /** The coefficients each handled type assigns before normalisation. */
  function Design(t: FilterType, cosw: real, alpha: real, sinw: real, a: real): (r: Coeffs)
    requires Handled(t) && a != 0.0
    // every handled type shares the first feedback term; all but the peak share the second
    ensures r.b1 == -2.0 * cosw
    ensures t != Peak ==> r.b2 == 1.0 - alpha
    // a notch or peak has the same middle term above and below
    ensures t == Notch || t == Peak ==> r.a1 == r.b1
    // the band-pass numerator is antisymmetric: a zero at DC and at Nyquist
    ensures t == BandPass ==> r.a1 == 0.0 && r.a2 == -r.a0
  {
    match t
    case LowPass => Coeffs((1.0 - cosw) * 0.5, 1.0 - cosw, (1.0 - cosw) * 0.5, -2.0 * cosw, 1.0 - alpha)
    case HighPass => Coeffs((1.0 + cosw) * 0.5, -(1.0 + cosw), (1.0 + cosw) * 0.5, -2.0 * cosw, 1.0 - alpha)
    case BandPass => Coeffs(sinw * 0.5, 0.0, -sinw * 0.5, -2.0 * cosw, 1.0 - alpha)
    case Notch => Coeffs(1.0, -2.0 * cosw, 1.0, -2.0 * cosw, 1.0 - alpha)
    case Peak => Coeffs(1.0 + alpha * a, -2.0 * cosw, 1.0 - alpha * a, -2.0 * cosw, 1.0 - alpha / a)
  }

  /** Multiplication of all five coefficients by one factor. */
  function Scale(c: Coeffs, k: real): Coeffs
  {
    Coeffs(c.a0 * k, c.a1 * k, c.a2 * k, c.b1 * k, c.b2 * k)
  }

  /** Scaling by a non-zero factor is undone by scaling by its reciprocal. */
  lemma ScaleInverse(c: Coeffs, k: real)
    requires k != 0.0
    ensures Scale(Scale(c, k), 1.0 / k) == c
  {
    MulInverse(c.a0, k);
    MulInverse(c.a1, k);
    MulInverse(c.a2, k);
    MulInverse(c.b1, k);
    MulInverse(c.b2, k);
  }

  lemma MulInverse(x: real, k: real)
    requires k != 0.0
    ensures (x * k) * (1.0 / k) == x
  {
    assert (x * k) * (1.0 / k) == x * (k * (1.0 / k));
  }

  /** `update` as a function of the previous coefficients and the parameters. */
  function Update(c: Coeffs, t: FilterType, freq: real, q: real, sampleRate: real, m: Math): (r: Coeffs)
    requires UpdateDefined(t, freq, q, sampleRate, m)
    ensures !Handled(t) ==> r == c
  {
    if !Handled(t) then c
    else
      var w := KTwoPi64 * freq / sampleRate;
      var alpha := m.sin(w) / (2.0 * q);
      Scale(Design(t, m.cos(w), alpha, m.sin(w), m.pow(10.0, PeakGainExponent)), 1.0 / (1.0 + alpha))
  }

  /** Every handled type, PEAK included, is divided by the same 1 + alpha:
      multiplying the result back by it gives the unnormalised design. */
  lemma CommonNormalisation(c: Coeffs, t: FilterType, freq: real, q: real, sampleRate: real, m: Math)
    requires Handled(t) && UpdateDefined(t, freq, q, sampleRate, m)
    ensures var alpha := Alpha(freq, q, sampleRate, m);
      var w := KTwoPi64 * freq / sampleRate;
      Scale(Update(c, t, freq, q, sampleRate, m), 1.0 + alpha)
        == Design(t, m.cos(w), alpha, m.sin(w), m.pow(10.0, PeakGainExponent))
  {
    var alpha := Alpha(freq, q, sampleRate, m);
    var w := KTwoPi64 * freq / sampleRate;
    var raw := Design(t, m.cos(w), alpha, m.sin(w), m.pow(10.0, PeakGainExponent));
    var k := 1.0 / (1.0 + alpha);
    assert Update(c, t, freq, q, sampleRate, m) == Scale(raw, k);
    ScaleInverse(raw, k);
    assert 1.0 / k == 1.0 + alpha;
  }

  /** PEAK's output weight b2 uses alpha / A while the factor it is divided
      by is 1 + alpha, so the recursion's implied leading term 1 + alpha / A
      is not scaled to 1: with the fixed 6 dB gain the normalised PEAK
      design keeps b2 * (1 + alpha) == 1 - alpha / A. */
  lemma PeakOutputWeight(c: Coeffs, freq: real, q: real, sampleRate: real, m: Math)
    requires UpdateDefined(Peak, freq, q, sampleRate, m)
    ensures var alpha := Alpha(freq, q, sampleRate, m);
      var a := m.pow(10.0, PeakGainExponent);
      var r := Update(c, Peak, freq, q, sampleRate, m);
      r.b2 * (1.0 + alpha) == 1.0 - alpha / a && r.a0 * (1.0 + alpha) == 1.0 + alpha * a
  {
    CommonNormalisation(c, Peak, freq, q, sampleRate, m);
  }

  /** LOW_PASS: a0 = a2 = a1 / 2, before and after normalisation, with
      a1 = (1 - cos w) / (1 + alpha). */
  lemma LowPassHalves(c: Coeffs, freq: real, q: real, sampleRate: real, m: Math)
    requires UpdateDefined(LowPass, freq, q, sampleRate, m)
    ensures var w := KTwoPi64 * freq / sampleRate;
      var raw := Design(LowPass, m.cos(w), Alpha(freq, q, sampleRate, m), m.sin(w), m.pow(10.0, PeakGainExponent));
      raw.a0 == raw.a2 && raw.a1 == 2.0 * raw.a0
    ensures var r := Update(c, LowPass, freq, q, sampleRate, m);
      r.a0 == r.a2 && r.a1 == 2.0 * r.a0
    ensures Update(c, LowPass, freq, q, sampleRate, m).a1
      == (1.0 - m.cos(KTwoPi64 * freq / sampleRate)) / (1.0 + Alpha(freq, q, sampleRate, m))
  {
  }

  /** One Direct Form I sample: the output and the shifted history. */
  function Step(c: Coeffs, h: History, input: real): (r: (real, History))
    ensures r.1 == History(input, h.x1, r.0, h.y1)
  {
    var output := c.a0 * input + c.a1 * h.x1 + c.a2 * h.x2 - c.b1 * h.y1 - c.b2 * h.y2;
    (output, History(input, h.x1, output, h.y1))
  }

  /** The coefficients of the transposed revision, renamed to this one's roles. */
  function FromTransposed(c: Biquad.Coeffs): Coeffs
  {
    Coeffs(c.b0, c.b1, c.b2, c.a1, c.a2)
  }

  /** Both revisions compute the same output: whenever the transposed
      registers realise this revision's history and the flush leaves both
      registers alone,
      the two steps agree and the realisation carries over. */
  lemma AgreesWithTransposed(c: Biquad.Coeffs, s: Biquad.Regs, h: History, x: real)
    requires Biquad.Realises(c, s, h.x1, h.x2, h.y1, h.y2)
    requires var p := Biquad.Pending(c, s, x, c.b0 * x + s.z1);
      Biquad.DenormProtect(p.z1) == p.z1 && Biquad.DenormProtect(p.z2) == p.z2
    ensures var (y, s') := Biquad.Step(c, s, x);
      var (out, h') := Step(FromTransposed(c), h, x);
      y == out && Biquad.Realises(c, s', h'.x1, h'.x2, h'.y1, h'.y2)
  {
    Biquad.StepIsDifferenceEquation(c, s, h.x1, h.x2, h.y1, h.y2, x);
  }

  class BiquadFilter {
    var a0: real
    var a1: real
    var a2: real
    var b1: real
    var b2: real
    var x1: real
    var x2: real
    var y1: real
    var y2: real
    var freq: real
    var q: real
    var filterType: FilterType
    var sampleRate: real
    const math: Math

    function Coefficients(): Coeffs
      reads this
    {
      Coeffs(a0, a1, a2, b1, b2)
    }

    function Hist(): History
      reads this
    {
      History(x1, x2, y1, y2)
    }

    /** Stores frequency, Q and type without computing coefficients; the
        other fields start from their declared initial values. */
    constructor (m: Math, f: real, qv: real, t: FilterType, initialRate: real, initial: Coeffs)
      ensures math == m && freq == f && q == qv && filterType == t && sampleRate == initialRate
      ensures Coefficients() == initial && Hist() == Silence
    {
      math := m;
      freq, q, filterType, sampleRate := f, qv, t, initialRate;
      a0, a1, a2, b1, b2 := initial.a0, initial.a1, initial.a2, initial.b1, initial.b2;
      x1, x2, y1, y2 := 0.0, 0.0, 0.0, 0.0;
    }

    /** Stores the parameters and updates; the history is kept. */
    method Setup(t: FilterType, f: real, qv: real)
      requires UpdateDefined(t, f, qv, sampleRate, math)
      modifies this
      ensures filterType == t && freq == f && q == qv && sampleRate == old(sampleRate)
      ensures Coefficients() == Update(old(Coefficients()), t, f, qv, sampleRate, math)
      ensures Hist() == old(Hist())
    {
      filterType := t;
      freq := f;
      q := qv;
      UpdateCoefficients();
    }

    method SetFreq(f: real)
      requires UpdateDefined(filterType, f, q, sampleRate, math)
      modifies this
      ensures freq == f && filterType == old(filterType) && q == old(q) && sampleRate == old(sampleRate)
      ensures Coefficients() == Update(old(Coefficients()), filterType, f, q, sampleRate, math)
      ensures Hist() == old(Hist())
    {
      freq := f;
      UpdateCoefficients();
    }

    method SetSampleRate(sr: real)
      requires UpdateDefined(filterType, freq, q, sr, math)
      modifies this
      ensures sampleRate == sr && filterType == old(filterType) && freq == old(freq) && q == old(q)
      ensures Coefficients() == Update(old(Coefficients()), filterType, freq, q, sr, math)
      ensures Hist() == old(Hist())
    {
      sampleRate := sr;
      UpdateCoefficients();
    }

    method Process(input: real) returns (output: real)
      modifies this`x1, this`x2, this`y1, this`y2
      ensures (output, Hist()) == Step(Coefficients(), old(Hist()), input)
    {
      ghost var c, h := Coefficients(), Hist();
      output := a0 * input + a1 * x1 + a2 * x2 - b1 * y1 - b2 * y2;
      assert output == Step(c, h, input).0;
      x2 := x1;
      x1 := input;
      y2 := y1;
      y1 := output;
      assert Coefficients() == c;
    }

    /** Clears the history; the coefficients are untouched. */
    method Reset()
      modifies this`x1, this`x2, this`y1, this`y2
      ensures Hist() == Silence
    {
      x1, x2, y1, y2 := 0.0, 0.0, 0.0, 0.0;
    }

    /** `update`: returns early for an unhandled type, otherwise assigns the
        design and normalises it by 1 / (1 + alpha). */
    method UpdateCoefficients()
      requires UpdateDefined(filterType, freq, q, sampleRate, math)
      modifies this`a0, this`a1, this`a2, this`b1, this`b2
      ensures Coefficients() == Update(old(Coefficients()), filterType, freq, q, sampleRate, math)
    {
      if filterType == None {
        return;
      }
      if filterType == Other {
        return;
      }
      var w := KTwoPi64 * freq / sampleRate;
      var cosw := math.cos(w);
      var sinw := math.sin(w);
      var alpha := sinw / (2.0 * q);
      var c := Design(filterType, cosw, alpha, sinw, math.pow(10.0, PeakGainExponent));
      assert Update(Coefficients(), filterType, freq, q, sampleRate, math) == Scale(c, 1.0 / (1.0 + alpha));
      ghost var expected := Scale(c, 1.0 / (1.0 + alpha));
      a0, a1, a2, b1, b2 := c.a0, c.a1, c.a2, c.b1, c.b2;
      Normalize(1.0 / (1.0 + alpha));
      assert Coefficients() == expected;
    }

    /** Multiplies the five coefficients by `factor`. */
    method Normalize(factor: real)
      modifies this`a0, this`a1, this`a2, this`b1, this`b2
      ensures Coefficients() == Scale(old(Coefficients()), factor)
    {
      ghost var c := Coefficients();
      a0 := a0 * factor;
      a1 := a1 * factor;
      a2 := a2 * factor;
      b1 := b1 * factor;
      b2 := b2 * factor;
      assert Coefficients() == Scale(c, factor);
    }
  }
}
