/** The current biquad section: Robert Bristow-Johnson's Audio EQ Cookbook
    coefficients, normalised so that a0 == 1, run in Transposed Direct Form II
    with the two state registers flushed to zero below 1e-30. */
module Biquad {
  import opened Libm
  import opened Numeric
  import opened Utils

  datatype FilterType = None | LowPass | HighPass | BandPass | Notch | Peak | AllPass | LowShelf | HighShelf

  /** The enumerator's underlying value, in declaration order. */
  function TypeIndex(t: FilterType): (i: nat)
    ensures i < 9
    ensures FromIndex(i) == t
  {
    match t
    case None => 0
    case LowPass => 1
    case HighPass => 2
    case BandPass => 3
    case Notch => 4
    case Peak => 5
    case AllPass => 6
    case LowShelf => 7
    case HighShelf => 8
  }

  /** static_cast from an underlying value back to the enumeration. */
  function FromIndex(i: nat): (t: FilterType)
    requires i < 9
  {
    [None, LowPass, HighPass, BandPass, Notch, Peak, AllPass, LowShelf, HighShelf][i]
  }

  lemma FromIndexInverse(i: nat)
    requires i < 9
    ensures TypeIndex(FromIndex(i)) == i
  {
  }

  /** Coefficients with a0 implicitly 1. */
  datatype Coeffs = Coeffs(b0: real, b1: real, b2: real, a1: real, a2: real)

  /** Coefficients before division by a0. */
  datatype Raw = Raw(b0: real, b1: real, b2: real, a0: real, a1: real, a2: real)

  /** The two TDF2 state registers. */
  datatype Regs = Regs(z1: real, z2: real)

  const Bypass: Coeffs := Coeffs(1.0, 0.0, 0.0, 0.0, 0.0)
  const Zero: Regs := Regs(0.0, 0.0)

  const NyquistMargin: real := 0.99
  const MinQ: real := 1e-6
  const FlushBelow: real := 1e-30

  const DefaultSampleRate: real := 44100.0
  const DefaultFreq: real := 1000.0
  const DefaultQ: real := 0.707
  const DefaultGainDb: real := 0.0

  /** The highest frequency a design may use: 99% of Nyquist. */
  function FreqLimit(sampleRate: real): real
  {
    0.5 * sampleRate * NyquistMargin
  }

  /** The frequency a design uses: a non-positive request becomes 1 Hz, and
      anything above the limit is pulled down to it. */
  function DesignFreq(freq: real, sampleRate: real): (f: real)
    requires sampleRate > 0.0
    ensures 0.0 < f <= FreqLimit(sampleRate)
    ensures 0.0 < freq <= FreqLimit(sampleRate) ==> f == freq
    ensures freq > FreqLimit(sampleRate) ==> f == FreqLimit(sampleRate)
    ensures freq <= 0.0 ==> f == Min(1.0, FreqLimit(sampleRate))
  {
    var f := if freq <= 0.0 then 1.0 else freq;
    if f > FreqLimit(sampleRate) then FreqLimit(sampleRate) else f
  }

  /** The Q a design uses: anything at or below 1e-6 becomes 1e-6. */
  function DesignQ(q: real): (r: real)
    ensures r >= MinQ
    ensures q > MinQ ==> r == q
    ensures q <= MinQ ==> r == MinQ
  {
    if q > MinQ then q else MinQ
  }

  /** The cookbook's unnormalised coefficients for a type, given cos(w0),
      sin(w0), A, sqrt(A) and alpha. */
  function CookbookRaw(t: FilterType, cw: real, sw: real, a: real, sqrtA: real, alpha: real): (r: Raw)
    requires a != 0.0
    // the five pole-zero designs share one denominator
    ensures t in {LowPass, HighPass, BandPass, Notch, AllPass} ==>
      r.a0 == 1.0 + alpha && r.a1 == -2.0 * cw && r.a2 == 1.0 - alpha
    // at 0 dB (A = 1) the peak and both shelves are flat: numerator == denominator
    ensures t in {Peak, LowShelf, HighShelf} && a == 1.0 && sqrtA == 1.0 ==>
      r.b0 == r.a0 && r.b1 == r.a1 && r.b2 == r.a2
    ensures t == None ==> r == Raw(1.0, 0.0, 0.0, 1.0, 0.0, 0.0)
  {
    match t
    case LowPass => Raw((1.0 - cw) * 0.5, 1.0 - cw, (1.0 - cw) * 0.5, 1.0 + alpha, -2.0 * cw, 1.0 - alpha)
    case HighPass => Raw((1.0 + cw) * 0.5, -(1.0 + cw), (1.0 + cw) * 0.5, 1.0 + alpha, -2.0 * cw, 1.0 - alpha)
    case BandPass => Raw(sw * 0.5, 0.0, -sw * 0.5, 1.0 + alpha, -2.0 * cw, 1.0 - alpha)
    case Notch => Raw(1.0, -2.0 * cw, 1.0, 1.0 + alpha, -2.0 * cw, 1.0 - alpha)
    case AllPass => Raw(1.0 - alpha, -2.0 * cw, 1.0 + alpha, 1.0 + alpha, -2.0 * cw, 1.0 - alpha)
    case Peak =>
      Raw(1.0 + alpha * a, -2.0 * cw, 1.0 - alpha * a, 1.0 + alpha / a, -2.0 * cw, 1.0 - alpha / a)
    case LowShelf =>
      var k := 2.0 * sqrtA * alpha;
      Raw(a * ((a + 1.0) - (a - 1.0) * cw + k), 2.0 * a * ((a - 1.0) - (a + 1.0) * cw),
          a * ((a + 1.0) - (a - 1.0) * cw - k), (a + 1.0) + (a - 1.0) * cw + k,
          -2.0 * ((a - 1.0) + (a + 1.0) * cw), (a + 1.0) + (a - 1.0) * cw - k)
    case HighShelf =>
      var k := 2.0 * sqrtA * alpha;
      Raw(a * ((a + 1.0) + (a - 1.0) * cw + k), -2.0 * a * ((a - 1.0) + (a + 1.0) * cw),
          a * ((a + 1.0) + (a - 1.0) * cw - k), (a + 1.0) - (a - 1.0) * cw + k,
          2.0 * ((a - 1.0) - (a + 1.0) * cw), (a + 1.0) - (a - 1.0) * cw - k)
    case None => Raw(1.0, 0.0, 0.0, 1.0, 0.0, 0.0)
  }

  /** Division of all five stored coefficients by a0, or by 1 when a0 is zero. */
  function NormalizeA0(raw: Raw): (c: Coeffs)
    ensures raw.a0 != 0.0 ==>
      && c.b0 * raw.a0 == raw.b0 && c.b1 * raw.a0 == raw.b1 && c.b2 * raw.a0 == raw.b2
      && c.a1 * raw.a0 == raw.a1 && c.a2 * raw.a0 == raw.a2
    ensures raw.a0 == 0.0 ==> c == Coeffs(raw.b0, raw.b1, raw.b2, raw.a1, raw.a2)
  {
    var inv := if raw.a0 != 0.0 then 1.0 / raw.a0 else 1.0;
    Coeffs(raw.b0 * inv, raw.b1 * inv, raw.b2 * inv, raw.a1 * inv, raw.a2 * inv)
  }

  /** The design's intermediate quantities, in the source's order. */
  datatype Prewarp = Prewarp(f: real, w0: real, cw: real, sw: real, a: real, q: real, alpha: real)

  function DesignPrewarp(sampleRate: real, freq: real, q: real, gainDb: real, m: Math): (p: Prewarp)
    requires sampleRate > 0.0
    ensures 0.0 < p.f <= FreqLimit(sampleRate) && p.a > 0.0 && p.q >= MinQ
  {
    var f := DesignFreq(freq, sampleRate);
    var w0 := 2.0 * KPi * (f / sampleRate);
    var cw := m.cos(w0);
    var sw := m.sin(w0);
    var a := m.pow(10.0, gainDb / 40.0);
    var qq := DesignQ(q);
    Prewarp(f, w0, cw, sw, a, qq, sw / (2.0 * qq))
  }

  /** The unnormalised coefficients a (non-bypassed) design produces. */
  function DesignRaw(t: FilterType, sampleRate: real, freq: real, q: real, gainDb: real, m: Math): Raw
    requires sampleRate > 0.0
  {
    var p := DesignPrewarp(sampleRate, freq, q, gainDb, m);
    CookbookRaw(t, p.cw, p.sw, p.a, m.sqrt(p.a), p.alpha)
  }

  /** updateCoefficients as a function of the filter's parameters. */
  function Design(t: FilterType, sampleRate: real, freq: real, q: real, gainDb: real, m: Math): (c: Coeffs)
    ensures t == None || sampleRate <= 0.0 ==> c == Bypass
  {
    if t == None || sampleRate <= 0.0 then Bypass
    else NormalizeA0(DesignRaw(t, sampleRate, freq, q, gainDb, m))
  }

  /** Low-pass: b0 = b2 = b1 / 2 after normalisation, whatever cos(w0) is. */
  lemma LowPassShape(sampleRate: real, freq: real, q: real, gainDb: real, m: Math)
    requires sampleRate > 0.0
    ensures var c := Design(LowPass, sampleRate, freq, q, gainDb, m);
      c.b0 == c.b2 && c.b1 == 2.0 * c.b0
  {
    var raw := DesignRaw(LowPass, sampleRate, freq, q, gainDb, m);
    assert raw.b0 == raw.b2 && raw.b1 == 2.0 * raw.b0;
  }

  /** High-pass: b0 = b2 = -b1 / 2 after normalisation. */
  lemma HighPassShape(sampleRate: real, freq: real, q: real, gainDb: real, m: Math)
    requires sampleRate > 0.0
    ensures var c := Design(HighPass, sampleRate, freq, q, gainDb, m);
      c.b0 == c.b2 && c.b1 == -2.0 * c.b0
  {
    var raw := DesignRaw(HighPass, sampleRate, freq, q, gainDb, m);
    assert raw.b0 == raw.b2 && raw.b1 == -2.0 * raw.b0;
  }

  /** Notch, all-pass and peak share their numerator's middle term with the denominator's. */
  lemma MiddleTermsAgree(t: FilterType, sampleRate: real, freq: real, q: real, gainDb: real, m: Math)
    requires t == Notch || t == AllPass || t == Peak
    ensures var c := Design(t, sampleRate, freq, q, gainDb, m);
      c.b1 == c.a1
  {
    if sampleRate > 0.0 {
      var raw := DesignRaw(t, sampleRate, freq, q, gainDb, m);
      assert raw.b1 == raw.a1;
    }
  }

  /** All-pass: the numerator is the reversed denominator, so b0 = a2, and
      b2 = 1 exactly when the unnormalised a0 = 1 + alpha is non-zero. */
  lemma AllPassMirror(sampleRate: real, freq: real, q: real, gainDb: real, m: Math)
    requires sampleRate > 0.0
    ensures var c := Design(AllPass, sampleRate, freq, q, gainDb, m);
      var p := DesignPrewarp(sampleRate, freq, q, gainDb, m);
      c.b0 == c.a2 && (c.b2 == 1.0 <==> 1.0 + p.alpha != 0.0)
  {
    var raw := DesignRaw(AllPass, sampleRate, freq, q, gainDb, m);
    assert raw.b0 == raw.a2 && raw.b2 == raw.a0;
  }

  /** Flushes a magnitude below 1e-30 to zero and passes everything else. */
  function DenormProtect(v: real): (r: real)
    ensures r == v || r == 0.0
    ensures Abs(v) >= FlushBelow ==> r == v
    ensures r != 0.0 ==> Abs(r) >= FlushBelow
  {
    if Abs(v) < FlushBelow then 0.0 else v
  }

  /** The registers' next values before flushing, given input x and output y. */
  function Pending(c: Coeffs, s: Regs, x: real, y: real): Regs
  {
    Regs(c.b1 * x - c.a1 * y + s.z2, c.b2 * x - c.a2 * y)
  }

  /** One TDF2 sample: the output and the new registers.  Neither register
      is ever left holding a denormal-sized value, and silence into cleared
      registers stays silent. */
  function Step(c: Coeffs, s: Regs, x: real): (r: (real, Regs))
    ensures r.1.z1 == 0.0 || Abs(r.1.z1) >= FlushBelow
    ensures r.1.z2 == 0.0 || Abs(r.1.z2) >= FlushBelow
    ensures s == Zero && x == 0.0 ==> r == (0.0, Zero)
  {
    var y := c.b0 * x + s.z1;
    var p := Pending(c, s, x, y);
    assert s == Zero && x == 0.0 ==> y == 0.0;
    assert s == Zero && x == 0.0 ==> p == Zero;
    (y, Regs(DenormProtect(p.z1), DenormProtect(p.z2)))
  }

  /** Every sample of the buffer is zero. */
  predicate Silent(xs: seq<real>)
  {
    forall i :: 0 <= i < |xs| ==> xs[i] == 0.0
  }

  /** A buffer processed sample by sample, in increasing order: one output
      per input, and registers that never hold a denormal-sized value. */
  function Run(c: Coeffs, s: Regs, xs: seq<real>): (r: (seq<real>, Regs))
    ensures |r.0| == |xs|
    ensures xs != [] ==> (r.1.z1 == 0.0 || Abs(r.1.z1) >= FlushBelow) && (r.1.z2 == 0.0 || Abs(r.1.z2) >= FlushBelow)
  {
    if xs == [] then ([], s)
    else
      var init := xs[..|xs| - 1];
      var (ys, s') := Run(c, s, init);
      var (y, s'') := Step(c, s', xs[|xs| - 1]);
      (ys + [y], s'')
  }

  /** Silence into cleared registers gives silence and leaves the registers
      cleared, whatever the coefficients. */
  lemma {:induction false} RunSilence(c: Coeffs, xs: seq<real>)
    requires Silent(xs)
    ensures Run(c, Zero, xs) == (xs, Zero)
  {
    if xs != [] {
      var init := xs[..|xs| - 1];
      assert forall i :: 0 <= i < |init| ==> init[i] == xs[i];
      RunSilence(c, init);
      assert init + [xs[|xs| - 1]] == xs;
    }
  }

  /** Processing two buffers one after the other is processing their concatenation. */
  lemma {:induction false} RunAppend(c: Coeffs, s: Regs, xs: seq<real>, zs: seq<real>)
    ensures var (ys, s1) := Run(c, s, xs);
      Run(c, s, xs + zs) == (ys + Run(c, s1, zs).0, Run(c, s1, zs).1)
  {
    if zs == [] {
      var (ys, s1) := Run(c, s, xs);
      assert xs + zs == xs;
      assert Run(c, s1, zs) == ([], s1);
      assert ys + [] == ys;
    } else {
      var n := |zs| - 1;
      var (ys, s1) := Run(c, s, xs);
      assert (xs + zs)[..|xs + zs| - 1] == xs + zs[..n];
      assert (xs + zs)[|xs + zs| - 1] == zs[n];
      RunAppend(c, s, xs, zs[..n]);
      var (ws, s2) := Run(c, s1, zs[..n]);
      assert Run(c, s, xs + zs[..n]) == (ys + ws, s2);
      var (w, s3) := Step(c, s2, zs[n]);
      assert Run(c, s1, zs) == (ws + [w], s3);
      assert Run(c, s, xs + zs) == ((ys + ws) + [w], s3);
      assert (ys + ws) + [w] == ys + (ws + [w]);
    }
  }

  /** Bypass coefficients from cleared registers pass one sample through and leave the registers cleared. */
  lemma BypassStep(x: real)
    ensures Step(Bypass, Zero, x) == (x, Zero)
  {
  }

  /** ... and so a whole buffer. */
  lemma {:induction false} BypassRun(xs: seq<real>)
    ensures Run(Bypass, Zero, xs) == (xs, Zero)
  {
    if xs != [] {
      var init, last := xs[..|xs| - 1], xs[|xs| - 1];
      BypassRun(init);
      BypassStep(last);
      assert Run(Bypass, Zero, xs) == (init + [last], Zero);
      assert init + [last] == xs;
    }
  }

  /** The registers hold what the direct-form difference equation needs from
      the last two inputs x1, x2 and outputs y1, y2. */
  predicate Realises(c: Coeffs, s: Regs, x1: real, x2: real, y1: real, y2: real)
  {
    && s.z1 == c.b1 * x1 - c.a1 * y1 + c.b2 * x2 - c.a2 * y2
    && s.z2 == c.b2 * x1 - c.a2 * y1
  }

  /** Cleared registers realise a silent history. */
  lemma ZeroRealisesSilence(c: Coeffs)
    ensures Realises(c, Zero, 0.0, 0.0, 0.0, 0.0)
  {
  }

  /** While the flush leaves both registers alone (in particular through
      silence, where they are exactly 0), a TDF2 step computes
      y = b0 x + b1 x1 + b2 x2 - a1 y1 - a2 y2 and keeps the registers
      realising the shifted history. */
  lemma StepIsDifferenceEquation(c: Coeffs, s: Regs, x1: real, x2: real, y1: real, y2: real, x: real)
    requires Realises(c, s, x1, x2, y1, y2)
    requires var p := Pending(c, s, x, c.b0 * x + s.z1);
      DenormProtect(p.z1) == p.z1 && DenormProtect(p.z2) == p.z2
    ensures var (y, s') := Step(c, s, x);
      && y == c.b0 * x + c.b1 * x1 + c.b2 * x2 - c.a1 * y1 - c.a2 * y2
      && Realises(c, s', x, x1, y, y1)
  {
  }

  /** The filter's whole observable state. */
  datatype Filter = Filter(
    filterType: FilterType, sampleRate: real, freq: real, q: real, gainDb: real,
    coeffs: Coeffs, regs: Regs)

  /** A default-constructed filter: type None at 44.1 kHz, bypass coefficients, cleared registers. */
  const DefaultFilter: Filter := Filter(None, DefaultSampleRate, DefaultFreq, DefaultQ, DefaultGainDb, Bypass, Zero)

  class BiquadFilter {
    var b0: real
    var b1: real
    var b2: real
    var a1: real
    var a2: real
    var z1: real
    var z2: real
    var filterType: FilterType
    var sampleRate: real
    var freq: real
    var q: real
    var gainDb: real
    const math: Math

    function Coefficients(): Coeffs
      reads this
    {
      Coeffs(b0, b1, b2, a1, a2)
    }

    function Registers(): Regs
      reads this
    {
      Regs(z1, z2)
    }

    function State(): Filter
      reads this
    {
      Filter(filterType, sampleRate, freq, q, gainDb, Coefficients(), Registers())
    }

    /** The stored coefficients are those of the current parameters. */
    predicate Current()
      reads this
    {
      Coefficients() == Design(filterType, sampleRate, freq, q, gainDb, math)
    }

    /** The defaulted constructor: bypass coefficients, cleared registers. */
    constructor (m: Math)
      ensures math == m && Current()
      ensures State() == DefaultFilter
    {
      math := m;
      b0, b1, b2, a1, a2 := 1.0, 0.0, 0.0, 0.0, 0.0;
      z1, z2 := 0.0, 0.0;
      filterType := None;
      sampleRate := DefaultSampleRate;
      freq := DefaultFreq;
      q := DefaultQ;
      gainDb := DefaultGainDb;
    }

    /** The explicit constructor stores the parameters and designs the coefficients. */
    constructor Init(m: Math, t: FilterType, f: real, qv: real := DefaultQ, g: real := DefaultGainDb)
      ensures math == m && Current()
      ensures filterType == t && sampleRate == DefaultSampleRate && freq == f && q == qv && gainDb == g
      ensures Registers() == Zero
    {
      math := m;
      z1, z2 := 0.0, 0.0;
      filterType := t;
      sampleRate := DefaultSampleRate;
      freq := f;
      q := qv;
      gainDb := g;
      new;
      UpdateCoefficients();
    }

    /** Stores all design parameters, clears the registers and redesigns. */
    method Setup(t: FilterType, f: real, qv: real := DefaultQ, g: real := DefaultGainDb)
      modifies this
      ensures Current()
      ensures State() == old(State()).(filterType := t, freq := f, q := qv, gainDb := g,
                                       coeffs := Coefficients(), regs := Zero)
    {
      filterType := t;
      freq := f;
      q := qv;
      gainDb := g;
      Reset();
      UpdateCoefficients();
    }

    method SetSampleRate(sr: real)
      modifies this
      ensures Current()
      ensures State() == old(State()).(sampleRate := sr, coeffs := Coefficients())
    {
      sampleRate := sr;
      UpdateCoefficients();
    }

    method SetType(t: FilterType)
      modifies this
      ensures Current()
      ensures State() == old(State()).(filterType := t, coeffs := Coefficients())
    {
      filterType := t;
      UpdateCoefficients();
    }

    method SetFreq(f: real)
      modifies this
      ensures Current()
      ensures State() == old(State()).(freq := f, coeffs := Coefficients())
    {
      freq := f;
      UpdateCoefficients();
    }

    method SetQ(qv: real)
      modifies this
      ensures Current()
      ensures State() == old(State()).(q := qv, coeffs := Coefficients())
    {
      q := qv;
      UpdateCoefficients();
    }

    method SetGainDb(g: real)
      modifies this
      ensures Current()
      ensures State() == old(State()).(gainDb := g, coeffs := Coefficients())
    {
      gainDb := g;
      UpdateCoefficients();
    }

    /** Clears the two registers and nothing else. */
    method Reset()
      modifies this`z1, this`z2
      ensures State() == old(State()).(regs := Zero)
    {
      z1 := 0.0;
      z2 := 0.0;
    }

    method Process(x: real) returns (y: real)
      modifies this`z1, this`z2
      ensures (y, Registers()) == Step(Coefficients(), old(Registers()), x)
      ensures State() == old(State()).(regs := Registers())
    {
      ghost var c, s := Coefficients(), Registers();
      y := b0 * x + z1;
      assert y == c.b0 * x + s.z1;
      var pending := Pending(Coefficients(), Registers(), x, y);
      assert pending == Pending(c, s, x, c.b0 * x + s.z1);
      z1 := DenormProtect(pending.z1);
      z2 := DenormProtect(pending.z2);
      assert Coefficients() == c;
      assert Registers() == Regs(DenormProtect(pending.z1), DenormProtect(pending.z2));
      assert Step(c, s, x).0 == y;
      assert Step(c, s, x).1 == Registers();
    }

    /** Replaces samples[i] by the filtered sample, for i from 0 up to count. */
    method ProcessBuffer(samples: array<real>, count: nat)
      requires count <= samples.Length
      modifies this`z1, this`z2, samples
      ensures var (ys, s) := Run(Coefficients(), old(Registers()), old(samples[..count]));
        samples[..count] == ys && Registers() == s
      ensures samples[count..] == old(samples[count..])
      ensures State() == old(State()).(regs := Registers())
    {
      ghost var xs := samples[..count];
      var i := 0;
      while i < count
        invariant 0 <= i <= count
        invariant samples[i..] == old(samples[i..])
        invariant (samples[..i], Registers()) == Run(Coefficients(), old(Registers()), xs[..i])
        invariant State() == old(State()).(regs := Registers())
      {
        ghost var done := samples[..i];
        samples[i] := Process(samples[i]);
        assert samples[i + 1..] == old(samples[i + 1..]);
        assert xs[..i + 1][..i] == xs[..i];
        assert samples[..i + 1] == done + [samples[i]];
        i := i + 1;
      }
      assert xs[..count] == xs;
    }

    /** Recomputes the five stored coefficients from the parameters. */
    method UpdateCoefficients()
      modifies this`b0, this`b1, this`b2, this`a1, this`a2
      ensures Current()
      ensures State() == old(State()).(coeffs := Coefficients())
    {
      if filterType == None || sampleRate <= 0.0 {
        b0, b1, b2, a1, a2 := 1.0, 0.0, 0.0, 0.0, 0.0;
        return;
      }
      var p := DesignPrewarp(sampleRate, freq, q, gainDb, math);
      var raw := CookbookRaw(filterType, p.cw, p.sw, p.a, math.sqrt(p.a), p.alpha);
      assert raw == DesignRaw(filterType, sampleRate, freq, q, gainDb, math);
      var c := NormalizeA0(raw);
      b0, b1, b2, a1, a2 := c.b0, c.b1, c.b2, c.a1, c.a2;
      assert Coefficients() == NormalizeA0(raw);
    }
  }
}
