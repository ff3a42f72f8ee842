/** The per-channel distortion engine: input gain, an optional pre-filter,
    the selected waveshaper (oversampled four times, except the bitcrusher),
    a DC blocker, an optional post-filter, output gain, the wet/dry mix and
    a final tanh limiter. */
module Disto {
  import opened Libm
  import opened Numeric
  import opened Utils
  import Biquad
  import Oversampling
  import Smoothing
  import Shapers

  // ---------------------------------------------------------------- DC blocker

  /** The pole of the DC blocker. */
  const DcPole: real := 0.995

  /** The DC blocker's previous input, previous output and pole. */
  datatype Dc = Dc(x1: real, y1: real, pole: real)

  /** A default-constructed DC blocker. */
  const DcDefault: Dc := Dc(0.0, 0.0, DcPole)

  /** One sample: in - x1 + R y1, remembering the input and the output. */
  function DcStep(s: Dc, input: real): (r: (real, Dc))
    ensures r.1 == s.(x1 := input, y1 := r.0)
  {
    var output := input - s.x1 + s.pole * s.y1;
    (output, s.(x1 := input, y1 := output))
  }

  /** Once the input repeats, the output is the previous output times the pole. */
  lemma DcHeldInputDecays(s: Dc, input: real)
    ensures var (y0, s1) := DcStep(s, input);
      DcStep(s1, input).0 == s1.pole * y0
  {
  }

  /** The state after the same input has been held for n samples: the pole
      is kept and, after at least one sample, the remembered input is it. */
  function DcHeld(s: Dc, input: real, n: nat): (r: Dc)
    ensures r.pole == s.pole
    ensures n > 0 ==> r.x1 == input
  {
    if n == 0 then s else DcStep(DcHeld(s, input, n - 1), input).1
  }

  function PowR(b: real, n: nat): real
  {
    if n == 0 then 1.0 else b * PowR(b, n - 1)
  }

  /** From the default state, a constant input c gives c, c R, c R^2, ...:
      the blocker lets a step through and then removes the DC geometrically. */
  lemma {:induction false} DcStepResponse(c: real, n: nat)
    ensures DcHeld(DcDefault, c, n + 1).y1 == c * PowR(DcPole, n)
    ensures DcHeld(DcDefault, c, n + 1).x1 == c
  {
    if n > 0 {
      DcStepResponse(c, n - 1);
      assert c * PowR(DcPole, n) == DcPole * (c * PowR(DcPole, n - 1));
    }
  }

  class DCBlocker {
    var x1: real
    var y1: real
    var pole: real

    function State(): Dc
      reads this
    {
      Dc(x1, y1, pole)
    }

    constructor ()
      ensures State() == DcDefault
    {
      x1, y1, pole := 0.0, 0.0, DcPole;
    }

    method Process(input: real) returns (output: real)
      modifies this
      ensures (output, State()) == DcStep(old(State()), input)
    {
      ghost var s := State();
      output := input - x1 + pole * y1;
      assert output == input - s.x1 + s.pole * s.y1;
      x1 := input;
      y1 := output;
      assert DcStep(s, input).0 == input - s.x1 + s.pole * s.y1;
      assert DcStep(s, input).0 == output;
    }

    /** Assigning a default-constructed blocker over this one. */
    method AssignDefault()
      modifies this
      ensures State() == DcDefault
    {
      x1, y1, pole := 0.0, 0.0, DcPole;
    }
  }

  // ---------------------------------------------------------------- engine state

  /** The bitcrusher's selector value. */
  const BitcrushCode: int := Shapers.TypeIndex(Shapers.Bitcrusher)

  /** The engine's whole state.  `distType` is the selector's underlying value. */
  datatype Engine = Engine(
    sampleRate: real,
    distType: int,
    pre: Biquad.Filter,
    post: Biquad.Filter,
    preOn: bool,
    postOn: bool,
    dc: Dc,
    os: Oversampling.Os,
    inputGain: real,
    outputGain: real,
    drive: Smoothing.Smoother,
    asym: Smoothing.Smoother,
    mix: real,
    crush: Shapers.Crush)

  /** The drive smoother can never produce a negative drive. */
  predicate DriveOk(s: Smoothing.Smoother)
  {
    0.0 <= s.coeff <= 1.0 && s.processed >= 0.0 && s.target >= 0.0
  }

  /** What processing relies on: a four-slot oversampling buffer and a non-negative drive. */
  predicate Ok(e: Engine)
  {
    |e.os.buffer| == Oversampling.Factor && DriveOk(e.drive)
  }

  /** A filter runs only when it is switched on and its type is not None. */
  predicate FilterActive(on: bool, f: Biquad.Filter)
  {
    on && f.filterType != Biquad.None
  }

  /** One sample through a filter: only its registers change. */
  function FilterStep(f: Biquad.Filter, x: real): (r: (real, Biquad.Filter))
    ensures r.1 == f.(regs := r.1.regs)
    ensures (r.0, r.1.regs) == Biquad.Step(f.coeffs, f.regs, x)
  {
    var (y, regs) := Biquad.Step(f.coeffs, f.regs, x);
    (y, f.(regs := regs))
  }

  /** `smoothValues`: both smoothers advance one step. */
  function Smoothed(e: Engine): (r: Engine)
    ensures r == e.(drive := Smoothing.Advance(e.drive), asym := Smoothing.Advance(e.asym))
    ensures Ok(e) ==> Ok(r)
  {
    assert DriveOk(e.drive) ==> Smoothing.Advance(e.drive).processed >= 0.0 by {
      if DriveOk(e.drive) {
        Smoothing.StaysAbove(e.drive, 0.0);
      }
    }
    e.(drive := Smoothing.Advance(e.drive), asym := Smoothing.Advance(e.asym))
  }

  /** A sample leaving a stage together with the engine state after it. */
  datatype Out = Out(y: real, e: Engine)

  /** The pre-filter stage. */
  function PreStage(e: Engine, x: real): (r: Out)
    ensures r.e == e.(pre := r.e.pre)
    ensures FilterActive(e.preOn, e.pre) ==> r == Out(FilterStep(e.pre, x).0, e.(pre := FilterStep(e.pre, x).1))
    ensures !FilterActive(e.preOn, e.pre) ==> r == Out(x, e)
  {
    if FilterActive(e.preOn, e.pre) then
      var (y, f) := FilterStep(e.pre, x);
      Out(y, e.(pre := f))
    else Out(x, e)
  }

  /** The post-filter stage. */
  function PostStage(e: Engine, x: real): (r: Out)
    ensures r.e == e.(post := r.e.post)
    ensures FilterActive(e.postOn, e.post) ==> r == Out(FilterStep(e.post, x).0, e.(post := FilterStep(e.post, x).1))
    ensures !FilterActive(e.postOn, e.post) ==> r == Out(x, e)
  {
    if FilterActive(e.postOn, e.post) then
      var (y, f) := FilterStep(e.post, x);
      Out(y, e.(post := f))
    else Out(x, e)
  }

  /** The non-linear stage is skipped when the drive is 1 and the asymmetry 0, to within 1e-12. */
  predicate Bypassed(e: Engine)
    // exactly unit drive with no asymmetry is bypassed ...
    ensures e.drive.processed == 1.0 && e.asym.processed == 0.0 ==> Bypassed(e)
    // ... and a bypassed engine's drive is within the tolerance of 1, so positive
    ensures Bypassed(e) ==> 1.0 - Epsilon < e.drive.processed < 1.0 + Epsilon
  {
    AlmostEqual(e.drive.processed, 1.0) && AlmostEqual(e.asym.processed, 0.0)
  }

  /** Every slot of an upsampled frame replaced by its shaped value. */
  function ShapeFrame(code: int, frame: seq<real>, drive: real, asym: real, m: Math): (r: seq<real>)
    requires code != BitcrushCode && drive >= 0.0
    ensures |r| == |frame|
    ensures forall i :: 0 <= i < |frame| ==> r[i] == Shapers.Shaped(code, frame[i], drive, asym, m)
  {
    seq(|frame|, i requires 0 <= i < |frame| => Shapers.Shaped(code, frame[i], drive, asym, m))
  }

  /** Upsample, shape each of the four slots, downsample. */
  function Oversampled(e: Engine, x: real, m: Math): (r: (real, Oversampling.Os))
    requires Ok(e) && e.distType != BitcrushCode
    ensures |r.1.buffer| == Oversampling.Factor
  {
    var up := Oversampling.Upsampled(e.os, x);
    Oversampling.Downsampled(up.(buffer := ShapeFrame(e.distType, up.buffer, e.drive.processed, e.asym.processed, m)))
  }

  /** The shaping itself: the oversampled shaper, or the bitcrusher applied
      once at the base rate. */
  function WetStage(e: Engine, x: real, m: Math): (r: Out)
    requires Ok(e)
    ensures Ok(r.e)
    ensures r.e == e.(os := r.e.os, crush := r.e.crush)
    ensures e.distType == BitcrushCode ==>
      var b := Shapers.Bitcrush(x, e.drive.processed, e.crush, m);
      r == Out(b.0, e.(crush := b.1))
    ensures e.distType != BitcrushCode ==> r.e.crush == e.crush
  {
    if e.distType != BitcrushCode then
      var o := Oversampled(e, x, m);
      Out(o.0, e.(os := o.1))
    else
      var b := Shapers.Bitcrush(x, e.drive.processed, e.crush, m);
      Out(b.0, e.(crush := b.1))
  }

  /** The DC blocker stage. */
  function DcStage(e: Engine, x: real): (r: Out)
    ensures r.e == e.(dc := r.e.dc)
    ensures (r.y, r.e.dc) == DcStep(e.dc, x)
  {
    var d := DcStep(e.dc, x);
    Out(d.0, e.(dc := d.1))
  }

  /** The non-linear stage: skipped in bypass, otherwise the shaping followed
      by the DC blocker. */
  function NonLinearStage(e: Engine, x: real, m: Math): (r: Out)
    requires Ok(e)
    ensures Ok(r.e)
    ensures r.e == e.(os := r.e.os, crush := r.e.crush, dc := r.e.dc)
    ensures Bypassed(e) ==> r == Out(x, e)
    ensures !Bypassed(e) && e.distType == BitcrushCode ==> r.e.os == e.os
    ensures e.distType != BitcrushCode ==> r.e.crush == e.crush
  {
    if Bypassed(e) then Out(x, e)
    else
      var w := WetStage(e, x, m);
      DcStage(w.e, w.y)
  }

  /** A gain applied to a sample. */
  function Gained(x: real, g: real): real
  {
    x * g
  }

  /** The wet/dry blend: `mix` of the wet signal and the rest of the dry one. */
  function Mixed(mix: real, wet: real, dry: real): real
  {
    mix * wet + (1.0 - mix) * dry
  }

  /** Output gain, the wet/dry mix against the raw input, and the final tanh. */
  function Output(e: Engine, dry: real, wet: real, m: Math): real
  {
    m.tanh(Mixed(e.mix, Gained(wet, e.outputGain), dry))
  }

  /** One `process` call: the output sample and the new state. */
  function Step(e: Engine, input: real, m: Math): (r: Out)
    requires Ok(e)
    ensures Ok(r.e)
  {
    var p := PreStage(Smoothed(e), Gained(input, e.inputGain));
    var n := NonLinearStage(p.e, p.y, m);
    var q := PostStage(n.e, n.y);
    Out(Output(q.e, input, q.y, m), q.e)
  }

  // ---------------------------------------------------------------- properties of a step

  /** A step is its stages in order. */
  lemma StepChain(e: Engine, input: real, m: Math, p: Out, n: Out, q: Out)
    requires Ok(e)
    requires p == PreStage(Smoothed(e), Gained(input, e.inputGain))
    requires n == NonLinearStage(p.e, p.y, m)
    requires q == PostStage(n.e, n.y)
    ensures Step(e, input, m) == Out(Output(q.e, input, q.y, m), q.e)
  {
  }
  /** A step changes only filter registers, the oversampler, the DC blocker,
      the bitcrusher and the smoothers' processed values. */
  lemma StepFrame(e: Engine, input: real, m: Math)
    requires Ok(e)
    ensures var e' := Step(e, input, m).e;
      && e'.sampleRate == e.sampleRate && e'.distType == e.distType
      && e'.preOn == e.preOn && e'.postOn == e.postOn
      && e'.inputGain == e.inputGain && e'.outputGain == e.outputGain && e'.mix == e.mix
      && e'.pre == e.pre.(regs := e'.pre.regs) && e'.post == e.post.(regs := e'.post.regs)
      && e'.drive == Smoothing.Advance(e.drive) && e'.asym == Smoothing.Advance(e.asym)
  {
  }

  /** With the mix at 0 the output is tanh of the raw input, whatever the rest does. */
  lemma DryMixIsLimitedInput(e: Engine, input: real, m: Math)
    requires Ok(e) && e.mix == 0.0
    ensures Step(e, input, m).y == m.tanh(input)
  {
    var p := PreStage(Smoothed(e), Gained(input, e.inputGain));
    var n := NonLinearStage(p.e, p.y, m);
    var q := PostStage(n.e, n.y);
    StepChain(e, input, m, p, n, q);
    assert q.e.mix == 0.0;
    assert Mixed(q.e.mix, Gained(q.y, q.e.outputGain), input) == input;
  }

  /** In bypass the oversampler, the bitcrusher and the DC blocker keep their state. */
  lemma BypassKeepsNonLinearState(e: Engine, input: real, m: Math)
    requires Ok(e) && Bypassed(Smoothed(e))
    ensures var e' := Step(e, input, m).e;
      e'.os == e.os && e'.crush == e.crush && e'.dc == e.dc
  {
  }

  /** Outside bypass the bitcrusher runs at the base rate and leaves the oversampler alone. */
  lemma BitcrusherSkipsOversampler(e: Engine, input: real, m: Math)
    requires Ok(e) && e.distType == BitcrushCode && !Bypassed(Smoothed(e))
    ensures var e' := Step(e, input, m).e;
      e'.os == e.os
  {
  }

  /** Every other selector goes through the oversampler, and the bitcrusher's state stays put. */
  lemma ShapersKeepCrushState(e: Engine, input: real, m: Math)
    requires Ok(e) && e.distType != BitcrushCode
    ensures Step(e, input, m).e.crush == e.crush
  {
  }

  /** A filter that is off, or of type None, keeps its registers. */
  lemma InactiveFiltersKeepState(e: Engine, input: real, m: Math)
    requires Ok(e)
    ensures !FilterActive(e.preOn, e.pre) ==> Step(e, input, m).e.pre == e.pre
    ensures !FilterActive(e.postOn, e.post) ==> Step(e, input, m).e.post == e.post
  {
  }

  // ---------------------------------------------------------------- configuration

  /** A filter whose coefficients are redesigned from its parameters. */
  function Redesigned(f: Biquad.Filter, m: Math): (r: Biquad.Filter)
    ensures r == f.(coeffs := r.coeffs)
    ensures f.filterType == Biquad.None ==> r.coeffs == Biquad.Bypass
  {
    f.(coeffs := Biquad.Design(f.filterType, f.sampleRate, f.freq, f.q, f.gainDb, m))
  }

  /** What `setupAntiAliasing(sr)` leaves each oversampler filter as. */
  function AntiAliasFilter(sr: real, m: Math): (r: Biquad.Filter)
    ensures r.filterType == Biquad.LowPass && r.regs == Biquad.Zero
    ensures r.sampleRate == sr * Oversampling.Factor as real && r.freq == sr * Oversampling.CutoffRatio
  {
    Oversampling.LowPassAt(sr, Biquad.Design(Biquad.LowPass, sr * Oversampling.Factor as real,
                                             sr * Oversampling.CutoffRatio, Oversampling.FilterQ,
                                             Biquad.DefaultGainDb, m))
  }

  /** `setSampleRate`: the engine, the oversampler (whose interpolation
      restarts), both filters and both smoothers (10 ms for the drive, 5 ms
      for the asymmetry) move to the new rate. */
  function SampleRateSet(e: Engine, sr: real, m: Math): (r: Engine)
    ensures r.sampleRate == sr
    ensures r.drive.coeff == Smoothing.Coeff(sr, 10.0, m) && r.asym.coeff == Smoothing.Coeff(sr, 5.0, m)
    ensures r.os.buffer == e.os.buffer && r.os.prevInput == 0.0 && r.os.prevSlope == 0.0
    ensures r.pre.regs == e.pre.regs && r.post.regs == e.post.regs
    ensures Ok(e) && sr >= 0.0 ==> Ok(r)
  {
    e.(sampleRate := sr,
       os := e.os.(prevInput := 0.0, prevSlope := 0.0,
                   imaging := AntiAliasFilter(sr, m), alias := AntiAliasFilter(sr, m)),
       pre := Redesigned(e.pre.(sampleRate := sr), m),
       post := Redesigned(e.post.(sampleRate := sr), m),
       drive := Smoothing.WithSetup(e.drive, sr, 10.0, m),
       asym := Smoothing.WithSetup(e.asym, sr, 5.0, m))
  }

  /** Setting the same rate twice is the same as setting it once. */
  lemma SampleRateSetIdempotent(e: Engine, sr: real, m: Math)
    ensures SampleRateSet(SampleRateSet(e, sr, m), sr, m) == SampleRateSet(e, sr, m)
  {
  }

  /** `reset`: both filters' registers are cleared and the DC blocker is a default one. */
  function Cleared(e: Engine): (r: Engine)
    ensures Ok(e) ==> Ok(r)
  {
    e.(pre := e.pre.(regs := Biquad.Zero), post := e.post.(regs := Biquad.Zero), dc := DcDefault)
  }

  /** `setDrive`: the drive smoother takes the new target and keeps gliding
      from where it is; a non-negative drive keeps the engine invariant. */
  function DriveSet(e: Engine, d: real): (r: Engine)
    ensures r == e.(drive := r.drive)
    ensures r.drive.target == d && r.drive.processed == e.drive.processed && r.drive.coeff == e.drive.coeff
    ensures Ok(e) && d >= 0.0 ==> Ok(r)
  {
    e.(drive := Smoothing.WithTarget(e.drive, d))
  }

  /** A raised drive is approached from below: the next smoothing step moves
      the drive toward the new target without passing it. */
  lemma DriveRisesTowardTarget(e: Engine, d: real)
    requires Ok(e) && d >= e.drive.processed
    ensures var r := Smoothed(DriveSet(e, d)).drive.processed;
      e.drive.processed <= r <= d
  {
    Smoothing.NoOvershoot(DriveSet(e, d).drive);
  }

  /** `setOutputGain`: only the output gain changes. */
  function OutputGainSet(e: Engine, g: real): (r: Engine)
    ensures r == e.(outputGain := g)
    ensures Ok(e) ==> Ok(r)
  {
    e.(outputGain := g)
  }

  /** Reset leaves the coefficients, the smoothers, the oversampler, the
      bitcrusher and every parameter as they were, and is idempotent. */
  lemma ResetKeepsConfiguration(e: Engine)
    ensures var r := Cleared(e);
      && r.pre.coeffs == e.pre.coeffs && r.post.coeffs == e.post.coeffs
      && r.pre.filterType == e.pre.filterType && r.post.filterType == e.post.filterType
      && r.os == e.os && r.crush == e.crush && r.drive == e.drive && r.asym == e.asym
      && r.distType == e.distType && r.mix == e.mix && r.inputGain == e.inputGain && r.outputGain == e.outputGain
      && r.preOn == e.preOn && r.postOn == e.postOn && r.sampleRate == e.sampleRate
      && r.pre == e.pre.(regs := r.pre.regs) && r.post == e.post.(regs := r.post.regs)
      && Cleared(r) == r
  {
  }

  /** After a reset with the filters off and the drive settled at 1 with no
      asymmetry, the engine is a soft limiter: tanh of the dry/wet blend of the gained input. */
  lemma CleanPathIsLimiter(e: Engine, input: real, m: Math)
    requires Ok(e) && !e.preOn && !e.postOn && Bypassed(Smoothed(e))
    ensures Step(e, input, m).y
         == m.tanh(e.mix * (input * e.inputGain * e.outputGain) + (1.0 - e.mix) * input)
  {
    var e1 := Smoothed(e);
    var x := Gained(input, e.inputGain);
    assert e1.inputGain == e.inputGain && !e1.preOn && !e1.postOn;
    assert !FilterActive(e1.preOn, e1.pre) && !FilterActive(e1.postOn, e1.post);
    assert PreStage(e1, x) == Out(x, e1);
    assert NonLinearStage(e1, x, m) == Out(x, e1);
    assert PostStage(e1, x) == Out(x, e1);
    assert Step(e, input, m).y == Output(e1, input, x, m);
    Congruent(m.tanh, Mixed(e1.mix, Gained(x, e1.outputGain), input),
                      e.mix * (input * e.inputGain * e.outputGain) + (1.0 - e.mix) * input);
  }

  /** The engine as default-constructed: tube screamer, unit gains and mix,
      a 10 kHz low-pass pre-filter and an 80 Hz high-pass post-filter, both
      switched off, a default DC blocker, oversampler and smoothers. */
  function Default(m: Math): (r: Engine)
    ensures Ok(r)
    ensures r.distType == Shapers.TypeIndex(Shapers.TubeScreamer)
  {
    Engine(44100.0, Shapers.TypeIndex(Shapers.TubeScreamer),
           Biquad.Filter(Biquad.LowPass, Biquad.DefaultSampleRate, 10000.0, 0.707, Biquad.DefaultGainDb,
                         Biquad.Design(Biquad.LowPass, Biquad.DefaultSampleRate, 10000.0, 0.707, Biquad.DefaultGainDb, m),
                         Biquad.Zero),
           Biquad.Filter(Biquad.HighPass, Biquad.DefaultSampleRate, 80.0, 0.707, Biquad.DefaultGainDb,
                         Biquad.Design(Biquad.HighPass, Biquad.DefaultSampleRate, 80.0, 0.707, Biquad.DefaultGainDb, m),
                         Biquad.Zero),
           false, false, DcDefault,
           Oversampling.Os([0.0, 0.0, 0.0, 0.0], 0.0, 0.0, Biquad.DefaultFilter, Biquad.DefaultFilter),
           1.0, 1.0, Smoothing.Initial, Smoothing.Initial, 1.0, Shapers.CrushInitial)
  }

  /** A default engine has drive 0 before any parameter arrives, so it is not in bypass. */
  lemma DefaultIsNotBypassed(m: Math)
    ensures !Bypassed(Smoothed(Default(m)))
  {
  }

  // ---------------------------------------------------------------- the engine object

  class MultiDisto {
    var sampleRate: real
    var distType: int
    const preFilter: Biquad.BiquadFilter
    const postFilter: Biquad.BiquadFilter
    const dcBlocker: DCBlocker
    const oversampler: Oversampling.Oversampler
    var inputGain: real
    var outputGain: real
    const drive: Smoothing.SmoothedValue
    const asymmetry: Smoothing.SmoothedValue
    var mix: real
    var preOn: bool
    var postOn: bool
    var crushPhase: nat
    var crushHold: real
    const math: Math

    /** Four distinct filters, all designed with this engine's maths and
        holding the coefficients of their parameters, two distinct smoothers,
        and a drive that cannot go negative. */
    ghost predicate Valid()
      reads this, preFilter, postFilter, oversampler, oversampler.antiImaging, oversampler.antiAlias, drive
    {
      && preFilter != postFilter
      && oversampler.antiImaging !in {preFilter, postFilter}
      && oversampler.antiAlias !in {preFilter, postFilter}
      && drive != asymmetry
      && oversampler.Valid()
      && preFilter.math == math && postFilter.math == math
      && oversampler.antiImaging.math == math && oversampler.antiAlias.math == math
      && DriveOk(drive.State())
    }

    function State(): Engine
      reads this, preFilter, postFilter, dcBlocker, oversampler, oversampler.buffer,
            oversampler.antiImaging, oversampler.antiAlias, drive, asymmetry
    {
      Engine(sampleRate, distType, preFilter.State(), postFilter.State(), preOn, postOn,
             dcBlocker.State(), oversampler.State(), inputGain, outputGain,
             drive.State(), asymmetry.State(), mix, Shapers.Crush(crushPhase, crushHold))
    }

    constructor (m: Math)
      ensures math == m
      ensures State() == Default(m)
      ensures Valid()
    {
      ghost var d := Default(m);
      var pre := new Biquad.BiquadFilter.Init(m, Biquad.LowPass, 10000.0, 0.707);
      assert pre.State() == d.pre;
      var post := new Biquad.BiquadFilter.Init(m, Biquad.HighPass, 80.0, 0.707);
      assert post.State() == d.post;
      var dc := new DCBlocker();
      var os := new Oversampling.Oversampler(m);
      assert os.State() == d.os;
      var dr := new Smoothing.SmoothedValue();
      var asym := new Smoothing.SmoothedValue();
      assert dr.State() == d.drive && asym.State() == d.asym;
      math := m;
      sampleRate := 44100.0;
      distType := Shapers.TypeIndex(Shapers.TubeScreamer);
      preFilter, postFilter, dcBlocker, oversampler := pre, post, dc, os;
      inputGain, outputGain, mix := 1.0, 1.0, 1.0;
      drive, asymmetry := dr, asym;
      preOn, postOn := false, false;
      crushPhase, crushHold := 0, 0.0;
      new;
    }

    method SetSampleRate(sr: real)
      requires Valid() && sr >= 0.0
      modifies this`sampleRate, oversampler`prevInput, oversampler`prevSlope,
               oversampler.antiImaging, oversampler.antiAlias, preFilter, postFilter,
               drive`sampleRate, drive`coeff, asymmetry`sampleRate, asymmetry`coeff
      ensures Valid()
      ensures State() == SampleRateSet(old(State()), sr, math)
    {
      sampleRate := sr;
      SetFilterRates(sr);
      SetSmootherRates(sr);
    }

    /** The oversampler's and both filters' part of `setSampleRate`. */
    method SetFilterRates(sr: real)
      requires Valid()
      modifies oversampler`prevInput, oversampler`prevSlope,
               oversampler.antiImaging, oversampler.antiAlias, preFilter, postFilter
      ensures Valid()
      ensures var e := old(State()); var r := SampleRateSet(e, sr, math);
        State() == e.(os := r.os, pre := r.pre, post := r.post)
    {
      oversampler.SetupAntiAliasing(sr);
      preFilter.SetSampleRate(sr);
      postFilter.SetSampleRate(sr);
    }

    /** The two smoothers' part of `setSampleRate`: 10 ms for the drive, 5 ms for the asymmetry. */
    method SetSmootherRates(sr: real)
      requires Valid() && sr >= 0.0
      modifies drive`sampleRate, drive`coeff, asymmetry`sampleRate, asymmetry`coeff
      ensures Valid()
      ensures var e := old(State()); var r := SampleRateSet(e, sr, math);
        State() == e.(drive := r.drive, asym := r.asym)
    {
      drive.Setup(sr, 10.0, math);
      asymmetry.Setup(sr, 5.0, math);
    }

    method Reset()
      requires Valid()
      modifies preFilter`z1, preFilter`z2, postFilter`z1, postFilter`z2, dcBlocker
      ensures Valid()
      ensures State() == Cleared(old(State()))
    {
      preFilter.Reset();
      postFilter.Reset();
      dcBlocker.AssignDefault();
    }

    method SmoothValues()
      requires Valid()
      modifies drive`processed, asymmetry`processed
      ensures Valid()
      ensures State() == Smoothed(old(State()))
    {
      ghost var e := State();
      drive.Process();
      asymmetry.Process();
      assert State() == Smoothed(e);
    }

    /** `setDrive`: assigns the drive smoother's target. */
    method SetDrive(d: real)
      requires Valid() && d >= 0.0
      modifies drive`target
      ensures Valid()
      ensures State() == DriveSet(old(State()), d)
    {
      drive.Assign(d);
    }

    /** `setOutputGain`: stores the output gain. */
    method SetOutputGain(g: real)
      requires Valid()
      modifies this`outputGain
      ensures Valid()
      ensures State() == OutputGainSet(old(State()), g)
    {
      outputGain := g;
    }

    /** `bitcrushDistortion`: advances the phase counter and, on phase 0, takes a new held sample. */
    method BitcrushDistortion(input: real) returns (r: real)
      modifies this`crushPhase, this`crushHold
      ensures (r, Shapers.Crush(crushPhase, crushHold))
           == Shapers.Bitcrush(input, drive.processed, old(Shapers.Crush(crushPhase, crushHold)), math)
    {
      var driveDbNorm := Shapers.DriveNorm(drive.Value(), math);
      var bits := Shapers.Bits(driveDbNorm);
      var levels := Shapers.Levels(bits);
      var holdN := Shapers.HoldLength(driveDbNorm);
      var x := Clamp(input, -1.0, 1.0);
      if crushPhase == 0 {
        crushHold := Shapers.Quantise(x, levels);
      }
      crushPhase := (crushPhase + 1) % holdN;
      r := crushHold;
    }

    /** `applyDistortion` on the current selector value. */
    method ApplyDistortion(input: real) returns (r: real)
      requires DriveOk(drive.State())
      modifies this`crushPhase, this`crushHold
      ensures (r, Shapers.Crush(crushPhase, crushHold))
           == Shapers.ApplyDistortion(distType, input, drive.processed, asymmetry.processed,
                                      old(Shapers.Crush(crushPhase, crushHold)), math)
    {
      if distType == BitcrushCode {
        r := BitcrushDistortion(input);
      } else {
        r := Shapers.Shaped(distType, input, drive.Value(), asymmetry.Value(), math);
      }
    }

    /** Shapes each slot of the upsampled buffer in place, in order. */
    method ShapeBuffer()
      requires Valid() && distType != BitcrushCode
      modifies oversampler.buffer, this`crushPhase, this`crushHold
      ensures oversampler.buffer[..]
           == ShapeFrame(distType, old(oversampler.buffer[..]), drive.processed, asymmetry.processed, math)
      ensures crushPhase == old(crushPhase) && crushHold == old(crushHold)
    {
      var buf := oversampler.buffer;
      ghost var frame := buf[..];
      var i := 0;
      while i < Oversampling.Factor
        invariant 0 <= i <= Oversampling.Factor
        invariant forall k :: 0 <= k < i ==>
          buf[k] == Shapers.Shaped(distType, frame[k], drive.processed, asymmetry.processed, math)
        invariant forall k :: i <= k < Oversampling.Factor ==> buf[k] == frame[k]
        invariant crushPhase == old(crushPhase) && crushHold == old(crushHold)
      {
        buf[i] := ApplyDistortion(buf[i]);
        i := i + 1;
      }
      assert buf[..] == ShapeFrame(distType, frame, drive.processed, asymmetry.processed, math);
    }

    /** Upsample, shape every slot, downsample. */
    method OversampledDistortion(input: real) returns (y: real)
      requires Valid() && distType != BitcrushCode
      modifies oversampler.buffer, oversampler.antiImaging`z1, oversampler.antiImaging`z2,
               oversampler`prevInput, oversampler`prevSlope, oversampler.antiAlias`z1, oversampler.antiAlias`z2,
               this`crushPhase, this`crushHold
      ensures Valid()
      ensures crushPhase == old(crushPhase) && crushHold == old(crushHold)
      ensures (y, oversampler.State()) == Oversampled(old(State()), input, math)
    {
      ghost var e := State();
      var _ := oversampler.Upsample(input);
      ghost var up := oversampler.State();
      assert up == Oversampling.Upsampled(e.os, input);
      ShapeBuffer();
      assert oversampler.State() == up.(buffer := ShapeFrame(e.distType, up.buffer, e.drive.processed, e.asym.processed, math));
      y := oversampler.Downsample();
    }

    /** The shaping part of the non-linear stage. */
    method Wet(input: real) returns (signal: real)
      requires Valid()
      modifies oversampler.buffer, oversampler.antiImaging`z1, oversampler.antiImaging`z2,
               oversampler`prevInput, oversampler`prevSlope, oversampler.antiAlias`z1, oversampler.antiAlias`z2,
               this`crushPhase, this`crushHold
      ensures Valid()
      ensures Out(signal, State()) == WetStage(old(State()), input, math)
    {
      if distType != BitcrushCode {
        signal := OversampledDistortion(input);
      } else {
        signal := ApplyDistortion(input);
      }
    }

    /** The DC blocker, as the engine runs it. */
    method DcBlock(input: real) returns (signal: real)
      requires Valid()
      modifies dcBlocker
      ensures Valid()
      ensures Out(signal, State()) == DcStage(old(State()), input)
    {
      signal := dcBlocker.Process(input);
    }

    /** The non-linear stage of `process`. */
    method NonLinear(input: real) returns (signal: real)
      requires Valid()
      modifies dcBlocker, oversampler.buffer, oversampler.antiImaging`z1, oversampler.antiImaging`z2,
               oversampler`prevInput, oversampler`prevSlope, oversampler.antiAlias`z1, oversampler.antiAlias`z2,
               this`crushPhase, this`crushHold
      ensures Valid()
      ensures Out(signal, State()) == NonLinearStage(old(State()), input, math)
    {
      signal := input;
      var bypass := AlmostEqual(drive.Value(), 1.0) && AlmostEqual(asymmetry.Value(), 0.0);
      if bypass {
        return;
      }
      signal := Wet(signal);
      signal := DcBlock(signal);
    }

    /** The pre-filter stage of `process`. */
    method PreFilter(input: real) returns (signal: real)
      requires Valid()
      modifies preFilter`z1, preFilter`z2
      ensures Valid()
      ensures Out(signal, State()) == PreStage(old(State()), input)
    {
      signal := input;
      if preOn && preFilter.filterType != Biquad.None {
        signal := preFilter.Process(signal);
      }
    }

    /** The post-filter stage of `process`. */
    method PostFilter(input: real) returns (signal: real)
      requires Valid()
      modifies postFilter`z1, postFilter`z2
      ensures Valid()
      ensures Out(signal, State()) == PostStage(old(State()), input)
    {
      signal := input;
      if postOn && postFilter.filterType != Biquad.None {
        signal := postFilter.Process(signal);
      }
    }

    /** `process`: one sample through the whole chain. */
    method Process(input: real) returns (output: real)
      requires Valid()
      modifies preFilter`z1, preFilter`z2, postFilter`z1, postFilter`z2, dcBlocker,
               oversampler.buffer, oversampler.antiImaging`z1, oversampler.antiImaging`z2,
               oversampler`prevInput, oversampler`prevSlope, oversampler.antiAlias`z1, oversampler.antiAlias`z2,
               drive`processed, asymmetry`processed, this`crushPhase, this`crushHold
      ensures Valid()
      ensures Out(output, State()) == Step(old(State()), input, math)
    {
      ghost var e0 := State();
      SmoothValues();
      ghost var e1 := State();
      assert e1 == Smoothed(e0);
      var drySignal := input;
      var signal := Gained(input, inputGain);
      ghost var p := PreStage(e1, signal);
      signal := PreFilter(signal);
      assert Out(signal, State()) == p;
      ghost var n := NonLinearStage(p.e, p.y, math);
      signal := NonLinear(signal);
      assert Out(signal, State()) == n;
      ghost var q := PostStage(n.e, n.y);
      signal := PostFilter(signal);
      assert Out(signal, State()) == q;
      StepChain(e0, input, math, p, n, q);
      signal := Gained(signal, outputGain);
      signal := Mixed(mix, signal, drySignal);
      output := math.tanh(signal);
    }
  }
}
