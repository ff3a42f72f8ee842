/** The 4x oversampler: cubic Hermite interpolation from the previous input
    to the current one into a four-slot buffer, an anti-imaging low-pass run
    over that buffer in place, and an anti-aliasing low-pass whose last
    output is the decimated sample. */
module Oversampling {
  import opened Libm
  import Biquad

  const Factor: nat := 4
  /** Cutoff of both filters, as a fraction of the base sample rate. */
  const CutoffRatio: real := 0.45
  const FilterQ: real := 0.707

  /** The four cubic Hermite basis polynomials. */
  function H00(t: real): real { 2.0 * (t * t * t) - 3.0 * (t * t) + 1.0 }
  function H10(t: real): real { t * t * t - 2.0 * (t * t) + t }
  function H01(t: real): real { -2.0 * (t * t * t) + 3.0 * (t * t) }
  function H11(t: real): real { t * t * t - t * t }

  /** The point at `t` of the Hermite segment from x0 (slope m0) to x1 (slope m1). */
  function Hermite(x0: real, m0: real, x1: real, m1: real, t: real): (r: real)
    ensures t == 0.0 ==> r == x0
    ensures t == 1.0 ==> r == x1
  {
    H00(t) * x0 + H10(t) * m0 + H01(t) * x1 + H11(t) * m1
  }

  /** At t = 1 the weights are (0, 0, 1, 0): the segment ends at x1. */
  lemma HermiteAtEnd(x0: real, m0: real, x1: real, m1: real)
    ensures H00(1.0) == 0.0 && H10(1.0) == 0.0 && H01(1.0) == 1.0 && H11(1.0) == 0.0
    ensures Hermite(x0, m0, x1, m1, 1.0) == x1
  {
  }

  /** The two value weights always sum to 1. */
  lemma PartitionOfUnity(t: real)
    ensures H00(t) + H01(t) == 1.0
  {
  }

  /** A flat segment (equal ends, zero slopes) is constant. */
  lemma FlatSegment(x: real, t: real)
    ensures Hermite(x, 0.0, x, 0.0, t) == x
  {
    PartitionOfUnity(t);
    assert Hermite(x, 0.0, x, 0.0, t) == (H00(t) + H01(t)) * x;
  }

  /** The frame `upsample` writes before filtering: the segment at t = 1/4,
      1/2, 3/4 and 1, with the finite difference x1 - x0 as the end slope. */
  function Interpolate(x0: real, m0: real, x1: real): (r: seq<real>)
    ensures |r| == Factor
    ensures r[Factor - 1] == x1
  {
    HermiteAtEnd(x0, m0, x1, x1 - x0);
    var m1 := x1 - x0;
    [Hermite(x0, m0, x1, m1, 0.25), Hermite(x0, m0, x1, m1, 0.5),
     Hermite(x0, m0, x1, m1, 0.75), Hermite(x0, m0, x1, m1, 1.0)]
  }

  /** A steady input with no remembered slope interpolates to four copies of itself. */
  lemma SteadyFrame(x: real)
    ensures Interpolate(x, 0.0, x) == [x, x, x, x]
  {
    FlatSegment(x, 0.25);
    FlatSegment(x, 0.5);
    FlatSegment(x, 0.75);
    FlatSegment(x, 1.0);
  }

  /** The oversampler's whole state. */
  datatype Os = Os(buffer: seq<real>, prevInput: real, prevSlope: real,
                   imaging: Biquad.Filter, alias: Biquad.Filter)

  /** `upsample`: the new buffer is the interpolated frame run through the
      anti-imaging filter; the input and the slope just used are remembered. */
  function Upsampled(s: Os, input: real): (r: Os)
    ensures |r.buffer| == Factor
    ensures r.prevInput == input && r.prevSlope == input - s.prevInput
    ensures r.alias == s.alias
    ensures r.imaging == s.imaging.(regs := r.imaging.regs)
  {
    var (ys, regs) := Biquad.Run(s.imaging.coeffs, s.imaging.regs, Interpolate(s.prevInput, s.prevSlope, input));
    Os(ys, input, input - s.prevInput, s.imaging.(regs := regs), s.alias)
  }

  lemma UpsampledFrom(s: Os, input: real, ys: seq<real>, regs: Biquad.Regs)
    requires Biquad.Run(s.imaging.coeffs, s.imaging.regs, Interpolate(s.prevInput, s.prevSlope, input)) == (ys, regs)
    ensures Upsampled(s, input) == Os(ys, input, input - s.prevInput, s.imaging.(regs := regs), s.alias)
  {
  }

  /** `downsample`: the buffer runs through the anti-aliasing filter and
      only the output for the last slot is kept. */
  function Downsampled(s: Os): (r: (real, Os))
    requires |s.buffer| == Factor
    ensures r.1 == s.(alias := r.1.alias)
    ensures r.1.alias == s.alias.(regs := r.1.alias.regs)
  {
    var (ys, regs) := Biquad.Run(s.alias.coeffs, s.alias.regs, s.buffer);
    (ys[Factor - 1], s.(alias := s.alias.(regs := regs)))
  }

  /** With a bypassed, cleared anti-imaging filter the buffer is the Hermite
      frame itself, so its last slot is the current input. */
  lemma BypassedUpsample(s: Os, input: real)
    requires s.imaging.coeffs == Biquad.Bypass && s.imaging.regs == Biquad.Zero
    ensures Upsampled(s, input).buffer == Interpolate(s.prevInput, s.prevSlope, input)
    ensures Upsampled(s, input).buffer[Factor - 1] == input
  {
    Biquad.BypassRun(Interpolate(s.prevInput, s.prevSlope, input));
  }

  /** With a bypassed, cleared anti-aliasing filter the decimated sample is the last slot. */
  lemma BypassedDownsample(s: Os)
    requires |s.buffer| == Factor
    requires s.alias.coeffs == Biquad.Bypass && s.alias.regs == Biquad.Zero
    ensures Downsampled(s).0 == s.buffer[Factor - 1]
  {
    Biquad.BypassRun(s.buffer);
  }

  class Oversampler {
    const buffer: array<real>
    var prevInput: real
    var prevSlope: real
    const antiImaging: Biquad.BiquadFilter
    const antiAlias: Biquad.BiquadFilter

    ghost predicate Valid()
      reads this
    {
      buffer.Length == Factor && antiImaging != antiAlias
    }

    function State(): Os
      reads this, buffer, antiImaging, antiAlias
    {
      Os(buffer[..], prevInput, prevSlope, antiImaging.State(), antiAlias.State())
    }

    /** A zeroed buffer, no interpolation history and two default filters. */
    constructor (m: Math)
      ensures Valid() && fresh(buffer) && fresh(antiImaging) && fresh(antiAlias)
      ensures antiImaging.math == m && antiAlias.math == m
      ensures antiImaging.Current() && antiAlias.Current()
      ensures State() == Os([0.0, 0.0, 0.0, 0.0], 0.0, 0.0, Biquad.DefaultFilter, Biquad.DefaultFilter)
    {
      buffer := new real[Factor](_ => 0.0);
      prevInput, prevSlope := 0.0, 0.0;
      antiImaging := new Biquad.BiquadFilter(m);
      antiAlias := new Biquad.BiquadFilter(m);
      new;
      assert buffer[..] == [0.0, 0.0, 0.0, 0.0];
    }

    /** Both filters move to the oversampled rate and become the 0.45 fs
        low-pass, with their registers cleared; the interpolation restarts. */
    method SetupAntiAliasing(sampleRate: real)
      requires Valid()
      modifies antiImaging, antiAlias, this`prevInput, this`prevSlope
      ensures Valid() && antiImaging.Current() && antiAlias.Current()
      ensures prevInput == 0.0 && prevSlope == 0.0 && buffer[..] == old(buffer[..])
      ensures antiImaging.State() == LowPassAt(sampleRate, antiImaging.Coefficients())
      ensures antiAlias.State() == LowPassAt(sampleRate, antiAlias.Coefficients())
    {
      var fsOS := sampleRate * Factor as real;
      antiImaging.SetSampleRate(fsOS);
      antiAlias.SetSampleRate(fsOS);
      var cutoff := sampleRate * CutoffRatio;
      antiImaging.Setup(Biquad.LowPass, cutoff, FilterQ);
      antiAlias.Setup(Biquad.LowPass, cutoff, FilterQ);
      prevInput := 0.0;
      prevSlope := 0.0;
    }

    /** Fills the buffer with the Hermite frame, filters it in place and
        returns it (the caller may then write into it). */
    method Upsample(input: real) returns (out: array<real>)
      requires Valid()
      modifies buffer, antiImaging`z1, antiImaging`z2, this`prevInput, this`prevSlope
      ensures Valid() && out == buffer
      ensures State() == Upsampled(old(State()), input)
    {
      var x0 := prevInput;
      var x1 := input;
      var m0 := prevSlope;
      var m1 := x1 - x0;
      buffer[0] := Hermite(x0, m0, x1, m1, 0.25);
      buffer[1] := Hermite(x0, m0, x1, m1, 0.5);
      buffer[2] := Hermite(x0, m0, x1, m1, 0.75);
      buffer[3] := Hermite(x0, m0, x1, m1, 1.0);
      ghost var frame := buffer[..];
      assert frame == Interpolate(x0, m0, x1);
      ghost var c, r0 := antiImaging.Coefficients(), antiImaging.Registers();
      var i := 0;
      while i < Factor
        invariant 0 <= i <= Factor
        invariant buffer[i..] == frame[i..]
        invariant (buffer[..i], antiImaging.Registers()) == Biquad.Run(c, r0, frame[..i])
        invariant antiImaging.State() == old(antiImaging.State()).(regs := antiImaging.Registers())
      {
        ghost var done := buffer[..i];
        buffer[i] := antiImaging.Process(buffer[i]);
        assert frame[..i + 1][..i] == frame[..i];
        assert buffer[..i + 1] == done + [buffer[i]];
        i := i + 1;
      }
      assert frame[..Factor] == frame;
      assert buffer[..Factor] == buffer[..];
      assert old(State()).imaging.coeffs == c && old(State()).imaging.regs == r0;
      assert old(State()).prevInput == x0 && old(State()).prevSlope == m0;
      UpsampledFrom(old(State()), input, buffer[..], antiImaging.Registers());
      prevSlope := m1;
      prevInput := x1;
      out := buffer;
      assert antiAlias.State() == old(antiAlias.State());
      assert State() == Os(buffer[..], input, m1, antiImaging.State(), antiAlias.State());
    }

    /** Runs the anti-aliasing filter over the buffer and returns its last output. */
    method Downsample() returns (y: real)
      requires Valid()
      modifies antiAlias`z1, antiAlias`z2
      ensures (y, State()) == Downsampled(old(State()))
    {
      ghost var c, r0 := antiAlias.Coefficients(), antiAlias.Registers();
      y := 0.0;
      var i := 0;
      while i < Factor
        invariant 0 <= i <= Factor
        invariant var (ys, regs) := Biquad.Run(c, r0, buffer[..i]);
          antiAlias.Registers() == regs && (i > 0 ==> y == ys[i - 1])
        invariant antiAlias.State() == old(antiAlias.State()).(regs := antiAlias.Registers())
      {
        y := antiAlias.Process(buffer[i]);
        assert buffer[..i + 1][..i] == buffer[..i];
        i := i + 1;
      }
      assert buffer[..Factor] == buffer[..];
    }
  }

  /** The state `setupAntiAliasing` leaves a filter in. */
  function LowPassAt(sampleRate: real, c: Biquad.Coeffs): Biquad.Filter
  {
    Biquad.Filter(Biquad.LowPass, sampleRate * Factor as real, sampleRate * CutoffRatio, FilterQ,
                  Biquad.DefaultGainDb, c, Biquad.Zero)
  }
}
