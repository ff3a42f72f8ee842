/** The one-pole parameter smoother: each `process` moves the processed
    value a fixed fraction of the way to the target, unless the two are
    already within the 1e-12 tolerance. */
module Smoothing {
  import opened Libm
  import opened Numeric
  import opened Utils

  datatype Smoother = Smoother(sampleRate: real, coeff: real, processed: real, target: real)

  /** The declared initial state: 44.1 kHz, coefficient 0, value and target 0. */
  const Initial: Smoother := Smoother(44100.0, 0.0, 0.0, 0.0)

  const MinTau: real := 1e-6

  /** The time constant in seconds, never below 1e-6. */
  function Tau(ms: real): (tau: real)
    ensures tau >= MinTau && tau >= ms * 1e-3
    ensures tau == MinTau || tau == ms * 1e-3
  {
    Max(MinTau, ms * 1e-3)
  }

  /** 1 - exp(-1 / (tau * sampleRate)).  At a zero sample rate the IEEE
      quotient is -infinity and its exponential 0, so the coefficient is 1. */
  function Coeff(sampleRate: real, ms: real, m: Math): (c: real)
    ensures sampleRate > 0.0 ==> 0.0 < c < 1.0
    ensures sampleRate == 0.0 ==> c == 1.0
    ensures sampleRate >= 0.0 ==> 0.0 <= c <= 1.0
  {
    if sampleRate == 0.0 then 1.0
    else
      var tau := Tau(ms);
      var e := -1.0 / (tau * sampleRate);
      assert sampleRate > 0.0 ==> e < 0.0 by {
        if sampleRate > 0.0 {
          assert tau * sampleRate > 0.0;
        }
      }
      1.0 - m.exp(e)
  }

  function WithSetup(s: Smoother, sampleRate: real, ms: real, m: Math): (r: Smoother)
    ensures r.processed == s.processed && r.target == s.target && r.sampleRate == sampleRate
    ensures sampleRate >= 0.0 ==> 0.0 <= r.coeff <= 1.0
  {
    s.(sampleRate := sampleRate, coeff := Coeff(sampleRate, ms, m))
  }

  /** The value a fraction c of the way from p to t. */
  function Toward(p: real, t: real, c: real): (r: real)
    ensures c == 0.0 ==> r == p
    ensures c == 1.0 ==> r == t
    ensures r - t == (1.0 - c) * (p - t)
  {
    p + c * (t - p)
  }

  /** One `process` call. */
  function Advance(s: Smoother): (r: Smoother)
    ensures r.sampleRate == s.sampleRate && r.coeff == s.coeff && r.target == s.target
    ensures AlmostEqual(s.processed, s.target) ==> r == s
    ensures !AlmostEqual(s.processed, s.target) ==> r.processed == Toward(s.processed, s.target, s.coeff)
  {
    if AlmostEqual(s.processed, s.target) then s
    else s.(processed := Toward(s.processed, s.target, s.coeff))
  }

  /** Assigning a number sets the target and nothing else. */
  function WithTarget(s: Smoother, v: real): (r: Smoother)
    ensures r.target == v && r.processed == s.processed
    ensures r.sampleRate == s.sampleRate && r.coeff == s.coeff
  {
    s.(target := v)
  }

  /** A value already within the tolerance of its target is left alone. */
  lemma SettledStays(s: Smoother)
    requires -Epsilon < s.processed - s.target < Epsilon
    ensures Advance(s) == s
  {
  }

  /** Before any setup the coefficient is 0, so nothing ever moves. */
  lemma NoMotionWithoutSetup(s: Smoother)
    requires s.coeff == 0.0
    ensures Advance(s) == s
  {
  }

  /** With a coefficient in [0, 1] the new value lies between the old value and the target. */
  lemma NoOvershoot(s: Smoother)
    requires 0.0 <= s.coeff <= 1.0
    ensures var p := Advance(s).processed;
      (s.processed <= s.target ==> s.processed <= p <= s.target)
      && (s.target <= s.processed ==> s.target <= p <= s.processed)
  {
    if !AlmostEqual(s.processed, s.target) {
      StepBetween(s.processed, s.target, s.coeff);
    }
  }

  /** p + c (t - p) lies between p and t for c in [0, 1]. */
  lemma StepBetween(p: real, t: real, c: real)
    requires 0.0 <= c <= 1.0
    ensures p <= t ==> p <= Toward(p, t, c) <= t
    ensures t <= p ==> t <= Toward(p, t, c) <= p
  {
    var d := t - p;
    FractionBetween(c, d);
    assert Toward(p, t, c) == p + c * d;
  }

  /** c d lies between 0 and d for c in [0, 1], whatever the sign of d. */
  lemma FractionBetween(c: real, d: real)
    requires 0.0 <= c <= 1.0
    ensures d >= 0.0 ==> 0.0 <= c * d <= d
    ensures d <= 0.0 ==> d <= c * d <= 0.0
  {
    if d >= 0.0 {
      MulLeqRight(0.0, c, d);
      MulLeqRight(c, 1.0, d);
    } else {
      MulLeqRight(0.0, c, -d);
      MulLeqRight(c, 1.0, -d);
    }
  }

  /** Outside the tolerance the distance to the target shrinks by the factor 1 - coeff. */
  lemma DistanceScales(s: Smoother)
    requires !AlmostEqual(s.processed, s.target)
    ensures s.target - Advance(s).processed == (1.0 - s.coeff) * (s.target - s.processed)
  {
  }

  /** `n` consecutive `process` calls. */
  function AdvanceN(s: Smoother, n: nat): (r: Smoother)
    ensures r.sampleRate == s.sampleRate && r.coeff == s.coeff && r.target == s.target
  {
    if n == 0 then s else Advance(AdvanceN(s, n - 1))
  }

  /** Repeated processing never carries the value past its target: starting
      at or below the target it stays at or below it and never decreases. */
  lemma {:induction false} MonotoneApproach(s: Smoother, n: nat)
    requires 0.0 <= s.coeff <= 1.0 && s.processed <= s.target
    ensures s.processed <= AdvanceN(s, n).processed <= s.target
  {
    if n > 0 {
      MonotoneApproach(s, n - 1);
      NoOvershoot(AdvanceN(s, n - 1));
    }
  }

  /** With a coefficient in [0, 1], one step keeps a value and target that are
      both at least `lo` at least `lo`. */
  lemma StaysAbove(s: Smoother, lo: real)
    requires 0.0 <= s.coeff <= 1.0 && s.processed >= lo && s.target >= lo
    ensures Advance(s).processed >= lo
  {
    NoOvershoot(s);
  }

  class SmoothedValue {
    var sampleRate: real
    var coeff: real
    var processed: real
    var target: real

    function State(): Smoother
      reads this
    {
      Smoother(sampleRate, coeff, processed, target)
    }

    constructor ()
      ensures State() == Initial
    {
      sampleRate, coeff, processed, target := 44100.0, 0.0, 0.0, 0.0;
    }

    method Setup(sr: real, ms: real, m: Math)
      modifies this`sampleRate, this`coeff
      ensures State() == WithSetup(old(State()), sr, ms, m)
    {
      sampleRate := sr;
      coeff := Coeff(sampleRate, ms, m);
    }

    method Process()
      modifies this`processed
      ensures State() == Advance(old(State()))
    {
      if AlmostEqual(processed, target) {
        return;
      }
      processed := processed + coeff * (target - processed);
    }

    /** operator double: the processed value, without advancing it. */
    function Value(): (v: real)
      reads this
      ensures v == State().processed
    {
      processed
    }

    /** operator=(double): sets the target only. */
    method Assign(v: real)
      modifies this`target
      ensures State() == WithTarget(old(State()), v)
    {
      target := v;
    }

    /** operator==(double): compares the processed value only. */
    function EqualsValue(v: real): (r: bool)
      reads this
      ensures r <==> State().processed == v
    {
      processed == v
    }

    /** operator==(SmoothedValue): compares processed values only, so two
        smoothers heading for different targets can compare equal. */
    function Equals(other: SmoothedValue): (r: bool)
      reads this, other
      ensures r <==> State().processed == other.State().processed
    {
      processed == other.processed
    }
  }
}
