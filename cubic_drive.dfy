/** The standalone cubic drive: every sample of a channels-by-frames buffer
    is driven, bent by a cubic and hard-clipped to [-1, 1], in place. */
module Cubic {
  import opened Numeric

  /** The drive a default-constructed object holds. */
  const DefaultDrive: real := 0.5

  /** The input gain the drive setting gives: 1 + 10 drive. */
  function Driven(s: real, drive: real): real
  {
    s * (1.0 + drive * 10.0)
  }

  /** d - 0.4 d^3 before the clip. */
  function Bent(d: real): real
  {
    d - 0.4 * Cube(d)
  }

  /** What one sample becomes. */
  function CubicSample(s: real, drive: real): (r: real)
    ensures -1.0 <= r <= 1.0
    ensures -1.0 <= Bent(Driven(s, drive)) <= 1.0 ==> r == Bent(Driven(s, drive))
    ensures Bent(Driven(s, drive)) > 1.0 ==> r == 1.0
    ensures Bent(Driven(s, drive)) < -1.0 ==> r == -1.0
  {
    Max(-1.0, Min(1.0, Bent(Driven(s, drive))))
  }

  /** The sample map is odd: a negated input gives the negated output. */
  lemma CubicSampleOdd(s: real, drive: real)
    ensures CubicSample(-s, drive) == -CubicSample(s, drive)
  {
    var d := Driven(s, drive);
    assert Driven(-s, drive) == -d;
    CubeOdd(d);
    assert Bent(-d) == -Bent(d);
  }

  /** A silent input stays silent whatever the drive. */
  lemma SilenceStaysSilent(drive: real)
    ensures CubicSample(0.0, drive) == 0.0
  {
    assert Driven(0.0, drive) == 0.0;
    assert Cube(0.0) == 0.0;
  }

  class CubicDrive {
    var drive: real

    constructor ()
      ensures drive == DefaultDrive
    {
      drive := DefaultDrive;
    }

    /** `setDrive` stores the value and does nothing else. */
    method SetDrive(d: real)
      modifies this
      ensures drive == d
    {
      drive := d;
    }

    /** `process`: channel by channel, frame by frame, each sample is replaced
        by the map of its own old value; the object itself does not change. */
    method Process(buffer: array2<real>)
      modifies buffer
      ensures forall c, f :: 0 <= c < buffer.Length0 && 0 <= f < buffer.Length1 ==>
        buffer[c, f] == CubicSample(old(buffer[c, f]), drive)
      ensures forall c, f :: 0 <= c < buffer.Length0 && 0 <= f < buffer.Length1 ==>
        -1.0 <= buffer[c, f] <= 1.0
    {
      var numChannels := buffer.Length0;
      var numFrames := buffer.Length1;
      var channel := 0;
      while channel < numChannels
        invariant 0 <= channel <= numChannels
        invariant forall c, f :: 0 <= c < channel && 0 <= f < numFrames ==>
          buffer[c, f] == CubicSample(old(buffer[c, f]), drive)
        invariant forall c, f :: channel <= c < numChannels && 0 <= f < numFrames ==>
          buffer[c, f] == old(buffer[c, f])
      {
        var frame := 0;
        while frame < numFrames
          invariant 0 <= frame <= numFrames
          invariant forall c, f :: 0 <= c < channel && 0 <= f < numFrames ==>
            buffer[c, f] == CubicSample(old(buffer[c, f]), drive)
          invariant forall f :: 0 <= f < frame ==>
            buffer[channel, f] == CubicSample(old(buffer[channel, f]), drive)
          invariant forall c, f :: channel <= c < numChannels && 0 <= f < numFrames && (c > channel || f >= frame) ==>
            buffer[c, f] == old(buffer[c, f])
        {
          var drivenSample := buffer[channel, frame] * (1.0 + drive * 10.0);
          var distortedSample := drivenSample - 0.4 * Cube(drivenSample);
          assert distortedSample == Bent(Driven(old(buffer[channel, frame]), drive));
          buffer[channel, frame] := Max(-1.0, Min(1.0, distortedSample));
          frame := frame + 1;
        }
        channel := channel + 1;
      }
    }
  }
}
