# clap-disto core, modelled in Dafny

This project models the signal path and the parameter layer of the clap-disto
distortion plug-in.

**Signal path**
- A biquad filter in two versions:
  - the current transposed direct form II, with Audio-EQ-Cookbook designs and a denormal flush;
  - the older direct form I, kept beside it in the source; only the engine's filter initialisers (`src/dsp/MultiDisto.h:62-63`) use its argument order and enumeration.
- A 4x oversampler: cubic Hermite interpolation followed by anti-imaging and anti-aliasing low-pass filters.
- A one-pole smoother for the drive and asymmetry controls.
- The DC blocker.
- The eight waveshapers and the sample-and-hold bitcrusher.
- The `MultiDisto` engine that chains all of these, with a final `tanh` limiter.
- The standalone cubic drive, which works in place on a channels-by-frames buffer.

**Parameter layer**
- Linear, logarithmic and bipolar S-curve value mappings.
- Value types: plain, stepped and boolean, with text labels.
- Parameters that notify listeners.
- Listeners that register and unregister themselves. This covers copy and move construction and copy and move assignment.
- The id/index registries of the current and the older revision.
- The three-parameter table of the first plug-in revision.

**Conventions**
- Samples and parameter values are `real`s.
- The transcendental functions are parameters. A `Libm.Math` value carries `sin`, `cos`, `tanh`, `exp`, `log`, `log10`, `pow` and `sqrt`. It states only these facts:
  - `pow(10, e)` is positive;
  - `log` is strictly increasing on the positives;
  - `exp` is positive, and below 1 on negative arguments.

  Any further fact a lemma needs (such as `tanh` being odd, or `pow(x, 1/3)` being the cube root) is a `requires` of that lemma.
- Every object the source updates in place is a `class`. Each class has a `State()` function into a datatype. Each method is specified by a pure step function on that datatype, and the lemmas are stated about the step functions.
- The listener registration invariant is a ghost predicate, `Params.Linked(ps, ls)`, over ghost sets of parameters and listeners. It says:
  - a listener is in a parameter's list exactly when it points at that parameter;
  - no list holds a listener twice;
  - every registered parameter is known.

  Every constructor and assignment preserves it.

**Notes on the code as written**
- `DCBlocker::process` does not flush denormals (`src/dsp/MultiDisto.h:37-42`).
- The gain `g` of `tubeSaturation` is `max(1e-6, 0.7 (1 + asymmetry))`; it depends only on the asymmetry, and the drive scales the input instead (`src/dsp/MultiDisto.cpp:182-189`).
- The `mBias` field (`src/dsp/MultiDisto.h:72`) is never read by `MultiDisto.cpp`, so the model has no bias.
- `CubicDrive.h` declares a field `drive`, while `CubicDrive.cpp` uses `mDrive`. The model has one field, `drive`, which means the member `process` reads.
- `MultiDisto.h` declares `mDrive` and `mAsymmetry` as plain doubles (0.1 and 0), but `MultiDisto.cpp` calls `setup` and `process` on them, as on smoothed values. The model follows the `.cpp`: both are default smoothed values, starting at 0. The `mPreFilterOn` and `mPostFilterOn` flags do not appear in the header; the model starts both filters switched off.
- The header initialises the engine's filters as `{ 10000., .707, FilterType::LOW_PASS }` and `{ 80., .707, FilterType::HIGH_PASS }` (`src/dsp/MultiDisto.h:62-63`). That is the argument order and enumeration of the direct form I filter's constructor (`src/dsp/BiquadFilter.cpp:8-11`), which only stores its settings. The engine itself uses the transposed filter. The model reads the initialisers as a 10 kHz low-pass and an 80 Hz high-pass with Q 0.707, built with the transposed filter's `Init`, so their coefficients are designed at its default 44.1 kHz and 0 dB.
- `kMaxDriveDb`, the top of the drive range that the bitcrusher divides by (`src/dsp/MultiDisto.cpp:222`), is declared in a header that is not part of this model. The model takes it as 36 dB (`Shapers.MaxDriveDb`).
- In `Parameters.cpp`, inserting a duplicate id first overwrites the map entry with the new parameter, then throws. The parameter it points to is never appended to the list. The model states this: after a duplicate, `byId[id]` is not in `params`.

## Model

| member | source | states |
|---|---|---|
| Utils.AlmostEqual | src/utils/Utils.h:23-27 | true exactly when the two values differ by less than 1e-12 |
| Utils.AlmostEqualSymmetric | src/utils/Utils.h:23-27 | the closeness test does not depend on the argument order |
| Utils.AlmostEqualStrict | src/utils/Utils.h:23-27 | values 1e-12 or more apart are never close |
| Utils.AlmostEqualReflexive | src/utils/Utils.h:23-27 | every value is close to itself |
| Utils.DbToLinear | src/utils/Utils.h:48-50 | a decibel value always converts to a positive gain |
| Utils.LinearToDB | src/utils/Utils.h:52-54 | gains at or below 1e-10 read as the 1e-10 floor; larger gains read as 20 log10 of themselves |
| Utils.LinearToDBFloor | src/helpers/Utils.h:89-91 | any two gains below the floor give the same decibel value |
| Utils.DbRoundTrip | src/utils/Utils.h:48-54 | a level whose gain is above the floor converts to a gain and back to itself, given that log10 undoes pow(10, .) |
| Utils.GainRoundTrip | src/utils/Utils.h:48-54 | a gain at or above the floor converts to a level and back to itself, given that pow(10, .) undoes log10 |
| Utils.FloorRoundTrip | src/utils/Utils.h:48-54 | a gain at or below the floor converts to a level and back to the floor gain |
| Numeric.Clamp | src/dsp/MultiDisto.cpp:222 | the result lies in [lo, hi]; it is the value when that is inside, otherwise the nearer bound |
| Numeric.CopySign | src/dsp/MultiDisto.cpp:215 | the magnitude of the first argument, with the sign of the second |
| Numeric.Round | src/dsp/MultiDisto.cpp:225 | the nearest integer, with the same sign; a halfway case goes away from zero |
| Numeric.Fmod | src/dsp/MultiDisto.cpp:211 | the dividend minus the remainder is a whole multiple of the divisor; for a non-negative dividend and positive divisor the remainder is in [0, divisor), which fixes it |
| Numeric.FmodShift | src/dsp/MultiDisto.cpp:211 | adding the divisor does not change the remainder |
| Biquad.TypeIndex | src/dsp/BiquadFilter.h:18-28 | the nine filter types map one-to-one onto 0..8 |
| Biquad.FromIndexInverse | src/dsp/BiquadFilter.h:18-28 | reading an index back as a type and converting it again gives the index |
| Biquad.DesignFreq | src/dsp/BiquadFilter.h:124-131 | the design frequency is positive and at most 0.99 of Nyquist (0.495 fs); an in-range frequency is kept, one above the limit is capped, a non-positive one becomes 1 Hz |
| Biquad.DesignQ | src/dsp/BiquadFilter.h:139-140 | Q is kept above the floor and raised to the floor otherwise |
| Biquad.DesignPrewarp | src/dsp/BiquadFilter.h:124-142 | the prewarped frequency is in (0, 0.495 fs], 0.99 of Nyquist, the peak amplitude is positive and Q is at least the floor |
| Biquad.NormalizeA0 | src/dsp/BiquadFilter.h:229-235 | with a non-zero a0 every coefficient is divided by a0; with a zero a0 they are kept |
| Biquad.CookbookRaw | src/dsp/BiquadFilter.h:145-225 | low-pass, high-pass, band-pass, notch and all-pass share the denominator 1 + alpha, -2 cos w0, 1 - alpha; at A = 1 (0 dB) the peak and both shelves have numerator equal to denominator, a flat response; None is the identity |
| Biquad.Design | src/dsp/BiquadFilter.h:113-122 | the None type, or a sample rate that is not positive, gives the pass-through coefficients |
| Biquad.LowPassShape | src/dsp/BiquadFilter.h:145-152 | the low-pass numerator is b0 = b2 = b1 / 2 |
| Biquad.HighPassShape | src/dsp/BiquadFilter.h:153-160 | the high-pass numerator is b0 = b2 = -b1 / 2 |
| Biquad.MiddleTermsAgree | src/dsp/BiquadFilter.h:169-195 | for notch, all-pass and peak, the middle numerator term equals a1 |
| Biquad.AllPassMirror | src/dsp/BiquadFilter.h:177-184 | the all-pass numerator is the denominator reversed: b0 = a2, and b2 = 1 exactly when 1 + alpha is non-zero |
| Biquad.DenormProtect | src/dsp/BiquadFilter.h:239-242 | a value is kept or flushed to exactly 0; values of magnitude at least 1e-30 are kept, and a kept non-zero value is never tiny |
| Biquad.RunAppend | src/dsp/BiquadFilter.h:96-100 | running a buffer in two parts equals running it whole |
| Biquad.Step | src/dsp/BiquadFilter.h:83-93 | after a sample neither register holds a non-zero value below 1e-30 in magnitude, and silence into cleared registers gives 0 and leaves them cleared |
| Biquad.Run | src/dsp/BiquadFilter.h:96-100 | one output per input sample, and after a non-empty buffer neither register holds a non-zero value below 1e-30 in magnitude |
| Biquad.RunSilence | src/dsp/BiquadFilter.h:96-100 | a silent buffer into cleared registers comes out silent and leaves the registers cleared, whatever the coefficients |
| Biquad.BypassRun | src/dsp/BiquadFilter.h:114-122 | cleared pass-through coefficients leave every buffer unchanged, with cleared registers |
| Biquad.ZeroRealisesSilence | src/dsp/BiquadFilter.h:77-80 | cleared registers are the state of a filter that has only heard silence |
| Biquad.StepIsDifferenceEquation | src/dsp/BiquadFilter.h:83-93 | when the flush leaves both new registers as they are (as it does for exactly 0, so silence included), one transposed step computes y = b0 x + b1 x1 + b2 x2 - a1 y1 - a2 y2, and keeps realising the direct-form history |
| Biquad.BiquadFilter.constructor | src/dsp/BiquadFilter.h:244-256 | a default filter has type None, 44.1 kHz, 1 kHz, Q 0.707 and 0 dB, pass-through coefficients and cleared registers |
| Biquad.BiquadFilter.Init | src/dsp/BiquadFilter.h:32-35 | the given type, frequency, Q and gain, cleared registers and coefficients designed from them |
| Biquad.BiquadFilter.Setup | src/dsp/BiquadFilter.h:37-44 | the four settings are replaced, the registers cleared and the coefficients redesigned; the sample rate is kept |
| Biquad.BiquadFilter.SetSampleRate | src/dsp/BiquadFilter.h:46-49 | only the sample rate changes, and the coefficients are redesigned |
| Biquad.BiquadFilter.SetType | src/dsp/BiquadFilter.h:51-54 | only the type changes, and the coefficients are redesigned |
| Biquad.BiquadFilter.SetFreq | src/dsp/BiquadFilter.h:56-59 | only the frequency changes, and the coefficients are redesigned |
| Biquad.BiquadFilter.SetQ | src/dsp/BiquadFilter.h:61-64 | only Q changes, and the coefficients are redesigned |
| Biquad.BiquadFilter.SetGainDb | src/dsp/BiquadFilter.h:66-69 | only the gain changes, and the coefficients are redesigned |
| Biquad.BiquadFilter.Reset | src/dsp/BiquadFilter.h:77-80 | the registers are cleared and nothing else changes |
| Biquad.BiquadFilter.Process | src/dsp/BiquadFilter.h:83-93 | the output and new registers are one step of the difference equation; the settings are kept |
| Biquad.BiquadFilter.ProcessBuffer | src/dsp/BiquadFilter.h:96-100 | the first count samples are replaced in place by the filter's run over them; the rest of the array is untouched |
| Biquad.BiquadFilter.UpdateCoefficients | src/dsp/BiquadFilter.h:113-236 | the coefficients become the design for the current settings |
| BiquadDf1.ScaleInverse | src/dsp/BiquadFilter.cpp:103-109 | scaling by k and then by 1/k gives the coefficients back |
| BiquadDf1.Update | src/dsp/BiquadFilter.cpp:45-101 | a type the update does not handle (None, or any other) keeps the previous coefficients |
| BiquadDf1.Design | src/dsp/BiquadFilter.cpp:54-95 | every handled type has the feedback term b1 = -2 cos w and all but the peak b2 = 1 - alpha; notch and peak have a1 = b1; the band-pass numerator is antisymmetric (a1 = 0, a2 = -a0), so it has zeros at DC and Nyquist |
| BiquadDf1.CommonNormalisation | src/dsp/BiquadFilter.cpp:54-100 | every handled design is its raw cookbook terms divided by 1 + alpha |
| BiquadDf1.PeakOutputWeight | src/dsp/BiquadFilter.cpp:86-94 | the peak filter's input weight is 1 + alpha A over 1 + alpha |
| BiquadDf1.LowPassHalves | src/dsp/BiquadFilter.cpp:54-60 | the low-pass weights are a0 = a2 = a1 / 2, with a1 = (1 - cos w) / (1 + alpha) |
| BiquadDf1.Step | src/dsp/BiquadFilter.cpp:30-39 | the history shifts by one: the new input and output become x1 and y1 |
| BiquadDf1.AgreesWithTransposed | src/dsp/BiquadFilter.cpp:30-39 | the direct-form step and the transposed step give the same output from matching states, and keep them matching, whenever the flush leaves the registers as they are |
| BiquadDf1.BiquadFilter.constructor | src/dsp/BiquadFilter.cpp:8-11 | frequency, Q and type are stored, and the coefficients and an empty history are left as given |
| BiquadDf1.BiquadFilter.Setup | src/dsp/BiquadFilter.cpp:13-18 | settings are replaced, the coefficients updated and the history kept |
| BiquadDf1.BiquadFilter.SetFreq | src/dsp/BiquadFilter.cpp:20-23 | only the frequency changes, and the coefficients are updated |
| BiquadDf1.BiquadFilter.SetSampleRate | src/dsp/BiquadFilter.cpp:25-28 | only the sample rate changes, and the coefficients are updated |
| BiquadDf1.BiquadFilter.Process | src/dsp/BiquadFilter.cpp:30-39 | the output and new history are one step of the direct form I equation |
| BiquadDf1.BiquadFilter.Reset | src/dsp/BiquadFilter.cpp:41-43 | the history is cleared |
| BiquadDf1.BiquadFilter.UpdateCoefficients | src/dsp/BiquadFilter.cpp:45-101 | the coefficients become the update for the current settings |
| BiquadDf1.BiquadFilter.Normalize | src/dsp/BiquadFilter.cpp:103-109 | every coefficient is multiplied by the factor |
| Oversampling.HermiteAtEnd | src/dsp/OverSampler.cpp:33-41 | at t = 1 the basis weights are (0, 0, 1, 0), so the segment ends at the current input |
| Oversampling.Hermite | src/dsp/OverSampler.cpp:33-41 | the segment starts at the previous input (t = 0) and ends at the current one (t = 1) |
| Oversampling.PartitionOfUnity | src/dsp/OverSampler.cpp:36-38 | the two value weights sum to 1 for every t |
| Oversampling.FlatSegment | src/dsp/OverSampler.cpp:33-41 | equal ends with zero slopes give a constant segment |
| Oversampling.Interpolate | src/dsp/OverSampler.cpp:44-47 | the frame has four samples and its last one is the current input |
| Oversampling.SteadyFrame | src/dsp/OverSampler.cpp:44-47 | a steady input with no remembered slope gives four copies of itself |
| Oversampling.Upsampled | src/dsp/OverSampler.cpp:23-58 | the remembered input becomes the current one and the slope the last difference; only the anti-imaging registers and the buffer change |
| Oversampling.UpsampledFrom | src/dsp/OverSampler.cpp:49-55 | the new buffer is the interpolated frame run through the anti-imaging filter |
| Oversampling.Downsampled | src/dsp/OverSampler.cpp:60-67 | only the anti-aliasing filter's registers change |
| Oversampling.BypassedUpsample | src/dsp/OverSampler.cpp:44-51 | with a cleared pass-through anti-imaging filter, the buffer is the Hermite frame and ends at the input |
| Oversampling.BypassedDownsample | src/dsp/OverSampler.cpp:60-67 | with a cleared pass-through anti-aliasing filter, the decimated sample is the last buffer slot |
| Oversampling.Oversampler.constructor | src/dsp/OverSampler.h:22-31 | a zeroed four-slot buffer, no history and two default filters |
| Oversampling.Oversampler.SetupAntiAliasing | src/dsp/OverSampler.cpp:5-21 | both filters run at 4 fs as 0.45 fs low-passes with Q 0.707; the history is cleared and the buffer kept |
| Oversampling.Oversampler.Upsample | src/dsp/OverSampler.cpp:23-58 | the returned array is the buffer, and the new state is the upsampling step of the old one |
| Oversampling.Oversampler.Downsample | src/dsp/OverSampler.cpp:60-67 | the sample and new state are the downsampling step of the old state |
| Smoothing.Tau | src/dsp/SmoothedValue.h:19 | the time constant is the larger of 1e-6 s and the given milliseconds in seconds |
| Smoothing.Coeff | src/dsp/SmoothedValue.h:17-21 | a positive rate gives a coefficient strictly inside (0, 1); a zero rate gives 1 |
| Smoothing.WithSetup | src/dsp/SmoothedValue.h:17-21 | setup keeps the current and target values and, for a non-negative rate, gives a coefficient in [0, 1] |
| Smoothing.WithTarget | src/dsp/SmoothedValue.h:37-40 | assignment changes only the target |
| Smoothing.Toward | src/dsp/SmoothedValue.h:27 | a fraction c of the way: c = 0 stays, c = 1 reaches the target, and the remaining distance is (1 - c) times the old one |
| Smoothing.Advance | src/dsp/SmoothedValue.h:23-28 | a process call changes only the smoothed value: not at all once it is within 1e-12 of the target, otherwise by one step toward the target |
| Smoothing.SettledStays | src/dsp/SmoothedValue.h:23-28 | a value within 1e-12 of its target does not move |
| Smoothing.NoMotionWithoutSetup | src/dsp/SmoothedValue.h:13 | with the initial zero coefficient the value never moves |
| Smoothing.NoOvershoot | src/dsp/SmoothedValue.h:23-28 | with a coefficient in [0, 1] one step stays between the value and its target |
| Smoothing.DistanceScales | src/dsp/SmoothedValue.h:27 | a moving step shrinks the distance to the target by the factor 1 - coeff |
| Smoothing.MonotoneApproach | src/dsp/SmoothedValue.h:23-28 | from below, any number of steps climbs without passing the target |
| Smoothing.StaysAbove | src/dsp/SmoothedValue.h:23-28 | a step never falls below a bound that both the value and the target clear |
| Smoothing.SmoothedValue.constructor | src/dsp/SmoothedValue.h:12-15 | 44.1 kHz, a zero coefficient, and zero value and target |
| Smoothing.SmoothedValue.Setup | src/dsp/SmoothedValue.h:17-21 | the new state is the setup step of the old one |
| Smoothing.SmoothedValue.Process | src/dsp/SmoothedValue.h:23-28 | the new state is one smoothing step of the old one |
| Smoothing.SmoothedValue.Value | src/dsp/SmoothedValue.h:32-34 | reading the object gives the smoothed value, not the target |
| Smoothing.SmoothedValue.Assign | src/dsp/SmoothedValue.h:37-40 | assignment sets the target only |
| Smoothing.SmoothedValue.EqualsValue | src/dsp/SmoothedValue.h:43-45 | comparison with a number compares the smoothed value |
| Smoothing.SmoothedValue.Equals | src/dsp/SmoothedValue.h:47-49 | two objects compare equal exactly when their smoothed values are equal |
| Shapers.TypeIndex | src/dsp/MultiDisto.h:8-17 | the eight distortion types map one-to-one onto their enumerator values 0..7 |
| Shapers.IndexRoundTrip | src/dsp/MultiDisto.h:8-17 | type to index to type, and index to type to index, are identities |
| Shapers.CubicOdd | src/dsp/MultiDisto.cpp:173-180 | with no asymmetry the cubic saturation is odd |
| Shapers.CubicEvenPart | src/dsp/MultiDisto.cpp:175-176 | inside the inner band the asymmetry adds the even term 2 a x^2 |
| Shapers.CubicJump | src/dsp/MultiDisto.cpp:175-179 | at unit drive the inner branch is the identity below 2/3 while the outer branch starts at 1, so the curve jumps at 2/3 |
| Shapers.CubicOuterBranchTurns | src/dsp/MultiDisto.cpp:178-179 | the outer branch is not a clip: at x = 2 it gives -13/3 |
| Shapers.Cubic | src/dsp/MultiDisto.cpp:173-180 | silence stays silent, and outside the inner band the output never passes 1 in the direction of the driven input |
| Shapers.TubeGain | src/dsp/MultiDisto.cpp:184 | the gain is at least 1e-6 and at least 0.7 (1 + asymmetry) |
| Shapers.TubeOdd | src/dsp/MultiDisto.cpp:182-189 | with an odd tanh the tube saturation is odd |
| Shapers.TubeUnitPoint | src/dsp/MultiDisto.cpp:186-188 | an input of 1/drive is normalised to exactly 1 |
| Shapers.Tube | src/dsp/MultiDisto.cpp:182-189 | with tanh(0) = 0 silence stays silent; whenever tanh(g) is positive the output is tanh(g x) rescaled by it |
| Shapers.ClipIdentityBand | src/dsp/MultiDisto.cpp:196-202 | between the thresholds the clip is the driven input |
| Shapers.ClipSlope | src/dsp/MultiDisto.cpp:196-198 | above the positive threshold the slope is 0.1 |
| Shapers.ClipContinuous | src/dsp/MultiDisto.cpp:191-203 | with ordered thresholds (asymmetry at least -7/3) the clip never moves more than its input |
| Shapers.ClipOdd | src/dsp/MultiDisto.cpp:191-203 | with ordered thresholds the clip is odd |
| Shapers.ClipNotOddWhenThresholdsCross | src/dsp/MultiDisto.cpp:193-194 | an asymmetry of -10/3 crosses the thresholds and breaks oddness |
| Shapers.Clip | src/dsp/MultiDisto.cpp:191-203 | with ordered thresholds silence stays silent; above the positive threshold the output lies strictly between the threshold and the driven input |
| Shapers.FoldBounds | src/dsp/MultiDisto.cpp:205-218 | the fold stays within 0.7 in magnitude and keeps the sign of the driven input |
| Shapers.FoldLinearBelowThreshold | src/dsp/MultiDisto.cpp:211-217 | below the threshold the fold is 0.7 times the driven input |
| Shapers.FoldExample | src/dsp/MultiDisto.cpp:211-217 | a driven input of 1.6 folds back to 0.4, then scales to 0.28 |
| Shapers.FoldPeriodic | src/dsp/MultiDisto.cpp:211 | for a non-negative input and a positive drive the fold repeats every 2/drive |
| Shapers.Fold | src/dsp/MultiDisto.cpp:205-218 | silence stays silent |
| Shapers.SigmoidOdd | src/dsp/MultiDisto.cpp:247 | the sigmoid is odd |
| Shapers.SigmoidRange | src/dsp/MultiDisto.cpp:247 | on [-1, 1] the sigmoid stays in [-1, 1] |
| Shapers.SigmoidAtOne | src/dsp/MultiDisto.cpp:247 | the sigmoid maps 1 to 1 |
| Shapers.SigmoidBounded | src/dsp/MultiDisto.cpp:247 | for any input, the magnitude times k stays below 1 + k |
| Shapers.WaveShapeOdd | src/dsp/MultiDisto.cpp:243-248 | the waveshaper is odd |
| Shapers.WaveShapeUnitRange | src/dsp/MultiDisto.cpp:243-248 | a driven input in [-1, 1] stays in [-1, 1], and 1 maps to 1 |
| Shapers.WaveShapeBounded | src/dsp/MultiDisto.cpp:243-248 | for every input the output magnitude is below (1 + 2 drive) / (2 drive) |
| Shapers.WaveShape | src/dsp/MultiDisto.cpp:243-248 | silence stays silent and the output keeps the sign of the input |
| Shapers.ScreamerBranchesMeet | src/dsp/MultiDisto.cpp:256-261 | the three branches meet at 1/3 and 2/3 |
| Shapers.ScreamerCurveRange | src/dsp/MultiDisto.cpp:256-262 | the curve stays in [0, 1] and below 2x |
| Shapers.ScreamerCurveSlope | src/dsp/MultiDisto.cpp:256-262 | the curve is non-decreasing with slope at most 2 |
| Shapers.ScreamerRange | src/dsp/MultiDisto.cpp:250-263 | the screamer stays in [-1, 1] and saturates at ±1 past 2/3 |
| Shapers.ScreamerOdd | src/dsp/MultiDisto.cpp:250-263 | the screamer is odd, including at 0, where its sign test picks +1 |
| Shapers.ScreamerContinuous | src/dsp/MultiDisto.cpp:250-263 | the output moves at most twice as far as x = 2 input drive, across every branch and across zero |
| Shapers.Screamer | src/dsp/MultiDisto.cpp:250-263 | silence stays silent, and below x = 1/3 the clipper is clean with a gain of 2 |
| Shapers.CurveRange | src/dsp/MultiDisto.cpp:272-273 | a germanium curve on a non-negative input is in [0, 1) |
| Shapers.FuzzBounds | src/dsp/MultiDisto.cpp:265-276 | the fuzz stays below 0.8 in magnitude and keeps the driven input's sign |
| Shapers.FuzzOddWhenSymmetric | src/dsp/MultiDisto.cpp:265-276 | with no asymmetry the fuzz is odd |
| Shapers.FuzzShape | src/dsp/MultiDisto.cpp:265-276 | with exp(0) = 1 silence stays silent; for any asymmetry the output stays short of 0.8 on the side of the driven input |
| Shapers.DriveNorm | src/dsp/MultiDisto.cpp:222 | the drive control is in [0, 1] |
| Shapers.Bits | src/dsp/MultiDisto.cpp:225-226 | the bit depth is between 4 and 16 |
| Shapers.Levels | src/dsp/MultiDisto.cpp:227 | the level count is a whole number, at least 1 |
| Shapers.HoldLength | src/dsp/MultiDisto.cpp:230 | the hold length is between 1 and 40 |
| Shapers.QuantiseBounds | src/dsp/MultiDisto.cpp:233-236 | a clipped input quantises into [-1, 1], within half a step of itself |
| Shapers.Quantise | src/dsp/MultiDisto.cpp:236 | the result is a whole number (the rounded one) of steps 1/levels, within half a step of the input |
| Shapers.Bitcrush | src/dsp/MultiDisto.cpp:220-241 | the output is the held value; the phase advances modulo the hold length; the held value is re-quantised only at phase 0 |
| Shapers.BitcrushBounds | src/dsp/MultiDisto.cpp:220-241 | from a held value in [-1, 1], the output stays in [-1, 1] and the phase below the hold length |
| Shapers.BitcrushTransparentRate | src/dsp/MultiDisto.cpp:222-238 | with the drive at or below 0 dB every sample is re-quantised at 16 bits and the phase stays 0 |
| Shapers.ApplyDistortion | src/dsp/MultiDisto.cpp:142-171 | the bitcrusher code runs the stateful crusher; every other code is a pure shaper that leaves the crusher state alone |
| Shapers.UnlistedPassesThrough | src/dsp/MultiDisto.cpp:168-169 | a code outside the enumeration passes the input through |
| Shapers.Shape | src/dsp/MultiDisto.cpp:142-171 | at zero drive every memoryless shaper is silent, given tanh(0) = 0, exp(0) = 1 and clip thresholds on either side of 0 |
| Shapers.Shaped | src/dsp/MultiDisto.cpp:142-171 | a code outside the enumeration passes the input through, and a valid code at zero drive is silent under the same conditions |
| Disto.DcStep | src/dsp/MultiDisto.h:37-42 | the new state remembers the input and the output |
| Disto.DcHeldInputDecays | src/dsp/MultiDisto.h:37-42 | once the previous input is held, the output is the pole times the previous output |
| Disto.DcStepResponse | src/dsp/MultiDisto.h:33-42 | a held step c from rest decays as c R^n, so the blocker removes DC |
| Disto.DcHeld | src/dsp/MultiDisto.h:37-42 | holding an input keeps the pole and, after at least one sample, leaves that input as the remembered one |
| Disto.DCBlocker.constructor | src/dsp/MultiDisto.h:34-35 | zero history and pole 0.995 |
| Disto.DCBlocker.Process | src/dsp/MultiDisto.h:37-42 | the output and new state are one blocker step |
| Disto.DCBlocker.AssignDefault | src/dsp/MultiDisto.cpp:84 | the blocker returns to its default state |
| Disto.FilterStep | src/dsp/MultiDisto.cpp:99 | only the filter's registers change, by one biquad step |
| Disto.Smoothed | src/dsp/MultiDisto.cpp:137-140 | drive and asymmetry each take one smoothing step; the engine invariant is kept |
| Disto.PreStage | src/dsp/MultiDisto.cpp:98-100 | an enabled, typed pre-filter filters the signal; otherwise the signal and state are unchanged |
| Disto.Bypassed | src/dsp/MultiDisto.cpp:102-104 | exactly unit drive with no asymmetry bypasses the non-linear stage, and a bypassed engine's drive is within 1e-12 of 1 |
| Disto.PostStage | src/dsp/MultiDisto.cpp:123-125 | an enabled, typed post-filter filters the signal; otherwise the signal and state are unchanged |
| Disto.ShapeFrame | src/dsp/MultiDisto.cpp:110-112 | every oversampled sample is replaced by the shaper of itself |
| Disto.Oversampled | src/dsp/MultiDisto.cpp:109-113 | upsampling, shaping and downsampling keep a four-slot buffer |
| Disto.WetStage | src/dsp/MultiDisto.cpp:108-116 | the bitcrusher runs at base rate and skips the oversampler; the others run oversampled and keep the crusher state |
| Disto.DcStage | src/dsp/MultiDisto.cpp:119 | only the blocker changes, by one blocker step |
| Disto.NonLinearStage | src/dsp/MultiDisto.cpp:102-120 | a bypassed stage (drive about 1, asymmetry about 0) passes the signal and state through; otherwise only the oversampler, crusher and blocker change |
| Disto.Step | src/dsp/MultiDisto.cpp:87-135 | a processed sample keeps the engine invariant, of which non-negative drive is part |
| Disto.StepFrame | src/dsp/MultiDisto.cpp:87-135 | a step changes only the two smoothers, the two filters, the oversampler, the crusher and the blocker |
| Disto.DryMixIsLimitedInput | src/dsp/MultiDisto.cpp:131-134 | at mix 0 the output is tanh of the dry input, whatever the wet path does |
| Disto.BypassKeepsNonLinearState | src/dsp/MultiDisto.cpp:103-106 | a bypassed step leaves the oversampler, crusher and blocker untouched |
| Disto.BitcrusherSkipsOversampler | src/dsp/MultiDisto.cpp:108-116 | the bitcrusher never touches the oversampler |
| Disto.ShapersKeepCrushState | src/dsp/MultiDisto.cpp:108-113 | the other shapers never touch the crusher state |
| Disto.InactiveFiltersKeepState | src/dsp/MultiDisto.cpp:98-125 | a disabled or untyped filter keeps its registers |
| Disto.CleanPathIsLimiter | src/dsp/MultiDisto.cpp:87-135 | with both filters off and the non-linear stage bypassed, the output is tanh of the wet/dry blend of the gained input and the dry input |
| Disto.Redesigned | src/dsp/MultiDisto.cpp:75-76 | only the coefficients change, and the None type is pass-through |
| Disto.AntiAliasFilter | src/dsp/OverSampler.cpp:7-16 | a cleared low-pass at 4 fs with cutoff 0.45 fs |
| Disto.SampleRateSet | src/dsp/MultiDisto.cpp:71-79 | rate stored; smoother coefficients for 10 ms and 5 ms; oversampler history cleared and buffer kept; filter registers kept; invariant kept for rates >= 0 |
| Disto.SampleRateSetIdempotent | src/dsp/MultiDisto.cpp:71-79 | setting the same rate twice is the same as once |
| Disto.Cleared | src/dsp/MultiDisto.cpp:81-85 | reset keeps the engine invariant |
| Disto.ResetKeepsConfiguration | src/dsp/MultiDisto.cpp:81-85 | reset keeps the coefficients, the smoothers, the oversampler, the crusher, the sample rate, both filter switches, every filter setting and every other parameter; only the filter registers and the DC blocker change, and a second reset changes nothing |
| Disto.Default | src/dsp/MultiDisto.h:59-68 | the default engine satisfies the invariant and uses the tube screamer |
| Disto.DefaultIsNotBypassed | src/dsp/MultiDisto.cpp:102-104 | a default engine's smoothed drive of 0 is far from 1, so the non-linear stage runs |
| Disto.DriveSet | src/dsp/MultiDisto.h:28 | only the drive smoother's target changes, so the drive glides from its current value; a non-negative drive keeps the invariant |
| Disto.DriveRisesTowardTarget | src/dsp/MultiDisto.h:28 | after raising the drive, the next smoothing step moves toward the new target without passing it |
| Disto.OutputGainSet | src/dsp/MultiDisto.h:29 | only the output gain changes, and the invariant is kept |
| Disto.MultiDisto.SetDrive | src/dsp/MultiDisto.h:28 | the new state is the drive step of the old one |
| Disto.MultiDisto.SetOutputGain | src/dsp/MultiDisto.h:29 | the new state is the output-gain step of the old one |
| Disto.MultiDisto.constructor | src/dsp/MultiDisto.h:21 | a fresh engine is in the default state |
| Disto.MultiDisto.SetSampleRate | src/dsp/MultiDisto.cpp:71-79 | the new state is the sample-rate step of the old one |
| Disto.MultiDisto.SetFilterRates | src/dsp/MultiDisto.cpp:74-76 | the oversampler and the two filters take the sample-rate step |
| Disto.MultiDisto.SetSmootherRates | src/dsp/MultiDisto.cpp:77-78 | the two smoothers take the sample-rate step |
| Disto.MultiDisto.Reset | src/dsp/MultiDisto.cpp:81-85 | the new state is the reset of the old one |
| Disto.MultiDisto.SmoothValues | src/dsp/MultiDisto.cpp:137-140 | the new state is the smoothing step of the old one |
| Disto.MultiDisto.BitcrushDistortion | src/dsp/MultiDisto.cpp:220-241 | output and crusher state follow the bitcrusher step |
| Disto.MultiDisto.ApplyDistortion | src/dsp/MultiDisto.cpp:142-171 | output and crusher state follow the dispatch on the type |
| Disto.MultiDisto.ShapeBuffer | src/dsp/MultiDisto.cpp:110-112 | the oversampled buffer is shaped in place, leaving the crusher state alone |
| Disto.MultiDisto.OversampledDistortion | src/dsp/MultiDisto.cpp:109-113 | output and oversampler state follow the oversampled path |
| Disto.MultiDisto.Wet | src/dsp/MultiDisto.cpp:108-116 | output and state follow the wet stage |
| Disto.MultiDisto.DcBlock | src/dsp/MultiDisto.cpp:119 | output and state follow the blocker stage |
| Disto.MultiDisto.NonLinear | src/dsp/MultiDisto.cpp:102-120 | output and state follow the non-linear stage |
| Disto.MultiDisto.PreFilter | src/dsp/MultiDisto.cpp:98-100 | output and state follow the pre-filter stage |
| Disto.MultiDisto.PostFilter | src/dsp/MultiDisto.cpp:123-125 | output and state follow the post-filter stage |
| Disto.MultiDisto.Process | src/dsp/MultiDisto.cpp:87-135 | output and state follow the engine step |
| Cubic.CubicSample | src/dsp/CubicDrive.cpp:18-21 | the sample lies in [-1, 1]; it is the bent driven sample when that is inside, otherwise the nearer bound |
| Cubic.CubicSampleOdd | src/dsp/CubicDrive.cpp:18-21 | the sample map is odd |
| Cubic.SilenceStaysSilent | src/dsp/CubicDrive.cpp:18-21 | silence stays silent at any drive |
| Cubic.CubicDrive.constructor | src/dsp/CubicDrive.h:15 | the default drive is 0.5 |
| Cubic.CubicDrive.SetDrive | src/dsp/CubicDrive.cpp:6-8 | the drive is stored |
| Cubic.CubicDrive.Process | src/dsp/CubicDrive.cpp:10-24 | every sample of the buffer is replaced by the map of its own old value, so all lie in [-1, 1] |
| Helpers.SpanWithin | src/helpers/Utils.h:30 | interpolating at t in [0, 1] stays in [lo, hi] |
| Helpers.PositionOfSpan | src/helpers/Utils.h:26-65 | the linear position of an interpolated value is the interpolation argument |
| Helpers.SpanOfPosition | src/helpers/Utils.h:26-65 | interpolating at a value's position gives the value back |
| Helpers.PositionWithin | src/helpers/Utils.h:52 | the position is in [0, 1] exactly when the value is in [min, max] |
| Helpers.Denormalize | src/helpers/Utils.h:26-44 | logarithmic with positive bounds gives a positive value; linear, or the fallback, stays in [min, max] |
| Helpers.DenormalizeClamps | src/helpers/Utils.h:27 | arguments outside [0, 1] act as the nearer end |
| Helpers.LinearDenormalize | src/helpers/Utils.h:27-30 | the linear scale is min + t (max - min), from min at 0 to max at 1 |
| Helpers.LogDenormalizeFallback | src/helpers/Utils.h:33-35 | a non-positive bound makes the logarithmic scale linear |
| Helpers.LogDenormalize | src/helpers/Utils.h:36-39 | with positive bounds the logarithmic scale is exp of the linear scale between the logs |
| Helpers.Normalize | src/helpers/Utils.h:47-65 | the result is in [0, 1], and 0 for an empty or inverted range |
| Helpers.LogNormalizeFallback | src/helpers/Utils.h:54-56 | a non-positive bound or value makes the logarithmic position linear |
| Helpers.LinearRoundTrip | src/helpers/Utils.h:26-65 | normalising a denormalised t in [0, 1] gives t back |
| Helpers.LinearInverseRoundTrip | src/helpers/Utils.h:26-65 | denormalising a normalised value gives the value clamped to [min, max] |
| Helpers.LogNormalizeEnds | src/helpers/Utils.h:57-61 | on the logarithmic scale the bounds normalise to 0 and 1 |
| Helpers.LogNormalizeMonotone | src/helpers/Utils.h:57-61 | on the logarithmic scale a larger value never normalises lower |
| Helpers.LogRoundTrip | src/helpers/Utils.h:26-65 | on the logarithmic scale normalise undoes denormalise, given that log undoes exp |
| Mappings.Normalize | src/params/ValueMapping.cpp:10-44 | the result is in [0, 1], and 0 for an empty or inverted range |
| Mappings.Shaped | src/params/ValueMapping.cpp:29-35 | a value's signed position about the midpoint, clamped to [-1, 1] |
| Mappings.Denormalize | src/params/ValueMapping.cpp:46-76 | linear with ordered bounds stays in [min, max]; logarithmic with positive bounds is positive |
| Mappings.SignedCubeIsCube | src/params/ValueMapping.cpp:64-67 | the sign-restored cube of the magnitude is the cube |
| Mappings.AroundPosition | src/params/ValueMapping.cpp:29-71 | the signed position of a point placed about the midpoint is its offset |
| Mappings.PositionAround | src/params/ValueMapping.cpp:29-71 | placing a value at its signed position gives it back |
| Mappings.AroundEnds | src/params/ValueMapping.cpp:61-72 | offsets -1, 0 and 1 give min, the midpoint and max |
| Mappings.SCurveDenormalizeEnds | src/params/ValueMapping.cpp:61-72 | the S-curve maps 0, 0.5 and 1 to min, the midpoint and max |
| Mappings.SCurveDenormalizeMonotone | src/params/ValueMapping.cpp:61-72 | the S-curve never decreases |
| Mappings.SCurveDenormalizeRange | src/params/ValueMapping.cpp:61-72 | the S-curve stays in [min, max] for every argument |
| Mappings.SCurveNormalizeMid | src/params/ValueMapping.cpp:27-41 | the midpoint normalises to 0.5 |
| Mappings.SCurveRoundTrip | src/params/ValueMapping.cpp:27-72 | normalising a denormalised t in [0, 1] gives t back, given that pow(x, 1/3) is the cube root |
| Mappings.SCurveInverseRoundTrip | src/params/ValueMapping.cpp:27-72 | denormalising a normalised value gives the value clamped to [min, max], given the same root |
| Mappings.SignedRootCube | src/params/ValueMapping.cpp:35-38 | the cube of the signed cube root is the original |
| Mappings.ClampAround | src/params/ValueMapping.cpp:29-35 | placing the clamped signed position about the midpoint clamps the value to [min, max] |
| Mappings.LinearRoundTrips | src/params/ValueMapping.cpp:10-76 | the linear mapping round-trips in both directions |
| Mappings.LinearDenormalize | src/params/ValueMapping.cpp:46-76 | the linear mapping is min + t (max - min) on the clamped t |
| Mappings.LogFallback | src/params/ValueMapping.cpp:10-76 | the logarithmic mapping with a non-positive bound (or value) is the linear one |
| Mappings.DefaultIsUnitClamp | src/params/ValueMapping.h:23-26 | the default mapping clamps to [0, 1] in both directions |
| Clap.NameCopy | src/params.h:39 | a copied name is a prefix of the original, shorter than 256, and the whole name when it fits |
| ValueTypes.NewValueType | src/params/ParamValueType.h:16-23 | the given mapping and unit, an automatable flag, and the default stored normalised in [0, 1] |
| ValueTypes.LastStep | src/params/ParamValueType.h:45-49 | n labels give a last index of n - 1; none wraps to 2^64 |
| ValueTypes.NewStepped | src/params/ParamValueType.h:45-49 | a linear mapping over the label indices, automatable and stepped flags, and a normalised default |
| ValueTypes.BooleanShape | src/params/ParamValueType.h:70-73 | a boolean is stepped over Off/On on [0, 1], and its default is 1 exactly when true |
| ValueTypes.NewBoolean | src/params/ParamValueType.h:70-73 | a boolean is a stepped type labelled Off, On |
| ValueTypes.NormalizedValue | src/params/ParamValueType.h:38-41 | the normalised value is in [0, 1] |
| ValueTypes.DenormalizedValue | src/params/ParamValueType.h:35-37 | a linear type denormalises into its [min, max]; a logarithmic type with positive bounds gives a positive value |
| ValueTypes.SteppedIndexRoundTrip | src/params/ParamValueType.h:35-49 | every label index survives normalising and denormalising; every normalised value denormalises to a valid index range |
| ValueTypes.StepIndex | src/params/ParamValueType.h:52 | the index is the truncation of the value |
| ValueTypes.ToText | src/params/ParamValueType.h:51-57 | a valid index gives its label; an index past the end gives "INVALID INDEX" |
| ValueTypes.FirstIndex | src/params/ParamValueType.h:60-62 | the first position that holds the text, or none exactly when no label matches |
| ValueTypes.ToValue | src/params/ParamValueType.h:59-65 | an unknown label reads as 0; a known one as the index of its first occurrence |
| ValueTypes.TextValueRoundTrip | src/params/ParamValueType.h:51-65 | with distinct labels, reading the text of an index gives the index back |
| ValueTypes.DuplicateLabelsReadFirst | src/params/ParamValueType.h:59-65 | with a repeated label the round trip fails: the text of index 1 reads back as 0 |
| Params.Removed | src/params/Parameter.cpp:38-40 | every occurrence of the listener is removed and every other listener kept |
| Params.Added | src/params/Parameter.cpp:32-36 | the listener is present afterwards and no other listener is added or lost |
| Params.AddedNoDup | src/params/Parameter.cpp:32-36 | adding keeps a list duplicate-free; an existing listener leaves it unchanged, a new one goes at the end |
| Params.RemovedNoDup | src/params/Parameter.cpp:38-40 | removing keeps a list duplicate-free |
| Params.RemovedConcat | src/params/Parameter.cpp:38-40 | removal distributes over concatenation |
| Params.RemovedAbsent | src/params/Parameter.cpp:38-40 | removing an absent listener changes nothing |
| Params.AddRemoveRestores | src/params/Parameter.cpp:32-40 | adding a new listener and then removing it restores the list |
| Params.ReAddMovesToEnd | src/params/IParameterListener.cpp:34-46 | removing and re-adding a listener moves it to the end |
| Params.Parameter.constructor | src/params/Parameters.cpp:32 | id, name, type and index are stored, with value 0 and no listeners |
| Params.Parameter.NbSteps | src/params/Parameter.cpp:21-30 | a stepped parameter counts its labels; any other counts 1 |
| Params.Parameter.SetValue | src/params/Parameter.cpp:10-13 | the value is stored and each listener is notified, in order, with the new value |
| Params.Parameter.NotifyAll | src/params/Parameter.cpp:15-19 | each listener is called once, in list order, with the current value |
| Params.Parameter.AddListener | src/params/Parameter.cpp:32-36 | the listener list takes in the listener if it was not there |
| Params.Parameter.RemoveListener | src/params/Parameter.cpp:38-40 | the listener list drops the listener |
| Params.Listener.constructor | src/params/IParameterListener.cpp:7-11 | a listener on a parameter is appended to its list; registration stays consistent |
| Params.Listener.Copy | src/params/IParameterListener.cpp:19-23 | a copy watches the same parameter and is appended to its list |
| Params.Listener.Move | src/params/IParameterListener.cpp:25-32 | a moved-to listener takes over the parameter and the moved-from one is detached |
| Params.Listener.Unregister | src/params/IParameterListener.cpp:13-17 | on destruction the listener leaves its parameter's list; registration stays consistent |
| Params.Listener.CopyAssign | src/params/IParameterListener.cpp:34-46 | self-assignment is a no-op; otherwise the listener leaves its old parameter and joins the source's list |
| Params.Listener.Adopt | src/params/IParameterListener.cpp:41-44 | a detached listener joins the source's parameter |
| Params.Listener.MoveAssign | src/params/IParameterListener.cpp:48-62 | self-assignment is a no-op; otherwise the listener leaves its old parameter, replaces the source in the new one, and the source is detached |
| Params.Listener.TakeOver | src/params/IParameterListener.cpp:55-60 | the source leaves the list and the listener joins it, taking the source's parameter |
| Params.Listener.OnParameterUpdated | src/params/IParameterListener.cpp:65-69 | a callback fires exactly when there is one, with the parameter and the new value |
| Registry.Parameters.Empty | src/params/Parameters.cpp:31-38 | a new registry holds no parameters |
| Registry.Parameters.AddParameter | src/params/Parameters.cpp:31-38 | a new id appends a fresh parameter at the next index; a duplicate is reported, overwrites the map and leaves the list alone; indexing and keying stay consistent |
| Registry.Parameters.GetParamById | src/params/Parameters.cpp:40-45 | null exactly for an unknown id, otherwise the mapped parameter |
| Registry.Parameters.GetParamByIndex | src/params/Parameters.cpp:47-52 | null exactly for an index past the end, otherwise the parameter stored there, whose index is that index |
| LegacyRegistry.PercentValueType | src/params/Parameter.h:37-40 | a percentage ranges over [0, 1] with the unit " %" |
| LegacyRegistry.LegacyParameter.constructor | src/params/Parameter.h:52-53 | info, type and index are stored with value 0 |
| LegacyRegistry.InfoFor | src/params/Parameters.h:24-31 | the info copies id, flags and bounds, and stores a name prefix under 256 characters |
| LegacyRegistry.Parameters.constructor | src/params/Parameters.h:21 | a new registry holds no parameters |
| LegacyRegistry.Parameters.AddParameter | src/params/Parameters.h:23-40 | same as the current registry, with the parameter info built from the type |
| LegacyRegistry.Parameters.Count | src/params/Parameters.h:42 | the count is the list length |
| LegacyRegistry.Parameters.IsValidParamId | src/params/Parameters.h:44 | an id is valid exactly when lookup finds it |
| LegacyRegistry.Parameters.GetParamById | src/params/Parameters.h:57-62 | null exactly for an unknown id, otherwise the mapped parameter |
| LegacyRegistry.Parameters.GetParamByIndex | src/params/Parameters.h:64-69 | null exactly past the count, otherwise the parameter at that index |
| PluginParams.GetParamInfo | src/params.h:30-62 | failure exactly for an index of 3 and more, leaving the info alone; otherwise id = index, automatable, and min <= default <= max |
| PluginParams.ParamInfoContents | src/params.h:37-57 | Drive and Gain on [0, 1] default 0.5, Cutoff on [20, 20000] default 500 |
| PluginParams.ParamInfoOverwrites | src/params.h:34-57 | a valid index fills every field, so the old info does not matter |
| PluginParams.Parameters.constructor | src/params.h:20-25 | the id map points at the three values 0.5, 0.5 and 500, which match the info defaults; exactly ids 0..2 are valid |
| PluginParams.Parameters.GetParamToValue | src/params.h:27-28 | a value slot exactly for a valid id |
| PluginParams.Parameters.IsValidParamId | src/params.h:27 | an id is valid exactly when it is one of the three parameter ids |

## Left out
- Audio I/O, the CLAP entry points, state save and load, presets, the GUI and logging are not part of this model.
- Thread safety (atomics, the audio/main-thread split) is not modelled. Every method runs alone.
- Floating point: every computation is on exact reals, so the model does not capture rounding, NaN, infinities or overflow. Where the source would divide by zero or compute with infinities, the model rules those inputs out instead (the lines below name each case). The denormal flush of the transposed biquad is modelled; the real floating-point denormals are not.
- The accuracy of the transcendental functions is not modelled. They are the fields of `Libm.Math`, with only the facts listed above.
- For the plain value type, `toText` and `toValue` format and parse decimals through a string stream, and stringToDouble is the same kind of parsing. The model covers `toText` and `toValue` only for the stepped (label) type.
- The constructor of `Parameters.cpp`, which registers the plug-in's parameter list, is not part of this model. The id enumeration and value types it needs are declared elsewhere, so the model keeps only the registry operations.
- The older `IParameterUIListener` interface in `Parameter.h` is not part of this model.
- NUL characters inside parameter names are not modelled. `Clap.NameCopy` keeps a prefix of at most 255 characters.
- `CLAP_PARAM_IS_STEPPED` (bit 0) and `CLAP_PARAM_IS_AUTOMATABLE` (bit 5) are the CLAP SDK's values. They do not appear in the repository.
- `kMaxDriveDb` is declared outside the files of this model; `Shapers.MaxDriveDb` assumes it is 36 dB.
- The engine's parameter attachments (the lambdas of `initParameterAttachments`) and the `mBias` member are not part of this model.
- Params.Parameter.IsStepped: reads the stepped bit of the value type's flags, because the header that declares the newer `isStepped` is not part of this model.
- Params.Listener.Copy: the copy takes over the callback's presence but not the callback itself; callbacks are returned as `Update` values instead of being called.
- Params.Listener.Move: the same holds for the move, and the moved-from listener's callback is not cleared.
- Params.Listener.CopyAssign: keeps the target's callback presence; the defaulted assignment of `ParameterAttachment` would also copy the source's callback.
- Params.Listener.MoveAssign: keeps the target's callback presence in the same way; the defaulted move assignment would also move the source's callback.
- Mappings.Denormalize: the S-curve's `pow(|s|, 3)` is the exact cube `s * s * s` of the magnitude, so it does not go through `pow`.
- ValueTypes.ToText: requires the value in (-1, 2^64), because the cast to `size_t` is undefined outside that range.
- ValueTypes.StepIndex: requires the same range, for the same reason.
- Disto.MultiDisto.SetSampleRate: requires a non-negative rate, which keeps the smoother coefficients in [0, 1] and so the drive non-negative.
- Disto.MultiDisto.SetDrive: requires a non-negative drive, which keeps the drive non-negative, as the waveshaper's division needs.
- BiquadDf1.Update: requires a non-zero sample rate, Q and 1 + alpha for the handled types, instead of producing infinities.
