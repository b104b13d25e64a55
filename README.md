# MakoOD overdrive: a verified model of the audio processor

MakoOD (the `MakoBiteAudioProcessor` plug-in) is a guitar overdrive. Each
sample of each input channel goes through:

- a peaking "Low" filter;
- a noise gate driven by an envelope follower;
- an optional high-frequency enhancer;
- a peaking "High" filter;
- a blend of the clean signal with a `tanh`-driven copy, scaled by 0.25;
- an optional low-frequency enhancer;
- the output gain;
- a hard clamp that raises a sticky clipping flag.

The editor writes knob values into `Setting[]` and bumps a change counter. At
the start of a block with a change pending (counter above zero) the processor
redesigns the Low filter if its setting differs from the last one applied,
and likewise the High filter. A timer in the editor consumes the clipping
flag.

This project models that core in Dafny and proves its properties.

- `dsp.dfy` (module `Dsp`) holds the stateless pieces:
  - biquad coefficient records and the direct-form biquad step;
  - the peaking, low-pass and high-pass coefficient formulas;
  - the envelope follower and gate factor;
  - the clamp.

  Its lemmas cover frequency response (unit gain of the peaking filter at DC
  and at Nyquist, the Butterworth low-pass and high-pass at both ends), the
  gate's monotonicity and attenuation, and the clamp bounds. Two divisors
  are proved safe: the peaking design's at the fixed Q of 0.707 and any
  positive rate, and the Butterworth `1 + √2·c + c²` for every `c`. The
  general peaking design still requires its divisors to be non-zero
  (`BandPassDefined`), and the low-pass requires `tan(π·fc/rate) != 0`.
- `chain.dfy` (module `Chain`) describes `MakoOD_ProcessAudio` on values. An
  `Engine` holds the four filters, the envelopes, the gate factors and the
  clipping flag. `Step` is one sample, `RunChannel` one channel of a block and
  `RunChannels` the whole block. The lemmas cover:
  - which filters a sample advances;
  - the gate on/off behaviour;
  - the clamp bound, which holds whatever `tanh` is;
  - that the clipping flag is set exactly when some pre-clamp value left
    [-0.9999, 0.9999] or it was already set;
  - that coefficients are never changed by audio processing;
  - that mix = 0 makes the drive irrelevant.
- `processor.dfy` (module `PluginProcessor`) is the imperative model:
  - class `Filter` is one `tp_filter` record, whose five delay-line arrays are
    two-element `seq` fields updated in place;
  - class `AudioBuffer` is the JUCE buffer, its channels a `seq<seq<real>>`;
  - class `Processor` has the fields of `PluginProcessor.h` and the methods
    `prepareToPlay`, `processBlock`, `setStateInformation` (after decoding),
    `Settings_Update`, `makoNoiseGate`, `MakoOD_ProcessAudio` and the filter
    routines.

  Every audio-path and filter-design method is proved against the
  `Chain`/`Dsp` functions. For example,
  `ProcessBlock` ends with the buffer's processed channels equal to
  `RunChannels` of the old buffer, channels `numIn .. numOut-1` silent, and
  every other channel untouched. `Valid()` and `Consistent()` are
  established by the `Processor` constructor and preserved by the operations
  the host and the editor call: `PrepareToPlay`, `SetStateInformation`,
  `ProcessBlock`, `SliderValueChanged` and `TimerCallback`. Of the internal
  routines, `SettingsUpdate` and `ApplyPendingSettings` keep the pair too;
  the per-sample and per-channel stages promise `Valid()` and their state
  equations, not `Consistent()`. Between them the pair says:
  - the counter is never negative;
  - with no change pending, the last-applied Low and High settings are the
    current ones;
  - after `prepareToPlay`, all four filters carry their designed coefficients
    at the current rate.
- `editor.dfy` (module `PluginEditor`) covers `sliderValueChanged` and
  `timerCallback` over the processor.

Samples, settings and coefficients are `real`. The single-precision constants
(`pi`, `pi2`, `sqrt2`, 0.9999, 0.999, 0.995, …) are read as the decimals they
are written as.

The math-library functions are not modelled:
- `tanhf` and `pow` are functions of type `real -> real` and
  `(real, real) -> real`, handed to the `Processor` constructor and stored as
  the constant fields `Tanh` and `Pow`;
- `tanf` is a parameter of `SetLowPass`/`SetHighPass`.

The host's sample rate is the argument `hostRate` of `PrepareToPlay`; it stands
for the value of `getSampleRate()`. The decoded parameter tree of
`setStateInformation` is a `map<string, real>`: a missing key is the source's
null parameter.

The editor and audio threads are modelled as an interleaving of atomic method
calls; the `Valid()`/`Consistent()` pair is what each of the five calls
named above keeps.

The index constants `e_Gain` .. `e_Mix` are the distinct values 0 .. 7, all
below the 20 entries of `Setting` (`Chain.Gain` .. `Chain.Mix`,
`Chain.SettingCount`). Only the first `Knob_Cnt` = 8 settings can be written
by the editor (`PluginEditor.KnobCnt`).

## Model

| member | source | states |
|---|---|---|
| Dsp.Abs | PluginProcessor.cpp:367 | the magnitude used by the envelope is non-negative and is x or -x |
| Dsp.DcSteadyState | PluginProcessor.cpp:298-308 | a biquad whose coefficient sums satisfy a0+a1+a2 = g(1+b1+b2), fed a constant, holds a steady state whose output is g times the input |
| Dsp.NyquistSteadyState | PluginProcessor.cpp:298-308 | the same at the Nyquist frequency, for an alternating input and the gain at z = -1 |
| Dsp.TransparentFilter | PluginProcessor.cpp:298-308 | a biquad with numerator equal to denominator passes every sample unchanged and keeps its input and output taps equal |
| Dsp.BandPass | PluginProcessor.cpp:310-330 | the peaking design, built from K = 2π·(Fc/2)/rate (`BandPassK`, cpp:313), sets b1 = a1, c0 = 1 and d0 = 0 |
| Dsp.BandPassUnityAtDcAndNyquist | PluginProcessor.cpp:310-330 | the peaking filter has gain exactly 1 at DC and at Nyquist, whatever V0, Fc and the rate |
| Dsp.BandPassZeroGainIsIdentity | PluginProcessor.cpp:310-330 | with V0 = 1 (0 dB) the peaking filter is the identity filter |
| Dsp.ButterworthDenominatorPositive | PluginProcessor.cpp:336 | 1 + √2·c + c² is positive for every c, so the low/high-pass designs never divide by zero there |
| Dsp.LowPass | PluginProcessor.cpp:332-341 | the low-pass writes a1 = 2·a0 and a2 = a0 and leaves c0 and d0 as they were |
| Dsp.HighPass | PluginProcessor.cpp:343-352 | the high-pass writes a1 = -2·a0 and a2 = a0 and leaves c0 and d0 as they were |
| Dsp.LowPassResponse | PluginProcessor.cpp:332-341 | the low-pass has unit gain at DC and zero gain at Nyquist |
| Dsp.HighPassResponse | PluginProcessor.cpp:343-352 | the high-pass has zero gain at DC and unit gain at Nyquist |
| Dsp.Envelope | PluginProcessor.cpp:367 | the new average lies between the old one and abs(x), so a non-negative average stays non-negative |
| Dsp.GateFactor | PluginProcessor.cpp:282-283 | the factor is at most 1, is 1 exactly when avg·10000·(1.1-NGate) reaches 1 and otherwise equals it, and it is non-negative when avg ≥ 0 and NGate ≤ 1.1 |
| Dsp.GateFactorMonotone | PluginProcessor.cpp:282-283 | a larger envelope never gives a smaller gate factor |
| Dsp.GateNeverAmplifies | PluginProcessor.cpp:286 | the gated sample is no larger in magnitude than the input and keeps its sign |
| Dsp.Clamp | PluginProcessor.cpp:408-417 | the output lies in [-0.9999, 0.9999]; below -0.9999 gives -0.999, above 0.9999 gives 0.999, anything else passes through; the predicate `Clips` (the two guards of cpp:408 and 413) names the values that are clamped |
| Chain.Advance | PluginProcessor.cpp:298-308 | one biquad step on channel ch returns the difference-equation output `BiQuadOut` (cpp:304) and shifts, by `BiQuadShift` (cpp:303, 305), only that channel's delay line (x0 = x1 = x, x2 = old x1, y1 = y, y2 = old y1) and keeps the coefficients and the other channel |
| Chain.Gate | PluginProcessor.cpp:364-371 | with NGate ≤ 0 nothing changes; otherwise the channel's envelope and factor are updated and the sample multiplied by the factor; other channels are kept; non-negative envelopes stay non-negative |
| Chain.Enhance | PluginProcessor.cpp:374-378 | with the setting not positive the filter and sample are untouched; otherwise the filter advances once and the sample gains tanh(filtered·setting), the `Boost` of cpp:377 and 399 |
| Chain.Blend | PluginProcessor.cpp:383-393 | the driven copy is `Overdrive` (cpp:386) and the blend `Mixed` (cpp:389); mix 0 yields only the clean quarter (times 0.25), mix 1 only the driven copy (times 0.25) |
| Chain.Front | PluginProcessor.cpp:359-380 | the front half of the chain does not touch the Enhance-Low filter or the clipping flag |
| Chain.Back | PluginProcessor.cpp:383-403 | the back half of the chain, ending in the output gain `Volume` (cpp:403), moves only the Enhance-Low filter |
| Chain.PreClamp | PluginProcessor.cpp:355-403 | the chain before the clamp never touches the clipping flag |
| Chain.Step | PluginProcessor.cpp:355-420 | one sample's output lies in [-0.9999, 0.9999] whatever tanh and the settings are |
| Chain.StepClamp | PluginProcessor.cpp:408-419 | after a sample the clipping flag is raised iff it was raised or the pre-clamp value leaves [-0.9999, 0.9999]; the output is -0.999 below that range, 0.999 above it and the pre-clamp value inside it |
| Chain.StepAdvancesFilters | PluginProcessor.cpp:360-400 | per sample the Low and High filters each advance exactly once; Enhance-High and Enhance-Low advance once when their settings are positive and are untouched otherwise |
| Chain.StepGate | PluginProcessor.cpp:364-371 | with NGate ≤ 0 the envelopes and gate factors are unchanged; with NGate > 0 the channel's envelope follows the Low filter's output and its factor is the gate factor of the new envelope, at most 1; the other channel is kept |
| Chain.MixZeroIgnoresDrive | PluginProcessor.cpp:383-393 | with mix = 0 the Drive setting has no effect on the sample or the state |
| Chain.RunChannel | PluginProcessor.cpp:196-202 | a channel's run outputs as many samples as it gets, each in [-0.9999, 0.9999] |
| Chain.RunChannels | PluginProcessor.cpp:191-203 | a block's run outputs one row per processed channel, each as long as its input and bounded by ±0.9999 |
| Chain.StepKeeps | PluginProcessor.cpp:355-420 | a sample keeps every coefficient, the gate state when the gate is off, each enhance filter whose setting is not positive, a raised clipping flag, non-negative envelopes, and the other channel's state |
| Chain.RunChannelKeeps | PluginProcessor.cpp:196-202 | a whole channel's run keeps the same things as a sample and leaves the other channel's state alone |
| Chain.RunChannelsKeeps | PluginProcessor.cpp:191-203 | a whole block's run keeps every coefficient, the disabled stages, a raised clipping flag and non-negative envelopes |
| Chain.RunChannelOutputs | PluginProcessor.cpp:196-202 | every output sample of a channel is the clamp of that sample's pre-clamp value |
| Chain.RunChannelClipping | PluginProcessor.cpp:408-417 | after a channel the clipping flag is raised iff it was raised before or some pre-clamp value of the channel leaves [-0.9999, 0.9999] |
| Chain.RunChannelsPrefix | PluginProcessor.cpp:191 | a block's run depends only on the channels below the input count |
| PluginProcessor.VoicingDefined | PluginProcessor.cpp:433 | Q = 0.707 at any positive rate gives a well-defined peaking design with a positive divisor, for every centre frequency |
| PluginProcessor.BandPassTerms | PluginProcessor.cpp:313-329 | the source's intermediate terms K, K2, a, b, g, d and dd give exactly the coefficients of the peaking design |
| PluginProcessor.Filter.constructor | PluginProcessor.h:138-141 | a `= {}` filter has zero coefficients and zero delay lines in both channels |
| PluginProcessor.Filter.CalcBiQuad | PluginProcessor.cpp:298-308 | returns a0·x + a1·xn1 + a2·xn2 - b1·yn1 - b2·yn2 for the channel and shifts that channel's delay line; coefficients and the other channel are unchanged |
| PluginProcessor.Filter.EnhanceSample | PluginProcessor.cpp:374-378 | an enhance stage on this filter follows Enhance: it advances the filter only when the setting is positive |
| PluginProcessor.Filter.SetBandPass | PluginProcessor.cpp:310-330 | only the coefficients change, to the peaking design with V0 = pow(10, gain/20); every delay line is kept |
| PluginProcessor.Filter.SetLowPass | PluginProcessor.cpp:332-341 | only a0..b2 change, to the Butterworth low-pass for tan(π·fc/rate); c0, d0 and the delay lines are kept |
| PluginProcessor.Filter.SetHighPass | PluginProcessor.cpp:343-352 | only a0..b2 change, to the Butterworth high-pass for tan(π·fc/rate); c0, d0 and the delay lines are kept |
| PluginProcessor.ParmValueFloat | PluginProcessor.cpp:269-277 | the stored value when the parameter exists, 0 otherwise |
| PluginProcessor.Truncate | PluginProcessor.cpp:264 | `int(x)` rounds toward zero: the result is the integer part of x for either sign |
| PluginProcessor.ParmValueInt | PluginProcessor.cpp:259-267 | the stored value truncated toward zero when the parameter exists, 0 otherwise |
| PluginProcessor.ClearChannels | PluginProcessor.cpp:182-183 | channels first .. last-1 become silent and every other channel is unchanged |
| PluginProcessor.AudioBuffer.SetSample | PluginProcessor.cpp:201 | exactly one sample of one channel is overwritten |
| PluginProcessor.AudioBuffer.Clear | PluginProcessor.cpp:183 | exactly one channel becomes all zeros |
| PluginProcessor.Processor.constructor | PluginProcessor.h:63-102 | a fresh processor has no pending change, no clipping, 20 zero settings and snapshots, zero envelopes and gate factors, rate 48000 and four zeroed filters, each newly allocated (the inline `tp_filter` members of PluginProcessor.h:138-141 belong to no other object), so the new processor can be prepared and processed at once |
| PluginProcessor.Processor.NoiseGate | PluginProcessor.cpp:279-287 | stores min(1, avg·10000·(1.1-NGate)) for the channel only and returns sample × factor, which is no louder than the input when avg ≥ 0 and NGate ≤ 1.1 |
| PluginProcessor.Processor.GateSample | PluginProcessor.cpp:364-371 | the envelope update and gate follow Gate: nothing changes when NGate ≤ 0 |
| PluginProcessor.Processor.DriveAndMix | PluginProcessor.cpp:383-393 | the result is the clean/driven blend scaled by 0.25 |
| PluginProcessor.Processor.ClampOutput | PluginProcessor.cpp:408-417 | returns the clamp of the sample, and the flag becomes raised iff it was raised or the sample clips |
| PluginProcessor.Processor.FrontEnd | PluginProcessor.cpp:359-380 | the first half of the chain moves the state and the sample as Front says |
| PluginProcessor.Processor.BackEnd | PluginProcessor.cpp:383-403 | the second half of the chain moves the state and the sample as Back says |
| PluginProcessor.Processor.ProcessAudio | PluginProcessor.cpp:355-420 | the new filter, gate and clipping state and the returned sample are those of one Step |
| PluginProcessor.Processor.Retune | PluginProcessor.cpp:430-434 | a Low/High filter is redesigned, to `Voicing(fc)`, the design `Filter_BP_Coeffs(18, fc, .707)` of cpp:124-125, 433 and 438 at the current rate, for its setting iff the setting differs from its snapshot or the update is forced, otherwise untouched; the snapshot ends equal to the setting |
| PluginProcessor.Processor.SettingsUpdate | PluginProcessor.cpp:422-445 | Low and High are each redesigned to `Voicing` of their settings iff changed or forced and kept otherwise; both snapshots end equal to the settings; the enhance filters are not touched; the counter becomes max(0, old-1) |
| PluginProcessor.Processor.PrepareToPlay | PluginProcessor.cpp:111-129 | a host rate outside [21000, 192000] becomes 48000; the enhance filters are designed at 450 Hz and 1350 Hz, and Low/High for their settings, all at 18 dB and Q 0.707 at the new rate (`Voicing`) |
| PluginProcessor.Processor.SetStateInformation | PluginProcessor.cpp:244-256 | the eight knob settings are read back from the parameters (Low and High truncated, missing ones 0), the others are kept, and Low/High are redesigned to `Voicing` of their settings as by a forced update |
| PluginProcessor.Processor.ProcessSample | PluginProcessor.cpp:198-201 | exactly one buffer sample is replaced, by the Step of its old value as read through `AudioBuffer.GetSample` (cpp:199), and the processor state follows that Step |
| PluginProcessor.Processor.ProcessChannel | PluginProcessor.cpp:196-202 | a channel's samples are replaced in ascending order as RunChannel says; other channels are unchanged |
| PluginProcessor.Processor.ProcessNextChannel | PluginProcessor.cpp:191-203 | one pass of the outer loop: the channel it reads is still the input, the RunChannels relation grows by that one channel, and the later channels still hold the input |
| PluginProcessor.Processor.ProcessChannels | PluginProcessor.cpp:191-203 | input channels 0 .. numIn-1 are processed in channel-major order as RunChannels says; later channels are unchanged |
| PluginProcessor.Processor.ApplyPendingSettings | PluginProcessor.cpp:174 | Settings_Update(false) runs only when a change is pending: the counter drops by one, never below zero, and Low/High are redesigned to `Voicing` exactly when pending and changed; the engine becomes `Chain.Retuned` of the old one (new Low/High coefficients, delay lines and everything else kept) |
| PluginProcessor.Processor.ProcessBuffer | PluginProcessor.cpp:182-203 | channels numIn .. numOut-1 are cleared, input channels are processed as RunChannels says, other channels and all coefficients are unchanged |
| PluginProcessor.Processor.ProcessBlock | PluginProcessor.cpp:163-204 | the pending settings are applied first, then the block is processed as RunChannels from `Chain.Retuned` of the old engine with the `Voicing` coefficients of cpp:174; channels numIn .. numOut-1 are silent and the rest are untouched |
| PluginEditor.Editor.SliderValueChanged | PluginEditor.cpp:209-240 | for knob t < 8 only Setting[t] changes, to the knob's value, and the counter grows by exactly 1; any other slider changes nothing; the processor's invariants hold afterwards |
| PluginEditor.Editor.constructor | PluginEditor.cpp:13-14 | the editor is bound to its processor, holds twenty distinct sliders and starts with the clipping label dark (`STATE_Clip = false`, PluginEditor.h:196) |
| PluginEditor.Editor.TimerCallback | PluginEditor.cpp:103-114 | the label state becomes the old clipping flag, the flag ends cleared, and the processor's `Valid()`/`Consistent()` still hold |

## Left out

- Floating-point rounding, NaN, infinities and denormals (`ScopedNoDenormals`). All arithmetic is over `real`. The mixed `float`/`double` expressions (`.995`, `pow(10.0, …)`) and the `float(…)` casts are exact.
- `tanhf`, `pow` and `tanf` are given, not modelled: `tanh` and `pow` are arbitrary functions handed to the processor, and `tan` is a parameter of the low-/high-pass methods. No property relies on what they compute; the clamp bound holds for every `tanh`.
- The decode half of `setStateInformation` (`getXmlFromBinary`, `replaceState`) and `getStateInformation`. They belong to JUCE's serialisation library. The decoded parameters are a map, and a missing name stands for the null parameter pointer.
- The parameter-tree construction, the MIDI, program and name stubs, `createEditor`, `releaseResources` and `isBusesLayoutSupported`. The bus layout only provides the precondition that at most two input channels (`numIn <= Channels`) are processed.
- `getSampleRate()`, `getTotalNumInputChannels()` and `getTotalNumOutputChannels()` are the arguments `hostRate`, `numIn` and `numOut`.
- `SettingsType` (PluginProcessor.h:67) is never read by the core. `tp_filter::offset` (PluginProcessor.h:128) is never used, and `tp_coeffs` is never instantiated.
- Cross-thread visibility and atomicity of `Setting`, `SettingsChanged` and `AudioIsClipping`. Each editor or audio call is one atomic step.
- `SettingsChanged` is an unbounded integer, so the increment in `sliderValueChanged` does not model 32-bit overflow.
- The inline `float[2]` delay lines, `Setting[20]` and the per-channel arrays are `seq` fields replaced whole. The JUCE `AudioBuffer` is a class whose channels are a `seq<seq<real>>`. The write through `getWritePointer` is a `SetSample` call. Aliasing between channel pointers is not modelled.
- PluginProcessor.Filter.SetLowPass: requires `tan(π·fc/rate) != 0`, because the source divides by it. The source gives no value for that case; in floating point it would produce an infinity.
- `Filter_LP_Coeffs` and `Filter_HP_Coeffs` are never called by the processor; they are modelled as methods on `Filter` but not wired into `Settings_Update`.
- The editor's help text, label colours, painting, layout and the slider's range and styling. A slider is only its current value, and `STATE_Clip` is the editor's `StateClip` field.
