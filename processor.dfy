/** The audio processor of the MakoOD overdrive: the filter records it
    updates in place, the settings it owns, and the host-facing operations
    prepareToPlay, processBlock and setStateInformation with the private
    routines behind them.  The audio-path methods are proved to follow the
    value-level description of the Chain module; the filter designers and
    Retune, SettingsUpdate and PrepareToPlay follow the Dsp coefficient
    formulas (Dsp.BandPass through Voicing, Dsp.LowPass, Dsp.HighPass). */
module PluginProcessor {
  import opened Dsp
  import opened Chain

  /** The gain, centre frequencies and Q the processor designs its four
      peaking filters with (prepareToPlay and Settings_Update). */
  const VoicingGainDb: real := 18.0
  const VoicingQ: real := 0.707
  const EnhLowFc: real := 450.0
  const EnhHighFc: real := 1350.0

  /** The host's sample-rate bounds in prepareToPlay and the rate used
      outside them (also the rate before prepareToPlay runs). */
  const MinSampleRate: real := 21000.0
  const MaxSampleRate: real := 192000.0
  const DefaultSampleRate: real := 48000.0

  /** Every rate the processor can hold gives a well-defined peaking filter
      with its Q of 0.707, whatever the centre frequency. */
  lemma {:induction false} VoicingDefined(fc: real, sampleRate: real)
    requires sampleRate > 0.0
    ensures BandPassDefined(fc, VoicingQ, sampleRate)
    ensures BandPassDen(BandPassK(fc, sampleRate), VoicingQ) > 0.0
  {
  }

  /** Filter_BP_Coeffs's intermediate terms K, K², a, b, g, d and dd give
      the coefficients of the peaking formula. */
  lemma {:induction false} BandPassTerms(v0: real, fc: real, q: real, sampleRate: real,
                      k: real, k2: real, a: real, b: real, g: real, d: real, dd: real)
    requires BandPassDefined(fc, q, sampleRate)
    requires k == Pi2 * (fc * 0.5) / sampleRate && k2 == k * k
    requires a == 1.0 + (v0 * k) / q + k2 && b == 2.0 * (k2 - 1.0)
    requires g == 1.0 - (v0 * k) / q + k2 && d == 1.0 - k / q + k2
    requires dd == 1.0 / (1.0 + k / q + k2)
    ensures BandPass(v0, fc, q, sampleRate) == Coeffs(a * dd, b * dd, g * dd, b * dd, d * dd, 1.0, 0.0)
  {
    BandPassIsPeak(v0, fc, q, sampleRate, k, k2, dd);
    PeakTerms(k2, k / q, (v0 * k) / q, dd, a, b, g, d);
  }

  lemma {:induction false} BandPassIsPeak(v0: real, fc: real, q: real, sampleRate: real, k: real, k2: real, dd: real)
    requires BandPassDefined(fc, q, sampleRate)
    requires k == Pi2 * (fc * 0.5) / sampleRate && k2 == k * k
    requires dd == 1.0 / (1.0 + k / q + k2)
    ensures BandPass(v0, fc, q, sampleRate) == PeakCoeffs(k2, k / q, (v0 * k) / q, dd)
  {
    assert BandPass(v0, fc, q, sampleRate) == PeakAt(v0, k, q);
    PeakAtTerms(v0, k, q, k2, dd);
  }

  lemma {:induction false} PeakAtTerms(v0: real, k: real, q: real, k2: real, dd: real)
    requires q != 0.0 && BandPassDen(k, q) != 0.0
    requires k2 == k * k && dd == 1.0 / (1.0 + k / q + k2)
    ensures PeakAt(v0, k, q) == PeakCoeffs(k2, k / q, (v0 * k) / q, dd)
  {
  }

  lemma {:induction false} PeakTerms(k2: real, u: real, w: real, dd: real, a: real, b: real, g: real, d: real)
    requires a == 1.0 + w + k2 && b == 2.0 * (k2 - 1.0) && g == 1.0 - w + k2 && d == 1.0 - u + k2
    ensures PeakCoeffs(k2, u, w, dd) == Coeffs(a * dd, b * dd, g * dd, b * dd, d * dd, 1.0, 0.0)
  {
  }

  /** The noise-gate stage as the method computes it is the Gate value. */
  lemma {:induction false} GateTerms(amount: real, avg: seq<real>, fac: seq<real>, ch: nat, y: real, g: GateOut)
    requires |avg| == Channels && |fac| == Channels && ch < Channels
    requires amount <= 0.0 ==> g == GateOut(avg, fac, y)
    requires 0.0 < amount ==>
      && g.avg == avg[ch := Envelope(avg[ch], y)]
      && g.fac == fac[ch := GateFactor(g.avg[ch], amount)]
      && g.out == y * g.fac[ch]
    ensures g == Gate(amount, avg, fac, ch, y)
  {
    if 0.0 < amount {
      var a := Envelope(avg[ch], y);
      var f := GateFactor(a, amount);
      assert g.avg[ch] == a;
      assert g.fac[ch] == f;
      assert g.out == y * f;
      assert g == GateOut(avg[ch := a], fac[ch := f], y * f);
    }
  }

  /** The first half as the method computes it is the Front value. */
  lemma {:induction false} FrontTerms(tanh: real -> real, s: seq<real>, e: Engine, x: real, ch: nat,
                   lo: (FilterView, real), g: GateOut, eh: (FilterView, real), hi: (FilterView, real))
    requires |s| == SettingCount && Shaped(e) && ch < Channels
    requires lo == Advance(e.low, ch, x)
    requires g == Gate(s[NGate], e.avg, e.fac, ch, lo.1)
    requires eh == Enhance(tanh, e.enhHigh, ch, g.out, s[EnhHigh])
    requires hi == Advance(e.high, ch, eh.1)
    ensures Front(tanh, s, e, x, ch) == (Engine(lo.0, hi.0, eh.0, e.enhLow, g.avg, g.fac, e.clipping), hi.1)
  {
  }

  /** A `tp_filter` record: coefficients, and one delay line per channel
      held in five two-element buffers, which the record holds inline. */
  class Filter {
    var a0: real
    var a1: real
    var a2: real
    var b1: real
    var b2: real
    var c0: real
    var d0: real
    var xn0: seq<real>
    var xn1: seq<real>
    var xn2: seq<real>
    var yn1: seq<real>
    var yn2: seq<real>

    /** Two channels in each delay buffer. */
    ghost predicate Valid()
      reads this
    {
      |xn0| == Channels && |xn1| == Channels && |xn2| == Channels && |yn1| == Channels && |yn2| == Channels
    }

    function Coefficients(): Coeffs
      reads this
    {
      Coeffs(a0, a1, a2, b1, b2, c0, d0)
    }

    function DelayAt(ch: nat): Delay
      requires Valid() && ch < Channels
      reads this
    {
      Delay(xn0[ch], xn1[ch], xn2[ch], yn1[ch], yn2[ch])
    }

    /** The record as a value. */
    function View(): FilterView
      requires Valid()
      reads this
    {
      FilterView(Coefficients(), DelayAt(0), DelayAt(1))
    }

    /** A `= {}` initialised record: zero coefficients, zero delay lines. */
    constructor ()
      ensures Valid() && View() == ZeroFilter
    {
      a0, a1, a2, b1, b2, c0, d0 := 0.0, 0.0, 0.0, 0.0, 0.0, 0.0, 0.0;
      xn0, xn1, xn2, yn1, yn2 := [0.0, 0.0], [0.0, 0.0], [0.0, 0.0], [0.0, 0.0], [0.0, 0.0];
    }

    /** Filter_Calc_BiQuad: one step of the recurrence on one channel. */
    method CalcBiQuad(sample: real, channel: nat) returns (r: real)
      requires Valid() && channel < Channels
      modifies this
      ensures Valid()
      ensures (View(), r) == Advance(old(View()), channel, sample)
    {
      xn0 := xn0[channel := sample];
      r := a0 * xn0[channel] + a1 * xn1[channel] + a2 * xn2[channel] - b1 * yn1[channel] - b2 * yn2[channel];
      xn2 := xn2[channel := xn1[channel]];
      xn1 := xn1[channel := xn0[channel]];
      yn2 := yn2[channel := yn1[channel]];
      yn1 := yn1[channel := r];
      ghost var before := old(View());
      assert r == BiQuadOut(before.coeffs, before.At(channel), sample);
      assert DelayAt(channel) == BiQuadShift(before.At(channel), sample, r);
      assert forall o :: 0 <= o < Channels && o != channel ==> DelayAt(o) == before.At(o);
      assert View() == before.With(channel, BiQuadShift(before.At(channel), sample, r));
    }

    /** An enhance stage of MakoOD_ProcessAudio run on this filter: with
      its setting positive, the filter advances on the sample and the sample
      gains tanhf of the filter's output times the setting; otherwise nothing
      runs and the sample passes. */
    method EnhanceSample(tanh: real -> real, sample: real, amount: real, channel: nat) returns (r: real)
      requires Valid() && channel < Channels
      modifies this
      ensures Valid()
      ensures (View(), r) == Enhance(tanh, old(View()), channel, sample, amount)
    {
      r := sample;
      if 0.0 < amount {
        var tSEnh := CalcBiQuad(sample, channel);
        r := r + tanh(tSEnh * amount);
        assert r == Boost(tanh, sample, tSEnh, amount);
      }
    }

    /** Filter_BP_Coeffs: the peaking filter with gain 10^(gainDb/20); every
      coefficient is rewritten and the delay lines are kept. */
    method SetBandPass(pow: (real, real) -> real, gainDb: real, fc: real, q: real, sampleRate: real)
      requires Valid() && BandPassDefined(fc, q, sampleRate)
      modifies this
      ensures Valid()
      ensures View() == old(View()).(coeffs := BandPass(pow(10.0, gainDb / 20.0), fc, q, sampleRate))
    {
      var k := Pi2 * (fc * 0.5) / sampleRate;
      var k2 := k * k;
      var v0 := pow(10.0, gainDb / 20.0);
      var a := 1.0 + (v0 * k) / q + k2;
      var b := 2.0 * (k2 - 1.0);
      var g := 1.0 - (v0 * k) / q + k2;
      var d := 1.0 - k / q + k2;
      assert 1.0 + k / q + k2 == BandPassDen(BandPassK(fc, sampleRate), q);
      var dd := 1.0 / (1.0 + k / q + k2);
      a0 := a * dd;
      a1 := b * dd;
      a2 := g * dd;
      b1 := b * dd;
      b2 := d * dd;
      c0 := 1.0;
      d0 := 0.0;
      BandPassTerms(v0, fc, q, sampleRate, k, k2, a, b, g, d, dd);
    }

    /** Filter_LP_Coeffs: the Butterworth low-pass for tan(π fc / rate);
      c0, d0 and the delay lines are kept. */
    method SetLowPass(tan: real -> real, fc: real, sampleRate: real)
      requires Valid() && sampleRate != 0.0 && tan(Pi * fc / sampleRate) != 0.0
      modifies this
      ensures Valid()
      ensures View() == old(View()).(coeffs := LowPass(old(Coefficients()), tan(Pi * fc / sampleRate)))
    {
      var c := 1.0 / tan(Pi * fc / sampleRate);
      ButterworthDenominatorPositive(c);
      a0 := 1.0 / (1.0 + Sqrt2 * c + c * c);
      a1 := 2.0 * a0;
      a2 := a0;
      b1 := 2.0 * a0 * (1.0 - c * c);
      b2 := a0 * (1.0 - Sqrt2 * c + c * c);
    }

    /** Filter_HP_Coeffs: the Butterworth high-pass for tan(π fc / rate). */
    method SetHighPass(tan: real -> real, fc: real, sampleRate: real)
      requires Valid() && sampleRate != 0.0
      modifies this
      ensures Valid()
      ensures View() == old(View()).(coeffs := HighPass(old(Coefficients()), tan(Pi * fc / sampleRate)))
    {
      var c := tan(Pi * fc / sampleRate);
      ButterworthDenominatorPositive(c);
      a0 := 1.0 / (1.0 + Sqrt2 * c + c * c);
      a1 := -2.0 * a0;
      a2 := a0;
      b1 := 2.0 * a0 * (c * c - 1.0);
      b2 := a0 * (1.0 - Sqrt2 * c + c * c);
    }
  }

  /** makoGetParmValue_float: the stored value of a parameter, or 0 when the
      tree has no parameter of that name. */
  function ParmValueFloat(params: map<string, real>, name: string): (r: real)
    ensures name in params ==> r == params[name]
    ensures name !in params ==> r == 0.0
  {
    if name in params then params[name] else 0.0
  }

  /** `int(x)`: the integer part of x, rounded toward zero. */
  function Truncate(x: real): (r: int)
    ensures 0.0 <= x ==> 0 <= r && r as real <= x < r as real + 1.0
    ensures x < 0.0 ==> r <= 0 && r as real - 1.0 < x <= r as real
  {
    if 0.0 <= x then x.Floor else -((-x).Floor)
  }

  /** makoGetParmValue_int: the stored value truncated toward zero, or 0
      when the tree has no parameter of that name. */
  function ParmValueInt(params: map<string, real>, name: string): (r: int)
    ensures name in params ==> r == Truncate(params[name])
    ensures name !in params ==> r == 0
  {
    if name in params then Truncate(params[name]) else 0
  }

  /** Writing v over sample samp of a channel whose samples from samp on
    are still the input xs: the processed prefix grows by v and the
    untouched suffix shrinks by one. */
  lemma {:induction false} SplitAfterWrite(row: seq<real>, xs: seq<real>, samp: nat, v: real)
    requires samp < |row| == |xs| && row[samp..] == xs[samp..]
    ensures row[samp := v][..samp + 1] == row[..samp] + [v]
    ensures row[samp := v][samp + 1..] == xs[samp + 1..]
    ensures xs[..samp + 1][..samp] == xs[..samp] && xs[samp] == row[samp]
  {
    assert row[samp] == row[samp..][0];
  }

  /** A block in which only channel ch changed, and whose channels from ch
    on were still the input rows: the processed channels grow by that
    one, channel ch was read from the input, and the untouched channels
    shrink by one. */
  lemma {:induction false} ChannelWritten(before: seq<seq<real>>, after: seq<seq<real>>, rows: seq<seq<real>>, ch: nat)
    requires ch < |before| == |after| == |rows| && before[ch..] == rows[ch..]
    requires forall c :: 0 <= c < |after| && c != ch ==> after[c] == before[c]
    ensures after[..ch + 1] == before[..ch] + [after[ch]]
    ensures before[ch] == rows[ch] && after[ch + 1..] == rows[ch + 1..]
  {
    assert before[ch] == before[ch..][0];
    assert forall c :: ch + 1 <= c < |after| ==> after[c] == before[ch..][c - ch];
  }

  /** A channel of n zero samples. */
  function Silence(n: nat): (r: seq<real>)
    ensures |r| == n && forall i :: 0 <= i < n ==> r[i] == 0.0
  {
    seq(n, _ => 0.0)
  }

  /** processBlock's clearing loop: channels first .. last-1 become silent
      (none when last <= first) and every other channel is kept. */
  method ClearChannels(buffer: AudioBuffer, first: nat, last: nat)
    requires buffer.Valid() && last <= |buffer.data|
    modifies buffer
    ensures buffer.Valid() && |buffer.data| == |old(buffer.data)|
    ensures forall c :: first <= c < last ==> buffer.data[c] == Silence(buffer.NumSamples)
    ensures forall c :: 0 <= c < |buffer.data| && !(first <= c < last) ==> buffer.data[c] == old(buffer.data[c])
  {
    var i := first;
    while i < last
      invariant first <= i && (i <= last || i == first)
      invariant buffer.Valid() && |buffer.data| == |old(buffer.data)|
      invariant forall c :: first <= c < i ==> buffer.data[c] == Silence(buffer.NumSamples)
      invariant forall c :: 0 <= c < |buffer.data| && !(first <= c < i) ==> buffer.data[c] == old(buffer.data[c])
    {
      buffer.Clear(i);
      i := i + 1;
    }
  }

  /** What processBlock uses of a JUCE AudioBuffer<float>: its channels,
      each NumSamples samples long, read and written in place. */
  class AudioBuffer {
    var data: seq<seq<real>>
    const NumSamples: nat

    ghost predicate Valid()
      reads this
    {
      forall c :: 0 <= c < |data| ==> |data[c]| == NumSamples
    }

    /** getSample. */
    function GetSample(channel: nat, samp: nat): real
      requires channel < |data| && samp < |data[channel]|
      reads this
    {
      data[channel][samp]
    }

    /** A write through getWritePointer(channel): sample samp of the
      channel becomes v and nothing else changes. */
    method SetSample(channel: nat, samp: nat, v: real)
      requires Valid() && channel < |data| && samp < NumSamples
      modifies this
      ensures Valid()
      ensures data == old(data)[channel := old(data)[channel][samp := v]]
    {
      data := data[channel := data[channel][samp := v]];
    }

    /** clear(channel, 0, getNumSamples()): every sample of the channel
      becomes zero. */
    method Clear(channel: nat)
      requires Valid() && channel < |data|
      modifies this
      ensures Valid()
      ensures data == old(data)[channel := Silence(NumSamples)]
    {
      data := data[channel := Silence(NumSamples)];
    }
  }

  /** The processor: its settings, the noise-gate and clipping state, the
      four filters, and the math-library functions it calls (tanhf, pow),
      which are given to it rather than modelled. */
  class Processor {
    var AudioIsClipping: bool
    var SettingsChanged: int
    var SampleRate: real
    var Setting: seq<real>
    var SettingLast: seq<real>
    var PedalNGateFac: seq<real>
    var SignalAvg: seq<real>
    const LowFilter: Filter
    const HighFilter: Filter
    const EnhHighFilter: Filter
    const EnhLowFilter: Filter
    const Tanh: real -> real
    const Pow: (real, real) -> real
    /** Set once prepareToPlay has designed the enhance filters. */
    ghost var Prepared: bool

    /** The shape of the state: buffer sizes, four distinct filters, a
      positive sample rate and a change counter that is never negative. */
    ghost predicate Valid()
      reads this, LowFilter, HighFilter, EnhHighFilter, EnhLowFilter
    {
      && |Setting| == SettingCount && |SettingLast| == SettingCount
      && |PedalNGateFac| == Channels && |SignalAvg| == Channels
      && LowFilter.Valid() && HighFilter.Valid() && EnhHighFilter.Valid() && EnhLowFilter.Valid()
      && LowFilter != HighFilter && LowFilter != EnhHighFilter && LowFilter != EnhLowFilter
      && HighFilter != EnhHighFilter && HighFilter != EnhLowFilter && EnhHighFilter != EnhLowFilter
      && SampleRate > 0.0
      && SettingsChanged >= 0
    }

    /** The audio-path state as a value. */
    ghost function EngineView(): Engine
      requires Valid()
      reads this, LowFilter, HighFilter, EnhHighFilter, EnhLowFilter
    {
      Engine(LowFilter.View(), HighFilter.View(), EnhHighFilter.View(), EnhLowFilter.View(),
             SignalAvg, PedalNGateFac, AudioIsClipping)
    }

    /** Filter_BP_Coeffs(18, fc, .707, …) at the current sample rate. */
    ghost function Voicing(fc: real): Coeffs
      requires SampleRate > 0.0
      reads this
    {
      VoicingDefined(fc, SampleRate);
      BandPass(Pow(10.0, VoicingGainDb / 20.0), fc, VoicingQ, SampleRate)
    }

    /** The enhance filters carry their voicing at the current rate. */
    ghost predicate EnhanceDesigned()
      requires SampleRate > 0.0
      reads this, EnhHighFilter, EnhLowFilter
    {
      && EnhLowFilter.Coefficients() == Voicing(EnhLowFc)
      && EnhHighFilter.Coefficients() == Voicing(EnhHighFc)
    }

    /** The Low and High filters carry the voicing of their last-applied
      settings at the current rate. */
    ghost predicate ToneDesigned()
      requires SampleRate > 0.0 && |SettingLast| == SettingCount
      reads this, LowFilter, HighFilter
    {
      && LowFilter.Coefficients() == Voicing(SettingLast[Low])
      && HighFilter.Coefficients() == Voicing(SettingLast[High])
    }

    /** What the settings bookkeeping keeps true between calls: with no
      change pending, the last-applied Low and High settings are the current
      ones; and once prepareToPlay has run, all four filters carry their
      voicing at the current rate. */
    ghost predicate Consistent()
      requires Valid()
      reads this, LowFilter, HighFilter, EnhHighFilter, EnhLowFilter
    {
      && (SettingsChanged == 0 ==> SettingLast[Low] == Setting[Low] && SettingLast[High] == Setting[High])
      && (Prepared ==> EnhanceDesigned() && ToneDesigned())
    }

    /** The processor as constructed: every setting, envelope and gate factor
      zero, no change pending, no clipping, the default sample rate and
      four zeroed filters, newly allocated as the inline members are. */
    constructor (tanh: real -> real, pow: (real, real) -> real)
      ensures Valid() && Consistent() && !Prepared
      ensures fresh(LowFilter) && fresh(HighFilter) && fresh(EnhHighFilter) && fresh(EnhLowFilter)
      ensures Tanh == tanh && Pow == pow
      ensures !AudioIsClipping && SettingsChanged == 0 && SampleRate == DefaultSampleRate
      ensures Setting == SettingLast == seq(SettingCount, _ => 0.0)
      ensures EngineView() == Engine(ZeroFilter, ZeroFilter, ZeroFilter, ZeroFilter, [0.0, 0.0], [0.0, 0.0], false)
    {
      var low := new Filter();
      var high := new Filter();
      var enhHigh := new Filter();
      var enhLow := new Filter();
      AudioIsClipping := false;
      SettingsChanged := 0;
      SampleRate := DefaultSampleRate;
      Setting, SettingLast := seq(SettingCount, _ => 0.0), seq(SettingCount, _ => 0.0);
      PedalNGateFac, SignalAvg := [0.0, 0.0], [0.0, 0.0];
      LowFilter, HighFilter, EnhHighFilter, EnhLowFilter := low, high, enhHigh, enhLow;
      Tanh := tanh;
      Pow := pow;
      Prepared := false;
    }

    /** makoNoiseGate: recomputes the channel's gate factor from its envelope
      (capped at 1) and scales the sample by it; the other channel's factor
      is kept.  With a non-negative envelope and NGate at most 1.1 the gated
      sample is never louder than the input. */
    method NoiseGate(sample: real, channel: nat) returns (r: real)
      requires Valid() && channel < Channels
      modifies this`PedalNGateFac
      ensures Valid()
      ensures PedalNGateFac == old(PedalNGateFac)[channel := GateFactor(SignalAvg[channel], Setting[NGate])]
      ensures r == sample * PedalNGateFac[channel]
      ensures SignalAvg[channel] >= 0.0 && Setting[NGate] <= 1.1 ==> Abs(r) <= Abs(sample)
    {
      PedalNGateFac := PedalNGateFac[channel := SignalAvg[channel] * 10000.0 * (1.1 - Setting[NGate])];
      if 1.0 < PedalNGateFac[channel] {
        PedalNGateFac := PedalNGateFac[channel := 1.0];
      }
      r := sample * PedalNGateFac[channel];
      if SignalAvg[channel] >= 0.0 && Setting[NGate] <= 1.1 {
        GateNeverAmplifies(sample, SignalAvg[channel], Setting[NGate]);
      }
    }

    /** The noise-gate block of MakoOD_ProcessAudio: with NGate positive,
      the channel's envelope follows the sample and makoNoiseGate scales it;
      otherwise nothing changes. */
    method GateSample(sample: real, channel: nat) returns (r: real)
      requires Valid() && channel < Channels
      modifies this`SignalAvg, this`PedalNGateFac
      ensures Valid()
      ensures GateOut(SignalAvg, PedalNGateFac, r)
           == Gate(Setting[NGate], old(SignalAvg), old(PedalNGateFac), channel, sample)
    {
      r := sample;
      if 0.0 < Setting[NGate] {
        SignalAvg := SignalAvg[channel := (SignalAvg[channel] * 0.995) + (Abs(r) * 0.005)];
        r := NoiseGate(r, channel);
      }
      GateTerms(Setting[NGate], old(SignalAvg), old(PedalNGateFac), channel, sample,
                GateOut(SignalAvg, PedalNGateFac, r));
    }

    /** The drive and mix lines of MakoOD_ProcessAudio: the clean quarter,
      the tanhf-driven copy, their blend by Mix and the final quarter. */
    method DriveAndMix(sample: real) returns (r: real)
      requires Valid()
      ensures r == Blend(Tanh, Setting[Drive], Setting[Mix], sample)
    {
      var tS2 := sample * 0.25;
      var tS := Tanh(sample * (0.01 + (Setting[Drive] * Setting[Drive]) * 10.0));
      assert tS == Overdrive(Tanh, Setting[Drive], sample);
      ghost var driven := tS;
      tS := ((1.0 - Setting[Mix]) * tS2) + (Setting[Mix] * tS);
      assert tS == Mixed(Setting[Mix], tS2, driven);
      r := tS * 0.25;
    }

    /** The output clamp of MakoOD_ProcessAudio: a sample beyond ±0.9999
      becomes ±0.999 and raises the clipping flag; any other passes and the
      flag keeps its value. */
    method ClampOutput(sample: real) returns (r: real)
      requires Valid()
      modifies this`AudioIsClipping
      ensures Valid()
      ensures r == Clamp(sample)
      ensures AudioIsClipping == (old(AudioIsClipping) || Clips(sample))
    {
      r := sample;
      if r < -0.9999 {
        r := -0.999;
        AudioIsClipping := true;
      }
      if 0.9999 < r {
        r := 0.999;
        AudioIsClipping := true;
      }
    }

    /** The first half of MakoOD_ProcessAudio: Low filter, gate,
      Enhance-High and High filter, as Front describes them. */
    method FrontEnd(sample: real, channel: nat) returns (r: real)
      requires Valid() && channel < Channels
      modifies LowFilter, HighFilter, EnhHighFilter, this`SignalAvg, this`PedalNGateFac
      ensures Valid()
      ensures (EngineView(), r) == Front(Tanh, Setting, old(EngineView()), sample, channel)
    {
      ghost var s := Setting;
      ghost var e := EngineView();
      var tS := LowFilter.CalcBiQuad(sample, channel);
      ghost var lo := (LowFilter.View(), tS);
      tS := GateSample(tS, channel);
      ghost var g := GateOut(SignalAvg, PedalNGateFac, tS);
      tS := EnhHighFilter.EnhanceSample(Tanh, tS, Setting[EnhHigh], channel);
      ghost var eh := (EnhHighFilter.View(), tS);
      tS := HighFilter.CalcBiQuad(tS, channel);
      ghost var hi := (HighFilter.View(), tS);
      FrontTerms(Tanh, s, e, sample, channel, lo, g, eh, hi);
      r := tS;
    }

    /** The second half of MakoOD_ProcessAudio before the clamp: drive and
      mix, Enhance-Low and gain, as Back describes them. */
    method BackEnd(sample: real, channel: nat) returns (r: real)
      requires Valid() && channel < Channels
      modifies EnhLowFilter
      ensures Valid()
      ensures (EngineView(), r) == Back(Tanh, Setting, old(EngineView()), sample, channel)
    {
      var tS := DriveAndMix(sample);
      tS := EnhLowFilter.EnhanceSample(Tanh, tS, Setting[EnhLow], channel);
      ghost var t6 := tS;
      var gain := Setting[Gain];
      r := tS * gain;
      assert r == Volume(t6, gain);
    }

    /** MakoOD_ProcessAudio: one sample of one channel through the whole
      chain, exactly as Step describes it: the four filters, the envelope and
      gate factor and the clipping flag move as Step says and the returned
      sample is Step's (so it lies in [-0.9999, 0.9999]).  The settings and
      coefficients are not touched. */
    method ProcessAudio(sample: real, channel: nat) returns (r: real)
      requires Valid() && channel < Channels
      modifies LowFilter, HighFilter, EnhHighFilter, EnhLowFilter
      modifies this`SignalAvg, this`PedalNGateFac, this`AudioIsClipping
      ensures Valid()
      ensures (EngineView(), r) == Step(Tanh, Setting, old(EngineView()), sample, channel)
    {
      var tS := FrontEnd(sample, channel);
      tS := BackEnd(tS, channel);
      r := ClampOutput(tS);
    }

    /** One filter block of Settings_Update: the filter f, which is the Low
      or the High filter, is redesigned for Setting[index] and that setting
      recorded as last applied when it differs from the last applied one or
      when forceAll is set; otherwise nothing changes. */
    method Retune(f: Filter, index: nat, forceAll: bool)
      requires Valid()
      requires (f == LowFilter && index == Low) || (f == HighFilter && index == High)
      modifies this`SettingLast, f
      ensures Valid()
      ensures SettingLast == old(SettingLast)[index := Setting[index]]
      ensures forceAll || old(SettingLast[index]) != Setting[index] ==>
        f.View() == old(f.View()).(coeffs := Voicing(Setting[index]))
      ensures !forceAll && old(SettingLast[index]) == Setting[index] ==> f.View() == old(f.View())
    {
      if Setting[index] != SettingLast[index] || forceAll {
        SettingLast := SettingLast[index := Setting[index]];
        VoicingDefined(Setting[index], SampleRate);
        f.SetBandPass(Pow, VoicingGainDb, Setting[index], VoicingQ, SampleRate);
      }
    }

    /** Settings_Update: each of the Low and High filters is redesigned at
      the current rate for its setting, and its last-applied setting
      recorded, when the setting differs from the last applied one or when
      forceAll is set; otherwise that filter is untouched.  Either way the
      last-applied Low and High settings end equal to the current ones.  The
      change counter drops by one, never below zero.  Delay lines are
      kept. */
    method SettingsUpdate(forceAll: bool)
      requires Valid() && (Prepared ==> EnhanceDesigned())
      requires forceAll || Consistent()
      modifies this`SettingsChanged, this`SettingLast, LowFilter, HighFilter
      ensures Valid() && Consistent()
      ensures SettingsChanged == if old(SettingsChanged) <= 0 then 0 else old(SettingsChanged) - 1
      ensures SettingLast == old(SettingLast)[Low := Setting[Low]][High := Setting[High]]
      ensures forceAll || old(SettingLast[Low]) != Setting[Low] ==>
        LowFilter.View() == old(LowFilter.View()).(coeffs := Voicing(Setting[Low]))
      ensures !forceAll && old(SettingLast[Low]) == Setting[Low] ==> LowFilter.View() == old(LowFilter.View())
      ensures forceAll || old(SettingLast[High]) != Setting[High] ==>
        HighFilter.View() == old(HighFilter.View()).(coeffs := Voicing(Setting[High]))
      ensures !forceAll && old(SettingLast[High]) == Setting[High] ==> HighFilter.View() == old(HighFilter.View())
    {
      Retune(LowFilter, Low, forceAll);
      Retune(HighFilter, High, forceAll);
      SettingsChanged := SettingsChanged - 1;
      if SettingsChanged < 0 {
        SettingsChanged := 0;
      }
    }

    /** prepareToPlay: the host's rate is taken unless it lies outside
      [21000, 192000], when 48000 is used; the two enhance filters are
      designed at 450 Hz and 1350 Hz; then Settings_Update(true) designs the
      Low and High filters for the current settings.  Afterwards every
      filter carries its voicing at the new rate. */
    method PrepareToPlay(hostRate: real)
      requires Valid() && Consistent()
      modifies this`SampleRate, this`SettingsChanged, this`Prepared, this`SettingLast
      modifies LowFilter, HighFilter, EnhHighFilter, EnhLowFilter
      ensures Valid() && Consistent() && Prepared
      ensures SampleRate == if hostRate < MinSampleRate || MaxSampleRate < hostRate then DefaultSampleRate else hostRate
      ensures MinSampleRate <= SampleRate <= MaxSampleRate
      ensures SettingsChanged == if old(SettingsChanged) <= 0 then 0 else old(SettingsChanged) - 1
      ensures SettingLast == old(SettingLast)[Low := Setting[Low]][High := Setting[High]]
      ensures LowFilter.View() == old(LowFilter.View()).(coeffs := Voicing(Setting[Low]))
      ensures HighFilter.View() == old(HighFilter.View()).(coeffs := Voicing(Setting[High]))
      ensures EnhLowFilter.View() == old(EnhLowFilter.View()).(coeffs := Voicing(EnhLowFc))
      ensures EnhHighFilter.View() == old(EnhHighFilter.View()).(coeffs := Voicing(EnhHighFc))
    {
      SampleRate := hostRate;
      if SampleRate < MinSampleRate {
        SampleRate := DefaultSampleRate;
      }
      if MaxSampleRate < SampleRate {
        SampleRate := DefaultSampleRate;
      }
      VoicingDefined(EnhLowFc, SampleRate);
      EnhLowFilter.SetBandPass(Pow, VoicingGainDb, EnhLowFc, VoicingQ, SampleRate);
      VoicingDefined(EnhHighFc, SampleRate);
      EnhHighFilter.SetBandPass(Pow, VoicingGainDb, EnhHighFc, VoicingQ, SampleRate);
      Prepared := true;
      SettingsUpdate(true);
    }

    /** The part of setStateInformation after the saved tree has been
      decoded into params: the eight knob settings are read back (Low and
      High truncated to whole hertz), every other setting is kept, and
      Settings_Update(true) redesigns the Low and High filters. */
    method SetStateInformation(params: map<string, real>)
      requires Valid() && Consistent()
      modifies this`Setting, this`SettingLast, LowFilter, HighFilter, this`SettingsChanged
      ensures Valid() && Consistent()
      ensures Setting == old(Setting)[Gain := ParmValueFloat(params, "gain")]
                                             [NGate := ParmValueFloat(params, "ngate")]
                                             [Low := ParmValueInt(params, "low") as real]
                                             [High := ParmValueInt(params, "high") as real]
                                             [Drive := ParmValueFloat(params, "drive")]
                                             [EnhLow := ParmValueFloat(params, "enhlow")]
                                             [EnhHigh := ParmValueFloat(params, "enhhigh")]
                                             [Mix := ParmValueFloat(params, "mix")]
      ensures SettingsChanged == if old(SettingsChanged) <= 0 then 0 else old(SettingsChanged) - 1
      ensures SettingLast == old(SettingLast)[Low := Setting[Low]][High := Setting[High]]
      ensures LowFilter.View() == old(LowFilter.View()).(coeffs := Voicing(Setting[Low]))
      ensures HighFilter.View() == old(HighFilter.View()).(coeffs := Voicing(Setting[High]))
    {
      Setting := Setting[Gain := ParmValueFloat(params, "gain")];
      Setting := Setting[NGate := ParmValueFloat(params, "ngate")];
      Setting := Setting[Low := ParmValueInt(params, "low") as real];
      Setting := Setting[High := ParmValueInt(params, "high") as real];
      Setting := Setting[Drive := ParmValueFloat(params, "drive")];
      Setting := Setting[EnhLow := ParmValueFloat(params, "enhlow")];
      Setting := Setting[EnhHigh := ParmValueFloat(params, "enhhigh")];
      Setting := Setting[Mix := ParmValueFloat(params, "mix")];
      SettingsUpdate(true);
    }

    /** The body of processBlock's inner loop: sample samp of the channel
      is read, put through MakoOD_ProcessAudio and written back in place. */
    method ProcessSample(buffer: AudioBuffer, channel: nat, samp: nat)
      requires Valid() && buffer.Valid() && channel < Channels && channel < |buffer.data|
      requires samp < buffer.NumSamples
      modifies buffer, LowFilter, HighFilter, EnhHighFilter, EnhLowFilter
      modifies this`SignalAvg, this`PedalNGateFac, this`AudioIsClipping
      ensures Valid() && buffer.Valid() && |buffer.data| == |old(buffer.data)|
      ensures buffer.data == old(buffer.data)[channel := old(buffer.data[channel])[samp := buffer.data[channel][samp]]]
      ensures (EngineView(), buffer.data[channel][samp])
           == Step(Tanh, Setting, old(EngineView()), old(buffer.data[channel][samp]), channel)
    {
      var tS := buffer.GetSample(channel, samp);
      tS := ProcessAudio(tS, channel);
      buffer.SetSample(channel, samp, tS);
    }

    /** processBlock's inner loop on one channel: every sample, in
      ascending order, is replaced by what MakoOD_ProcessAudio returns for
      it, as RunChannel describes; the other channels are untouched. */
    method ProcessChannel(buffer: AudioBuffer, channel: nat)
      requires Valid() && buffer.Valid() && channel < Channels && channel < |buffer.data|
      modifies buffer, LowFilter, HighFilter, EnhHighFilter, EnhLowFilter
      modifies this`SignalAvg, this`PedalNGateFac, this`AudioIsClipping
      ensures Valid() && buffer.Valid() && |buffer.data| == |old(buffer.data)|
      ensures forall c :: 0 <= c < |buffer.data| && c != channel ==> buffer.data[c] == old(buffer.data[c])
      ensures (EngineView(), buffer.data[channel])
           == RunChannel(Tanh, Setting, old(EngineView()), old(buffer.data[channel]), channel)
    {
      ghost var e0 := EngineView();
      ghost var before := buffer.data;
      ghost var xs := buffer.data[channel];
      var samp := 0;
      while samp < buffer.NumSamples
        invariant 0 <= samp <= buffer.NumSamples
        invariant Valid() && buffer.Valid() && |buffer.data| == |before|
        invariant forall c :: 0 <= c < |buffer.data| && c != channel ==> buffer.data[c] == before[c]
        invariant (EngineView(), buffer.data[channel][..samp]) == RunChannel(Tanh, Setting, e0, xs[..samp], channel)
        invariant buffer.data[channel][samp..] == xs[samp..]
      {
        ghost var row := buffer.data[channel];
        ProcessSample(buffer, channel, samp);
        SplitAfterWrite(row, xs, samp, buffer.data[channel][samp]);
        samp := samp + 1;
      }
      assert xs[..samp] == xs && buffer.data[channel][..samp] == buffer.data[channel];
    }

    /** One pass of processBlock's outer loop: with channels 0 .. channel-1
      already processed as RunChannels describes and the others still
      holding the input rows, channel is processed through its inner loop,
      after which channels 0 .. channel are as RunChannels describes. */
    method ProcessNextChannel(buffer: AudioBuffer, channel: nat, ghost e0: Engine, ghost rows: seq<seq<real>>)
      requires Valid() && buffer.Valid() && channel < Channels && channel < |buffer.data| == |rows|
      requires Shaped(e0)
      requires (EngineView(), buffer.data[..channel]) == RunChannels(Tanh, Setting, e0, rows, channel)
      requires buffer.data[channel..] == rows[channel..]
      modifies buffer, LowFilter, HighFilter, EnhHighFilter, EnhLowFilter
      modifies this`SignalAvg, this`PedalNGateFac, this`AudioIsClipping
      ensures Valid() && buffer.Valid() && |buffer.data| == |rows|
      ensures (EngineView(), buffer.data[..channel + 1]) == RunChannels(Tanh, Setting, e0, rows, channel + 1)
      ensures buffer.data[channel + 1..] == rows[channel + 1..]
    {
      ghost var prior := buffer.data;
      ghost var before := EngineView();
      ProcessChannel(buffer, channel);
      ChannelWritten(prior, buffer.data, rows, channel);
      assert (EngineView(), buffer.data[channel]) == RunChannel(Tanh, Setting, before, rows[channel], channel);
    }

    /** processBlock's outer loop: channels 0 .. numIn-1, in order, each
      through its inner loop, as RunChannels describes; the other channels
      are untouched. */
    method ProcessChannels(buffer: AudioBuffer, numIn: nat)
      requires Valid() && buffer.Valid() && numIn <= Channels && numIn <= |buffer.data|
      modifies buffer, LowFilter, HighFilter, EnhHighFilter, EnhLowFilter
      modifies this`SignalAvg, this`PedalNGateFac, this`AudioIsClipping
      ensures Valid() && buffer.Valid() && |buffer.data| == |old(buffer.data)|
      ensures (EngineView(), buffer.data[..numIn])
           == RunChannels(Tanh, Setting, old(EngineView()), old(buffer.data), numIn)
      ensures forall c :: numIn <= c < |buffer.data| ==> buffer.data[c] == old(buffer.data[c])
    {
      ghost var e0 := EngineView();
      ghost var rows := buffer.data;
      var channel := 0;
      while channel < numIn
        invariant 0 <= channel <= numIn
        invariant Valid() && buffer.Valid() && |buffer.data| == |rows|
        invariant (EngineView(), buffer.data[..channel]) == RunChannels(Tanh, Setting, e0, rows, channel)
        invariant buffer.data[channel..] == rows[channel..]
      {
        ProcessNextChannel(buffer, channel, e0, rows);
        channel := channel + 1;
      }
    }

    /** The first statement of processBlock: Settings_Update(false) runs
      when a change is pending, redesigning the Low or High filter whose
      setting moved; with none pending nothing changes.  Only the two
      filters' coefficients move in the audio-path state. */
    method ApplyPendingSettings()
      requires Valid() && Consistent()
      modifies this`SettingsChanged, this`SettingLast, LowFilter, HighFilter
      ensures Valid() && Consistent()
      ensures SettingsChanged == if old(SettingsChanged) <= 0 then 0 else old(SettingsChanged) - 1
      ensures SettingLast == old(SettingLast)[Low := Setting[Low]][High := Setting[High]]
      ensures LowFilter.Coefficients()
           == if 0 < old(SettingsChanged) && old(SettingLast[Low]) != Setting[Low]
              then Voicing(Setting[Low]) else old(LowFilter.Coefficients())
      ensures HighFilter.Coefficients()
           == if 0 < old(SettingsChanged) && old(SettingLast[High]) != Setting[High]
              then Voicing(Setting[High]) else old(HighFilter.Coefficients())
      ensures EngineView() == Retuned(old(EngineView()), LowFilter.Coefficients(), HighFilter.Coefficients())
    {
      if 0 < SettingsChanged {
        SettingsUpdate(false);
      }
    }

    /** The audio part of processBlock: output channels numIn .. numOut-1
      are cleared, then input channels 0 .. numIn-1 are processed in order
      as RunChannels describes.  No coefficient changes. */
    method ProcessBuffer(buffer: AudioBuffer, numIn: nat, numOut: nat)
      requires Valid() && buffer.Valid()
      requires numIn <= Channels && numIn <= |buffer.data| && numOut <= |buffer.data|
      modifies buffer, LowFilter, HighFilter, EnhHighFilter, EnhLowFilter
      modifies this`SignalAvg, this`PedalNGateFac, this`AudioIsClipping
      ensures Valid() && buffer.Valid() && |buffer.data| == |old(buffer.data)|
      ensures (EngineView(), buffer.data[..numIn]) == RunChannels(Tanh, Setting, old(EngineView()), old(buffer.data), numIn)
      ensures forall c :: numIn <= c < numOut ==> buffer.data[c] == Silence(buffer.NumSamples)
      ensures forall c :: numIn <= c < |buffer.data| && numOut <= c ==> buffer.data[c] == old(buffer.data[c])
      ensures LowFilter.Coefficients() == old(LowFilter.Coefficients())
      ensures HighFilter.Coefficients() == old(HighFilter.Coefficients())
      ensures EnhHighFilter.Coefficients() == old(EnhHighFilter.Coefficients())
      ensures EnhLowFilter.Coefficients() == old(EnhLowFilter.Coefficients())
    {
      ghost var rows := buffer.data;
      ClearChannels(buffer, numIn, numOut);
      RunChannelsPrefix(Tanh, Setting, EngineView(), rows, buffer.data, numIn);
      ghost var e := EngineView();
      ghost var cleared := buffer.data;
      ProcessChannels(buffer, numIn);
      RunChannelsKeeps(Tanh, Setting, e, cleared, numIn);
    }

    /** processBlock: a pending settings change is applied first
      (Settings_Update(false), which redesigns the Low and High filters whose
      setting moved and counts the change down); output channels numIn ..
      numOut-1 are cleared; then input channels 0 .. numIn-1 are processed
      in order, sample by sample, as RunChannels describes starting from the
      retuned state.  The bookkeeping invariant survives. */
    method ProcessBlock(buffer: AudioBuffer, numIn: nat, numOut: nat)
      requires Valid() && Consistent() && buffer.Valid()
      requires numIn <= Channels && numIn <= |buffer.data| && numOut <= |buffer.data|
      modifies buffer, LowFilter, HighFilter, EnhHighFilter, EnhLowFilter
      modifies this`SettingsChanged, this`SettingLast, this`SignalAvg, this`PedalNGateFac, this`AudioIsClipping
      ensures Valid() && Consistent() && buffer.Valid() && |buffer.data| == |old(buffer.data)|
      ensures SettingsChanged == if old(SettingsChanged) <= 0 then 0 else old(SettingsChanged) - 1
      ensures SettingLast == old(SettingLast)[Low := Setting[Low]][High := Setting[High]]
      ensures LowFilter.Coefficients()
           == if 0 < old(SettingsChanged) && old(SettingLast[Low]) != Setting[Low]
              then Voicing(Setting[Low]) else old(LowFilter.Coefficients())
      ensures HighFilter.Coefficients()
           == if 0 < old(SettingsChanged) && old(SettingLast[High]) != Setting[High]
              then Voicing(Setting[High]) else old(HighFilter.Coefficients())
      ensures (EngineView(), buffer.data[..numIn])
           == RunChannels(Tanh, Setting, Retuned(old(EngineView()), LowFilter.Coefficients(), HighFilter.Coefficients()),
                          old(buffer.data), numIn)
      ensures forall c :: numIn <= c < numOut ==> buffer.data[c] == Silence(buffer.NumSamples)
      ensures forall c :: numIn <= c < |buffer.data| && numOut <= c ==> buffer.data[c] == old(buffer.data[c])
    {
      ApplyPendingSettings();
      ProcessBuffer(buffer, numIn, numOut);
    }
  }
}
