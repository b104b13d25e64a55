/** A value-level description of what MakoOD_ProcessAudio does to one
    sample, and of what processBlock's loops do to a channel and to a block.
    The processor's classes are proved to follow these functions; the lemmas
    here say what the functions guarantee. */
module Chain {
  import opened Dsp

  /** The `e_*` indices of PluginProcessor.h into `Setting`. */
  const Gain: nat := 0
  const NGate: nat := 1
  const Low: nat := 2
  const High: nat := 3
  const Drive: nat := 4
  const EnhLow: nat := 5
  const EnhHigh: nat := 6
  const Mix: nat := 7

  /** The length of `Setting` and `Setting_Last`. */
  const SettingCount: nat := 20

  /** The number of channels every per-channel array holds. */
  const Channels: nat := 2

  /** A `tp_filter` record as a value: its coefficients and the delay lines
      of its two channels. */
  datatype FilterView = FilterView(coeffs: Coeffs, ch0: Delay, ch1: Delay)
  {
    function At(ch: nat): Delay
      requires ch < Channels
    {
      if ch == 0 then ch0 else ch1
    }

    function With(ch: nat, d: Delay): (r: FilterView)
      requires ch < Channels
      ensures r.coeffs == coeffs && r.At(ch) == d
      ensures forall o :: 0 <= o < Channels && o != ch ==> r.At(o) == At(o)
    {
      if ch == 0 then this.(ch0 := d) else this.(ch1 := d)
    }
  }

  /** A freshly declared filter: zero coefficients, zero delay lines. */
  const ZeroFilter: FilterView := FilterView(ZeroCoeffs, ZeroDelay, ZeroDelay)

  /** One call of Filter_Calc_BiQuad on channel ch with input x: it returns
      the recurrence's output, shifts that channel's delay line, and leaves
      the coefficients and the other channel alone. */
  function Advance(f: FilterView, ch: nat, x: real): (r: (FilterView, real))
    requires ch < Channels
    ensures r.0.coeffs == f.coeffs
    ensures r.0.At(ch) == BiQuadShift(f.At(ch), x, r.1)
    ensures forall o :: 0 <= o < Channels && o != ch ==> r.0.At(o) == f.At(o)
  {
    var y := BiQuadOut(f.coeffs, f.At(ch), x);
    (f.With(ch, BiQuadShift(f.At(ch), x, y)), y)
  }

  /** The audio-path state of the processor: the four filters, the per-channel
      envelope (`Signal_AVG`) and gate factor (`Pedal_NGate_Fac`), and the
      clipping flag. */
  datatype Engine = Engine(low: FilterView, high: FilterView, enhHigh: FilterView, enhLow: FilterView,
                           avg: seq<real>, fac: seq<real>, clipping: bool)

  predicate Shaped(e: Engine)
  {
    |e.avg| == Channels && |e.fac| == Channels
  }

  predicate NonNegative(s: seq<real>)
  {
    forall i :: 0 <= i < |s| ==> s[i] >= 0.0
  }

  /** What the noise gate produces: the new envelopes, the new gate
      factors and the gated sample. */
  datatype GateOut = GateOut(avg: seq<real>, fac: seq<real>, out: real)

  /** makoNoiseGate together with the envelope update before it: with the
      gate setting positive, channel ch's envelope follows |y|, its factor is
      recomputed from the new envelope and y is scaled by it; otherwise
      nothing changes and y passes through. */
  function Gate(amount: real, avg: seq<real>, fac: seq<real>, ch: nat, y: real): (r: GateOut)
    requires |avg| == Channels && |fac| == Channels && ch < Channels
    ensures |r.avg| == Channels && |r.fac| == Channels
    ensures amount <= 0.0 ==> r == GateOut(avg, fac, y)
    ensures 0.0 < amount ==>
      && r.avg[ch] == Envelope(avg[ch], y)
      && r.fac[ch] == GateFactor(r.avg[ch], amount) && r.fac[ch] <= 1.0
      && r.out == y * r.fac[ch]
    ensures forall o :: 0 <= o < Channels && o != ch ==> r.avg[o] == avg[o] && r.fac[o] == fac[o]
    ensures NonNegative(avg) ==> NonNegative(r.avg)
  {
    if 0.0 < amount then
      var a := Envelope(avg[ch], y);
      var f := GateFactor(a, amount);
      GateOut(avg[ch := a], fac[ch := f], y * f)
    else
      GateOut(avg, fac, y)
  }

  /** What an enhance stage adds to the sample t: the tanh of the
      enhance filter's output y times the stage's setting. */
  function Boost(tanh: real -> real, t: real, y: real, amount: real): real
  {
    t + tanh(y * amount)
  }

  /** An enhance stage: with its setting positive, the filter advanced once
      on the sample and the sample boosted by its output; otherwise the
      filter is untouched and the sample passes. */
  function Enhance(tanh: real -> real, f: FilterView, ch: nat, t: real, amount: real): (r: (FilterView, real))
    requires ch < Channels
    ensures amount <= 0.0 ==> r == (f, t)
    ensures 0.0 < amount ==>
      r.0 == Advance(f, ch, t).0 && r.1 == Boost(tanh, t, Advance(f, ch, t).1, amount)
  {
    if 0.0 < amount then
      (Advance(f, ch, t).0, Boost(tanh, t, Advance(f, ch, t).1, amount))
    else
      (f, t)
  }

  /** The Gain setting's volume adjustment. */
  function Volume(v: real, gain: real): real
  {
    v * gain
  }

  /** The driven copy of a sample: tanh(t·(0.01 + drive²·10)). */
  function Overdrive(tanh: real -> real, drive: real, t: real): real
  {
    tanh(t * (0.01 + (drive * drive) * 10.0))
  }

  /** The blend of the clean and the driven copy by the mix. */
  function Mixed(mix: real, clean: real, driven: real): real
  {
    (1.0 - mix) * clean + mix * driven
  }

  /** The clean copy (a quarter of the sample), the driven copy, their blend
      by the mix, and the final 0.25 scaling.  Mix 0 keeps only the clean
      copy and mix 1 only the driven one. */
  function Blend(tanh: real -> real, drive: real, mix: real, t: real): (r: real)
    ensures mix == 0.0 ==> r == (t * 0.25) * 0.25
    ensures mix == 1.0 ==> r == Overdrive(tanh, drive, t) * 0.25
  {
    Mixed(mix, t * 0.25, Overdrive(tanh, drive, t)) * 0.25
  }

  /** The first half of MakoOD_ProcessAudio, up to the drive: Low filter;
      envelope and gate; Enhance-High; High filter.  Yields the engine with
      those four stages moved and the High filter's output. */
  function Front(tanh: real -> real, s: seq<real>, e: Engine, x: real, ch: nat): (r: (Engine, real))
    requires |s| == SettingCount && Shaped(e) && ch < Channels
    ensures Shaped(r.0) && r.0.enhLow == e.enhLow && r.0.clipping == e.clipping
  {
    var lo := Advance(e.low, ch, x);
    var g := Gate(s[NGate], e.avg, e.fac, ch, lo.1);
    var eh := Enhance(tanh, e.enhHigh, ch, g.out, s[EnhHigh]);
    var hi := Advance(e.high, ch, eh.1);
    (Engine(lo.0, hi.0, eh.0, e.enhLow, g.avg, g.fac, e.clipping), hi.1)
  }

  /** The second half, from the High filter's output t: blend; Enhance-Low;
      gain.  Only the Enhance-Low filter moves. */
  function Back(tanh: real -> real, s: seq<real>, e: Engine, t: real, ch: nat): (r: (Engine, real))
    requires |s| == SettingCount && Shaped(e) && ch < Channels
    ensures Shaped(r.0) && r.0 == e.(enhLow := r.0.enhLow)
  {
    var el := Enhance(tanh, e.enhLow, ch, Blend(tanh, s[Drive], s[Mix], t), s[EnhLow]);
    (e.(enhLow := el.0), Volume(el.1, s[Gain]))
  }

  /** The steps of MakoOD_ProcessAudio before the clamp, in the source's
      order: Low filter; envelope and gate; Enhance-High; High filter;
      blend; Enhance-Low; gain.  Yields the new engine (clipping flag
      untouched) and the pre-clamp value. */
  function PreClamp(tanh: real -> real, s: seq<real>, e: Engine, x: real, ch: nat): (r: (Engine, real))
    requires |s| == SettingCount && Shaped(e) && ch < Channels
    ensures Shaped(r.0) && r.0.clipping == e.clipping
  {
    var f := Front(tanh, s, e, x, ch);
    Back(tanh, s, f.0, f.1, ch)
  }

  /** One call of MakoOD_ProcessAudio: the pre-clamp chain, then the clamp,
      which raises the sticky clipping flag.  The returned sample lies in
      [-0.9999, 0.9999] whatever tanh and the settings are. */
  function Step(tanh: real -> real, s: seq<real>, e: Engine, x: real, ch: nat): (r: (Engine, real))
    requires |s| == SettingCount && Shaped(e) && ch < Channels
    ensures Shaped(r.0)
    ensures -ClipLimit <= r.1 <= ClipLimit
  {
    var p := PreClamp(tanh, s, e, x, ch);
    (p.0.(clipping := p.0.clipping || Clips(p.1)), Clamp(p.1))
  }

  /** The clipping flag after a sample is set exactly when it was set before
      or the pre-clamp value left [-0.9999, 0.9999]; a clamped sample is
      ±0.999 and any other passes through. */
  lemma {:induction false} StepClamp(tanh: real -> real, s: seq<real>, e: Engine, x: real, ch: nat)
    requires |s| == SettingCount && Shaped(e) && ch < Channels
    ensures var r, v := Step(tanh, s, e, x, ch), PreClamp(tanh, s, e, x, ch).1;
      && (r.0.clipping <==> e.clipping || Clips(v))
      && (v < -ClipLimit ==> r.1 == -ClipValue)
      && (ClipLimit < v ==> r.1 == ClipValue)
      && (!Clips(v) ==> r.1 == v)
  {
  }

  /** Which filters a sample advances: Low once, on the input sample; High
      once, on some value; Enhance-High and Enhance-Low once each when their
      setting is positive, and not at all otherwise. */
  lemma {:induction false} StepAdvancesFilters(tanh: real -> real, s: seq<real>, e: Engine, x: real, ch: nat)
    requires |s| == SettingCount && Shaped(e) && ch < Channels
    ensures var r := Step(tanh, s, e, x, ch).0;
      && r.low == Advance(e.low, ch, x).0
      && (exists v :: r.high == Advance(e.high, ch, v).0)
      && (0.0 < s[EnhHigh] ==> exists v :: r.enhHigh == Advance(e.enhHigh, ch, v).0)
      && (s[EnhHigh] <= 0.0 ==> r.enhHigh == e.enhHigh)
      && (0.0 < s[EnhLow] ==> exists v :: r.enhLow == Advance(e.enhLow, ch, v).0)
      && (s[EnhLow] <= 0.0 ==> r.enhLow == e.enhLow)
  {
  }

  /** The noise gate over a whole sample: with NGate > 0 the channel's
      envelope becomes avg·0.995 + |y|·0.005 of the Low filter's output y
      and its stored factor is the gate factor of that envelope (at most 1);
      the other channel keeps both; with NGate = 0 (or below) neither the
      envelopes nor the factors change.  A non-negative envelope stays
      non-negative. */
  lemma {:induction false} StepGate(tanh: real -> real, s: seq<real>, e: Engine, x: real, ch: nat)
    requires |s| == SettingCount && Shaped(e) && ch < Channels
    ensures var r := Step(tanh, s, e, x, ch).0;
      && (s[NGate] <= 0.0 ==> r.avg == e.avg && r.fac == e.fac)
      && (0.0 < s[NGate] ==>
            && r.avg[ch] == Envelope(e.avg[ch], Advance(e.low, ch, x).1)
            && r.fac[ch] == GateFactor(r.avg[ch], s[NGate])
            && r.fac[ch] <= 1.0)
      && (forall o :: 0 <= o < Channels && o != ch ==> r.avg[o] == e.avg[o] && r.fac[o] == e.fac[o])
      && (NonNegative(e.avg) ==> NonNegative(r.avg))
  {
  }

  /** With the mix at 0 only the clean path reaches the output: the drive
      setting has no effect on anything a sample produces. */
  lemma {:induction false} MixZeroIgnoresDrive(tanh: real -> real, s: seq<real>, e: Engine, x: real, ch: nat, drive: real)
    requires |s| == SettingCount && Shaped(e) && ch < Channels
    requires s[Mix] == 0.0
    ensures Step(tanh, s, e, x, ch) == Step(tanh, s[Drive := drive], e, x, ch)
  {
  }

  // ---------------------------------------------------------------------
  // A channel of a block, and a whole block
  // ---------------------------------------------------------------------

  /** processBlock's inner loop: the samples of one channel, in ascending
      order, each replaced by what MakoOD_ProcessAudio returns for it. */
  function RunChannel(tanh: real -> real, s: seq<real>, e: Engine, xs: seq<real>, ch: nat): (r: (Engine, seq<real>))
    requires |s| == SettingCount && Shaped(e) && ch < Channels
    ensures Shaped(r.0) && |r.1| == |xs|
    ensures forall i :: 0 <= i < |r.1| ==> -ClipLimit <= r.1[i] <= ClipLimit
    decreases |xs|
  {
    if xs == [] then (e, [])
    else
      var prior := RunChannel(tanh, s, e, xs[..|xs| - 1], ch);
      var last := Step(tanh, s, prior.0, xs[|xs| - 1], ch);
      (last.0, prior.1 + [last.1])
  }

  /** processBlock's outer loop: channels 0 .. n-1 in order, each a whole
      run of RunChannel over its samples. */
  function RunChannels(tanh: real -> real, s: seq<real>, e: Engine, rows: seq<seq<real>>, n: nat): (r: (Engine, seq<seq<real>>))
    requires |s| == SettingCount && Shaped(e) && n <= Channels && n <= |rows|
    ensures Shaped(r.0) && |r.1| == n
    ensures forall c :: 0 <= c < n ==> |r.1[c]| == |rows[c]|
    ensures forall c, i :: 0 <= c < n && 0 <= i < |r.1[c]| ==> -ClipLimit <= r.1[c][i] <= ClipLimit
    decreases n
  {
    if n == 0 then (e, [])
    else
      var prior := RunChannels(tanh, s, e, rows, n - 1);
      var last := RunChannel(tanh, s, prior.0, rows[n - 1], n - 1);
      (last.0, prior.1 + [last.1])
  }

  /** The engine e once Settings_Update has given the Low and High filters
      the coefficients low and high: their delay lines and everything else
      are kept. */
  function Retuned(e: Engine, low: Coeffs, high: Coeffs): Engine
  {
    e.(low := e.low.(coeffs := low), high := e.high.(coeffs := high))
  }

  /** What audio processing never disturbs, between an engine e and a later
      engine e2 under the same settings: all coefficients; the envelope and
      gate factor while the gate is off; each enhance filter while its
      setting is not positive; a raised clipping flag; a non-negative
      envelope. */
  predicate Keeps(s: seq<real>, e: Engine, e2: Engine)
    requires |s| == SettingCount
  {
    && e2.low.coeffs == e.low.coeffs && e2.high.coeffs == e.high.coeffs
    && e2.enhHigh.coeffs == e.enhHigh.coeffs && e2.enhLow.coeffs == e.enhLow.coeffs
    && (s[NGate] <= 0.0 ==> e2.avg == e.avg && e2.fac == e.fac)
    && (s[EnhHigh] <= 0.0 ==> e2.enhHigh == e.enhHigh)
    && (s[EnhLow] <= 0.0 ==> e2.enhLow == e.enhLow)
    && (e.clipping ==> e2.clipping)
    && (NonNegative(e.avg) ==> NonNegative(e2.avg))
  }

  /** Channel o's part of an engine is the same in e and e2. */
  predicate SameChannel(e: Engine, e2: Engine, o: nat)
    requires Shaped(e) && Shaped(e2) && o < Channels
  {
    && e2.low.At(o) == e.low.At(o) && e2.high.At(o) == e.high.At(o)
    && e2.enhHigh.At(o) == e.enhHigh.At(o) && e2.enhLow.At(o) == e.enhLow.At(o)
    && e2.avg[o] == e.avg[o] && e2.fac[o] == e.fac[o]
  }

  lemma {:induction false} StepKeeps(tanh: real -> real, s: seq<real>, e: Engine, x: real, ch: nat)
    requires |s| == SettingCount && Shaped(e) && ch < Channels
    ensures Keeps(s, e, Step(tanh, s, e, x, ch).0) && forall o :: 0 <= o < Channels && o != ch ==> SameChannel(e, Step(tanh, s, e, x, ch).0, o)
  {
  }

  /** A whole channel's run keeps everything Keeps names, and leaves the
      other channel's filter state, envelope and factor untouched. */
  lemma {:induction false} RunChannelKeeps(tanh: real -> real, s: seq<real>, e: Engine, xs: seq<real>, ch: nat)
    requires |s| == SettingCount && Shaped(e) && ch < Channels
    ensures Keeps(s, e, RunChannel(tanh, s, e, xs, ch).0) && forall o :: 0 <= o < Channels && o != ch ==> SameChannel(e, RunChannel(tanh, s, e, xs, ch).0, o)
    decreases |xs|
  {
    if xs != [] {
      var e1 := RunChannel(tanh, s, e, xs[..|xs| - 1], ch).0;
      var e2 := Step(tanh, s, e1, xs[|xs| - 1], ch).0;
      assert RunChannel(tanh, s, e, xs, ch).0 == e2;
      RunChannelKeeps(tanh, s, e, xs[..|xs| - 1], ch);
      StepKeeps(tanh, s, e1, xs[|xs| - 1], ch);
      KeepsTransitive(s, e, e1, e2);
      forall o | 0 <= o < Channels && o != ch
        ensures SameChannel(e, e2, o)
      {
        assert SameChannel(e, e1, o) && SameChannel(e1, e2, o);
      }
    }
  }

  lemma {:induction false} KeepsTransitive(s: seq<real>, e: Engine, e1: Engine, e2: Engine)
    requires |s| == SettingCount
    requires Keeps(s, e, e1) && Keeps(s, e1, e2)
    ensures Keeps(s, e, e2)
  {
  }

  /** A whole block keeps everything Keeps names. */
  lemma {:induction false} RunChannelsKeeps(tanh: real -> real, s: seq<real>, e: Engine, rows: seq<seq<real>>, n: nat)
    requires |s| == SettingCount && Shaped(e) && n <= Channels && n <= |rows|
    ensures Keeps(s, e, RunChannels(tanh, s, e, rows, n).0)
    decreases n
  {
    if n > 0 {
      var e1 := RunChannels(tanh, s, e, rows, n - 1).0;
      var e2 := RunChannel(tanh, s, e1, rows[n - 1], n - 1).0;
      assert RunChannels(tanh, s, e, rows, n).0 == e2;
      RunChannelsKeeps(tanh, s, e, rows, n - 1);
      RunChannelKeeps(tanh, s, e1, rows[n - 1], n - 1);
      KeepsTransitive(s, e, e1, e2);
    }
  }

  /** The pre-clamp values of a channel's run, sample by sample: what
      MakoOD_ProcessAudio computes for each sample before its clamp. */
  function PreValues(tanh: real -> real, s: seq<real>, e: Engine, xs: seq<real>, ch: nat): (r: seq<real>)
    requires |s| == SettingCount && Shaped(e) && ch < Channels
    ensures |r| == |xs|
    decreases |xs|
  {
    if xs == [] then []
    else
      var n := |xs| - 1;
      PreValues(tanh, s, e, xs[..n], ch) + [PreClamp(tanh, s, RunChannel(tanh, s, e, xs[..n], ch).0, xs[n], ch).1]
  }

  /** Every output sample of a channel's run is the clamp of its pre-clamp
      value. */
  lemma {:induction false} RunChannelOutputs(tanh: real -> real, s: seq<real>, e: Engine, xs: seq<real>, ch: nat)
    requires |s| == SettingCount && Shaped(e) && ch < Channels
    ensures forall i :: 0 <= i < |xs| ==>
      RunChannel(tanh, s, e, xs, ch).1[i] == Clamp(PreValues(tanh, s, e, xs, ch)[i])
    decreases |xs|
  {
    if xs != [] {
      var n := |xs| - 1;
      RunChannelOutputs(tanh, s, e, xs[..n], ch);
      var prior := RunChannel(tanh, s, e, xs[..n], ch);
      var p0 := PreValues(tanh, s, e, xs[..n], ch);
      assert forall i :: 0 <= i < n ==> prior.1[i] == Clamp(p0[i]);
      var v := PreClamp(tanh, s, prior.0, xs[n], ch).1;
      var y := Step(tanh, s, prior.0, xs[n], ch).1;
      assert y == Clamp(v);
      var r := RunChannel(tanh, s, e, xs, ch).1;
      var p := PreValues(tanh, s, e, xs, ch);
      assert r == prior.1 + [y];
      assert p == p0 + [v];
      forall i | 0 <= i < |xs|
        ensures r[i] == Clamp(p[i])
      {
        if i < n {
          assert r[i] == prior.1[i] && p[i] == p0[i];
        }
      }
    }
  }

  /** Some value of p leaves [-0.9999, 0.9999]. */
  predicate AnyClips(p: seq<real>)
  {
    exists i :: 0 <= i < |p| && Clips(p[i])
  }

  lemma {:induction false} AnyClipsSnoc(p: seq<real>, v: real)
    ensures AnyClips(p + [v]) <==> AnyClips(p) || Clips(v)
  {
    var q := p + [v];
    if AnyClips(p) {
      var i :| 0 <= i < |p| && Clips(p[i]);
      assert q[i] == p[i];
    }
    if Clips(v) {
      assert q[|p|] == v;
    }
    if AnyClips(q) {
      var i :| 0 <= i < |q| && Clips(q[i]);
      if i < |p| {
        assert q[i] == p[i];
      }
    }
  }

  /** The clipping flag after a channel's run is set exactly when it was
      set before or some pre-clamp value left [-0.9999, 0.9999]. */
  lemma {:induction false} RunChannelClipping(tanh: real -> real, s: seq<real>, e: Engine, xs: seq<real>, ch: nat)
    requires |s| == SettingCount && Shaped(e) && ch < Channels
    ensures RunChannel(tanh, s, e, xs, ch).0.clipping <==> e.clipping || AnyClips(PreValues(tanh, s, e, xs, ch))
    decreases |xs|
  {
    if xs != [] {
      var n := |xs| - 1;
      RunChannelClipping(tanh, s, e, xs[..n], ch);
      var prior := RunChannel(tanh, s, e, xs[..n], ch).0;
      var v := PreClamp(tanh, s, prior, xs[n], ch).1;
      StepClamp(tanh, s, prior, xs[n], ch);
      AnyClipsSnoc(PreValues(tanh, s, e, xs[..n], ch), v);
    }
  }

  /** A block's run reads only the channels it processes. */
  lemma {:induction false} RunChannelsPrefix(tanh: real -> real, s: seq<real>, e: Engine, rows: seq<seq<real>>, rows2: seq<seq<real>>, n: nat)
    requires |s| == SettingCount && Shaped(e) && n <= Channels && n <= |rows| && n <= |rows2|
    requires forall c :: 0 <= c < n ==> rows[c] == rows2[c]
    ensures RunChannels(tanh, s, e, rows, n) == RunChannels(tanh, s, e, rows2, n)
    decreases n
  {
    if n > 0 {
      RunChannelsPrefix(tanh, s, e, rows, rows2, n - 1);
    }
  }
}
