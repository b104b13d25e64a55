/** The stateless signal-processing pieces of the MakoOD overdrive: biquad
    coefficient sets and their calculators, one step of the direct-form
    biquad recurrence, the noise-gate envelope follower and gate factor, and
    the output clamp.  Samples and coefficients are modelled as `real`; the
    single-precision constants of the source are read as the decimals they
    are written as. */
module Dsp {

  /** `pi`, `pi2` and `sqrt2` as PluginProcessor.h declares them. */
  const Pi: real := 3.14159265
  const Pi2: real := 6.2831853
  const Sqrt2: real := 1.4142135

  /** The coefficient part of a `tp_filter` record. */
  datatype Coeffs = Coeffs(a0: real, a1: real, a2: real, b1: real, b2: real, c0: real, d0: real)

  /** A filter record as it is zero-initialised. */
  const ZeroCoeffs: Coeffs := Coeffs(0.0, 0.0, 0.0, 0.0, 0.0, 0.0, 0.0)

  /** The delay line of one channel of a `tp_filter`: x[n], x[n-1], x[n-2], y[n-1], y[n-2]. */
  datatype Delay = Delay(x0: real, x1: real, x2: real, y1: real, y2: real)

  const ZeroDelay: Delay := Delay(0.0, 0.0, 0.0, 0.0, 0.0)

  function Abs(x: real): (r: real)
    ensures r >= 0.0 && (r == x || r == -x)
  {
    if x < 0.0 then -x else x
  }

  // ---------------------------------------------------------------------
  // The biquad recurrence
  // ---------------------------------------------------------------------

  /** y[n] = a0 x[n] + a1 x[n-1] + a2 x[n-2] - b1 y[n-1] - b2 y[n-2]. */
  function BiQuadOut(c: Coeffs, d: Delay, x: real): real
  {
    c.a0 * x + c.a1 * d.x1 + c.a2 * d.x2 - c.b1 * d.y1 - c.b2 * d.y2
  }

  /** The delay line after a sample x went in and y came out. */
  function BiQuadShift(d: Delay, x: real, y: real): Delay
  {
    Delay(x, x, d.x1, y, d.y1)
  }

  /** The steady state of a filter fed a constant v: every input tap holds v
      and every output tap holds g·v, where g is the filter's gain at DC.
      When the numerator sum is g times the denominator sum, that state
      reproduces itself and the output is g·v. */
  lemma {:induction false} DcSteadyState(c: Coeffs, x0: real, v: real, g: real)
    requires c.a0 + c.a1 + c.a2 == g * (1.0 + c.b1 + c.b2)
    ensures BiQuadOut(c, Delay(x0, v, v, g * v, g * v), v) == g * v
    ensures BiQuadShift(Delay(x0, v, v, g * v, g * v), v, g * v) == Delay(v, v, v, g * v, g * v)
  {
  }

  /** The same at the Nyquist frequency: an input alternating between v and
      -v, with the output taps holding g times the input taps, where g is
      the gain at z = -1. */
  lemma {:induction false} NyquistSteadyState(c: Coeffs, x0: real, v: real, g: real)
    requires c.a0 - c.a1 + c.a2 == g * (1.0 - c.b1 + c.b2)
    ensures BiQuadOut(c, Delay(x0, -v, v, -(g * v), g * v), v) == g * v
    ensures BiQuadShift(Delay(x0, -v, v, -(g * v), g * v), v, g * v) == Delay(v, v, -v, g * v, -(g * v))
  {
  }

  /** A filter whose numerator equals its denominator (H(z) = 1) passes every
      sample through unchanged once its output taps agree with its input
      taps, and keeps them agreeing. */
  lemma {:induction false} TransparentFilter(c: Coeffs, d: Delay, x: real)
    requires c.a0 == 1.0 && c.a1 == c.b1 && c.a2 == c.b2
    requires d.x1 == d.y1 && d.x2 == d.y2
    ensures BiQuadOut(c, d, x) == x
    ensures var n := BiQuadShift(d, x, x); n.x1 == n.y1 && n.x2 == n.y2
  {
  }

  // ---------------------------------------------------------------------
  // Coefficient calculators
  // ---------------------------------------------------------------------

  /** K = 2π (Fc / 2) / SampleRate, the normalised angular frequency. */
  function BandPassK(fc: real, sampleRate: real): real
    requires sampleRate != 0.0
  {
    Pi2 * (fc * 0.5) / sampleRate
  }

  /** The peaking filter's normalising denominator 1 + K/Q + K². */
  function BandPassDen(k: real, q: real): real
    requires q != 0.0
  {
    1.0 + k / q + k * k
  }

  /** What the peaking filter's formula divides by: the sample rate, Q and
      1 + K/Q + K². */
  predicate BandPassDefined(fc: real, q: real, sampleRate: real)
  {
    sampleRate != 0.0 && q != 0.0 && BandPassDen(BandPassK(fc, sampleRate), q) != 0.0
  }

  /** The constant-Q peaking (band boost) filter of Filter_BP_Coeffs, with the
      linear gain v0 = 10^(Gain_dB / 20) already evaluated.  Its feed-forward
      middle tap equals its feedback middle tap, and it always writes c0 = 1
      and d0 = 0. */
  function BandPass(v0: real, fc: real, q: real, sampleRate: real): (r: Coeffs)
    requires BandPassDefined(fc, q, sampleRate)
    ensures r.b1 == r.a1 && r.c0 == 1.0 && r.d0 == 0.0
  {
    PeakAt(v0, BandPassK(fc, sampleRate), q)
  }

  /** The peaking filter for a prewarped frequency K. */
  function PeakAt(v0: real, k: real, q: real): Coeffs
    requires q != 0.0 && BandPassDen(k, q) != 0.0
  {
    PeakCoeffs(k * k, k / q, (v0 * k) / q, 1.0 / BandPassDen(k, q))
  }

  /** The peaking formula over its intermediate terms K², K/Q, V0·K/Q and
      dd = 1 / (1 + K/Q + K²). */
  function PeakCoeffs(k2: real, u: real, w: real, dd: real): Coeffs
  {
    var a := 1.0 + w + k2;
    var b := 2.0 * (k2 - 1.0);
    var g := 1.0 - w + k2;
    var d := 1.0 - u + k2;
    Coeffs(a * dd, b * dd, g * dd, b * dd, d * dd, 1.0, 0.0)
  }

  lemma {:induction false} MulInverse(x: real)
    requires x != 0.0
    ensures x * (1.0 / x) == 1.0
  {
  }

  lemma {:induction false} MulNonNegative(a: real, b: real)
    requires (a >= 0.0 && b >= 0.0) || (a <= 0.0 && b <= 0.0)
    ensures a * b >= 0.0
  {
  }

  /** A peaking filter leaves both ends of the spectrum alone: its gain at DC
      (z = 1) and at the Nyquist frequency (z = -1) is exactly 1. */
  lemma {:induction false} BandPassUnityAtDcAndNyquist(v0: real, fc: real, q: real, sampleRate: real)
    requires BandPassDefined(fc, q, sampleRate)
    ensures var r := BandPass(v0, fc, q, sampleRate);
      r.a0 + r.a1 + r.a2 == 1.0 * (1.0 + r.b1 + r.b2) &&
      r.a0 - r.a1 + r.a2 == 1.0 * (1.0 - r.b1 + r.b2)
  {
    var k := BandPassK(fc, sampleRate);
    var den := BandPassDen(k, q);
    MulInverse(den);
    PeakingSums(k * k, k / q, (v0 * k) / q, 1.0 / den);
  }

  /** The algebra behind BandPassUnityAtDcAndNyquist, over named atoms. */
  lemma {:induction false} PeakingSums(k2: real, u: real, w: real, dd: real)
    requires (1.0 + u + k2) * dd == 1.0
    ensures var r := PeakCoeffs(k2, u, w, dd);
      r.a0 + r.a1 + r.a2 == 1.0 * (1.0 + r.b1 + r.b2) &&
      r.a0 - r.a1 + r.a2 == 1.0 * (1.0 - r.b1 + r.b2)
  {
    var r := PeakCoeffs(k2, u, w, dd);
    assert r.a0 + r.a1 + r.a2 == (4.0 * k2) * dd;
    assert 1.0 + r.b1 + r.b2 == (1.0 + u + k2) * dd + (2.0 * (k2 - 1.0)) * dd + (1.0 - u + k2) * dd;
    assert r.a0 - r.a1 + r.a2 == 4.0 * dd;
    assert 1.0 - r.b1 + r.b2 == (1.0 + u + k2) * dd - (2.0 * (k2 - 1.0)) * dd + (1.0 - u + k2) * dd;
  }

  /** With a gain of 0 dB (v0 = 1) the peaking filter's numerator equals its
      denominator: it is the identity filter. */
  lemma {:induction false} BandPassZeroGainIsIdentity(fc: real, q: real, sampleRate: real)
    requires BandPassDefined(fc, q, sampleRate)
    ensures var r := BandPass(1.0, fc, q, sampleRate); r.a0 == 1.0 && r.a1 == r.b1 && r.a2 == r.b2
  {
    var k := BandPassK(fc, sampleRate);
    var den := BandPassDen(k, q);
    assert (1.0 * k) / q == k / q;
    MulInverse(den);
  }

  /** 1 + √2·c + c² is positive for every c: the Butterworth formulas never
      divide by zero once c itself is defined. */
  lemma {:induction false} ButterworthDenominatorPositive(c: real)
    ensures 1.0 + Sqrt2 * c + c * c > 0.0
  {
    var h := Sqrt2 / 2.0;
    assert 1.0 + Sqrt2 * c + c * c == (c + h) * (c + h) + (1.0 - h * h);
    assert h * h < 1.0;
  }

  /** The second-order Butterworth low-pass of Filter_LP_Coeffs, given
      t = tan(π fc / SampleRate).  It writes a0..b2 and keeps c0 and d0 as
      they were; the feed-forward taps are a0, 2·a0, a0. */
  function LowPass(prev: Coeffs, t: real): (r: Coeffs)
    requires t != 0.0
    ensures r.a1 == 2.0 * r.a0 && r.a2 == r.a0
    ensures r.c0 == prev.c0 && r.d0 == prev.d0
  {
    var c := 1.0 / t;
    ButterworthDenominatorPositive(c);
    var a0 := 1.0 / (1.0 + Sqrt2 * c + c * c);
    prev.(a0 := a0, a1 := 2.0 * a0, a2 := a0,
          b1 := 2.0 * a0 * (1.0 - c * c), b2 := a0 * (1.0 - Sqrt2 * c + c * c))
  }

  /** The second-order Butterworth high-pass of Filter_HP_Coeffs, given
      t = tan(π fc / SampleRate); the feed-forward taps are a0, -2·a0, a0. */
  function HighPass(prev: Coeffs, t: real): (r: Coeffs)
    ensures r.a1 == -2.0 * r.a0 && r.a2 == r.a0
    ensures r.c0 == prev.c0 && r.d0 == prev.d0
  {
    var c := t;
    ButterworthDenominatorPositive(c);
    var a0 := 1.0 / (1.0 + Sqrt2 * c + c * c);
    prev.(a0 := a0, a1 := -2.0 * a0, a2 := a0,
          b1 := 2.0 * a0 * (c * c - 1.0), b2 := a0 * (1.0 - Sqrt2 * c + c * c))
  }

  /** The low-pass has unit gain at DC and blocks the Nyquist frequency. */
  lemma {:induction false} LowPassResponse(prev: Coeffs, t: real)
    requires t != 0.0
    ensures var r := LowPass(prev, t);
      r.a0 + r.a1 + r.a2 == 1.0 * (1.0 + r.b1 + r.b2) &&
      r.a0 - r.a1 + r.a2 == 0.0 * (1.0 - r.b1 + r.b2)
  {
  }

  /** The high-pass blocks DC and has unit gain at the Nyquist frequency. */
  lemma {:induction false} HighPassResponse(prev: Coeffs, t: real)
    ensures var r := HighPass(prev, t);
      r.a0 + r.a1 + r.a2 == 0.0 * (1.0 + r.b1 + r.b2) &&
      r.a0 - r.a1 + r.a2 == 1.0 * (1.0 - r.b1 + r.b2)
  {
  }

  // ---------------------------------------------------------------------
  // Noise gate
  // ---------------------------------------------------------------------

  /** One step of the single-pole envelope follower: avg·0.995 + |x|·0.005.
      The new average lies between the old one and |x|, so it stays
      non-negative and never leaves a level that bounds both. */
  function Envelope(avg: real, x: real): (r: real)
    ensures avg <= Abs(x) ==> avg <= r <= Abs(x)
    ensures Abs(x) <= avg ==> Abs(x) <= r <= avg
    ensures avg >= 0.0 ==> r >= 0.0
  {
    avg * 0.995 + Abs(x) * 0.005
  }

  /** The gate factor min(1, avg·10000·(1.1 - amount)): it never exceeds 1,
      it is 1 exactly when the scaled envelope reaches 1, and it is not
      negative while the envelope is not and the amount is at most 1.1. */
  function GateFactor(avg: real, amount: real): (r: real)
    ensures r <= 1.0
    ensures r == 1.0 <==> avg * 10000.0 * (1.1 - amount) >= 1.0
    ensures r < 1.0 ==> r == avg * 10000.0 * (1.1 - amount)
    ensures avg >= 0.0 && amount <= 1.1 ==> r >= 0.0
  {
    var f := avg * 10000.0 * (1.1 - amount);
    if 1.0 < f then 1.0 else f
  }

  /** A louder envelope never closes the gate further. */
  lemma {:induction false} GateFactorMonotone(avg1: real, avg2: real, amount: real)
    requires avg1 <= avg2 && amount <= 1.1
    ensures GateFactor(avg1, amount) <= GateFactor(avg2, amount)
  {
    var k := 1.1 - amount;
    MulNonNegative(avg2 - avg1, 10000.0 * k);
    assert avg2 * 10000.0 * k - avg1 * 10000.0 * k == (avg2 - avg1) * (10000.0 * k);
  }

  /** The gate only attenuates: with a non-negative envelope and an amount of
      at most 1.1 the gated sample is no larger in magnitude than the input
      and does not change sign. */
  lemma {:induction false} GateNeverAmplifies(x: real, avg: real, amount: real)
    requires avg >= 0.0 && amount <= 1.1
    ensures Abs(x * GateFactor(avg, amount)) <= Abs(x)
    ensures x * (x * GateFactor(avg, amount)) >= 0.0
  {
  }

  // ---------------------------------------------------------------------
  // Output clamp
  // ---------------------------------------------------------------------

  /** The clamp thresholds and the values a clamped sample is set to. */
  const ClipLimit: real := 0.9999
  const ClipValue: real := 0.999

  /** Whether the clamp of MakoOD_ProcessAudio fires on a pre-clamp value. */
  predicate Clips(v: real)
  {
    v < -ClipLimit || ClipLimit < v
  }

  /** The hard clamp: the result always lies in [-0.9999, 0.9999]; a value
      below -0.9999 becomes -0.999, one above 0.9999 becomes 0.999, and any
      other value passes through. */
  function Clamp(v: real): (r: real)
    ensures -ClipLimit <= r <= ClipLimit
    ensures v < -ClipLimit ==> r == -ClipValue
    ensures ClipLimit < v ==> r == ClipValue
    ensures !Clips(v) ==> r == v
  {
    var t := if v < -ClipLimit then -ClipValue else v;
    if ClipLimit < t then ClipValue else t
  }
}
