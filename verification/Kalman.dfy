/** The delay estimator (src/bwe/kalman.rs): a one-dimensional Kalman filter on
    the inter-arrival gradient, and the rate it steers. */
module Kalman {
  import opened Basics
  import opened RateControl
  import opened Averages

  const PROCESS_NOISE_VAR := 0.0001
  const MEASUREMENT_NOISE_VAR := 0.005
  const OVERUSE_THRESHOLD_US := 12_500.0
  const DELAY_POLICY := Policy(200_000, 8_000.0)

  datatype DelayState = DelayState(gradient: real, variance: real, rate: RateState)

  datatype DelayOp = Sample(gradientUs: real) | Apply(now: Instant)

  function FreshDelay(initialBps: real): DelayState {
    DelayState(0.0, 1.0, RateState(Clamp(initialBps), None))
  }

  /** Every variance a run reaches; it puts the predicted variance at or above
      0.00075. */
  predicate SoundVariance(v: real) {
    0.00065 <= v <= 1.0
  }

  function Gain(variance: real): (g: real)
    requires variance > 0.0
  {
    (variance + PROCESS_NOISE_VAR) / (variance + PROCESS_NOISE_VAR + MEASUREMENT_NOISE_VAR)
  }

  /** One filter step: predict, then correct by the gain. */
  function Filter(d: DelayState, z: real): DelayState
    requires d.variance > 0.0
  {
    var g := Gain(d.variance);
    d.(gradient := d.gradient + g * (z - d.gradient),
       variance := (d.variance + PROCESS_NOISE_VAR) * (1.0 - g))
  }

  function VerdictOf(d: DelayState): Verdict {
    if d.gradient > OVERUSE_THRESHOLD_US then Congested else Clear
  }

  function Steer(d: DelayState, now: Instant): DelayState {
    d.(rate := Control(DELAY_POLICY, d.rate, Call(VerdictOf(d), now)))
  }

  // ------------------------------------------------------------- the covariance

  lemma QuotientAtLeast(a: real, b: real, c: real)
    requires b > 0.0 && a >= c * b
    ensures a / b >= c
  {
  }

  lemma QuotientBelowOne(a: real, b: real)
    requires a < b && b > 0.0
    ensures a / b < 1.0
  {
    assert (a / b) * b == a;
  }

  /** The gain is at least 0.13 and below one at every reachable variance. */
  lemma GainBounds(v: real)
    requires SoundVariance(v)
    ensures 0.13 <= Gain(v) < 1.0
    ensures v + PROCESS_NOISE_VAR >= 0.00075
  {
    var p := v + PROCESS_NOISE_VAR;
    QuotientAtLeast(p, p + MEASUREMENT_NOISE_VAR, 0.13);
    QuotientBelowOne(p, p + MEASUREMENT_NOISE_VAR);
  }

  /** The variance neither collapses nor grows: the filter never stops
      listening. */
  lemma VarianceStaysSound(v: real)
    requires SoundVariance(v)
    ensures SoundVariance((v + PROCESS_NOISE_VAR) * (1.0 - Gain(v)))
  {
    GainBounds(v);
    var p := v + PROCESS_NOISE_VAR;
    var r := MEASUREMENT_NOISE_VAR;
    assert p * (1.0 - Gain(v)) == (p * r) / (p + r) by {
      assert 1.0 - p / (p + r) == r / (p + r);
    }
    QuotientAtLeast(p * r, p + r, 0.00065);
    assert p * (1.0 - Gain(v)) <= p * 0.87;
    assert p * 0.87 <= 1.0;
  }

  // ----------------------------------------------------------------------- runs

  ghost function RunDelay(d: DelayState, ops: seq<DelayOp>): (r: DelayState)
    requires SoundVariance(d.variance)
    ensures SoundVariance(r.variance)
  {
    if ops == [] then d
    else
      var p := RunDelay(d, ops[..|ops| - 1]);
      match ops[|ops| - 1]
      case Sample(z) => VarianceStaysSound(p.variance); Filter(p, z)
      case Apply(now) => Steer(p, now)
  }

  /** The rate-control calls a run makes, with the verdict each one sees. */
  ghost function CallsOf(d: DelayState, ops: seq<DelayOp>): seq<Call>
    requires SoundVariance(d.variance)
  {
    if ops == [] then []
    else
      var front := ops[..|ops| - 1];
      CallsOf(d, front) +
      match ops[|ops| - 1]
      case Sample(_) => []
      case Apply(now) => [Call(VerdictOf(RunDelay(d, front)), now)]
  }

  lemma {:induction false} DelayRateIsRateRun(d: DelayState, ops: seq<DelayOp>)
    requires SoundVariance(d.variance)
    ensures RunDelay(d, ops).rate == RunRate(DELAY_POLICY, d.rate, CallsOf(d, ops))
  {
    if ops != [] {
      var front := ops[..|ops| - 1];
      DelayRateIsRateRun(d, front);
      var calls := CallsOf(d, ops);
      match ops[|ops| - 1]
      case Sample(_) =>
        assert calls == CallsOf(d, front);
      case Apply(now) =>
        assert calls[..|calls| - 1] == CallsOf(d, front);
    }
  }

  ghost predicate AppliesWithin(ops: seq<DelayOp>, lo: Instant, hi: Instant) {
    forall i | 0 <= i < |ops| && ops[i].Apply? :: lo <= ops[i].now <= hi
  }

  lemma {:induction false} CallsOfWithin(d: DelayState, ops: seq<DelayOp>, lo: Instant, hi: Instant)
    requires SoundVariance(d.variance) && AppliesWithin(ops, lo, hi)
    ensures CallsWithin(CallsOf(d, ops), lo, hi)
  {
    if ops != [] {
      CallsOfWithin(d, ops[..|ops| - 1], lo, hi);
    }
  }

  /** Within a span T the delay rate keeps 0.85 to the power T/200 ms + 1 of its
      start, and never less than the floor. */
  lemma DelayRateFloor(d: DelayState, ops: seq<DelayOp>, lo: Instant, hi: Instant)
    requires SoundVariance(d.variance) && InRange(d.rate.bps)
    requires lo <= hi && AppliesWithin(ops, lo, hi)
    ensures InRange(RunDelay(d, ops).rate.bps)
    ensures RunDelay(d, ops).rate.bps >= Decay(DECREASE_FACTOR, (hi - lo) / 200_000 + 1, d.rate.bps)
  {
    DelayRateIsRateRun(d, ops);
    CallsOfWithin(d, ops, lo, hi);
    RateStaysInRange(DELAY_POLICY, d.rate, CallsOf(d, ops));
    RateFloor(DELAY_POLICY, d.rate, CallsOf(d, ops), lo, hi);
  }

  // ------------------------------------------------------------------ stability

  ghost function Samples(zs: seq<real>): (ops: seq<DelayOp>)
    ensures |ops| == |zs|
  {
    seq(|zs|, i requires 0 <= i < |zs| => Sample(zs[i]))
  }

  lemma SamplesFront(zs: seq<real>)
    requires zs != []
    ensures Samples(zs)[..|zs| - 1] == Samples(zs[..|zs| - 1])
  {
  }

  /** Two filters that differ only in their gradient forget the difference at
      least as fast as 0.87 to the n, whatever they are fed. */
  lemma {:induction false} FilterForgetsStart(a: DelayState, b: DelayState, zs: seq<real>)
    requires SoundVariance(a.variance) && b.variance == a.variance
    ensures RunDelay(a, Samples(zs)).variance == RunDelay(b, Samples(zs)).variance
    ensures Abs(RunDelay(a, Samples(zs)).gradient - RunDelay(b, Samples(zs)).gradient)
            <= Decay(0.87, |zs|, Abs(a.gradient - b.gradient))
  {
    if zs != [] {
      var n := |zs| - 1;
      SamplesFront(zs);
      FilterForgetsStart(a, b, zs[..n]);
      var p, q := RunDelay(a, Samples(zs[..n])), RunDelay(b, Samples(zs[..n]));
      GainBounds(p.variance);
      OneStepContracts(p, q, zs[n]);
    }
  }

  lemma AbsOfProduct(a: real, x: real)
    requires a >= 0.0
    ensures Abs(a * x) == a * Abs(x)
  {
    if x < 0.0 {
      assert a * (-x) >= 0.0;
    } else {
      assert a * x >= 0.0;
    }
  }

  lemma OneStepContracts(p: DelayState, q: DelayState, z: real)
    requires SoundVariance(p.variance) && q.variance == p.variance
    ensures Filter(q, z).variance == Filter(p, z).variance
    ensures Abs(Filter(p, z).gradient - Filter(q, z).gradient) <= 0.87 * Abs(p.gradient - q.gradient)
  {
    GainBounds(p.variance);
    var g := Gain(p.variance);
    var x := p.gradient - q.gradient;
    assert Filter(p, z).gradient - Filter(q, z).gradient == (1.0 - g) * x;
    AbsOfProduct(1.0 - g, x);
    MulNonNeg(g - 0.13, Abs(x));
    assert (1.0 - g) * Abs(x) == 0.87 * Abs(x) - (g - 0.13) * Abs(x);
  }

  ghost predicate SamplesBetween(ops: seq<DelayOp>, lo: real, hi: real) {
    forall i | 0 <= i < |ops| && ops[i].Sample? :: lo <= ops[i].gradientUs <= hi
  }

  lemma ConvexStep(x: real, z: real, g: real, lo: real, hi: real)
    requires 0.0 <= g <= 1.0 && lo <= x <= hi && lo <= z <= hi
    ensures lo <= x + g * (z - x) <= hi
  {
    MulNonNeg(x - lo, 1.0 - g);
    MulNonNeg(z - lo, g);
    assert x + g * (z - x) - lo == (x - lo) * (1.0 - g) + (z - lo) * g;
    MulNonNeg(hi - x, 1.0 - g);
    MulNonNeg(hi - z, g);
    assert hi - (x + g * (z - x)) == (hi - x) * (1.0 - g) + (hi - z) * g;
  }

  lemma FilterStaysBetween(d: DelayState, z: real, lo: real, hi: real)
    requires SoundVariance(d.variance) && lo <= d.gradient <= hi && lo <= z <= hi
    ensures lo <= Filter(d, z).gradient <= hi
  {
    GainBounds(d.variance);
    ConvexStep(d.gradient, z, Gain(d.variance), lo, hi);
  }

  /** The filtered gradient never leaves the hull of its start and the samples. */
  lemma {:induction false} GradientStaysInHull(d: DelayState, ops: seq<DelayOp>, lo: real, hi: real)
    requires SoundVariance(d.variance) && lo <= d.gradient <= hi && SamplesBetween(ops, lo, hi)
    ensures lo <= RunDelay(d, ops).gradient <= hi
  {
    if ops != [] {
      var front := ops[..|ops| - 1];
      GradientStaysInHull(d, front, lo, hi);
      var p := RunDelay(d, front);
      match ops[|ops| - 1]
      case Sample(z) =>
        FilterStaysBetween(p, z, lo, hi);
      case Apply(_) =>
    }
  }

  ghost predicate SamplesAtMost(ops: seq<DelayOp>, hi: real) {
    forall i | 0 <= i < |ops| && ops[i].Sample? :: ops[i].gradientUs <= hi
  }

  ghost function Lowest(ops: seq<DelayOp>, start: real): (lo: real)
    ensures lo <= start
    ensures forall i | 0 <= i < |ops| && ops[i].Sample? :: lo <= ops[i].gradientUs
  {
    if ops == [] then start
    else
      var lo := Lowest(ops[..|ops| - 1], start);
      match ops[|ops| - 1]
      case Sample(z) => RealMin(lo, z)
      case Apply(_) => lo
  }

  /** A path whose gradients never exceed the overuse threshold never costs the
      subscriber any rate, in any interleaving and under any clock. */
  lemma {:induction false} CalmRunNeverLowersRate(d: DelayState, ops: seq<DelayOp>)
    requires SoundVariance(d.variance) && InRange(d.rate.bps)
    requires d.gradient <= OVERUSE_THRESHOLD_US && SamplesAtMost(ops, OVERUSE_THRESHOLD_US)
    ensures d.rate.bps <= RunDelay(d, ops).rate.bps <= MAX_BITRATE_BPS
    ensures RunDelay(d, ops).rate.lastDecrease == d.rate.lastDecrease
  {
    if ops != [] {
      var front := ops[..|ops| - 1];
      CalmRunNeverLowersRate(d, front);
      GradientStaysInHull(d, front, Lowest(front, d.gradient), OVERUSE_THRESHOLD_US);
    }
  }

  /** A constant gradient is tracked: the error shrinks by at least 13 % per
      sample. */
  lemma {:induction false} TracksConstantGradient(d: DelayState, z: real, zs: seq<real>)
    requires SoundVariance(d.variance) && forall i | 0 <= i < |zs| :: zs[i] == z
    ensures Abs(RunDelay(d, Samples(zs)).gradient - z) <= Decay(0.87, |zs|, Abs(d.gradient - z))
  {
    var at := d.(gradient := z);
    FilterForgetsStart(d, at, zs);
    GradientStaysInHull(at, Samples(zs), z, z);
  }

  // ------------------------------------------------------- what the filter computes

  /** The part of the old estimate that a sample leaves at variance `v`. */
  ghost function Share(v: real): real
    requires v > 0.0
  {
    0.005 / (v + 0.0001 + 0.005)
  }

  /** The variance after a sample: predicted by adding 0.0001, then reduced to the
      share that is kept. */
  ghost function NextVariance(v: real): (w: real)
    requires v > 0.0
    ensures w > 0.0
  {
    SharePositive(v);
    (v + 0.0001) * Share(v)
  }

  ghost function VarianceAfter(v: real, n: nat): (w: real)
    requires v > 0.0
    ensures w > 0.0
  {
    if n == 0 then v else NextVariance(VarianceAfter(v, n - 1))
  }

  lemma SharePositive(v: real)
    requires v > 0.0
    ensures 0.0 < Share(v) < 1.0 && (v + 0.0001) * Share(v) > 0.0
  {
    QuotientBelowOne(0.005, v + 0.0001 + 0.005);
    assert Share(v) > 0.0;
  }

  /** The shares that `n` samples leave, oldest first. */
  ghost function Shares(v: real, n: nat): (hs: seq<real>)
    requires v > 0.0
    ensures |hs| == n && forall i | 0 <= i < n :: 0.0 < hs[i] < 1.0
  {
    if n == 0 then []
    else
      SharePositive(VarianceAfter(v, n - 1));
      Shares(v, n - 1) + [Share(VarianceAfter(v, n - 1))]
  }

  lemma FilterByShare(d: DelayState, z: real)
    requires SoundVariance(d.variance)
    ensures var h := Share(d.variance);
            && Filter(d, z).gradient == h * d.gradient + (1.0 - h) * z
            && Filter(d, z).variance == NextVariance(d.variance)
  {
    var p := d.variance + 0.0001;
    var g, h := p / (p + 0.005), 0.005 / (p + 0.005);
    assert g + h == 1.0;
    BlendForms(d.gradient, z, g, h);
  }

  lemma BlendForms(x: real, z: real, g: real, h: real)
    requires g + h == 1.0
    ensures x + g * (z - x) == h * x + (1.0 - h) * z
  {
    assert g == 1.0 - h;
  }

  /** The filtered gradient is exactly the average of the start and the samples
      whose weights are products of the shares kept, and those follow from the
      variance recurrence alone. */
  lemma {:induction false} GradientIsWeightedAverage(d: DelayState, zs: seq<real>)
    requires SoundVariance(d.variance)
    ensures var n, r := |zs|, RunDelay(d, Samples(zs));
            && r.variance == VarianceAfter(d.variance, n)
            && r.gradient == Blend(Shares(d.variance, n), d.gradient, zs)
            && r.rate == d.rate
  {
    if zs != [] {
      var n := |zs| - 1;
      var before := RunDelay(d, Samples(zs[..n]));
      GradientIsWeightedAverage(d, zs[..n]);
      RunSample(d, zs);
      GradientStep(before, Shares(d.variance, n), d.gradient, zs[..n], zs[n]);
      SharesNext(d.variance, n);
      assert zs[..n] + [zs[n]] == zs;
    }
  }

  lemma RunSample(d: DelayState, zs: seq<real>)
    requires SoundVariance(d.variance) && zs != []
    ensures var before := RunDelay(d, Samples(zs[..|zs| - 1]));
            RunDelay(d, Samples(zs)) == Filter(before, zs[|zs| - 1])
  {
    SamplesFront(zs);
  }

  lemma SharesNext(v: real, n: nat)
    requires v > 0.0
    ensures Shares(v, n + 1) == Shares(v, n) + [Share(VarianceAfter(v, n))]
    ensures VarianceAfter(v, n + 1) == NextVariance(VarianceAfter(v, n))
  {
  }

  lemma GradientStep(before: DelayState, hs: seq<real>, x: real, zs: seq<real>, z: real)
    requires SoundVariance(before.variance) && |hs| == |zs| && before.gradient == Blend(hs, x, zs)
    ensures Filter(before, z).gradient == Blend(hs + [Share(before.variance)], x, zs + [z])
    ensures Filter(before, z).variance == NextVariance(before.variance)
  {
    FilterByShare(before, z);
    BlendSnoc(hs, Share(before.variance), x, zs, z);
  }

  /** A fresh filter starts from a gradient of zero and a variance of one. */
  lemma FreshFilterExact(initialBps: real, zs: seq<real>)
    ensures RunDelay(FreshDelay(initialBps), Samples(zs)).gradient == Blend(Shares(1.0, |zs|), 0.0, zs)
  {
    GradientIsWeightedAverage(FreshDelay(initialBps), zs);
  }

  // ------------------------------------------------------------------------ damping

  lemma NextVarianceAtMost(v: real, b: real, b': real)
    requires 0.0 < v <= b && 0.0 < b' <= 0.005
    requires (b + 0.0001) * 0.005 <= b' * (b + 0.0051)
    ensures NextVariance(v) <= b'
  {
    var p, q := v + 0.0001, b + 0.0001;
    MulNonNeg(q - p, 0.005 - b');
    assert p * 0.005 <= b' * (p + 0.005);
    QuotientAtMost(p * 0.005, p + 0.005, b');
    assert NextVariance(v) == p * 0.005 / (p + 0.005);
  }

  lemma QuotientAtMost(a: real, b: real, c: real)
    requires b > 0.0 && a <= c * b
    ensures a / b <= c
  {
    assert (a / b) * b == a;
  }

  /** From a fresh filter's variance, eight samples settle it. */
  lemma {:induction false} VarianceSettles(n: nat)
    requires n >= 8
    ensures VarianceAfter(1.0, n) <= 0.000825
  {
    if n == 8 {
      VarianceDescends();
    } else {
      VarianceSettles(n - 1);
      NextVarianceAtMost(VarianceAfter(1.0, n - 1), 0.000825, 0.000825);
    }
  }

  lemma VarianceDescends()
    ensures VarianceAfter(1.0, 8) <= 0.000825
  {
    NextVarianceAtMost(VarianceAfter(1.0, 0), 1.0, 0.0049752);
    NextVarianceAtMost(VarianceAfter(1.0, 1), 0.0049752, 0.0025187);
    NextVarianceAtMost(VarianceAfter(1.0, 2), 0.0025187, 0.0017187);
    NextVarianceAtMost(VarianceAfter(1.0, 3), 0.0017187, 0.0013337);
    NextVarianceAtMost(VarianceAfter(1.0, 4), 0.0013337, 0.0011143);
    NextVarianceAtMost(VarianceAfter(1.0, 5), 0.0011143, 0.0009771);
    NextVarianceAtMost(VarianceAfter(1.0, 6), 0.0009771, 0.0008862);
    NextVarianceAtMost(VarianceAfter(1.0, 7), 0.0008862, 0.000825);
  }

  lemma SettledShare(v: real)
    requires 0.0 < v <= 0.000825
    ensures 0.84375 <= Share(v) < 1.0
  {
    SharePositive(v);
    QuotientAtLeast(0.005, v + 0.0001 + 0.005, 0.84375);
  }

  /** A settled filter passes on at most 5/32 of a sample. */
  lemma SettledStep(d: DelayState, z: real)
    requires SoundVariance(d.variance) && d.variance <= 0.000825
    requires d.gradient <= 0.0 && z <= 80_000.0
    ensures Filter(d, z).gradient <= 12_500.0
  {
    SettledShare(d.variance);
    FilterByShare(d, z);
    var h := Share(d.variance);
    MulNonNeg(h, -d.gradient);
    MulNonNeg(1.0 - h, 80_000.0 - z);
    assert (1.0 - h) * z == (1.0 - h) * 80_000.0 - (1.0 - h) * (80_000.0 - z);
    assert h * d.gradient == -(h * (-d.gradient));
  }

  /** One spike does not look like congestion: after eight samples that show no
      growing delay, a single one of up to 80 ms still raises the rate. */
  lemma SpikeIsDamped(initialBps: real, zs: seq<real>, z: real, now: Instant)
    requires |zs| >= 8 && (forall i | 0 <= i < |zs| :: zs[i] <= 0.0) && z <= 80_000.0
    ensures var ops := Samples(zs + [z]) + [Apply(now)];
            RunDelay(FreshDelay(initialBps), ops).rate.bps
            == RealMin(50_000_000.0, Clamp(initialBps) + 8_000.0)
  {
    var d := FreshDelay(initialBps);
    var quiet := RunDelay(d, Samples(zs));
    GradientIsWeightedAverage(d, zs);
    VarianceSettles(|zs|);
    GradientStaysInHull(d, Samples(zs), Lowest(Samples(zs), 0.0), 0.0);
    SettledStep(quiet, z);
    assert (zs + [z])[..|zs|] == zs;
    RunSample(d, zs + [z]);
    var samples := Samples(zs + [z]);
    assert (samples + [Apply(now)])[..|samples|] == samples;
  }

  // -------------------------------------------------------------------- exact rates

  /** When rate control was called. */
  ghost function ApplyTimes(ops: seq<DelayOp>): seq<Instant> {
    if ops == [] then []
    else
      ApplyTimes(ops[..|ops| - 1]) +
      match ops[|ops| - 1]
      case Sample(_) => []
      case Apply(now) => [now]
  }

  ghost predicate AllAbove(ops: seq<DelayOp>, lo: real) {
    forall i | 0 <= i < |ops| && ops[i].Sample? :: ops[i].gradientUs > lo
  }

  lemma {:induction false} CallTimes(d: DelayState, ops: seq<DelayOp>)
    requires SoundVariance(d.variance)
    ensures TimesOf(CallsOf(d, ops)) == ApplyTimes(ops)
  {
    if ops != [] {
      CallTimes(d, ops[..|ops| - 1]);
    }
  }

  lemma StrictStep(d: DelayState, z: real, lo: real)
    requires SoundVariance(d.variance) && d.gradient > lo && z > lo
    ensures Filter(d, z).gradient > lo
  {
    FilterStaysBetween(d, z, RealMin(d.gradient, z), RealMax(d.gradient, z));
  }

  lemma {:induction false} LateRunStaysLate(d: DelayState, ops: seq<DelayOp>)
    requires SoundVariance(d.variance) && d.gradient > 12_500.0 && AllAbove(ops, 12_500.0)
    ensures RunDelay(d, ops).gradient > 12_500.0 && AllVerdicts(CallsOf(d, ops), Congested)
  {
    if ops != [] {
      var front := ops[..|ops| - 1];
      LateRunStaysLate(d, front);
      if ops[|ops| - 1].Sample? {
        StrictStep(RunDelay(d, front), ops[|ops| - 1].gradientUs, 12_500.0);
      }
    }
  }

  /** While every gradient is above 12.5 ms, calls at least 200 ms apart each take
      15 % of the rate, down to 30 000. */
  lemma LateRunCutsRate(d: DelayState, ops: seq<DelayOp>)
    requires SoundVariance(d.variance) && InRange(d.rate.bps)
    requires d.gradient > 12_500.0 && AllAbove(ops, 12_500.0)
    requires Apart(d.rate.lastDecrease, ApplyTimes(ops), 200_000)
    ensures RunDelay(d, ops).rate.bps == RealMax(30_000.0, Decay(0.85, |ApplyTimes(ops)|, d.rate.bps))
  {
    LateRunStaysLate(d, ops);
    CallTimes(d, ops);
    DelayRateIsRateRun(d, ops);
    CongestedRate(DELAY_POLICY, d.rate, CallsOf(d, ops));
  }

  lemma {:induction false} CalmRunIsClear(d: DelayState, ops: seq<DelayOp>)
    requires SoundVariance(d.variance) && d.gradient <= 12_500.0 && SamplesAtMost(ops, 12_500.0)
    ensures AllVerdicts(CallsOf(d, ops), Clear)
  {
    if ops != [] {
      var front := ops[..|ops| - 1];
      CalmRunIsClear(d, front);
      GradientStaysInHull(d, front, Lowest(front, d.gradient), 12_500.0);
    }
  }

  lemma {:induction false} DelaySteps(n: nat)
    ensures Steps(8_000.0, n) == 8_000.0 * n as real
  {
    if n > 0 {
      DelaySteps(n - 1);
    }
  }

  /** While none is, every call adds 8 000, up to 50 000 000. */
  lemma CalmRunRaisesRate(d: DelayState, ops: seq<DelayOp>)
    requires SoundVariance(d.variance) && InRange(d.rate.bps)
    requires d.gradient <= 12_500.0 && SamplesAtMost(ops, 12_500.0)
    ensures RunDelay(d, ops).rate.bps ==
            RealMin(50_000_000.0, d.rate.bps + 8_000.0 * |ApplyTimes(ops)| as real)
  {
    CalmRunIsClear(d, ops);
    CallTimes(d, ops);
    DelayRateIsRateRun(d, ops);
    ClearRate(DELAY_POLICY, d.rate, CallsOf(d, ops));
    DelaySteps(|ApplyTimes(ops)|);
  }

  // ------------------------------------------------------------------ the object

  class DelayEstimator {
    var gradientUs: real
    var gradientVar: real
    var bitrateBps: real
    var lastDecrease: Option<Instant>

    ghost function View(): DelayState
      reads this
    {
      DelayState(gradientUs, gradientVar, RateState(bitrateBps, lastDecrease))
    }

    ghost predicate Valid()
      reads this
    {
      SoundVariance(gradientVar) && InRange(bitrateBps)
    }

    constructor (initialBps: real)
      ensures Valid() && View() == FreshDelay(initialBps)
    {
      gradientUs, gradientVar := 0.0, 1.0;
      bitrateBps, lastDecrease := Clamp(initialBps), None;
    }

    method UpdateKalman(sampleUs: real)
      requires Valid()
      modifies this
      ensures Valid() && View() == Filter(old(View()), sampleUs)
    {
      VarianceStaysSound(gradientVar);
      gradientVar := gradientVar + PROCESS_NOISE_VAR;
      var gain := gradientVar / (gradientVar + MEASUREMENT_NOISE_VAR);
      gradientUs := gradientUs + gain * (sampleUs - gradientUs);
      gradientVar := gradientVar * (1.0 - gain);
    }

    method ApplyRateControl(now: Instant)
      requires Valid()
      modifies this
      ensures Valid() && View() == Steer(old(View()), now)
    {
      if gradientUs > OVERUSE_THRESHOLD_US {
        if CanDecrease(DELAY_POLICY, lastDecrease, now) {
          bitrateBps := RealMax(bitrateBps * DECREASE_FACTOR, MIN_BITRATE_BPS);
          lastDecrease := Some(now);
        }
      } else {
        bitrateBps := RealMin(bitrateBps + DELAY_POLICY.step, MAX_BITRATE_BPS);
      }
    }
  }
}
