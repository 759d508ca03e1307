/** The per-subscriber GoogCC estimator (src/bwe/googcc/mod.rs) with its
    loss-driven controller (src/bwe/googcc/aimd.rs). */
module GoogCc {
  import opened Basics
  import opened Trendline

  const GOOGCC_INITIAL_BPS: nat := 500_000
  const GOOGCC_MIN_BPS: nat := 100_000
  const GOOGCC_MAX_BPS: nat := 2_500_000

  const LOSS_LOW_THRESHOLD := 0.005
  const LOSS_HIGH_THRESHOLD := 0.02
  const AI_FRACTION := 0.08
  const MD_FACTOR := 0.85

  // -------------------------------------------------------------- the controller

  datatype AimdState = AimdState(bps: nat, minBps: nat, maxBps: nat)

  function ClampFraction(loss: real): (f: real)
    ensures 0.0 <= f <= 1.0
  {
    RealMax(0.0, RealMin(loss, 1.0))
  }

  /** Truncation of a non-negative product to an integer. */
  function Scaled(bps: nat, factor: real): (n: nat)
    requires 0.0 <= factor
  {
    MulNonNeg(bps as real, factor);
    (bps as real * factor).Floor
  }

  function Grown(s: AimdState): AimdState {
    var increase := Scaled(s.bps, AI_FRACTION);
    var raised := s.bps + if increase < 8_000 then 8_000 else increase;
    s.(bps := if s.maxBps < raised then s.maxBps else raised)
  }

  function Cut(s: AimdState): AimdState {
    var lowered := Scaled(s.bps, MD_FACTOR);
    s.(bps := if lowered < s.minBps then s.minBps else lowered)
  }

  function UpdatedLoss(s: AimdState, loss: real): AimdState {
    var f := ClampFraction(loss);
    if f < LOSS_LOW_THRESHOLD then Grown(s)
    else if f > LOSS_HIGH_THRESHOLD then Cut(s)
    else s
  }

  class AimdController {
    var bitrateBps: nat
    const minBps: nat
    const maxBps: nat

    ghost function View(): AimdState
      reads this
    {
      AimdState(bitrateBps, minBps, maxBps)
    }

    constructor (initialBps: nat, minBps: nat, maxBps: nat)
      ensures View() == AimdState(initialBps, minBps, maxBps)
    {
      bitrateBps := initialBps;
      this.minBps, this.maxBps := minBps, maxBps;
    }

    method UpdateLoss(lossFraction: real) returns (bps: nat)
      modifies this
      ensures View() == UpdatedLoss(old(View()), lossFraction) && bps == bitrateBps
    {
      var loss := ClampFraction(lossFraction);
      if loss < LOSS_LOW_THRESHOLD {
        var increase := Scaled(bitrateBps, AI_FRACTION);
        var raised := bitrateBps + if increase < 8_000 then 8_000 else increase;
        bitrateBps := if maxBps < raised then maxBps else raised;
      } else if loss > LOSS_HIGH_THRESHOLD {
        var lowered := Scaled(bitrateBps, MD_FACTOR);
        bitrateBps := if lowered < minBps then minBps else lowered;
      }
      bps := bitrateBps;
    }

    method OnOveruse() returns (bps: nat)
      modifies this
      ensures View() == Cut(old(View())) && bps == bitrateBps
    {
      var lowered := Scaled(bitrateBps, MD_FACTOR);
      bitrateBps := if lowered < minBps then minBps else lowered;
      bps := bitrateBps;
    }
  }

  // --------------------------------------------------------------- the estimator

  datatype Stamp = Stamp(arrivalMs: real, sendMs: real)

  datatype Packet = Packet(stamp: Stamp, loss: real)

  datatype GoogState = GoogState(trend: TrendState, aimd: AimdState, last: Option<Stamp>)

  function FreshGoog(): GoogState {
    GoogState(FRESH_TREND, AimdState(GOOGCC_INITIAL_BPS, GOOGCC_MIN_BPS, GOOGCC_MAX_BPS), None)
  }

  function PairOf(last: Stamp, s: Stamp): Pair {
    Pair(s.arrivalMs - last.arrivalMs, s.sendMs - last.sendMs)
  }

  /** The trendline after a packet; the first packet has nothing to compare to. */
  function TrendAfter(g: GoogState, s: Stamp): (t: TrendState)
    requires |g.trend.deltas| <= WINDOW
    ensures |t.deltas| <= WINDOW
  {
    if g.last.None? then g.trend else Observe(g.trend, PairOf(g.last.value, s))
  }

  function Received(g: GoogState, p: Packet): (r: GoogState)
    requires |g.trend.deltas| <= WINDOW
    ensures |r.trend.deltas| <= WINDOW
  {
    var trend := TrendAfter(g, p.stamp);
    GoogState(
      trend,
      if g.last.Some? && trend.state == Overuse then Cut(g.aimd) else UpdatedLoss(g.aimd, p.loss),
      Some(p.stamp))
  }

  class GoogCcEstimator {
    const trendline: TrendlineDetector
    const aimd: AimdController
    var lastArrivalMs: Option<real>
    var lastSendMs: Option<real>

    ghost function Repr(): set<object> {
      {this, trendline, aimd}
    }

    ghost predicate Valid()
      reads this, trendline
    {
      trendline.Valid() && (lastArrivalMs.Some? <==> lastSendMs.Some?)
    }

    ghost function View(): GoogState
      requires Valid()
      reads this, trendline, aimd
    {
      GoogState(trendline.View(), aimd.View(),
                if lastArrivalMs.None? then None else Some(Stamp(lastArrivalMs.value, lastSendMs.value)))
    }

    constructor ()
      ensures Valid() && fresh(Repr()) && View() == FreshGoog()
    {
      trendline := new TrendlineDetector();
      aimd := new AimdController(GOOGCC_INITIAL_BPS, GOOGCC_MIN_BPS, GOOGCC_MAX_BPS);
      lastArrivalMs, lastSendMs := None, None;
    }

    method OnReceive(arrivalMs: real, sendMs: real, lossFraction: real) returns (bps: nat)
      requires Valid()
      modifies this, trendline, aimd
      ensures Valid()
      ensures View() == Received(old(View()), Packet(Stamp(arrivalMs, sendMs), lossFraction))
      ensures bps == View().aimd.bps
    {
      if lastArrivalMs.Some? && lastSendMs.Some? {
        trendline.Update(arrivalMs - lastArrivalMs.value, sendMs - lastSendMs.value);
        if trendline.state == Overuse {
          lastArrivalMs, lastSendMs := Some(arrivalMs), Some(sendMs);
          bps := aimd.OnOveruse();
          return;
        }
      }
      lastArrivalMs, lastSendMs := Some(arrivalMs), Some(sendMs);
      bps := aimd.UpdateLoss(lossFraction);
    }
  }

  // ------------------------------------------------------------------------ runs

  ghost function RunGoog(g: GoogState, ps: seq<Packet>): (r: GoogState)
    requires |g.trend.deltas| <= WINDOW
    ensures |r.trend.deltas| <= WINDOW
  {
    if ps == [] then g else Received(RunGoog(g, ps[..|ps| - 1]), ps[|ps| - 1])
  }

  ghost predicate DefaultBounds(s: AimdState) {
    s.minBps == GOOGCC_MIN_BPS && s.maxBps == GOOGCC_MAX_BPS
    && GOOGCC_MIN_BPS <= s.bps <= GOOGCC_MAX_BPS
  }

  /** Truncated decimal factors as integer arithmetic. */
  lemma ScaledByPercent(bps: nat)
    ensures Scaled(bps, AI_FRACTION) == bps * 8 / 100
    ensures Scaled(bps, MD_FACTOR) == bps * 85 / 100
  {
    var q, r := bps * 8 / 100, bps * 8 % 100;
    assert bps as real * AI_FRACTION == q as real + r as real / 100.0;
    var q', r' := bps * 85 / 100, bps * 85 % 100;
    assert bps as real * MD_FACTOR == q' as real + r' as real / 100.0;
  }

  lemma StepKeepsBounds(s: AimdState, loss: real)
    requires DefaultBounds(s)
    ensures DefaultBounds(Cut(s)) && DefaultBounds(Grown(s)) && DefaultBounds(UpdatedLoss(s, loss))
  {
    ScaledByPercent(s.bps);
  }

  /** On every run the rate stays between the default floor and ceiling. */
  lemma {:induction false} GoogRateBounded(g: GoogState, ps: seq<Packet>)
    requires |g.trend.deltas| <= WINDOW && DefaultBounds(g.aimd)
    ensures DefaultBounds(RunGoog(g, ps).aimd)
  {
    if ps != [] {
      GoogRateBounded(g, ps[..|ps| - 1]);
      StepKeepsBounds(RunGoog(g, ps[..|ps| - 1]).aimd, ps[|ps| - 1].loss);
    }
  }

  /** Upper bound on the rate after `k` cuts from the ceiling. */
  function CutBound(k: nat): nat {
    if k == 0 then GOOGCC_MAX_BPS
    else
      var x := CutBound(k - 1) * 85 / 100;
      if x < GOOGCC_MIN_BPS then GOOGCC_MIN_BPS else x
  }

  /** Lower bound on the rate after `k` raises from the floor. */
  function GrowBound(k: nat): nat {
    if k == 0 then GOOGCC_MIN_BPS
    else
      var x := GrowBound(k - 1);
      var y := x + if x * 8 / 100 < 8_000 then 8_000 else x * 8 / 100;
      if GOOGCC_MAX_BPS < y then GOOGCC_MAX_BPS else y
  }

  lemma CutBoundValues()
    ensures CutBound(19) > CutBound(20) == GOOGCC_MIN_BPS
  {
    assert CutBound(0) == GOOGCC_MAX_BPS;
    assert CutBound(1) == 2_125_000; assert CutBound(2) == 1_806_250; assert CutBound(3) == 1_535_312;
    assert CutBound(4) == 1_305_015; assert CutBound(5) == 1_109_262; assert CutBound(6) == 942_872;
    assert CutBound(7) == 801_441; assert CutBound(8) == 681_224; assert CutBound(9) == 579_040;
    assert CutBound(10) == 492_184; assert CutBound(11) == 418_356; assert CutBound(12) == 355_602;
    assert CutBound(13) == 302_261; assert CutBound(14) == 256_921; assert CutBound(15) == 218_382;
    assert CutBound(16) == 185_624; assert CutBound(17) == 157_780; assert CutBound(18) == 134_113;
    assert CutBound(19) == 113_996; assert CutBound(20) == 100_000;
  }

  lemma GrowBoundValues()
    ensures GrowBound(41) < GrowBound(42) == GOOGCC_MAX_BPS
  {
    assert GrowBound(0) == GOOGCC_MIN_BPS;
    assert GrowBound(1) == 108_000; assert GrowBound(2) == 116_640; assert GrowBound(3) == 125_971;
    assert GrowBound(4) == 136_048; assert GrowBound(5) == 146_931; assert GrowBound(6) == 158_685;
    assert GrowBound(7) == 171_379; assert GrowBound(8) == 185_089; assert GrowBound(9) == 199_896;
    assert GrowBound(10) == 215_887; assert GrowBound(11) == 233_157; assert GrowBound(12) == 251_809;
    assert GrowBound(13) == 271_953; assert GrowBound(14) == 293_709; assert GrowBound(15) == 317_205;
    assert GrowBound(16) == 342_581; assert GrowBound(17) == 369_987; assert GrowBound(18) == 399_585;
    assert GrowBound(19) == 431_551; assert GrowBound(20) == 466_075; assert GrowBound(21) == 503_361;
    assert GrowBound(22) == 543_629; assert GrowBound(23) == 587_119; assert GrowBound(24) == 634_088;
    assert GrowBound(25) == 684_815; assert GrowBound(26) == 739_600; assert GrowBound(27) == 798_768;
    assert GrowBound(28) == 862_669; assert GrowBound(29) == 931_682; assert GrowBound(30) == 1_006_216;
    assert GrowBound(31) == 1_086_713; assert GrowBound(32) == 1_173_650; assert GrowBound(33) == 1_267_542;
    assert GrowBound(34) == 1_368_945; assert GrowBound(35) == 1_478_460; assert GrowBound(36) == 1_596_736;
    assert GrowBound(37) == 1_724_474; assert GrowBound(38) == 1_862_431; assert GrowBound(39) == 2_011_425;
    assert GrowBound(40) == 2_172_339; assert GrowBound(41) == 2_346_126; assert GrowBound(42) == 2_500_000;
  }

  ghost predicate LossAbove(ps: seq<Packet>, t: real) {
    forall i | 0 <= i < |ps| :: ps[i].loss > t
  }

  ghost predicate LossBelow(ps: seq<Packet>, t: real) {
    forall i | 0 <= i < |ps| :: ps[i].loss < t
  }

  /** Whichever branch a lossy packet takes, it cuts. */
  lemma {:induction false} LossyRunIsCut(g: GoogState, ps: seq<Packet>)
    requires |g.trend.deltas| <= WINDOW && DefaultBounds(g.aimd)
    requires LossAbove(ps, LOSS_HIGH_THRESHOLD)
    ensures RunGoog(g, ps).aimd.bps <= CutBound(|ps|)
    ensures g.aimd.bps == GOOGCC_MAX_BPS ==> RunGoog(g, ps).aimd.bps == CutBound(|ps|)
  {
    if ps != [] {
      var front := ps[..|ps| - 1];
      LossyRunIsCut(g, front);
      GoogRateBounded(g, front);
      var before := RunGoog(g, front).aimd;
      ScaledByPercent(before.bps);
      assert RunGoog(g, ps).aimd == Cut(before);
    }
  }

  /** Twenty lossy packets in a row reach the floor exactly, whatever their
      timing and wherever the rate started; from the ceiling nineteen do not. */
  lemma TwentyLossyPacketsReachFloor(g: GoogState, ps: seq<Packet>)
    requires |g.trend.deltas| <= WINDOW && DefaultBounds(g.aimd)
    requires LossAbove(ps, LOSS_HIGH_THRESHOLD)
    ensures |ps| == 20 ==> RunGoog(g, ps).aimd.bps == GOOGCC_MIN_BPS
    ensures |ps| == 19 && g.aimd.bps == GOOGCC_MAX_BPS ==> RunGoog(g, ps).aimd.bps > GOOGCC_MIN_BPS
  {
    LossyRunIsCut(g, ps);
    GoogRateBounded(g, ps);
    CutBoundValues();
  }

  /** No call of the run finds the trendline in overuse. */
  ghost predicate NeverOverused(g: GoogState, ps: seq<Packet>)
    requires |g.trend.deltas| <= WINDOW
  {
    if ps == [] then true
    else
      var before := RunGoog(g, ps[..|ps| - 1]);
      && NeverOverused(g, ps[..|ps| - 1])
      && (before.last.Some? ==> TrendAfter(before, ps[|ps| - 1].stamp).state != Overuse)
  }

  lemma {:induction false} CleanRunGrows(g: GoogState, ps: seq<Packet>)
    requires |g.trend.deltas| <= WINDOW && DefaultBounds(g.aimd)
    requires LossBelow(ps, LOSS_LOW_THRESHOLD) && NeverOverused(g, ps)
    ensures RunGoog(g, ps).aimd.bps >= GrowBound(|ps|)
    ensures g.aimd.bps == GOOGCC_MIN_BPS ==> RunGoog(g, ps).aimd.bps == GrowBound(|ps|)
  {
    if ps != [] {
      var front := ps[..|ps| - 1];
      CleanRunGrows(g, front);
      GoogRateBounded(g, front);
      var before := RunGoog(g, front).aimd;
      ScaledByPercent(before.bps);
      assert RunGoog(g, ps).aimd == Grown(before);
    }
  }

  /** Forty-two clean packets in a row reach the ceiling exactly; from the floor
      forty-one do not. */
  lemma FortyTwoCleanPacketsReachCeiling(g: GoogState, ps: seq<Packet>)
    requires |g.trend.deltas| <= WINDOW && DefaultBounds(g.aimd)
    requires LossBelow(ps, LOSS_LOW_THRESHOLD) && NeverOverused(g, ps)
    ensures |ps| == 42 ==> RunGoog(g, ps).aimd.bps == GOOGCC_MAX_BPS
    ensures |ps| == 41 && g.aimd.bps == GOOGCC_MIN_BPS ==> RunGoog(g, ps).aimd.bps < GOOGCC_MAX_BPS
  {
    CleanRunGrows(g, ps);
    GoogRateBounded(g, ps);
    GrowBoundValues();
  }

  // --------------------------------------------- overuse in terms of the timings

  /** A detector whose window holds no increase above the threshold. */
  ghost predicate Calm(g: GoogState) {
    && |g.trend.deltas| <= WINDOW
    && g.trend.state != Overuse
    && forall i | 0 <= i < |g.trend.deltas| :: Increase(g.trend.deltas[i]) <= OVERUSE_THRESHOLD
  }

  /** How much longer a packet was on its way than its predecessor, in ms. */
  ghost function Lateness(prev: Stamp, s: Stamp): real {
    (s.arrivalMs - s.sendMs) - (prev.arrivalMs - prev.sendMs)
  }

  /** No packet is more than 12.5 ms longer on its way than its predecessor. */
  ghost predicate CalmTimings(last: Option<Stamp>, ps: seq<Packet>) {
    && (ps != [] && last.Some? ==> Lateness(last.value, ps[0].stamp) <= 12.5)
    && (forall i | 0 < i < |ps| :: Lateness(ps[i - 1].stamp, ps[i].stamp) <= 12.5)
  }

  lemma CalmStep(g: GoogState, s: Stamp)
    requires Calm(g)
    requires g.last.Some? ==> Lateness(g.last.value, s) <= 12.5
    ensures var t := TrendAfter(g, s);
            && t.state != Overuse
            && forall i | 0 <= i < |t.deltas| :: Increase(t.deltas[i]) <= OVERUSE_THRESHOLD
  {
    if g.last.Some? {
      var p := PairOf(g.last.value, s);
      var w := PushBounded(g.trend.deltas, p, WINDOW);
      assert RecentAtMost(w, OVERUSE_THRESHOLD);
      if |w| >= 3 {
        CalmWindow(w);
      }
    }
  }

  lemma {:induction false} CalmRun(g: GoogState, ps: seq<Packet>)
    requires Calm(g) && CalmTimings(g.last, ps)
    ensures Calm(RunGoog(g, ps)) && NeverOverused(g, ps)
    ensures RunGoog(g, ps).last == if ps == [] then g.last else Some(ps[|ps| - 1].stamp)
  {
    if ps != [] {
      var n := |ps| - 1;
      var front := ps[..n];
      CalmRun(g, front);
      assert RunGoog(g, front).last == if n == 0 then g.last else Some(ps[n - 1].stamp);
      CalmStep(RunGoog(g, front), ps[n].stamp);
    }
  }

  /** What the link has to do for the ceiling: loss below half a percent and no
      packet more than 12.5 ms late, forty-two times. */
  lemma CalmCleanLinkReachesCeiling(g: GoogState, ps: seq<Packet>)
    requires Calm(g) && DefaultBounds(g.aimd)
    requires |ps| == 42 && LossBelow(ps, LOSS_LOW_THRESHOLD) && CalmTimings(g.last, ps)
    ensures RunGoog(g, ps).aimd.bps == GOOGCC_MAX_BPS
  {
    CalmRun(g, ps);
    FortyTwoCleanPacketsReachCeiling(g, ps);
  }

  // --------------------------------------------------------- what one packet does

  /** The trendline's window with the pair that a packet completes. */
  ghost function WindowWith(g: GoogState, s: Stamp): seq<Pair>
    requires g.last.Some?
  {
    var pair := Pair(s.arrivalMs - g.last.value.arrivalMs, s.sendMs - g.last.value.sendMs);
    LastN(g.trend.deltas + [pair], 20)
  }

  /** The slope over the last twenty pairs exceeds 12.5; two pairs are too few to
      tell. */
  ghost predicate Overuses(g: GoogState, s: Stamp) {
    && g.last.Some?
    && var w := WindowWith(g, s);
       if |w| < 3 then g.trend.state == Overuse else Slope(w) > 12.5
  }

  /** The rate after one packet, in whole bits per second and for any bounds:
      overuse comes first and takes 15 %, whatever the loss; otherwise the loss
      decides. */
  ghost function RateAfter(s: AimdState, overuse: bool, loss: real): nat {
    var cut := s.bps * 85 / 100;
    var raised := s.bps + if s.bps * 8 / 100 < 8_000 then 8_000 else s.bps * 8 / 100;
    if overuse || loss > 0.02 then (if cut < s.minBps then s.minBps else cut)
    else if loss >= 0.005 then s.bps
    else if raised > s.maxBps then s.maxBps else raised
  }

  lemma WindowAfter(g: GoogState, s: Stamp)
    requires |g.trend.deltas| <= WINDOW && g.last.Some?
    ensures TrendAfter(g, s).deltas == WindowWith(g, s)
    ensures TrendAfter(g, s).state == Overuse <==> Overuses(g, s)
  {
    assert LastN(g.trend.deltas, WINDOW) == g.trend.deltas;
    PushKeepsLastN(g.trend.deltas, PairOf(g.last.value, s), WINDOW);
  }

  lemma PacketEffect(g: GoogState, p: Packet)
    requires |g.trend.deltas| <= WINDOW
    ensures var r := RunGoog(g, [p]);
            && r.aimd == g.aimd.(bps := RateAfter(g.aimd, Overuses(g, p.stamp), p.loss))
            && r.last == Some(p.stamp)
            && r.trend.deltas == if g.last.None? then g.trend.deltas else WindowWith(g, p.stamp)
  {
    assert [p][..0] == [];
    assert RunGoog(g, [p]) == Received(RunGoog(g, []), p);
    ScaledByPercent(g.aimd.bps);
    if g.last.Some? {
      WindowAfter(g, p.stamp);
    }
  }

  /** A fresh estimator starts from 500 000 and has nothing to call late. */
  lemma FirstPacketRate(p: Packet)
    ensures RunGoog(FreshGoog(), [p]).aimd.bps ==
            if p.loss < 0.005 then 540_000 else if p.loss > 0.02 then 425_000 else 500_000
  {
    PacketEffect(FreshGoog(), p);
  }

  // ------------------------------------------------------------------ a late link

  /** At least two pairs, all of them late, and a packet to compare to. */
  ghost predicate Steep(g: GoogState) {
    && g.last.Some? && 2 <= |g.trend.deltas| <= WINDOW
    && forall i | 0 <= i < |g.trend.deltas| :: Increase(g.trend.deltas[i]) > OVERUSE_THRESHOLD
  }

  ghost predicate LateTimings(last: Option<Stamp>, ps: seq<Packet>) {
    && (ps != [] && last.Some? ==> Lateness(last.value, ps[0].stamp) > 12.5)
    && (forall i | 0 < i < |ps| :: Lateness(ps[i - 1].stamp, ps[i].stamp) > 12.5)
  }

  lemma SteepStep(g: GoogState, s: Stamp)
    requires Steep(g) && Lateness(g.last.value, s) > 12.5
    ensures var t := TrendAfter(g, s);
            && t.state == Overuse && 2 <= |t.deltas| <= WINDOW
            && forall i | 0 <= i < |t.deltas| :: Increase(t.deltas[i]) > OVERUSE_THRESHOLD
  {
    var w := PushBounded(g.trend.deltas, PairOf(g.last.value, s), WINDOW);
    assert RecentAbove(w, OVERUSE_THRESHOLD);
    SteepWindow(w);
  }

  lemma LateTimingsFront(last: Option<Stamp>, ps: seq<Packet>)
    requires ps != [] && LateTimings(last, ps)
    ensures LateTimings(last, ps[..|ps| - 1])
  {
  }

  lemma {:induction false} LateRunIsCut(g: GoogState, ps: seq<Packet>)
    requires Steep(g) && DefaultBounds(g.aimd) && LateTimings(g.last, ps)
    ensures Steep(RunGoog(g, ps)) && RunGoog(g, ps).aimd.bps <= CutBound(|ps|)
    ensures RunGoog(g, ps).last == if ps == [] then g.last else Some(ps[|ps| - 1].stamp)
    ensures g.aimd.bps == GOOGCC_MAX_BPS ==> RunGoog(g, ps).aimd.bps == CutBound(|ps|)
  {
    if ps != [] {
      var n := |ps| - 1;
      var front := ps[..n];
      LateTimingsFront(g.last, ps);
      LateRunIsCut(g, front);
      GoogRateBounded(g, front);
      var before := RunGoog(g, front);
      assert before.last == if n == 0 then g.last else Some(ps[n - 1].stamp);
      SteepStep(before, ps[n].stamp);
      ScaledByPercent(before.aimd.bps);
      assert RunGoog(g, ps).aimd == Cut(before.aimd);
    }
  }

  /** Twenty late packets in a row reach the floor exactly, whatever their loss;
      from the ceiling nineteen do not. */
  lemma TwentyLatePacketsReachFloor(g: GoogState, ps: seq<Packet>)
    requires Steep(g) && DefaultBounds(g.aimd) && LateTimings(g.last, ps)
    ensures |ps| == 20 ==> RunGoog(g, ps).aimd.bps == 100_000
    ensures |ps| == 19 && g.aimd.bps == GOOGCC_MAX_BPS ==> RunGoog(g, ps).aimd.bps > 100_000
  {
    LateRunIsCut(g, ps);
    GoogRateBounded(g, ps);
    CutBoundValues();
  }

  lemma {:induction false} RunGoogAppends(g: GoogState, a: seq<Packet>, b: seq<Packet>)
    requires |g.trend.deltas| <= WINDOW
    ensures RunGoog(g, a + b) == RunGoog(RunGoog(g, a), b)
  {
    if b == [] {
      assert a + b == a;
    } else {
      RunGoogAppends(g, a, b[..|b| - 1]);
      AppendFront(a, b);
    }
  }

  /** A packet's pair joins a window that is not full. */
  lemma PairJoins(g: GoogState, p: Packet)
    requires |g.trend.deltas| < WINDOW && DefaultBounds(g.aimd)
    ensures var r := RunGoog(g, [p]);
            && r.last == Some(p.stamp) && DefaultBounds(r.aimd)
            && r.trend.deltas == g.trend.deltas + if g.last.None? then [] else [PairOf(g.last.value, p.stamp)]
  {
    PacketEffect(g, p);
    GoogRateBounded(g, [p]);
  }

  /** Three late packets make a fresh estimator's window steep. */
  lemma ThreeLatePackets(p: Packet, q: Packet, r: Packet)
    requires Lateness(p.stamp, q.stamp) > 12.5 && Lateness(q.stamp, r.stamp) > 12.5
    ensures var g := RunGoog(FreshGoog(), [p] + [q] + [r]);
            Steep(g) && g.last == Some(r.stamp) && DefaultBounds(g.aimd)
  {
    var g0 := FreshGoog();
    RunGoogAppends(g0, [p], [q]);
    RunGoogAppends(g0, [p] + [q], [r]);
    PairJoins(g0, p);
    PairJoins(RunGoog(g0, [p]), q);
    PairJoins(RunGoog(g0, [p] + [q]), r);
    assert RunGoog(g0, [p] + [q] + [r]).trend.deltas == [PairOf(p.stamp, q.stamp), PairOf(q.stamp, r.stamp)];
  }

  /** From a fresh estimator: twenty-three packets, each more than 12.5 ms longer on
      its way than the one before, end at the floor even if none is lost. */
  lemma LateLinkReachesFloor(ps: seq<Packet>)
    requires |ps| == 23 && LateTimings(None, ps)
    ensures RunGoog(FreshGoog(), ps).aimd.bps == 100_000
  {
    var a, b := ps[..3], ps[3..];
    assert ps == a + b && a == [ps[0]] + [ps[1]] + [ps[2]];
    assert Lateness(ps[0].stamp, ps[1].stamp) > 12.5 && Lateness(ps[1].stamp, ps[2].stamp) > 12.5;
    ThreeLatePackets(ps[0], ps[1], ps[2]);
    RunGoogAppends(FreshGoog(), a, b);
    var g := RunGoog(FreshGoog(), a);
    assert LateTimings(g.last, b) by {
      assert Lateness(ps[2].stamp, ps[3].stamp) > 12.5;
      forall i | 0 < i < |b| ensures Lateness(b[i - 1].stamp, b[i].stamp) > 12.5 {
        assert b[i] == ps[i + 3] && b[i - 1] == ps[i + 2];
      }
    }
    TwentyLatePacketsReachFloor(g, b);
  }

  // ----------------------------------------------------------------- neutral loss

  /** Loss between the thresholds, without overuse, leaves the rate alone. */
  lemma {:induction false} NeutralLossHolds(g: GoogState, ps: seq<Packet>)
    requires |g.trend.deltas| <= WINDOW && NeverOverused(g, ps)
    requires forall i | 0 <= i < |ps| :: 0.005 <= ps[i].loss <= 0.02
    ensures RunGoog(g, ps).aimd == g.aimd
  {
    if ps != [] {
      NeutralLossHolds(g, ps[..|ps| - 1]);
    }
  }

  lemma CalmNeutralLinkHolds(g: GoogState, ps: seq<Packet>)
    requires Calm(g) && CalmTimings(g.last, ps)
    requires forall i | 0 <= i < |ps| :: 0.005 <= ps[i].loss <= 0.02
    ensures RunGoog(g, ps).aimd == g.aimd
  {
    CalmRun(g, ps);
    NeutralLossHolds(g, ps);
  }
}
