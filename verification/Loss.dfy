/** The loss estimator (src/bwe/loss.rs): a window over the last 64 packet
    outcomes, and the rate it steers. */
module Loss {
  import opened Basics
  import opened RateControl

  const LOSS_WINDOW: nat := 64
  const LOSS_HIGH_THRESHOLD := 0.10
  const LOSS_LOW_THRESHOLD := 0.02
  const LOSS_POLICY := Policy(250_000, 5_000.0)

  /** `window` holds one outcome per packet, `true` for received. */
  datatype LossState = LossState(window: seq<bool>, rate: RateState)

  datatype LossOp = Record(received: bool) | Apply(now: Instant)

  function FreshLoss(initialBps: real): LossState {
    LossState([], RateState(Clamp(initialBps), None))
  }

  function CountLost(window: seq<bool>): (n: nat)
    ensures n <= |window|
  {
    if window == [] then 0
    else CountLost(window[..|window| - 1]) + if window[|window| - 1] then 0 else 1
  }

  function LossFraction(window: seq<bool>): (f: real)
    ensures 0.0 <= f <= 1.0
  {
    if window == [] then 0.0
    else
      var lost, n := CountLost(window) as real, |window| as real;
      assert 0.0 <= lost <= n && n > 0.0;
      lost / n
  }

  function Note(s: LossState, received: bool): LossState
    requires |s.window| <= LOSS_WINDOW
  {
    s.(window := PushBounded(s.window, received, LOSS_WINDOW))
  }

  function VerdictOf(s: LossState): Verdict {
    var f := LossFraction(s.window);
    if f >= LOSS_HIGH_THRESHOLD then Congested
    else if f < LOSS_LOW_THRESHOLD then Clear
    else Steady
  }

  function Steer(s: LossState, now: Instant): LossState {
    s.(rate := Control(LOSS_POLICY, s.rate, Call(VerdictOf(s), now)))
  }

  lemma FractionCompares(lost: nat, n: nat, t: real)
    requires n > 0
    ensures lost as real / n as real >= t <==> lost as real >= t * n as real
  {
    var q := lost as real / n as real;
    assert q * n as real == lost as real;
    if q >= t {
      MulNonNeg(q - t, n as real);
    } else {
      assert (t - q) * n as real > 0.0;
    }
  }

  /** The packets of the window that did not arrive. */
  ghost function LostAt(window: seq<bool>): set<nat> {
    set i: nat | i < |window| && !window[i]
  }

  lemma {:induction false} CountLostIsCardinality(window: seq<bool>)
    ensures CountLost(window) == |LostAt(window)|
  {
    if window != [] {
      var n := |window| - 1;
      var f := window[..n];
      CountLostIsCardinality(f);
      assert LostAt(window) == LostAt(f) + if window[n] then {} else {n};
    }
  }

  /** In packets, for every window: one in ten lost lowers the rate, fewer than
      one in fifty raises it, and so does knowing nothing. */
  lemma VerdictByCount(s: LossState)
    ensures VerdictOf(s) == Congested <==> s.window != [] && 10 * |LostAt(s.window)| >= |s.window|
    ensures VerdictOf(s) == Clear <==> s.window == [] || 50 * |LostAt(s.window)| < |s.window|
  {
    CountLostIsCardinality(s.window);
    if s.window != [] {
      FractionCompares(CountLost(s.window), |s.window|, LOSS_HIGH_THRESHOLD);
      FractionCompares(CountLost(s.window), |s.window|, LOSS_LOW_THRESHOLD);
    }
  }

  /** On a full window seven losses lower the rate and one still raises it; two
      to six hold it. */
  lemma FullWindowVerdict(s: LossState)
    requires |s.window| == LOSS_WINDOW
    ensures VerdictOf(s) == Congested <==> |LostAt(s.window)| >= 7
    ensures VerdictOf(s) == Clear <==> |LostAt(s.window)| <= 1
  {
    VerdictByCount(s);
  }

  // ----------------------------------------------------------------------- runs

  ghost function RunLoss(s: LossState, ops: seq<LossOp>): (r: LossState)
    requires |s.window| <= LOSS_WINDOW
    ensures |r.window| <= LOSS_WINDOW
  {
    if ops == [] then s
    else
      var p := RunLoss(s, ops[..|ops| - 1]);
      match ops[|ops| - 1]
      case Record(received) => Note(p, received)
      case Apply(now) => Steer(p, now)
  }

  /** Every outcome the run recorded, oldest first. */
  ghost function Outcomes(ops: seq<LossOp>): seq<bool> {
    if ops == [] then []
    else
      Outcomes(ops[..|ops| - 1]) +
      match ops[|ops| - 1]
      case Record(received) => [received]
      case Apply(_) => []
  }

  /** The window of a run is the last 64 of the old window and the outcomes, all of
      them while there are fewer. */
  lemma {:induction false} WindowIsLastOutcomes(s: LossState, ops: seq<LossOp>)
    requires |s.window| <= LOSS_WINDOW
    ensures RunLoss(s, ops).window == LastN(s.window + Outcomes(ops), LOSS_WINDOW)
  {
    if ops == [] {
      assert s.window + [] == s.window;
    } else {
      var front := ops[..|ops| - 1];
      WindowIsLastOutcomes(s, front);
      match ops[|ops| - 1]
      case Record(received) =>
        PushKeepsLastN(s.window + Outcomes(front), received, LOSS_WINDOW);
        assert s.window + Outcomes(ops) == s.window + Outcomes(front) + [received];
      case Apply(_) => assert Outcomes(ops) == Outcomes(front);
    }
  }

  ghost function CallsOf(s: LossState, ops: seq<LossOp>): seq<Call>
    requires |s.window| <= LOSS_WINDOW
  {
    if ops == [] then []
    else
      var front := ops[..|ops| - 1];
      CallsOf(s, front) +
      match ops[|ops| - 1]
      case Record(_) => []
      case Apply(now) => [Call(VerdictOf(RunLoss(s, front)), now)]
  }

  lemma {:induction false} LossRateIsRateRun(s: LossState, ops: seq<LossOp>)
    requires |s.window| <= LOSS_WINDOW
    ensures RunLoss(s, ops).rate == RunRate(LOSS_POLICY, s.rate, CallsOf(s, ops))
  {
    if ops != [] {
      var front := ops[..|ops| - 1];
      LossRateIsRateRun(s, front);
      var calls := CallsOf(s, ops);
      match ops[|ops| - 1]
      case Record(_) =>
        assert calls == CallsOf(s, front);
      case Apply(now) =>
        assert calls[..|calls| - 1] == CallsOf(s, front);
    }
  }

  ghost predicate AppliesWithin(ops: seq<LossOp>, lo: Instant, hi: Instant) {
    forall i | 0 <= i < |ops| && ops[i].Apply? :: lo <= ops[i].now <= hi
  }

  lemma {:induction false} CallsOfWithin(s: LossState, ops: seq<LossOp>, lo: Instant, hi: Instant)
    requires |s.window| <= LOSS_WINDOW && AppliesWithin(ops, lo, hi)
    ensures CallsWithin(CallsOf(s, ops), lo, hi)
  {
    if ops != [] {
      CallsOfWithin(s, ops[..|ops| - 1], lo, hi);
    }
  }

  /** Within a span T the loss rate keeps 0.85 to the power T/250 ms + 1 of its
      start, and never less than the floor. */
  lemma LossRateFloor(s: LossState, ops: seq<LossOp>, lo: Instant, hi: Instant)
    requires |s.window| <= LOSS_WINDOW && InRange(s.rate.bps)
    requires lo <= hi && AppliesWithin(ops, lo, hi)
    ensures InRange(RunLoss(s, ops).rate.bps)
    ensures RunLoss(s, ops).rate.bps >= Decay(DECREASE_FACTOR, (hi - lo) / 250_000 + 1, s.rate.bps)
  {
    LossRateIsRateRun(s, ops);
    CallsOfWithin(s, ops, lo, hi);
    RateStaysInRange(LOSS_POLICY, s.rate, CallsOf(s, ops));
    RateFloor(LOSS_POLICY, s.rate, CallsOf(s, ops), lo, hi);
  }

  // -------------------------------------------------------------------- exact rates

  ghost function ApplyTimes(ops: seq<LossOp>): seq<Instant> {
    if ops == [] then []
    else
      ApplyTimes(ops[..|ops| - 1]) +
      match ops[|ops| - 1]
      case Record(_) => []
      case Apply(now) => [now]
  }

  lemma {:induction false} CallTimes(s: LossState, ops: seq<LossOp>)
    requires |s.window| <= LOSS_WINDOW
    ensures TimesOf(CallsOf(s, ops)) == ApplyTimes(ops)
  {
    if ops != [] {
      CallTimes(s, ops[..|ops| - 1]);
    }
  }

  /** Every outcome known, and every one recorded, is `received`. */
  ghost predicate AllOutcomes(window: seq<bool>, ops: seq<LossOp>, received: bool) {
    && (forall i | 0 <= i < |window| :: window[i] == received)
    && (forall i | 0 <= i < |ops| && ops[i].Record? :: ops[i].received == received)
  }

  lemma {:induction false} UniformCount(window: seq<bool>, received: bool)
    requires AllOutcomes(window, [], received)
    ensures |LostAt(window)| == if received then 0 else |window|
  {
    CountLostIsCardinality(window);
    if window != [] {
      var f := window[..|window| - 1];
      UniformCount(f, received);
      CountLostIsCardinality(f);
    }
  }

  lemma UniformVerdict(s: LossState, received: bool)
    requires AllOutcomes(s.window, [], received) && (received || s.window != [])
    ensures VerdictOf(s) == if received then Clear else Congested
  {
    VerdictByCount(s);
    UniformCount(s.window, received);
  }

  lemma {:induction false} UniformRun(s: LossState, ops: seq<LossOp>, received: bool)
    requires |s.window| <= LOSS_WINDOW && AllOutcomes(s.window, ops, received) && (received || s.window != [])
    ensures AllOutcomes(RunLoss(s, ops).window, [], received) && (received || RunLoss(s, ops).window != [])
    ensures AllVerdicts(CallsOf(s, ops), if received then Clear else Congested)
  {
    if ops != [] {
      var front := ops[..|ops| - 1];
      UniformRun(s, front, received);
      UniformVerdict(RunLoss(s, front), received);
    }
  }

  /** While every packet is lost, calls at least 250 ms apart each take 15 % of the
      rate, down to 30 000. */
  lemma LossyRunCutsRate(s: LossState, ops: seq<LossOp>)
    requires |s.window| <= LOSS_WINDOW && InRange(s.rate.bps)
    requires s.window != [] && AllOutcomes(s.window, ops, false)
    requires Apart(s.rate.lastDecrease, ApplyTimes(ops), 250_000)
    ensures RunLoss(s, ops).rate.bps == RealMax(30_000.0, Decay(0.85, |ApplyTimes(ops)|, s.rate.bps))
  {
    UniformRun(s, ops, false);
    CallTimes(s, ops);
    LossRateIsRateRun(s, ops);
    CongestedRate(LOSS_POLICY, s.rate, CallsOf(s, ops));
  }

  lemma {:induction false} LossSteps(n: nat)
    ensures Steps(5_000.0, n) == 5_000.0 * n as real
  {
    if n > 0 {
      LossSteps(n - 1);
    }
  }

  /** While none is, every call adds 5 000, up to 50 000 000. */
  lemma CleanRunRaisesRate(s: LossState, ops: seq<LossOp>)
    requires |s.window| <= LOSS_WINDOW && InRange(s.rate.bps) && AllOutcomes(s.window, ops, true)
    ensures RunLoss(s, ops).rate.bps ==
            RealMin(50_000_000.0, s.rate.bps + 5_000.0 * |ApplyTimes(ops)| as real)
  {
    UniformRun(s, ops, true);
    CallTimes(s, ops);
    LossRateIsRateRun(s, ops);
    ClearRate(LOSS_POLICY, s.rate, CallsOf(s, ops));
    LossSteps(|ApplyTimes(ops)|);
  }

  // ------------------------------------------------------------------ the object

  class LossEstimator {
    var window: seq<bool>
    var bitrateBps: real
    var lastDecrease: Option<Instant>

    ghost function View(): LossState
      reads this
    {
      LossState(window, RateState(bitrateBps, lastDecrease))
    }

    ghost predicate Valid()
      reads this
    {
      |window| <= LOSS_WINDOW && InRange(bitrateBps)
    }

    constructor (initialBps: real)
      ensures Valid() && View() == FreshLoss(initialBps)
    {
      window := [];
      bitrateBps, lastDecrease := Clamp(initialBps), None;
    }

    method Record(received: bool)
      requires Valid()
      modifies this
      ensures Valid() && View() == Note(old(View()), received)
    {
      if |window| >= LOSS_WINDOW {
        window := window[1..];
      }
      window := window + [received];
    }

    method ApplyRateControl(now: Instant)
      requires Valid()
      modifies this
      ensures Valid() && View() == Steer(old(View()), now)
    {
      var loss := LossFraction(window);
      if loss >= LOSS_HIGH_THRESHOLD {
        if CanDecrease(LOSS_POLICY, lastDecrease, now) {
          bitrateBps := RealMax(bitrateBps * DECREASE_FACTOR, MIN_BITRATE_BPS);
          lastDecrease := Some(now);
        }
      } else if loss < LOSS_LOW_THRESHOLD {
        bitrateBps := RealMin(bitrateBps + LOSS_POLICY.step, MAX_BITRATE_BPS);
      }
    }
  }
}
