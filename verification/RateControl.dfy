/** The rate rule that the delay estimator (src/bwe/kalman.rs) and the loss
    estimator (src/bwe/loss.rs) share: additive increase, multiplicative
    decrease no more often than once per cooldown, and a fixed range. */
module RateControl {
  import opened Basics

  const MIN_BITRATE_BPS := 30_000.0
  const MAX_BITRATE_BPS := 50_000_000.0
  const DECREASE_FACTOR := 0.85

  datatype Policy = Policy(cooldown: nat, step: real)

  datatype Verdict = Congested | Steady | Clear

  datatype RateState = RateState(bps: real, lastDecrease: Option<Instant>)

  datatype Call = Call(verdict: Verdict, now: Instant)

  predicate Sensible(p: Policy) {
    p.cooldown > 0 && p.step >= 0.0
  }

  predicate InRange(bps: real) {
    MIN_BITRATE_BPS <= bps <= MAX_BITRATE_BPS
  }

  function Clamp(bps: real): (r: real)
    ensures InRange(r)
    ensures InRange(bps) ==> r == bps
  {
    RealMax(MIN_BITRATE_BPS, RealMin(bps, MAX_BITRATE_BPS))
  }

  predicate CanDecrease(p: Policy, last: Option<Instant>, now: Instant) {
    last.None? || Elapsed(now, last.value) >= p.cooldown
  }

  /** Whether a call lowers the rate by the decrease factor. */
  predicate Decreases(p: Policy, s: RateState, c: Call) {
    c.verdict == Congested && CanDecrease(p, s.lastDecrease, c.now)
  }

  function Control(p: Policy, s: RateState, c: Call): (r: RateState) {
    if Decreases(p, s, c) then
      RateState(RealMax(s.bps * DECREASE_FACTOR, MIN_BITRATE_BPS), Some(c.now))
    else if c.verdict == Clear then
      s.(bps := RealMin(s.bps + p.step, MAX_BITRATE_BPS))
    else s
  }

  ghost function RunRate(p: Policy, s: RateState, calls: seq<Call>): RateState {
    if calls == [] then s
    else Control(p, RunRate(p, s, calls[..|calls| - 1]), calls[|calls| - 1])
  }

  /** The clock readings at which the run lowered the rate. */
  ghost function DecreaseTimes(p: Policy, s: RateState, calls: seq<Call>): (d: seq<Instant>)
    ensures |d| <= |calls|
  {
    if calls == [] then []
    else
      var front, c := calls[..|calls| - 1], calls[|calls| - 1];
      DecreaseTimes(p, s, front) +
      if Decreases(p, RunRate(p, s, front), c) then [c.now] else []
  }

  ghost predicate Spaced(d: seq<Instant>, gap: nat) {
    forall i | 0 < i < |d| :: d[i] >= d[i - 1] + gap
  }

  ghost predicate CallsWithin(calls: seq<Call>, lo: Instant, hi: Instant) {
    forall c | c in calls :: lo <= c.now <= hi
  }

  lemma {:induction false} RateStaysInRange(p: Policy, s: RateState, calls: seq<Call>)
    requires Sensible(p) && InRange(s.bps)
    ensures InRange(RunRate(p, s, calls).bps)
  {
    if calls != [] {
      RateStaysInRange(p, s, calls[..|calls| - 1]);
    }
  }

  /** The run remembers exactly its latest decrease. */
  lemma {:induction false} LastDecreaseIsLast(p: Policy, s: RateState, calls: seq<Call>)
    ensures var d := DecreaseTimes(p, s, calls);
            RunRate(p, s, calls).lastDecrease ==
              if d == [] then s.lastDecrease else Some(d[|d| - 1])
  {
    if calls != [] {
      LastDecreaseIsLast(p, s, calls[..|calls| - 1]);
    }
  }

  /** Decreases are a cooldown apart, whatever the clock does: a reading before
      the last decrease counts as zero elapsed time. */
  lemma {:induction false} DecreasesAreSpaced(p: Policy, s: RateState, calls: seq<Call>)
    requires Sensible(p)
    ensures Spaced(DecreaseTimes(p, s, calls), p.cooldown)
  {
    if calls != [] {
      var front, c := calls[..|calls| - 1], calls[|calls| - 1];
      DecreasesAreSpaced(p, s, front);
      LastDecreaseIsLast(p, s, front);
      var d0, before := DecreaseTimes(p, s, front), RunRate(p, s, front);
      var d := DecreaseTimes(p, s, calls);
      if Decreases(p, before, c) {
        assert d == d0 + [c.now];
        assert d0 != [] ==> c.now >= d0[|d0| - 1] + p.cooldown;
      } else {
        assert d == d0;
      }
    }
  }

  lemma {:induction false} DecreaseTimesAreCallTimes(p: Policy, s: RateState, calls: seq<Call>,
                                                     lo: Instant, hi: Instant)
    requires CallsWithin(calls, lo, hi)
    ensures forall t | t in DecreaseTimes(p, s, calls) :: lo <= t <= hi
  {
    if calls != [] {
      var front, c := calls[..|calls| - 1], calls[|calls| - 1];
      assert c in calls;
      assert CallsWithin(front, lo, hi);
      DecreaseTimesAreCallTimes(p, s, front, lo, hi);
    }
  }

  lemma {:induction false} SpacedSpan(d: seq<Instant>, gap: nat)
    requires Spaced(d, gap) && d != []
    ensures d[|d| - 1] - d[0] >= (|d| - 1) * gap
  {
    if |d| > 1 {
      var f := d[..|d| - 1];
      assert forall i | 0 < i < |f| :: f[i] >= f[i - 1] + gap;
      SpacedSpan(f, gap);
      assert d[|d| - 1] >= f[|f| - 1] + gap;
      assert (|d| - 1) * gap == (|f| - 1) * gap + gap;
    }
  }

  lemma QuotientBound(n: nat, gap: nat, span: nat)
    requires gap > 0 && n * gap <= span
    ensures n <= span / gap
  {
    var q := span / gap;
    if n > q {
      IntMulMono(q + 1, n, gap);
    }
  }

  /** At most one decrease per cooldown, plus one. */
  lemma DecreaseCount(p: Policy, s: RateState, calls: seq<Call>, lo: Instant, hi: Instant)
    requires Sensible(p) && lo <= hi && CallsWithin(calls, lo, hi)
    ensures |DecreaseTimes(p, s, calls)| <= (hi - lo) / p.cooldown + 1
  {
    var d := DecreaseTimes(p, s, calls);
    DecreasesAreSpaced(p, s, calls);
    DecreaseTimesAreCallTimes(p, s, calls, lo, hi);
    if d != [] {
      SpacedSpan(d, p.cooldown);
      assert d[0] in d && d[|d| - 1] in d;
      QuotientBound(|d| - 1, p.cooldown, hi - lo);
    }
  }

  lemma ControlStep(p: Policy, s: RateState, c: Call)
    requires Sensible(p) && InRange(s.bps)
    ensures Control(p, s, c).bps >= if Decreases(p, s, c) then DECREASE_FACTOR * s.bps else s.bps
  {
  }

  lemma {:induction false} RateLosesOneFactorPerDecrease(p: Policy, s: RateState, calls: seq<Call>)
    requires Sensible(p) && InRange(s.bps)
    ensures RunRate(p, s, calls).bps >= Decay(DECREASE_FACTOR, |DecreaseTimes(p, s, calls)|, s.bps)
  {
    if calls != [] {
      var front, c := calls[..|calls| - 1], calls[|calls| - 1];
      RateStaysInRange(p, s, front);
      RateLosesOneFactorPerDecrease(p, s, front);
      ControlStep(p, RunRate(p, s, front), c);
    }
  }

  /** However the verdicts fall and however the clock jumps inside `[lo, hi]`,
      the rate keeps this much of where it started. */
  lemma RateFloor(p: Policy, s: RateState, calls: seq<Call>, lo: Instant, hi: Instant)
    requires Sensible(p) && InRange(s.bps) && lo <= hi && CallsWithin(calls, lo, hi)
    ensures RunRate(p, s, calls).bps >= MIN_BITRATE_BPS
    ensures RunRate(p, s, calls).bps >= Decay(DECREASE_FACTOR, (hi - lo) / p.cooldown + 1, s.bps)
  {
    RateStaysInRange(p, s, calls);
    RateLosesOneFactorPerDecrease(p, s, calls);
    DecreaseCount(p, s, calls, lo, hi);
    var k, m := |DecreaseTimes(p, s, calls)|, (hi - lo) / p.cooldown + 1;
    DecayShrinks(DECREASE_FACTOR, k, m, s.bps);
  }

  // ---------------------------------------------------------------- exact rates

  ghost predicate AllVerdicts(calls: seq<Call>, v: Verdict) {
    forall i | 0 <= i < |calls| :: calls[i].verdict == v
  }

  /** Each time is at least `gap` after the previous one, and the first at least
      `gap` after `last`. */
  ghost predicate Apart(last: Option<Instant>, times: seq<Instant>, gap: nat) {
    && (times != [] && last.Some? ==> times[0] - last.value >= gap)
    && forall i | 0 < i < |times| :: times[i] - times[i - 1] >= gap
  }

  ghost function TimesOf(calls: seq<Call>): (ts: seq<Instant>)
    ensures |ts| == |calls| && forall i | 0 <= i < |calls| :: ts[i] == calls[i].now
  {
    seq(|calls|, i requires 0 <= i < |calls| => calls[i].now)
  }

  lemma ApartFront(last: Option<Instant>, calls: seq<Call>, gap: nat)
    requires calls != [] && Apart(last, TimesOf(calls), gap)
    ensures var front := calls[..|calls| - 1];
            && Apart(last, TimesOf(front), gap)
            && (front == [] && last.Some? ==> calls[|calls| - 1].now - last.value >= gap)
            && (front != [] ==> calls[|calls| - 1].now - front[|front| - 1].now >= gap)
  {
    var ts, front := TimesOf(calls), calls[..|calls| - 1];
    assert TimesOf(front) == ts[..|ts| - 1];
    assert front != [] ==> ts[|ts| - 1] - ts[|ts| - 2] >= gap;
  }

  /** Congestion seen once per cooldown multiplies the rate by 0.85 each time,
      down to 30 000. */
  lemma {:induction false} CongestedRate(p: Policy, s: RateState, calls: seq<Call>)
    requires Sensible(p) && InRange(s.bps)
    requires AllVerdicts(calls, Congested) && Apart(s.lastDecrease, TimesOf(calls), p.cooldown)
    ensures RunRate(p, s, calls).bps == RealMax(30_000.0, Decay(0.85, |calls|, s.bps))
    ensures RunRate(p, s, calls).lastDecrease ==
            if calls == [] then s.lastDecrease else Some(calls[|calls| - 1].now)
  {
    if calls != [] {
      var front := calls[..|calls| - 1];
      ApartFront(s.lastDecrease, calls, p.cooldown);
      CongestedRate(p, s, front);
    }
  }

  /** Congestion within a cooldown of the last decrease costs nothing more. */
  lemma {:induction false} CooldownHoldsRate(p: Policy, s: RateState, calls: seq<Call>)
    requires AllVerdicts(calls, Congested) && s.lastDecrease.Some?
    requires forall i | 0 <= i < |calls| :: calls[i].now - s.lastDecrease.value < p.cooldown
    requires p.cooldown > 0
    ensures RunRate(p, s, calls) == s
  {
    if calls != [] {
      CooldownHoldsRate(p, s, calls[..|calls| - 1]);
    }
  }

  /** `n` steps. */
  ghost function Steps(step: real, n: nat): real {
    if n == 0 then 0.0 else Steps(step, n - 1) + step
  }

  /** Every clear call adds one step, up to 50 000 000. */
  lemma {:induction false} ClearRate(p: Policy, s: RateState, calls: seq<Call>)
    requires Sensible(p) && InRange(s.bps) && AllVerdicts(calls, Clear)
    ensures RunRate(p, s, calls) == s.(bps := RealMin(50_000_000.0, s.bps + Steps(p.step, |calls|)))
  {
    if calls != [] {
      ClearRate(p, s, calls[..|calls| - 1]);
    }
  }

  lemma {:induction false} SteadyRate(p: Policy, s: RateState, calls: seq<Call>)
    requires AllVerdicts(calls, Steady)
    ensures RunRate(p, s, calls) == s
  {
    if calls != [] {
      SteadyRate(p, s, calls[..|calls| - 1]);
    }
  }
}
