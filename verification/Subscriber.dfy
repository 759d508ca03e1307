/** Estimator state of one subscriber (src/bwe/subscriber.rs) and the ingestion
    of a TWCC feedback batch into it (src/bwe/feedback.rs). */
module Subscriber {
  import opened Basics
  import opened RateControl
  import Kalman
  import Loss
  import Trendline
  import GoogCc
  import opened CombineTerms
  import opened SendLog

  const INITIAL_BITRATE_BPS := 300_000.0
  const CLIENT_HINT_MAX_AGE: nat := 5_000_000

  datatype ClientHint = ClientHint(bps: nat, receivedAt: Instant)

  /** One packet of a feedback report; `arrival` is absent when it was lost. */
  datatype TwccSample = TwccSample(seqNo: nat, arrival: Option<Instant>)

  /** A packet whose arrival was reported and whose send time is on record. */
  datatype Echo = Echo(arrival: Instant, send: Instant)

  datatype SubState = SubState(
    sendTimes: map<nat, Instant>,
    lastReceived: Option<Echo>,
    delay: Kalman.DelayState,
    loss: Loss.LossState,
    rtt: Option<nat>,
    native: Option<Float>,
    hint: Option<ClientHint>,
    googcc: Option<GoogCc.GoogState>)

  function FreshSub(): SubState {
    SubState(map[], None, Kalman.FreshDelay(INITIAL_BITRATE_BPS), Loss.FreshLoss(INITIAL_BITRATE_BPS),
             None, None, None, None)
  }

  /** What every feed keeps: the three estimators inside their own ranges, and
      the send log inside its bound. */
  ghost predicate SubInv(s: SubState) {
    && Ingestible(s)
    && |s.sendTimes| <= MAX_SEND_TIMES
    && InRange(s.delay.rate.bps) && InRange(s.loss.rate.bps)
    && (s.googcc.Some? ==> |s.googcc.value.trend.deltas| <= Trendline.WINDOW
                           && GoogCc.DefaultBounds(s.googcc.value.aimd))
  }

  predicate Ingestible(s: SubState) {
    Kalman.SoundVariance(s.delay.variance) && |s.loss.window| <= Loss.LOSS_WINDOW
  }

  // -------------------------------------------------------------------- feedback

  /** The echo a sample amounts to, if any. */
  function EchoOf(sendTimes: map<nat, Instant>, x: TwccSample): Option<Echo> {
    if x.arrival.Some? && x.seqNo in sendTimes
    then Some(Echo(x.arrival.value, sendTimes[x.seqNo])) else None
  }

  /** Growth of the one-way delay from one echo to the next, in microseconds;
      each span counts as zero when its clock went backwards. */
  function Gradient(prev: Echo, e: Echo): int {
    Elapsed(e.arrival, prev.arrival) - Elapsed(e.send, prev.send)
  }

  function NoteEcho(s: SubState, e: Echo): (r: SubState)
    requires Ingestible(s)
    ensures Ingestible(r)
  {
    Kalman.VarianceStaysSound(s.delay.variance);
    s.(delay := if s.lastReceived.Some?
                then Kalman.Filter(s.delay, Gradient(s.lastReceived.value, e) as real) else s.delay,
       lastReceived := Some(e),
       rtt := Some(2 * Elapsed(e.arrival, e.send)))
  }

  function IngestOne(s: SubState, x: TwccSample): (r: SubState)
    requires Ingestible(s)
    ensures Ingestible(r)
  {
    var noted := s.(loss := Loss.Note(s.loss, x.arrival.Some?));
    var e := EchoOf(s.sendTimes, x);
    if e.None? then noted else NoteEcho(noted, e.value)
  }

  function IngestAll(s: SubState, xs: seq<TwccSample>): (r: SubState)
    requires Ingestible(s)
    ensures Ingestible(r)
  {
    if xs == [] then s else IngestOne(IngestAll(s, xs[..|xs| - 1]), xs[|xs| - 1])
  }

  function SteerBoth(s: SubState, now: Instant): SubState {
    s.(delay := Kalman.Steer(s.delay, now), loss := Loss.Steer(s.loss, now))
  }

  function Ingest(s: SubState, xs: seq<TwccSample>, now: Instant): (r: SubState)
    requires Ingestible(s)
    ensures Ingestible(r)
  {
    SteerBoth(IngestAll(s, xs), now)
  }

  lemma {:induction false} IngestAllFrame(s: SubState, xs: seq<TwccSample>)
    requires Ingestible(s)
    ensures var r := IngestAll(s, xs);
            && r.sendTimes == s.sendTimes && r.native == s.native && r.hint == s.hint
            && r.googcc == s.googcc && r.delay.rate == s.delay.rate && r.loss.rate == s.loss.rate
  {
    if xs != [] {
      IngestAllFrame(s, xs[..|xs| - 1]);
    }
  }

  lemma IngestKeepsInv(s: SubState, xs: seq<TwccSample>, now: Instant)
    requires SubInv(s)
    ensures SubInv(Ingest(s, xs, now))
  {
    IngestAllFrame(s, xs);
  }

  // -------------------------------------------------------------------- estimate

  function FreshHint(s: SubState, now: Instant): Option<Float> {
    if s.hint.Some? && Elapsed(now, s.hint.value.receivedAt) < CLIENT_HINT_MAX_AGE
    then Some(Num(s.hint.value.bps as real)) else None
  }

  function GoogCeiling(s: SubState): Option<Float> {
    if s.googcc.None? then None else Some(Num(s.googcc.value.aimd.bps as real))
  }

  function Ceilings(s: SubState, now: Instant): (cs: seq<Ceiling>)
    ensures cs != []
  {
    Present(Num(s.delay.rate.bps), Num(s.loss.rate.bps), s.native, GoogCeiling(s), FreshHint(s, now))
  }

  datatype Reading = Reading(bps: nat, term: BindingTerm)

  function ReadingOf(s: SubState, now: Instant): Reading {
    Reading(Estimate(Ceilings(s, now)).Floor, Binding(Ceilings(s, now)).term)
  }

  lemma {:induction false} BindingIsPresent(cs: seq<Ceiling>)
    requires cs != []
    ensures Binding(cs) in cs
  {
    if |cs| > 1 {
      BindingIsPresent(cs[..|cs| - 1]);
    }
  }

  /** What a reading says about its cause: the built-in estimators never bind
      below their floors. */
  ghost predicate Grounded(r: Reading) {
    && (r.term == ByDelay || r.term == ByLoss ==> r.bps >= 30_000)
    && (r.term == ByGoogCc ==> r.bps >= GoogCc.GOOGCC_MIN_BPS)
  }

  lemma ReadingIsGrounded(s: SubState, now: Instant)
    requires SubInv(s)
    ensures Grounded(ReadingOf(s, now))
  {
    var cs := Ceilings(s, now);
    BindingIsPresent(cs);
    forall c | c in cs
      ensures c.term == ByDelay ==> c.value == Num(s.delay.rate.bps)
      ensures c.term == ByLoss ==> c.value == Num(s.loss.rate.bps)
      ensures c.term == ByGoogCc ==> s.googcc.Some? && c.value == Num(s.googcc.value.aimd.bps as real)
    {
    }
  }

  /** `v` is in force as the ceiling `t`. A hint counts for five seconds; a native
      estimate that is not a number never counts. */
  ghost predicate InForce(s: SubState, now: Instant, t: BindingTerm, v: real) {
    match t
    case ByDelay => v == s.delay.rate.bps
    case ByLoss => v == s.loss.rate.bps
    case ByNative => s.native == Some(Num(v))
    case ByGoogCc => s.googcc.Some? && v == s.googcc.value.aimd.bps as real
    case ByHint => s.hint.Some? && now - s.hint.value.receivedAt < 5_000_000 && v == s.hint.value.bps as real
  }

  lemma PresentIffInForce(s: SubState, now: Instant, t: BindingTerm, v: real)
    ensures Ceiling(Num(v), t) in Ceilings(s, now) <==> InForce(s, now, t, v)
  {
    var cs := Ceilings(s, now);
    assert cs[0] == Ceiling(Num(s.delay.rate.bps), ByDelay) && cs[1] == Ceiling(Num(s.loss.rate.bps), ByLoss);
    var two := [cs[0], cs[1]];
    var n, g := Optional(s.native, ByNative), Optional(GoogCeiling(s), ByGoogCc);
    var h := Optional(FreshHint(s, now), ByHint);
    assert cs == two + n + g + h;
    assert s.native.Some? ==> n[0] in cs;
    assert GoogCeiling(s).Some? ==> g[0] in cs;
    assert FreshHint(s, now).Some? ==> h[0] in cs;
  }

  /** The reading is the least ceiling in force, and the term it reports is one
      that attains it. */
  lemma ReadingIsLeastInForce(s: SubState, now: Instant) returns (v: real)
    ensures InForce(s, now, ReadingOf(s, now).term, v)
    ensures ReadingOf(s, now).bps == RealMax(v, 0.0).Floor
    ensures forall t, u | InForce(s, now, t, u) :: v <= u
  {
    var cs := Ceilings(s, now);
    assert cs[0].value.Num?;
    var k := BindingIsEarliestMinimum(cs);
    v := cs[k].value.value;
    PresentIffInForce(s, now, cs[k].term, v);
    forall t, u | InForce(s, now, t, u) ensures v <= u {
      PresentIffInForce(s, now, t, u);
      var j :| 0 <= j < |cs| && cs[j] == Ceiling(Num(u), t);
      assert !Less(cs[j].value, cs[k].value);
    }
  }

  // ------------------------------------------------------------------ the object

  class PerSubscriber {
    var sendTimes: map<nat, Instant>
    var lastArrival: Option<Instant>
    var lastSendForReceived: Option<Instant>
    const delay: Kalman.DelayEstimator
    const loss: Loss.LossEstimator
    var rtt: Option<nat>
    var nativeEstimateBps: Option<Float>
    var clientHint: Option<ClientHint>
    var googcc: GoogCc.GoogCcEstimator?

    ghost var repr: set<object>

    ghost predicate Linked()
      reads this, repr
    {
      && this in repr && delay in repr && loss in repr
      && (lastArrival.Some? <==> lastSendForReceived.Some?)
      && (googcc != null ==> googcc in repr && googcc.Repr() <= repr && googcc.Valid())
    }

    ghost predicate Valid()
      reads this, repr
      ensures Valid() ==> this in repr
    {
      Linked() && SubInv(View())
    }

    /** The abstract value; `Valid()` gives it its invariant. */
    ghost function View(): SubState
      requires Linked()
      reads this, repr
    {
      SubState(
        sendTimes,
        if lastArrival.None? then None else Some(Echo(lastArrival.value, lastSendForReceived.value)),
        delay.View(), loss.View(), rtt, nativeEstimateBps, clientHint,
        if googcc == null then None else Some(googcc.View()))
    }

    constructor ()
      ensures Valid() && fresh(repr) && View() == FreshSub()
    {
      sendTimes, lastArrival, lastSendForReceived, rtt := map[], None, None, None;
      nativeEstimateBps, clientHint, googcc := None, None, null;
      delay := new Kalman.DelayEstimator(INITIAL_BITRATE_BPS);
      loss := new Loss.LossEstimator(INITIAL_BITRATE_BPS);
      repr := {this, delay, loss};
    }

    /** One turn of the feedback loop. */
    method IngestSample(sample: TwccSample)
      requires Valid()
      modifies this`lastArrival, this`lastSendForReceived, this`rtt, delay, loss
      ensures Valid() && repr == old(repr)
      ensures View() == IngestOne(old(View()), sample)
    {
      loss.Record(sample.arrival.Some?);
      if sample.arrival.Some? && sample.seqNo in sendTimes {
        TakeEcho(sample.arrival.value, sendTimes[sample.seqNo]);
      }
    }

    /** A received packet with a known send time. */
    method TakeEcho(arrival: Instant, sendT: Instant)
      requires Valid()
      modifies this`lastArrival, this`lastSendForReceived, this`rtt, delay
      ensures Valid() && repr == old(repr)
      ensures View() == NoteEcho(old(View()), Echo(arrival, sendT))
    {
      if lastArrival.Some? && lastSendForReceived.Some? {
        var recvDelta: int := Elapsed(arrival, lastArrival.value);
        var sendDelta: int := Elapsed(sendT, lastSendForReceived.value);
        delay.UpdateKalman((recvDelta - sendDelta) as real);
      }
      lastArrival := Some(arrival);
      lastSendForReceived := Some(sendT);
      rtt := Some(2 * Elapsed(arrival, sendT));
    }

    method IngestSamples(samples: seq<TwccSample>)
      requires Valid()
      modifies this`lastArrival, this`lastSendForReceived, this`rtt, delay, loss
      ensures Valid() && repr == old(repr)
      ensures View() == IngestAll(old(View()), samples)
    {
      ghost var start := View();
      for i := 0 to |samples|
        invariant Valid() && View() == IngestAll(start, samples[..i])
      {
        assert samples[..i + 1][..i] == samples[..i];
        IngestSample(samples[i]);
      }
      assert samples[..|samples|] == samples;
    }

    method IngestTwcc(samples: seq<TwccSample>, now: Instant)
      requires Valid()
      modifies this`lastArrival, this`lastSendForReceived, this`rtt, delay, loss
      ensures Valid() && repr == old(repr)
      ensures View() == Ingest(old(View()), samples, now)
    {
      IngestSamples(samples);
      delay.ApplyRateControl(now);
      loss.ApplyRateControl(now);
    }

    method CombinedBpsWithTerm(now: Instant) returns (bps: real, term: BindingTerm)
      requires Valid()
      ensures bps >= 0.0 && Reading(bps.Floor, term) == ReadingOf(View(), now)
    {
      var g := if googcc == null then None else Some(Num(googcc.aimd.bitrateBps as real));
      var hint := match clientHint
        case Some(h) =>
          if Elapsed(now, h.receivedAt) < CLIENT_HINT_MAX_AGE then Some(Num(h.bps as real)) else None
        case None => None;
      bps, term := Combine(Num(delay.bitrateBps), Num(loss.bitrateBps), nativeEstimateBps, g, hint);
    }
  }
}
