/** What feedback ingestion (src/bwe/feedback.rs) depends on, and what the
    gradients it feeds to the filter add up to. */
module Feedback {
  import opened Basics
  import opened SendLog
  import Kalman
  import Loss
  import opened Subscriber

  // --------------------------------------------------------------- loss erasure

  /** The echoes of a batch, in order. */
  ghost function Echoes(sendTimes: map<nat, Instant>, xs: seq<TwccSample>): (es: seq<Echo>)
    ensures |es| <= |xs|
  {
    if xs == [] then []
    else
      var e := EchoOf(sendTimes, xs[|xs| - 1]);
      Echoes(sendTimes, xs[..|xs| - 1]) + if e.None? then [] else [e.value]
  }

  /** The part of the state that only echoes touch. */
  datatype Path = Path(delay: Kalman.DelayState, lastReceived: Option<Echo>, rtt: Option<nat>)

  ghost function PathOf(s: SubState): Path {
    Path(s.delay, s.lastReceived, s.rtt)
  }

  ghost function Travel(p: Path, es: seq<Echo>): (r: Path)
    requires Kalman.SoundVariance(p.delay.variance)
    ensures Kalman.SoundVariance(r.delay.variance)
  {
    if es == [] then p
    else
      var q, e := Travel(p, es[..|es| - 1]), es[|es| - 1];
      Kalman.VarianceStaysSound(q.delay.variance);
      Path(if q.lastReceived.None? then q.delay
           else Kalman.Filter(q.delay, Gradient(q.lastReceived.value, e) as real),
           Some(e), Some(2 * Elapsed(e.arrival, e.send)))
  }

  /** A batch acts on the delay side through its echoes alone. */
  lemma {:induction false} BatchActsThroughEchoes(s: SubState, xs: seq<TwccSample>)
    requires Ingestible(s)
    ensures PathOf(IngestAll(s, xs)) == Travel(PathOf(s), Echoes(s.sendTimes, xs))
  {
    if xs != [] {
      var f, x := xs[..|xs| - 1], xs[|xs| - 1];
      BatchActsThroughEchoes(s, f);
      IngestAllFrame(s, f);
      var es := Echoes(s.sendTimes, xs);
      if EchoOf(s.sendTimes, x).Some? {
        assert es[..|es| - 1] == Echoes(s.sendTimes, f);
      } else {
        assert es == Echoes(s.sendTimes, f);
      }
    }
  }

  /** `ys` is `xs` without some of its lost or unmatched samples. */
  ghost predicate ErasesSilent(sendTimes: map<nat, Instant>, xs: seq<TwccSample>, ys: seq<TwccSample>) {
    if xs == [] then ys == []
    else
      var f, x := xs[..|xs| - 1], xs[|xs| - 1];
      || (ys != [] && ys[|ys| - 1] == x && ErasesSilent(sendTimes, f, ys[..|ys| - 1]))
      || (EchoOf(sendTimes, x).None? && ErasesSilent(sendTimes, f, ys))
  }

  lemma {:induction false} ErasingKeepsEchoes(sendTimes: map<nat, Instant>,
                                              xs: seq<TwccSample>, ys: seq<TwccSample>)
    requires ErasesSilent(sendTimes, xs, ys)
    ensures Echoes(sendTimes, xs) == Echoes(sendTimes, ys)
  {
    if xs != [] {
      var f, x := xs[..|xs| - 1], xs[|xs| - 1];
      if ys != [] && ys[|ys| - 1] == x && ErasesSilent(sendTimes, f, ys[..|ys| - 1]) {
        ErasingKeepsEchoes(sendTimes, f, ys[..|ys| - 1]);
      } else {
        ErasingKeepsEchoes(sendTimes, f, ys);
      }
    }
  }

  /** Lost packets, and packets nobody recorded sending, cannot disturb the delay
      estimator, the last-packet fields or the round-trip estimate: erasing any
      of them from a batch changes nothing there. */
  lemma LossErasure(s: SubState, xs: seq<TwccSample>, ys: seq<TwccSample>, now: Instant)
    requires Ingestible(s) && ErasesSilent(s.sendTimes, xs, ys)
    ensures PathOf(Ingest(s, xs, now)) == PathOf(Ingest(s, ys, now))
  {
    ErasingKeepsEchoes(s.sendTimes, xs, ys);
    BatchActsThroughEchoes(s, xs);
    BatchActsThroughEchoes(s, ys);
  }

  lemma SuffixIncreasing(h: seq<Sent>)
    requires Increasing(h)
    ensures Increasing(LastN(h, MAX_SEND_TIMES))
  {
  }

  /** A sample counts on the delay side exactly when it arrived and is one of the
      last 512 packets sent, and then with the time that very packet was sent. */
  lemma EchoIsOfItsPacket(h: seq<Sent>, x: TwccSample, e: Echo)
    requires Increasing(h)
    ensures EchoOf(RunSends(h), x) == Some(e) <==>
            x.arrival == Some(e.arrival) && Sent(x.seqNo, e.send) in LastN(h, 512)
  {
    SuffixIncreasing(h);
    IncreasingSendsKeepLast(h);
    FullLogExact(LastN(h, MAX_SEND_TIMES), x.seqNo, e.send);
  }

  // -------------------------------------------------- bounded against full log

  ghost predicate NamesNoEvicted(h: seq<Sent>, xs: seq<TwccSample>) {
    forall i | 0 <= i < |xs| :: !Evicted(h, xs[i].seqNo)
  }

  lemma {:induction false} LogsIngestAlike(s: SubState, a: map<nat, Instant>, b: map<nat, Instant>,
                                           xs: seq<TwccSample>)
    requires Ingestible(s)
    requires forall i | 0 <= i < |xs| :: EchoOf(a, xs[i]) == EchoOf(b, xs[i])
    ensures IngestAll(s.(sendTimes := a), xs) == IngestAll(s.(sendTimes := b), xs).(sendTimes := a)
  {
    if xs != [] {
      LogsIngestAlike(s, a, b, xs[..|xs| - 1]);
      IngestAllFrame(s.(sendTimes := a), xs[..|xs| - 1]);
      IngestAllFrame(s.(sendTimes := b), xs[..|xs| - 1]);
    }
  }

  /** The 512-entry map refines the unbounded log: after sends with increasing
      sequence numbers, feedback that names no evicted packet leaves the same
      subscriber state, loss side included. */
  lemma BoundedLogRefines(s: SubState, h: seq<Sent>, xs: seq<TwccSample>, now: Instant)
    requires Ingestible(s) && Increasing(h) && NamesNoEvicted(h, xs)
    ensures Ingest(s.(sendTimes := RunSends(h)), xs, now)
            == Ingest(s.(sendTimes := FullLog(h)), xs, now).(sendTimes := RunSends(h))
  {
    var a, b := RunSends(h), FullLog(h);
    forall i | 0 <= i < |xs| ensures EchoOf(a, xs[i]) == EchoOf(b, xs[i]) {
      BoundedAgreesWithFull(h, xs[i].seqNo);
    }
    LogsIngestAlike(s, a, b, xs);
  }

  // ------------------------------------------------------------ runs of feedback

  datatype Feed = Send(sent: Sent) | Report(samples: seq<TwccSample>, now: Instant)

  ghost function FeedOne(s: SubState, f: Feed): (r: SubState)
    requires Ingestible(s)
    ensures Ingestible(r)
  {
    match f
    case Send(sent) => s.(sendTimes := Recorded(s.sendTimes, sent))
    case Report(xs, now) => Ingest(s, xs, now)
  }

  ghost function RunFeeds(s: SubState, fs: seq<Feed>): (r: SubState)
    requires Ingestible(s)
    ensures Ingestible(r)
  {
    if fs == [] then s else FeedOne(RunFeeds(s, fs[..|fs| - 1]), fs[|fs| - 1])
  }

  /** The sends of a run. */
  ghost function Sends(fs: seq<Feed>): seq<Sent> {
    if fs == [] then []
    else Sends(fs[..|fs| - 1]) + if fs[|fs| - 1].Send? then [fs[|fs| - 1].sent] else []
  }

  /** The same run over a log that forgets nothing. */
  ghost function RunUnbounded(s: SubState, fs: seq<Feed>): (r: SubState)
    requires Ingestible(s)
    ensures Ingestible(r)
  {
    if fs == [] then s
    else
      var before := RunUnbounded(s, fs[..|fs| - 1]);
      match fs[|fs| - 1]
      case Send(sent) => before.(sendTimes := before.sendTimes[sent.seqNo := sent.at])
      case Report(xs, now) => Ingest(before, xs, now)
  }

  /** No report names a packet that was evicted by the time of the report. */
  ghost predicate ReportsInTime(fs: seq<Feed>) {
    fs == [] ||
    (ReportsInTime(fs[..|fs| - 1]) &&
     (fs[|fs| - 1].Report? ==> NamesNoEvicted(Sends(fs[..|fs| - 1]), fs[|fs| - 1].samples)))
  }

  /** Bounded and unbounded run agree on everything but the log. */
  ghost predicate LogsAgree(s: SubState, fs: seq<Feed>)
    requires Ingestible(s)
  {
    && RunUnbounded(s, fs).sendTimes == FullLog(Sends(fs))
    && RunFeeds(s, fs) == RunUnbounded(s, fs).(sendTimes := RunSends(Sends(fs)))
  }

  lemma SendKeepsAgreement(s: SubState, fs: seq<Feed>)
    requires Ingestible(s) && fs != [] && fs[|fs| - 1].Send? && LogsAgree(s, fs[..|fs| - 1])
    ensures LogsAgree(s, fs)
  {
    var h := Sends(fs);
    assert h[..|h| - 1] == Sends(fs[..|fs| - 1]);
  }

  lemma ReportKeepsAgreement(s: SubState, fs: seq<Feed>)
    requires Ingestible(s) && fs != [] && fs[|fs| - 1].Report? && LogsAgree(s, fs[..|fs| - 1])
    requires Increasing(Sends(fs)) && ReportsInTime(fs)
    ensures LogsAgree(s, fs)
  {
    var front, xs, now := fs[..|fs| - 1], fs[|fs| - 1].samples, fs[|fs| - 1].now;
    var full := RunUnbounded(s, front);
    assert Sends(fs) == Sends(front);
    BoundedLogRefines(full, Sends(front), xs, now);
    assert full == full.(sendTimes := FullLog(Sends(front)));
    IngestAllFrame(full, xs);
  }

  /** However sends and reports interleave, as long as sequence numbers increase
      and no report comes too late for the packets it names, the bounded log
      leaves the subscriber exactly as the unbounded one would. */
  lemma {:induction false} BoundedRunRefines(s: SubState, fs: seq<Feed>)
    requires Ingestible(s) && s.sendTimes == map[]
    requires Increasing(Sends(fs)) && ReportsInTime(fs)
    ensures RunFeeds(s, fs) == RunUnbounded(s, fs).(sendTimes := RunSends(Sends(fs)))
    ensures RunUnbounded(s, fs).sendTimes == FullLog(Sends(fs))
  {
    if fs != [] {
      var front := fs[..|fs| - 1];
      assert Sends(front) <= Sends(fs);
      BoundedRunRefines(s, front);
      if fs[|fs| - 1].Send? {
        SendKeepsAgreement(s, fs);
      } else {
        ReportKeepsAgreement(s, fs);
      }
    }
  }

  /** All echoes of a run of feeds, across its batches. */
  ghost function RunEchoes(s: SubState, fs: seq<Feed>): seq<Echo>
    requires Ingestible(s)
  {
    if fs == [] then []
    else
      var front := fs[..|fs| - 1];
      RunEchoes(s, front) +
      match fs[|fs| - 1]
      case Send(_) => []
      case Report(xs, _) => Echoes(RunFeeds(s, front).sendTimes, xs)
  }

  /** The gradients of echoes that follow `prev`. */
  ghost function Gradients(prev: Option<Echo>, es: seq<Echo>): seq<real> {
    if es == [] then []
    else
      var f := es[..|es| - 1];
      var p := LastOf(prev, f);
      Gradients(prev, f) + if p.None? then [] else [Gradient(p.value, es[|es| - 1]) as real]
  }

  ghost function LastOf(prev: Option<Echo>, es: seq<Echo>): Option<Echo> {
    if es == [] then prev else Some(es[|es| - 1])
  }

  /** Twice the one-way delay of the latest echo. */
  ghost function RttAfter(rtt: Option<nat>, es: seq<Echo>): Option<nat> {
    if es == [] then rtt else Some(2 * Elapsed(es[|es| - 1].arrival, es[|es| - 1].send))
  }

  /** The operations a run performs on the delay estimator. */
  ghost function DelayOps(s: SubState, fs: seq<Feed>): seq<Kalman.DelayOp>
    requires Ingestible(s)
  {
    if fs == [] then []
    else
      var front := fs[..|fs| - 1];
      DelayOps(s, front) +
      match fs[|fs| - 1]
      case Send(_) => []
      case Report(xs, now) =>
        var before := RunFeeds(s, front);
        Kalman.Samples(Gradients(before.lastReceived, Echoes(before.sendTimes, xs))) + [Kalman.Apply(now)]
  }

  lemma {:induction false} RunDelayAppends(d: Kalman.DelayState, a: seq<Kalman.DelayOp>, b: seq<Kalman.DelayOp>)
    requires Kalman.SoundVariance(d.variance)
    ensures Kalman.RunDelay(d, a + b) == Kalman.RunDelay(Kalman.RunDelay(d, a), b)
  {
    if b == [] {
      assert a + b == a;
    } else {
      RunDelayAppends(d, a, b[..|b| - 1]);
      AppendFront(a, b);
    }
  }

  lemma {:induction false} TravelFiltersGradients(p: Path, es: seq<Echo>)
    requires Kalman.SoundVariance(p.delay.variance)
    ensures Travel(p, es).delay == Kalman.RunDelay(p.delay, Kalman.Samples(Gradients(p.lastReceived, es)))
    ensures Travel(p, es).lastReceived == LastOf(p.lastReceived, es)
    ensures Travel(p, es).rtt == RttAfter(p.rtt, es)
  {
    if es != [] {
      var f := es[..|es| - 1];
      TravelFiltersGradients(p, f);
      var gs := Gradients(p.lastReceived, es);
      if LastOf(p.lastReceived, f).Some? {
        Kalman.SamplesFront(gs);
        assert gs[..|gs| - 1] == Gradients(p.lastReceived, f);
      } else {
        assert gs == Gradients(p.lastReceived, f);
      }
    }
  }

  lemma ReportActsOnDelay(s: SubState, xs: seq<TwccSample>, now: Instant)
    requires Ingestible(s)
    ensures var ops := Kalman.Samples(Gradients(s.lastReceived, Echoes(s.sendTimes, xs))) + [Kalman.Apply(now)];
            Ingest(s, xs, now).delay == Kalman.RunDelay(s.delay, ops)
    ensures Ingest(s, xs, now).lastReceived == LastOf(s.lastReceived, Echoes(s.sendTimes, xs))
    ensures Ingest(s, xs, now).rtt == RttAfter(s.rtt, Echoes(s.sendTimes, xs))
  {
    var es := Echoes(s.sendTimes, xs);
    BatchActsThroughEchoes(s, xs);
    TravelFiltersGradients(PathOf(s), es);
    var samples := Kalman.Samples(Gradients(s.lastReceived, es));
    var ops := samples + [Kalman.Apply(now)];
    assert ops[..|ops| - 1] == samples;
  }

  ghost predicate PathOfRun(s: SubState, fs: seq<Feed>)
    requires Ingestible(s)
  {
    var r := RunFeeds(s, fs);
    && r.delay == Kalman.RunDelay(s.delay, DelayOps(s, fs))
    && r.lastReceived == LastOf(s.lastReceived, RunEchoes(s, fs))
    && r.rtt == RttAfter(s.rtt, RunEchoes(s, fs))
  }

  lemma SendExtendsPath(s: SubState, fs: seq<Feed>)
    requires Ingestible(s) && fs != [] && fs[|fs| - 1].Send? && PathOfRun(s, fs[..|fs| - 1])
    ensures PathOfRun(s, fs)
  {
    var front := fs[..|fs| - 1];
    assert DelayOps(s, fs) == DelayOps(s, front);
    assert RunEchoes(s, fs) == RunEchoes(s, front);
  }

  lemma LatestAppends(s: SubState, a: seq<Echo>, b: seq<Echo>)
    ensures LastOf(s.lastReceived, a + b) == LastOf(LastOf(s.lastReceived, a), b)
    ensures RttAfter(s.rtt, a + b) == RttAfter(RttAfter(s.rtt, a), b)
  {
    if b == [] {
      assert a + b == a;
    }
  }

  lemma ReportExtendsPath(s: SubState, fs: seq<Feed>)
    requires Ingestible(s) && fs != [] && fs[|fs| - 1].Report? && PathOfRun(s, fs[..|fs| - 1])
    ensures PathOfRun(s, fs)
  {
    var front, xs, now := fs[..|fs| - 1], fs[|fs| - 1].samples, fs[|fs| - 1].now;
    var before := RunFeeds(s, front);
    var es := Echoes(before.sendTimes, xs);
    var ops := Kalman.Samples(Gradients(before.lastReceived, es)) + [Kalman.Apply(now)];
    ReportActsOnDelay(before, xs, now);
    assert RunFeeds(s, fs) == Ingest(before, xs, now);
    assert DelayOps(s, fs) == DelayOps(s, front) + ops;
    RunDelayAppends(s.delay, DelayOps(s, front), ops);
    LatestAppends(s, RunEchoes(s, front), es);
  }

  /** The delay estimator of a run is the filter run on exactly those gradients,
      with one rate-control call per report; the last-packet fields and the
      round-trip estimate are those of the run's latest echo. */
  lemma {:induction false} RunActsOnDelay(s: SubState, fs: seq<Feed>)
    requires Ingestible(s)
    ensures PathOfRun(s, fs)
  {
    if fs != [] {
      RunActsOnDelay(s, fs[..|fs| - 1]);
      if fs[|fs| - 1].Send? {
        SendExtendsPath(s, fs);
      } else {
        ReportExtendsPath(s, fs);
      }
    }
  }

  // ---------------------------------------------------------------- the loss side

  /** What a report records: one outcome per sample, received or not. */
  ghost function Records(xs: seq<TwccSample>): (ops: seq<Loss.LossOp>)
    ensures |ops| == |xs| && forall i | 0 <= i < |xs| :: ops[i] == Loss.Record(xs[i].arrival != None)
  {
    seq(|xs|, i requires 0 <= i < |xs| => Loss.Record(xs[i].arrival != None))
  }

  /** The operations a run performs on the loss estimator: every report's outcomes,
      matched or not, then one rate-control call. */
  ghost function LossOps(fs: seq<Feed>): seq<Loss.LossOp> {
    if fs == [] then []
    else
      LossOps(fs[..|fs| - 1]) +
      match fs[|fs| - 1]
      case Send(_) => []
      case Report(xs, now) => Records(xs) + [Loss.Apply(now)]
  }

  lemma {:induction false} RunLossAppends(s: Loss.LossState, a: seq<Loss.LossOp>, b: seq<Loss.LossOp>)
    requires |s.window| <= Loss.LOSS_WINDOW
    ensures Loss.RunLoss(s, a + b) == Loss.RunLoss(Loss.RunLoss(s, a), b)
  {
    if b == [] {
      assert a + b == a;
    } else {
      RunLossAppends(s, a, b[..|b| - 1]);
      AppendFront(a, b);
    }
  }

  lemma RecordsFront(xs: seq<TwccSample>)
    requires xs != []
    ensures Records(xs)[..|xs| - 1] == Records(xs[..|xs| - 1])
  {
  }

  lemma {:induction false} BatchRecords(s: SubState, xs: seq<TwccSample>)
    requires Ingestible(s)
    ensures IngestAll(s, xs).loss == Loss.RunLoss(s.loss, Records(xs))
  {
    if xs != [] {
      BatchRecords(s, xs[..|xs| - 1]);
      RecordsFront(xs);
    }
  }

  lemma ReportActsOnLoss(s: SubState, xs: seq<TwccSample>, now: Instant)
    requires Ingestible(s)
    ensures Ingest(s, xs, now).loss == Loss.RunLoss(s.loss, Records(xs) + [Loss.Apply(now)])
  {
    BatchRecords(s, xs);
    var ops := Records(xs) + [Loss.Apply(now)];
    assert ops[..|ops| - 1] == Records(xs);
  }

  /** Over any run of sends and reports the loss estimator sees exactly whether
      each reported packet arrived, in order, and one rate-control call per report;
      sends and send times do not matter to it. */
  lemma {:induction false} RunActsOnLoss(s: SubState, fs: seq<Feed>)
    requires Ingestible(s)
    ensures RunFeeds(s, fs).loss == Loss.RunLoss(s.loss, LossOps(fs))
  {
    if fs != [] {
      var front := fs[..|fs| - 1];
      RunActsOnLoss(s, front);
      match fs[|fs| - 1]
      case Send(_) => assert LossOps(fs) == LossOps(front);
      case Report(xs, now) =>
        ReportActsOnLoss(RunFeeds(s, front), xs, now);
        RunLossAppends(s.loss, LossOps(front), Records(xs) + [Loss.Apply(now)]);
    }
  }

  /** Whether each packet reported over a run arrived, oldest first. */
  ghost function Arrivals(fs: seq<Feed>): seq<bool> {
    if fs == [] then []
    else
      Arrivals(fs[..|fs| - 1]) +
      match fs[|fs| - 1]
      case Send(_) => []
      case Report(xs, _) => ArrivalsOf(xs)
  }

  ghost function ArrivalsOf(xs: seq<TwccSample>): (r: seq<bool>)
    ensures |r| == |xs| && forall i | 0 <= i < |xs| :: r[i] <==> xs[i].arrival != None
  {
    seq(|xs|, i requires 0 <= i < |xs| => xs[i].arrival != None)
  }

  lemma {:induction false} OutcomesAppend(a: seq<Loss.LossOp>, b: seq<Loss.LossOp>)
    ensures Loss.Outcomes(a + b) == Loss.Outcomes(a) + Loss.Outcomes(b)
  {
    if b == [] {
      assert a + b == a;
    } else {
      OutcomesAppend(a, b[..|b| - 1]);
      AppendFront(a, b);
    }
  }

  lemma {:induction false} RecordedOutcomes(xs: seq<TwccSample>)
    ensures Loss.Outcomes(Records(xs)) == ArrivalsOf(xs)
  {
    if xs != [] {
      RecordedOutcomes(xs[..|xs| - 1]);
      RecordsFront(xs);
      assert ArrivalsOf(xs) == ArrivalsOf(xs[..|xs| - 1]) + [xs[|xs| - 1].arrival != None];
    }
  }

  lemma {:induction false} RunOutcomes(fs: seq<Feed>)
    ensures Loss.Outcomes(LossOps(fs)) == Arrivals(fs)
  {
    if fs != [] {
      var front := fs[..|fs| - 1];
      RunOutcomes(front);
      match fs[|fs| - 1]
      case Send(_) => assert LossOps(fs) == LossOps(front);
      case Report(xs, now) =>
        RecordedOutcomes(xs);
        OutcomesAppend(LossOps(front), Records(xs) + [Loss.Apply(now)]);
        ApplyRecordsNothing(Records(xs), now);
    }
  }

  lemma ApplyRecordsNothing(ops: seq<Loss.LossOp>, now: Instant)
    ensures Loss.Outcomes(ops + [Loss.Apply(now)]) == Loss.Outcomes(ops)
  {
    assert (ops + [Loss.Apply(now)])[..|ops|] == ops;
  }

  /** The loss window after any run is the last 64 of the old window followed by
      whether each reported packet arrived. */
  lemma WindowIsLastArrivals(s: SubState, fs: seq<Feed>)
    requires Ingestible(s)
    ensures RunFeeds(s, fs).loss.window == LastN(s.loss.window + Arrivals(fs), 64)
  {
    RunActsOnLoss(s, fs);
    RunOutcomes(fs);
    Loss.WindowIsLastOutcomes(s.loss, LossOps(fs));
  }

  // ----------------------------------------------------------------- telescoping

  ghost function SampleSum(ops: seq<Kalman.DelayOp>): real {
    if ops == [] then 0.0
    else
      SampleSum(ops[..|ops| - 1]) +
      match ops[|ops| - 1]
      case Sample(z) => z
      case Apply(_) => 0.0
  }

  ghost function GradientSum(prev: Option<Echo>, es: seq<Echo>): int {
    if es == [] then 0
    else
      var p := LastOf(prev, es[..|es| - 1]);
      GradientSum(prev, es[..|es| - 1]) + if p.None? then 0 else Gradient(p.value, es[|es| - 1])
  }

  lemma {:induction false} SampleSumAppends(a: seq<Kalman.DelayOp>, b: seq<Kalman.DelayOp>)
    ensures SampleSum(a + b) == SampleSum(a) + SampleSum(b)
  {
    if b == [] {
      assert a + b == a;
    } else {
      SampleSumAppends(a, b[..|b| - 1]);
      AppendFront(a, b);
    }
  }

  lemma {:induction false} SamplesSum(prev: Option<Echo>, es: seq<Echo>)
    ensures SampleSum(Kalman.Samples(Gradients(prev, es))) == GradientSum(prev, es) as real
  {
    if es != [] {
      var f := es[..|es| - 1];
      SamplesSum(prev, f);
      var gs := Gradients(prev, es);
      if LastOf(prev, f).Some? {
        Kalman.SamplesFront(gs);
        assert gs[..|gs| - 1] == Gradients(prev, f);
      } else {
        assert gs == Gradients(prev, f);
      }
    }
  }

  lemma {:induction false} GradientSumAppends(prev: Option<Echo>, a: seq<Echo>, b: seq<Echo>)
    ensures GradientSum(prev, a + b) == GradientSum(prev, a) + GradientSum(LastOf(prev, a), b)
  {
    if b == [] {
      assert a + b == a;
    } else {
      GradientSumAppends(prev, a, b[..|b| - 1]);
      AppendFront(a, b);
    }
  }

  lemma {:induction false} RunSampleSum(s: SubState, fs: seq<Feed>)
    requires Ingestible(s)
    ensures SampleSum(DelayOps(s, fs)) == GradientSum(s.lastReceived, RunEchoes(s, fs)) as real
  {
    if fs != [] {
      var front := fs[..|fs| - 1];
      RunSampleSum(s, front);
      RunActsOnDelay(s, front);
      var before := RunFeeds(s, front);
      match fs[|fs| - 1]
      case Send(_) =>
        assert DelayOps(s, fs) == DelayOps(s, front);
        assert RunEchoes(s, fs) == RunEchoes(s, front);
      case Report(xs, now) =>
        ReportSum(before, xs, now);
        var es := Echoes(before.sendTimes, xs);
        SampleSumAppends(DelayOps(s, front),
                         Kalman.Samples(Gradients(before.lastReceived, es)) + [Kalman.Apply(now)]);
        GradientSumAppends(s.lastReceived, RunEchoes(s, front), es);
    }
  }

  lemma ReportSum(s: SubState, xs: seq<TwccSample>, now: Instant)
    ensures var es := Echoes(s.sendTimes, xs);
            SampleSum(Kalman.Samples(Gradients(s.lastReceived, es)) + [Kalman.Apply(now)])
            == GradientSum(s.lastReceived, es) as real
  {
    var es := Echoes(s.sendTimes, xs);
    SamplesSum(s.lastReceived, es);
    var samples := Kalman.Samples(Gradients(s.lastReceived, es));
    assert (samples + [Kalman.Apply(now)])[..|samples|] == samples;
  }

  /** How far arrivals, or send times, stepped backwards in total. */
  ghost function ArrivalSetback(prev: Option<Echo>, es: seq<Echo>): nat {
    if es == [] then 0
    else
      var p := LastOf(prev, es[..|es| - 1]);
      ArrivalSetback(prev, es[..|es| - 1])
      + if p.None? then 0 else Elapsed(p.value.arrival, es[|es| - 1].arrival)
  }

  ghost function SendSetback(prev: Option<Echo>, es: seq<Echo>): nat {
    if es == [] then 0
    else
      var p := LastOf(prev, es[..|es| - 1]);
      SendSetback(prev, es[..|es| - 1])
      + if p.None? then 0 else Elapsed(p.value.send, es[|es| - 1].send)
  }

  ghost function FirstOf(prev: Option<Echo>, es: seq<Echo>): Echo
    requires prev.Some? || es != []
  {
    if prev.Some? then prev.value else es[0]
  }

  /** Arrival span minus send span from the first echo to the last. */
  ghost function SpanDifference(prev: Option<Echo>, es: seq<Echo>): int
    requires es != []
  {
    var a, b := FirstOf(prev, es), es[|es| - 1];
    (b.arrival - a.arrival) - (b.send - a.send)
  }

  lemma {:induction false} GradientsTelescope(prev: Option<Echo>, es: seq<Echo>)
    requires es != []
    ensures GradientSum(prev, es) ==
            SpanDifference(prev, es) + ArrivalSetback(prev, es) - SendSetback(prev, es)
  {
    var f := es[..|es| - 1];
    if f != [] {
      GradientsTelescope(prev, f);
    }
  }

  ghost predicate InOrder(prev: Option<Echo>, es: seq<Echo>) {
    forall i | 0 <= i < |es| ::
      var p := LastOf(prev, es[..i]);
      p.Some? ==> p.value.arrival <= es[i].arrival && p.value.send <= es[i].send
  }

  lemma {:induction false} InOrderHasNoSetback(prev: Option<Echo>, es: seq<Echo>)
    requires InOrder(prev, es)
    ensures ArrivalSetback(prev, es) == 0 && SendSetback(prev, es) == 0
  {
    if es != [] {
      var f := es[..|es| - 1];
      forall i | 0 <= i < |f|
        ensures var p := LastOf(prev, f[..i]);
                p.Some? ==> p.value.arrival <= f[i].arrival && p.value.send <= f[i].send
      {
        assert f[..i] == es[..i] && f[i] == es[i];
      }
      InOrderHasNoSetback(prev, f);
      assert es[..|f|] == f;
    }
  }

  /** Across all batches of a run the gradients fed to the filter add up to the
      total arrival span minus the total send span, exactly when arrivals and
      sends stepped back by the same total amount; in-order packets never do. */
  lemma RunGradientsTelescope(s: SubState, fs: seq<Feed>)
    requires Ingestible(s) && RunEchoes(s, fs) != []
    ensures var es := RunEchoes(s, fs);
            && (SampleSum(DelayOps(s, fs)) == SpanDifference(s.lastReceived, es) as real <==>
                  ArrivalSetback(s.lastReceived, es) == SendSetback(s.lastReceived, es))
            && (InOrder(s.lastReceived, es) ==>
                  SampleSum(DelayOps(s, fs)) == SpanDifference(s.lastReceived, es) as real)
  {
    var es := RunEchoes(s, fs);
    RunSampleSum(s, fs);
    GradientsTelescope(s.lastReceived, es);
    if InOrder(s.lastReceived, es) {
      InOrderHasNoSetback(s.lastReceived, es);
    }
  }

  /** A subscriber whose packets never fall more than 12.5 ms behind their
      predecessor keeps its delay rate through any run of sends and reports. */
  lemma CalmFeedKeepsDelayRate(s: SubState, fs: seq<Feed>)
    requires SubInv(s) && s.delay.gradient <= Kalman.OVERUSE_THRESHOLD_US
    requires Kalman.SamplesAtMost(DelayOps(s, fs), Kalman.OVERUSE_THRESHOLD_US)
    ensures RunFeeds(s, fs).delay.rate.bps >= s.delay.rate.bps
  {
    RunActsOnDelay(s, fs);
    Kalman.CalmRunNeverLowersRate(s.delay, DelayOps(s, fs));
  }
}
