/** The room-wide promises, over every run of joins, reaps, polls, feeds, pacer
    updates and drains, whatever the clock does. */
module RoomTheorems {
  import opened Basics
  import opened PacerConfigs
  import opened Pacer
  import opened PacerHistory
  import opened CombineTerms
  import opened Subscriber
  import opened Estimator
  import opened Clients
  import opened Rooms
  import opened RoomInvariants
  import opened RoomDeliveries

  /** The advances of one subscriber over a whole run. */
  ghost function AdvancesOf(ops: seq<Op>, id: ClientId): seq<Advance> {
    Of(Trace(ops).hist.log, id)
  }

  lemma {:induction false} HonestAt(l: seq<Advance>, k: nat)
    requires Honest(l) && k < |l|
    ensures HonestNext(l[..k], l[k])
  {
    if k < |l| - 1 {
      HonestAt(l[..|l| - 1], k);
      assert l[..|l| - 1][..k] == l[..k];
    }
  }

  // ------------------------------------------------------------------- the 100 ms floor

  lemma {:induction false} HonestSpan(l: seq<Advance>, i: nat, j: nat)
    requires Honest(l) && i <= j < |l|
    ensures l[j].now - l[i].now >= (j - i) * PACER_MIN_TICK_INTERVAL
  {
    if i < j {
      HonestSpan(l, i, j - 1);
      HonestAt(l, j);
    }
  }

  /** Two advances of a subscriber with k advances between them are at least
      (k + 1) * 100 ms apart, for repeated and backward clocks and any number of
      publishers. */
  lemma AdvancesAreSpaced(ops: seq<Op>, id: ClientId, i: nat, j: nat)
    requires i <= j < |AdvancesOf(ops, id)|
    ensures AdvancesOf(ops, id)[j].now - AdvancesOf(ops, id)[i].now >= (j - i) * 100_000
  {
    TraceKeepsCore(ops);
    HonestSpan(AdvancesOf(ops, id), i, j);
  }

  /** A subscriber without an estimator entry, and the publisher itself, are never
      advanced. */
  lemma NoEntryNoAdvance(r: Room, origin: ClientId, now: Instant, id: ClientId)
    requires CoreInv(r) && (id !in r.bw || id == origin)
    ensures Of(UpdateLayers(r, origin, now).hist.log, id) == Of(r.hist.log, id)
  {
    var ds := Drives(r.clients, r.bw, origin, now);
    OfAppends(r.hist.log, LogAll(ds), id);
    forall j | 0 <= j < |ds| ensures !Advances(ds[j], id) {
      TurnIsOwn(r.clients[j], r.bw, origin, now);
    }
    OfSweepAbsent(ds, id);
  }

  /** The advance of a client that is due for one. */
  ghost function DueAdvance(r: Room, c: ClientState, origin: ClientId, now: Instant): seq<Advance> {
    DefaultIsUsable();
    var l := Of(r.hist.log, c.id);
    if c.id != origin && c.id in r.bw && (l == [] || now - Last(l).now >= 100_000)
    then
      var reading := ReadingOf(r.bw[c.id], now);
      [Advance(c.id, now, reading, Act(DEFAULT_CONFIG, Readings(l), reading.bps))]
    else []
  }

  /** A sweep advances a client exactly when it is not the publisher, has an
      estimator entry, and was not advanced in the last 100 ms; then once, on its
      own reading, as its own history prescribes. */
  lemma SweepAdvancesIff(r: Room, origin: ClientId, now: Instant, i: nat)
    requires CoreInv(r) && i < |r.clients|
    ensures var c := r.clients[i];
            Of(UpdateLayers(r, origin, now).hist.log, c.id)
            == Of(r.hist.log, c.id) + DueAdvance(r, c, origin, now)
  {
    UpdateAt(r, origin, now, i);
    assert r.clients[i] in r.clients;
    TurnIsDue(r, r.clients[i], origin, now);
  }

  lemma TurnIsDue(r: Room, c: ClientState, origin: ClientId, now: Instant)
    requires CoreInv(r) && c in r.clients && ClientOk(c)
    ensures LogOf(DriveOne(c, r.bw, origin, now)) == DueAdvance(r, c, origin, now)
  {
  }

  /** The readings of a client with the advance a frame's sweep is about to add. */
  ghost function ReadingsWithDue(r: Room, c: ClientState, origin: ClientId, now: Instant): seq<nat> {
    Readings(Of(r.hist.log, c.id) + DueAdvance(r, c, origin, now))
  }

  /** Whether a frame gets through to a client with these readings. */
  ghost predicate Passes(c: ClientState, h: seq<nat>, live: set<ClientId>, origin: ClientId, f: Frame) {
    && (SuspendedByHistory(DEFAULT_CONFIG, h) ==> KnownAs(c.tracksOut, live, origin, f.mid, Audio))
    && (f.rid.Some? ==> f.rid.value == BestFit(RunDrive(c.id, h).desired, c.activeRids))
  }

  lemma SweptOutcome(r: Room, origin: ClientId, f: Frame, now: Instant, i: nat)
    requires CoreInv(r) && i < |r.clients|
    ensures var c, swept := r.clients[i], UpdateLayers(r, origin, now);
            MediaOutcome(swept.clients[i], IdSet(swept.clients), origin, f) == Delivered <==>
              Passes(c, ReadingsWithDue(r, c, origin, now), IdSet(r.clients), origin, f)
  {
    var swept := UpdateLayers(r, origin, now);
    UpdateKeepsCore(r, origin, now);
    SweptClient(r, origin, now, i);
    assert swept.clients[i] in swept.clients;
    DrivesLabelled(r.clients, r.bw, origin, now);
    SameIdSet(r.clients, swept.clients);
    OutcomeIff(swept, swept.clients[i], origin, f);
  }

  /** A frame meets the subscriber's freshest reading: whether the next event taken
      off the queue gets through depends on the advance that its own arrival
      triggers, not on the state before. */
  lemma FrameMeetsFreshReading(r: Room, now: Instant, i: nat)
    requires CoreInv(r) && r.queue != [] && r.queue[0].MediaData?
    requires i < |r.clients| && r.clients[i].id != r.queue[0].origin
    ensures var origin, f, c := r.queue[0].origin, r.queue[0].frame, r.clients[i];
            DrainOne(r, now).clients[i].delivered == c.delivered + 1 <==>
              Passes(c, ReadingsWithDue(r, c, origin, now), IdSet(r.clients), origin, f)
  {
    var origin, f, rest := r.queue[0].origin, r.queue[0].frame, Popped(r);
    SameCoresKeepCore(r, rest);
    SweptOutcome(rest, origin, f, now, i);
    SweptClient(rest, origin, now, i);
  }

  lemma SweptClient(r: Room, origin: ClientId, now: Instant, i: nat)
    requires CoreInv(r) && i < |r.clients|
    ensures var c, c' := r.clients[i], UpdateLayers(r, origin, now).clients[i];
            var h := ReadingsWithDue(r, c, origin, now);
            && c'.id == c.id && c'.tracksOut == c.tracksOut && c'.activeRids == c.activeRids
            && c'.delivered == c.delivered
            && c'.desired == RunDrive(c.id, h).desired
            && Readings(Of(UpdateLayers(r, origin, now).hist.log, c.id)) == h
  {
    UpdateAt(r, origin, now, i);
    SweepAdvancesIff(r, origin, now, i);
    TurnKeepsRest(r.clients[i], r.bw, origin, now);
  }

  lemma TurnKeepsRest(c: ClientState, bw: Bandwidth, origin: ClientId, now: Instant)
    requires ClientOk(c)
    ensures var c' := After(c, DriveOne(c, bw, origin, now));
            c'.tracksOut == c.tracksOut && c'.activeRids == c.activeRids && c'.delivered == c.delivered
  {
  }

  /** The clients a sweep finds in their 100 ms. */
  ghost function HeldBack(r: Room, origin: ClientId, now: Instant, n: nat): set<nat>
    requires n <= |r.clients|
  {
    set i: nat | i < n && InItsInterval(r, r.clients[i], origin, now)
  }

  ghost predicate InItsInterval(r: Room, c: ClientState, origin: ClientId, now: Instant) {
    var l := Of(r.hist.log, c.id);
    c.id != origin && c.id in r.bw && l != [] && now - Last(l).now < 100_000
  }

  lemma TurnIsHeldBack(c: ClientState, bw: Bandwidth, origin: ClientId, now: Instant, l: seq<Advance>)
    requires ClientOk(c) && Faithful(c, l)
    ensures DriveOne(c, bw, origin, now).Throttled? <==>
            c.id != origin && c.id in bw && l != [] && now - Last(l).now < 100_000
  {
  }

  lemma {:induction false} ThrottledSoFar(r: Room, ds: seq<Drive>, origin: ClientId, now: Instant, n: nat)
    requires n <= |r.clients| == |ds|
    requires forall i | 0 <= i < |ds| :: ds[i].Throttled? <==> InItsInterval(r, r.clients[i], origin, now)
    ensures CountThrottled(ds[..n]) == |HeldBack(r, origin, now, n)|
  {
    if n > 0 {
      ThrottledSoFar(r, ds, origin, now, n - 1);
      HeldBackNext(r, origin, now, n - 1);
      ThrottledNext(ds, n - 1);
    }
  }

  lemma ThrottledNext(ds: seq<Drive>, n: nat)
    requires n < |ds|
    ensures CountThrottled(ds[..n + 1]) == CountThrottled(ds[..n]) + if ds[n].Throttled? then 1 else 0
  {
    assert ds[..n + 1][..n] == ds[..n];
  }

  lemma HeldBackNext(r: Room, origin: ClientId, now: Instant, n: nat)
    requires n < |r.clients|
    ensures |HeldBack(r, origin, now, n + 1)|
            == |HeldBack(r, origin, now, n)| + if InItsInterval(r, r.clients[n], origin, now) then 1 else 0
  {
    assert HeldBack(r, origin, now, n + 1)
        == HeldBack(r, origin, now, n) + if InItsInterval(r, r.clients[n], origin, now) then {n} else {};
  }

  /** The throttle counter counts exactly the turns refused for the interval. */
  lemma ThrottleIsCounted(r: Room, origin: ClientId, now: Instant)
    requires CoreInv(r)
    ensures UpdateLayers(r, origin, now).throttled == r.throttled + |HeldBack(r, origin, now, |r.clients|)|
  {
    var ds := Drives(r.clients, r.bw, origin, now);
    forall i | 0 <= i < |ds| ensures ds[i].Throttled? <==> InItsInterval(r, r.clients[i], origin, now) {
      assert r.clients[i] in r.clients;
      TurnIsHeldBack(r.clients[i], r.bw, origin, now, Of(r.hist.log, r.clients[i].id));
    }
    ThrottledSoFar(r, ds, origin, now, |ds|);
    assert ds[..|ds|] == ds;
  }

  // --------------------------------------------------------------------- root causes

  ghost predicate External(t: BindingTerm) {
    t == ByNative || t == ByHint
  }

  lemma {:induction false} OfContains(log: seq<Advance>, a: Advance) returns (k: nat)
    requires a in log
    ensures k < |Of(log, a.id)| && Of(log, a.id)[k] == a
  {
    var n := |log| - 1;
    if a in log[..n] {
      k := OfContains(log[..n], a);
    } else {
      k := |Of(log[..n], a.id)|;
    }
  }

  /** No estimator inside the kit can push a subscriber toward suspension: every
      advance that counts toward one was bound by the native estimate or by the
      browser's hint. And GoogCC never causes audio-only. */
  lemma LowReadingsAreExternal(ops: seq<Op>, a: Advance)
    requires a in Trace(ops).hist.log
    ensures a.reading.bps < DEFAULT_CONFIG.suspendVideoBps ==> External(a.reading.term)
    ensures a.action == GoAudioOnly ==> a.reading.term != ByGoogCc
  {
    TraceKeepsCore(ops);
    var k := OfContains(Trace(ops).hist.log, a);
    var l := AdvancesOf(ops, a.id);
    HonestAt(l, k);
    DefaultIsUsable();
    AudioOnlyNeedsLow(Run(DEFAULT_CONFIG, Readings(l[..k])), a.reading.bps);
  }

  lemma AudioOnlyNeedsLow(st: PacerState, bps: nat)
    requires !st.layer.Other?
    ensures Tick(DEFAULT_CONFIG, st, bps).action == GoAudioOnly ==> bps < DEFAULT_CONFIG.audioOnlyBps
  {
  }

  /** Two consecutive advances that justify a suspension. */
  ghost predicate Justifies(l: seq<Advance>, k: nat) {
    && 0 < k < |l|
    && l[k - 1].reading.bps < 10_000 && l[k].reading.bps < 10_000
    && External(l[k - 1].reading.term) && External(l[k].reading.term)
    && l[k].now - l[k - 1].now >= 100_000
  }

  lemma LowPairJustifies(l: seq<Advance>, k: nat)
    requires Honest(l) && 0 < k < |l|
    requires l[k - 1].reading.bps < 10_000 && l[k].reading.bps < 10_000
    ensures Justifies(l, k)
  {
  }

  /** SuspendVideo takes two consecutive advances below the threshold, at least
      100 ms apart, both bound from outside. */
  lemma SuspendNeedsJustification(ops: seq<Op>, id: ClientId, k: nat)
    requires k < |AdvancesOf(ops, id)| && AdvancesOf(ops, id)[k].action == SuspendVideo
    ensures Justifies(AdvancesOf(ops, id), k)
  {
    TraceKeepsCore(ops);
    DefaultIsUsable();
    var l := AdvancesOf(ops, id);
    HonestAt(l, k);
    var h := Readings(l[..k]);
    SuspendActionNeedsStreak(DEFAULT_CONFIG, h, l[k].reading.bps);
    var hb := h + [l[k].reading.bps];
    assert |hb| == k + 1 && hb[k] == l[k].reading.bps;
    assert hb[k - 1] == l[k - 1].reading.bps;
    LowPairJustifies(l, k);
  }

  /** A justified suspension that no later reading has lifted. */
  ghost predicate Explains(l: seq<Advance>, k: nat) {
    Justifies(l, k) && forall j | k < j < |l| :: l[j].reading.bps < 80_000
  }

  lemma WindowExplains(l: seq<Advance>, e: int)
    requires Honest(l) && SuspendWindow(DEFAULT_CONFIG, Readings(l), e)
    ensures e >= 1 && Explains(l, e - 1)
  {
  }

  lemma ExplanationIsWindow(l: seq<Advance>, k: nat)
    requires Explains(l, k)
    ensures SuspendWindow(DEFAULT_CONFIG, Readings(l), k + 1)
  {
  }

  lemma SuspensionExplained(l: seq<Advance>)
    requires Honest(l) && Usable(DEFAULT_CONFIG)
    ensures Run(DEFAULT_CONFIG, Readings(l)).suspended <==> exists k: nat :: Explains(l, k)
  {
    SuspendedIffHistory(DEFAULT_CONFIG, Readings(l));
    if e :| SuspendWindow(DEFAULT_CONFIG, Readings(l), e) {
      WindowExplains(l, e);
    }
    if k: nat :| Explains(l, k) {
      ExplanationIsWindow(l, k);
    }
  }

  /** A client is suspended in the room exactly when two consecutive advances
      justify it and no later reading reached the audio-only threshold. */
  lemma SuspendedClientExplained(ops: seq<Op>, c: ClientState)
    requires c in Trace(ops).clients
    ensures c.suspended <==> exists k: nat :: Explains(AdvancesOf(ops, c.id), k)
  {
    TraceKeepsCore(ops);
    DefaultIsUsable();
    SuspensionExplained(AdvancesOf(ops, c.id));
  }

  lemma LowTickSuspendsIff(h: seq<nat>, bps: nat)
    requires Usable(DEFAULT_CONFIG) && !Run(DEFAULT_CONFIG, h).suspended
    ensures Tick(DEFAULT_CONFIG, Run(DEFAULT_CONFIG, h), bps).state.suspended <==>
            h != [] && Last(h) < 10_000 && bps < 10_000
  {
    SuspendActionNeedsStreak(DEFAULT_CONFIG, h, bps);
    FlagMirrorsPacer(Run(DEFAULT_CONFIG, h), bps);
    var hb := h + [bps];
    assert hb[|h|] == bps && (h != [] ==> hb[|h| - 1] == Last(h));
  }

  /** Everything a sweep needs to suspend a client that is not suspended. */
  ghost predicate DueToSuspend(c: ClientState, bw: Bandwidth, origin: ClientId, now: Instant, l: seq<Advance>) {
    && c.id != origin
    && c.id in bw && ReadingOf(bw[c.id], now).bps < 10_000
    && l != [] && Last(l).reading.bps < 10_000
    && now - Last(l).now >= 100_000
  }

  lemma AdvanceSuspendsIff(c: ClientState, now: Instant, bps: nat, l: seq<Advance>)
    requires ClientOk(c) && Faithful(c, l) && !c.suspended
    ensures var action := Tick(DEFAULT_CONFIG, c.pacer, bps).action;
            Flagged(Driven(c.(lastDrive := Some(now)), bps), action).suspended <==>
              l != [] && Last(l).reading.bps < 10_000 && bps < 10_000
  {
    DefaultIsUsable();
    LowTickSuspendsIff(Readings(l), bps);
    FlagMirrorsPacer(c.pacer, bps);
  }

  lemma TurnSuspendsIff(c: ClientState, bw: Bandwidth, origin: ClientId, now: Instant, l: seq<Advance>)
    requires ClientOk(c) && Faithful(c, l) && !c.suspended
    ensures After(c, DriveOne(c, bw, origin, now)).suspended <==> DueToSuspend(c, bw, origin, now, l)
  {
    if c.id in bw {
      AdvanceSuspendsIff(c, now, ReadingOf(bw[c.id], now).bps, l);
    }
  }

  /** A sweep suspends a client exactly when it is not the publisher, has an
      estimator entry, reads low now and read low at its previous advance, which
      is at least 100 ms ago. The debounce spans one interval, not two. */
  lemma SweepSuspendsIff(r: Room, origin: ClientId, now: Instant, i: nat)
    requires CoreInv(r) && i < |r.clients| && !r.clients[i].suspended
    ensures var c := r.clients[i];
            UpdateLayers(r, origin, now).clients[i].suspended <==>
              DueToSuspend(c, r.bw, origin, now, Of(r.hist.log, c.id))
  {
    var c := r.clients[i];
    assert c in r.clients;
    TurnSuspendsIff(c, r.bw, origin, now, Of(r.hist.log, c.id));
  }

  /** A client's pacer is in audio-only mode exactly when its readings over the run
      amount to it. */
  lemma AudioOnlyClientExplained(ops: seq<Op>, c: ClientState)
    requires c in Trace(ops).clients
    ensures c.pacer.audioOnly <==> AudioOnlyByHistory(DEFAULT_CONFIG, Readings(AdvancesOf(ops, c.id)))
  {
    TraceKeepsCore(ops);
    DefaultIsUsable();
    AudioOnlyIffHistory(DEFAULT_CONFIG, Readings(AdvancesOf(ops, c.id)));
  }

  // ------------------------------------------------------------------------ the drain

  ghost predicate AllAt(log: seq<Advance>, now: Instant) {
    forall a | a in log :: a.now == now
  }

  lemma {:induction false} SweepAllAt(ds: seq<Drive>, now: Instant)
    requires forall i | 0 <= i < |ds| && ds[i].Advanced? :: ds[i].advance.now == now
    ensures AllAt(LogAll(ds), now)
  {
    if ds != [] {
      SweepAllAt(ds[..|ds| - 1], now);
    }
  }

  /** `log'` adds to `log` only advances made at `now`. */
  ghost predicate Extends(log: seq<Advance>, log': seq<Advance>, now: Instant) {
    log <= log' && AllAt(log'[|log|..], now)
  }

  lemma ExtendsTrans(a: seq<Advance>, b: seq<Advance>, c: seq<Advance>, now: Instant)
    requires Extends(a, b, now) && Extends(b, c, now)
    ensures Extends(a, c, now)
  {
  }

  lemma DrainOneExtends(r: Room, now: Instant)
    requires CoreInv(r) && r.queue != []
    ensures Extends(r.hist.log, DrainOne(r, now).hist.log, now)
  {
    var e, rest := r.queue[0], Popped(r);
    if e.MediaData? {
      var ds := Drives(rest.clients, rest.bw, e.origin, now);
      SweepAllAt(ds, now);
      assert (r.hist.log + LogAll(ds))[|r.hist.log|..] == LogAll(ds);
    } else {
      assert DrainOne(r, now).hist.log[|r.hist.log|..] == [];
    }
  }

  lemma {:induction false} DrainExtends(r: Room, now: Instant)
    requires CoreInv(r)
    ensures Extends(r.hist.log, Drain(r, now).hist.log, now)
    decreases MediaLeft(r.queue), |r.queue|
  {
    if r.queue == [] {
      assert r.hist.log[|r.hist.log|..] == [];
    } else {
      DrainOneExtends(r, now);
      DrainOneKeepsCore(r, now);
      DrainOneProgress(r, now);
      DrainExtends(DrainOne(r, now), now);
      ExtendsTrans(r.hist.log, DrainOne(r, now).hist.log, Drain(r, now).hist.log, now);
    }
  }

  /** A drain empties the queue although it enqueues, and advances each subscriber
      at most once however many publishers' frames it finds. */
  lemma DrainAdvancesOnce(r: Room, now: Instant, id: ClientId)
    requires CoreInv(r)
    ensures Drain(r, now).queue == []
    ensures |Of(Drain(r, now).hist.log, id)| <= |Of(r.hist.log, id)| + 1
  {
    DrainExtends(r, now);
    DrainKeepsCore(r, now);
    var log' := Drain(r, now).hist.log;
    var more := log'[|r.hist.log|..];
    assert log' == r.hist.log + more;
    OfAppends(r.hist.log, more, id);
    var l := Of(log', id);
    var n := |Of(r.hist.log, id)|;
    OfMembers(more, id);
    if |l| > n + 1 {
      assert l[n] in Of(more, id) && l[n + 1] in Of(more, id);
      HonestAt(l, n + 1);
    }
  }

  // ------------------------------------------------------------------ forwarded layers

  /** In every room a client forwards its pacer's layer, except while a restore
      from above LOW awaits the next layer change: then it forwards more. */
  lemma ForwardedLayerExact(ops: seq<Op>, c: ClientState)
    requires c in Trace(ops).clients
    ensures !c.desired.Other? && !c.pacer.layer.Other?
    ensures Rank(c.desired) >= Rank(c.pacer.layer)
    ensures c.desired != c.pacer.layer <==> StaleLayer(Readings(AdvancesOf(ops, c.id)))
  {
    TraceKeepsCore(ops);
    DesiredLayerExact(c.id, Readings(AdvancesOf(ops, c.id)));
  }
}
