/** Media accounting and gating: what becomes of every frame at every client, and
    how that follows from the subscriber's readings. */
module RoomDeliveries {
  import opened Basics
  import opened PacerConfigs
  import opened PacerHistory
  import opened Estimator
  import opened Clients
  import opened Rooms
  import opened RoomInvariants

  // --------------------------------------------------------------------- accounting

  ghost function CountOutcome(ds: seq<Delivery>, id: ClientId, o: Outcome): nat {
    if ds == [] then 0
    else
      var d := ds[|ds| - 1];
      CountOutcome(ds[..|ds| - 1], id, o) + if d.id == id && d.outcome == o then 1 else 0
  }

  /** Media events fanned out by others while `id` was in the room. */
  ghost function CountFanned(fs: seq<Fanned>, id: ClientId): nat {
    if fs == [] then 0
    else
      var f := fs[|fs| - 1];
      CountFanned(fs[..|fs| - 1], id) + if id in f.present && f.origin != id then 1 else 0
  }

  ghost function Accounted(ds: seq<Delivery>, id: ClientId): nat {
    CountOutcome(ds, id, Delivered) + CountOutcome(ds, id, DroppedSuspended) + CountOutcome(ds, id, DroppedLayer)
  }

  ghost predicate Tallied(c: ClientState, ds: seq<Delivery>) {
    && c.delivered == CountOutcome(ds, c.id, Delivered)
    && c.dropped == CountOutcome(ds, c.id, DroppedSuspended)
  }

  ghost predicate AccountInv(r: Room) {
    && (forall d | d in r.hist.deliveries :: d.id in r.hist.joined && d.id != d.origin)
    && (forall c | c in r.clients :: Tallied(c, r.hist.deliveries))
    && (forall id :: Accounted(r.hist.deliveries, id) == CountFanned(r.hist.fanned, id))
  }

  lemma {:induction false} OutcomesAppend(a: seq<Delivery>, b: seq<Delivery>, id: ClientId, o: Outcome)
    ensures CountOutcome(a + b, id, o) == CountOutcome(a, id, o) + CountOutcome(b, id, o)
  {
    if b == [] {
      assert a + b == a;
    } else {
      OutcomesAppend(a, b[..|b| - 1], id, o);
      AppendFront(a, b);
    }
  }

  lemma {:induction false} JoinedNone(parts: seq<seq<Delivery>>, id: ClientId, o: Outcome)
    requires forall j | 0 <= j < |parts| :: CountOutcome(parts[j], id, o) == 0
    ensures CountOutcome(Joined(parts), id, o) == 0
  {
    if parts != [] {
      var n := |parts| - 1;
      JoinedNone(parts[..n], id, o);
      OutcomesAppend(Joined(parts[..n]), parts[n], id, o);
    }
  }

  lemma {:induction false} JoinedOne(parts: seq<seq<Delivery>>, i: nat, id: ClientId, o: Outcome)
    requires i < |parts| && forall j | 0 <= j < |parts| && j != i :: CountOutcome(parts[j], id, o) == 0
    ensures CountOutcome(Joined(parts), id, o) == CountOutcome(parts[i], id, o)
  {
    var n := |parts| - 1;
    OutcomesAppend(Joined(parts[..n]), parts[n], id, o);
    if i < n {
      JoinedOne(parts[..n], i, id, o);
    } else {
      JoinedNone(parts[..n], id, o);
    }
  }

  lemma OneDelivery(c: ClientState, live: set<ClientId>, origin: ClientId, f: Frame, at: nat, id: ClientId, o: Outcome)
    ensures CountOutcome(DeliveryTo(c, live, origin, f, at), id, o)
            == if c.id == id && id != origin && MediaOutcome(c, live, origin, f) == o then 1 else 0
  {
  }

  lemma OutcomeAbsent(cs: seq<ClientState>, live: set<ClientId>, origin: ClientId, f: Frame, at: nat,
                      id: ClientId, o: Outcome)
    requires forall i | 0 <= i < |cs| :: cs[i].id != id
    ensures CountOutcome(Deliveries(cs, live, origin, f, at), id, o) == 0
  {
    var parts := DeliveriesTo(cs, live, origin, f, at);
    forall j | 0 <= j < |parts| ensures CountOutcome(parts[j], id, o) == 0 {
      OneDelivery(cs[j], live, origin, f, at, id, o);
    }
    JoinedNone(parts, id, o);
  }

  /** One fanout adds one delivery record per client other than the origin. */
  lemma OutcomePresent(cs: seq<ClientState>, live: set<ClientId>, origin: ClientId, f: Frame, at: nat,
                       i: nat, id: ClientId, o: Outcome)
    requires i < |cs| && cs[i].id == id && forall j | 0 <= j < |cs| && j != i :: cs[j].id != id
    ensures CountOutcome(Deliveries(cs, live, origin, f, at), id, o)
            == if id != origin && MediaOutcome(cs[i], live, origin, f) == o then 1 else 0
  {
    var parts := DeliveriesTo(cs, live, origin, f, at);
    forall j | 0 <= j < |parts| && j != i ensures CountOutcome(parts[j], id, o) == 0 {
      OneDelivery(cs[j], live, origin, f, at, id, o);
    }
    JoinedOne(parts, i, id, o);
    OneDelivery(cs[i], live, origin, f, at, id, o);
  }

  lemma DistinctFrom(cs: seq<ClientState>, i: nat)
    requires DistinctIds(cs) && i < |cs|
    ensures forall j | 0 <= j < |cs| && j != i :: cs[j].id != cs[i].id
  {
  }

  lemma FanoutTallies(r: Room, origin: ClientId, f: Frame, i: nat)
    requires CoreInv(r) && AccountInv(r) && i < |r.clients|
    ensures var r' := Fanout(r, MediaData(origin, f));
            Tallied(r'.clients[i], r'.hist.deliveries)
  {
    var live, at := IdSet(r.clients), |r.hist.log|;
    var c := r.clients[i];
    assert c in r.clients;
    DistinctFrom(r.clients, i);
    var ds := Deliveries(r.clients, live, origin, f, at);
    OutcomesAppend(r.hist.deliveries, ds, c.id, Delivered);
    OutcomesAppend(r.hist.deliveries, ds, c.id, DroppedSuspended);
    OutcomePresent(r.clients, live, origin, f, at, i, c.id, Delivered);
    OutcomePresent(r.clients, live, origin, f, at, i, c.id, DroppedSuspended);
  }

  lemma AccountedAppends(a: seq<Delivery>, b: seq<Delivery>, id: ClientId)
    ensures Accounted(a + b, id) == Accounted(a, id) + Accounted(b, id)
  {
    OutcomesAppend(a, b, id, Delivered);
    OutcomesAppend(a, b, id, DroppedSuspended);
    OutcomesAppend(a, b, id, DroppedLayer);
  }

  /** Exactly one of the three outcomes for each client present, none else. */
  lemma FanoutAccounts(cs: seq<ClientState>, live: set<ClientId>, origin: ClientId, f: Frame, at: nat, id: ClientId)
    requires DistinctIds(cs)
    ensures Accounted(Deliveries(cs, live, origin, f, at), id)
            == if id in Ids(cs) && id != origin then 1 else 0
  {
    if i :| 0 <= i < |cs| && cs[i].id == id {
      assert Ids(cs)[i] == id;
      DistinctFrom(cs, i);
      OutcomePresent(cs, live, origin, f, at, i, id, Delivered);
      OutcomePresent(cs, live, origin, f, at, i, id, DroppedSuspended);
      OutcomePresent(cs, live, origin, f, at, i, id, DroppedLayer);
    } else {
      OutcomeAbsent(cs, live, origin, f, at, id, Delivered);
      OutcomeAbsent(cs, live, origin, f, at, id, DroppedSuspended);
      OutcomeAbsent(cs, live, origin, f, at, id, DroppedLayer);
    }
  }

  /** What a record of one fanout says about its client. */
  ghost predicate RecordOf(d: Delivery, c: ClientState, live: set<ClientId>, origin: ClientId, f: Frame, at: nat) {
    && d.id == c.id && d.origin == origin && c.id != origin && d.at == at
    && d.frame == f && d.tracks == c.tracksOut && d.live == live
    && d.outcome == MediaOutcome(c, live, origin, f)
  }

  lemma {:induction false} JoinedMember(parts: seq<seq<Delivery>>, d: Delivery) returns (i: nat)
    requires d in Joined(parts)
    ensures i < |parts| && d in parts[i]
  {
    var n := |parts| - 1;
    if d in parts[n] {
      i := n;
    } else {
      i := JoinedMember(parts[..n], d);
    }
  }

  lemma RecordsAreOfClients(cs: seq<ClientState>, live: set<ClientId>, origin: ClientId, f: Frame, at: nat)
    ensures forall d | d in Deliveries(cs, live, origin, f, at) ::
              exists i :: 0 <= i < |cs| && RecordOf(d, cs[i], live, origin, f, at)
  {
    forall d | d in Deliveries(cs, live, origin, f, at)
      ensures exists i :: 0 <= i < |cs| && RecordOf(d, cs[i], live, origin, f, at)
    {
      var i := JoinedMember(DeliveriesTo(cs, live, origin, f, at), d);
      assert d in DeliveryTo(cs[i], live, origin, f, at);
      assert RecordOf(d, cs[i], live, origin, f, at);
    }
  }

  lemma FanoutKeepsAccount(r: Room, origin: ClientId, f: Frame)
    requires CoreInv(r) && AccountInv(r)
    ensures AccountInv(Fanout(r, MediaData(origin, f)))
  {
    var r' := Fanout(r, MediaData(origin, f));
    var live, at := IdSet(r.clients), |r.hist.log|;
    var ds := Deliveries(r.clients, live, origin, f, at);
    RecordsAreOfClients(r.clients, live, origin, f, at);
    forall d | d in r'.hist.deliveries ensures d.id in r'.hist.joined && d.id != d.origin {
      if d in ds {
        var i :| 0 <= i < |r.clients| && RecordOf(d, r.clients[i], live, origin, f, at);
        assert r.clients[i].id in IdSet(r.clients);
      }
    }
    forall c | c in r'.clients ensures Tallied(c, r'.hist.deliveries) {
      var i :| 0 <= i < |r'.clients| && r'.clients[i] == c;
      FanoutTallies(r, origin, f, i);
    }
    forall id ensures Accounted(r'.hist.deliveries, id) == CountFanned(r'.hist.fanned, id) {
      AccountedAppends(r.hist.deliveries, ds, id);
      FanoutAccounts(r.clients, live, origin, f, at, id);
      assert r'.hist.fanned[..|r'.hist.fanned| - 1] == r.hist.fanned;
    }
  }

  /** The counters and the id of a client. */
  ghost predicate SameTally(c: ClientState, c': ClientState) {
    c'.id == c.id && c'.delivered == c.delivered && c'.dropped == c.dropped
  }

  /** Steps that fan out no media. */
  lemma QuietKeepsAccount(r: Room, r': Room)
    requires AccountInv(r) && |r'.clients| == |r.clients|
    requires forall i | 0 <= i < |r.clients| :: SameTally(r.clients[i], r'.clients[i])
    requires r'.hist.deliveries == r.hist.deliveries && r'.hist.fanned == r.hist.fanned
    requires r'.hist.joined == r.hist.joined
    ensures AccountInv(r')
  {
    forall c | c in r'.clients ensures Tallied(c, r'.hist.deliveries) {
      var i :| 0 <= i < |r'.clients| && r'.clients[i] == c;
      assert r.clients[i] in r.clients && SameTally(r.clients[i], r'.clients[i]);
    }
  }

  lemma UpdateKeepsAccount(r: Room, origin: ClientId, now: Instant)
    requires RoomOk(r) && AccountInv(r)
    ensures AccountInv(UpdateLayers(r, origin, now))
  {
    var r' := UpdateLayers(r, origin, now);
    forall i | 0 <= i < |r.clients| ensures SameTally(r.clients[i], r'.clients[i]) {
      TurnKeepsTally(r.clients[i], r.bw, origin, now);
    }
    QuietKeepsAccount(r, r');
  }

  lemma TurnKeepsTally(c: ClientState, bw: Bandwidth, origin: ClientId, now: Instant)
    requires ClientOk(c)
    ensures SameTally(c, After(c, DriveOne(c, bw, origin, now)))
  {
  }

  lemma DrainOneKeepsAccount(r: Room, now: Instant)
    requires CoreInv(r) && AccountInv(r) && r.queue != []
    ensures AccountInv(DrainOne(r, now))
  {
    var e, rest := r.queue[0], Popped(r);
    SameCoresKeepCore(r, rest);
    QuietKeepsAccount(r, rest);
    if e.MediaData? {
      UpdateKeepsAccount(rest, e.origin, now);
      UpdateKeepsCore(rest, e.origin, now);
      FanoutKeepsAccount(UpdateLayers(rest, e.origin, now), e.origin, e.frame);
    } else {
      QuietKeepsAccount(rest, DrainOne(r, now));
    }
  }

  lemma {:induction false} DrainKeepsAccount(r: Room, now: Instant)
    requires CoreInv(r) && AccountInv(r)
    ensures AccountInv(Drain(r, now))
    decreases MediaLeft(r.queue), |r.queue|
  {
    if r.queue != [] {
      DrainOneKeepsAccount(r, now);
      DrainOneKeepsCore(r, now);
      DrainOneProgress(r, now);
      DrainKeepsAccount(DrainOne(r, now), now);
    }
  }

  lemma {:induction false} PollKeepsAccount(r: Room, ps: seq<Polled>)
    requires AccountInv(r)
    ensures AccountInv(PollEach(r, ps))
  {
    if ps != [] {
      PollKeepsAccount(r, ps[..|ps| - 1]);
      QuietKeepsAccount(PollEach(r, ps[..|ps| - 1]), PollEach(r, ps));
    }
  }

  lemma {:induction false} NoRecordNoCount(ds: seq<Delivery>, id: ClientId, o: Outcome)
    requires forall d | d in ds :: d.id != id
    ensures CountOutcome(ds, id, o) == 0
  {
    if ds != [] {
      NoRecordNoCount(ds[..|ds| - 1], id, o);
    }
  }

  lemma InsertKeepsAccount(r: Room, id: ClientId)
    requires AccountInv(r)
    ensures AccountInv(Insert(r, id))
  {
    if id !in r.hist.joined {
      NoRecordNoCount(r.hist.deliveries, id, Delivered);
      NoRecordNoCount(r.hist.deliveries, id, DroppedSuspended);
    }
  }

  lemma StepKeepsAccount(r: Room, op: Op)
    requires CoreInv(r) && AccountInv(r)
    ensures AccountInv(Step(r, op))
  {
    match op
    case Join(id) => InsertKeepsAccount(r, id);
    case ReapDead(dead) => SurvivorsAreClients(r.clients, dead);
    case Poll(ps, _) => PollKeepsAccount(r, ps);
    case UpdatePacers(origin, now) => UpdateKeepsAccount(r, origin, now);
    case FanoutPending(now) => DrainKeepsAccount(r, now);
    case _ => QuietKeepsAccount(r, Step(r, op));
  }

  /** Over every run each client accounts for each media event of another client
      exactly once, its two counters are those outcomes, and an origin is never
      delivered its own media. */
  lemma {:induction false} MediaIsAccounted(ops: seq<Op>)
    ensures AccountInv(Trace(ops))
  {
    if ops != [] {
      MediaIsAccounted(ops[..|ops| - 1]);
      TraceKeepsCore(ops[..|ops| - 1]);
      StepKeepsAccount(Trace(ops[..|ops| - 1]), ops[|ops| - 1]);
    }
  }

  // ------------------------------------------------------------------------- gating

  /** The readings subscriber `id` had been fed when the room had seen `at`
      advances. */
  ghost function ReadingsAt(log: seq<Advance>, at: nat, id: ClientId): seq<nat>
    requires at <= |log|
  {
    Readings(Of(log[..at], id))
  }

  /** A frame is dropped for suspension exactly when the readings so far amount to
      one and the frame is not known to be audio. */
  ghost predicate GateOk(log: seq<Advance>, d: Delivery) {
    && d.at <= |log|
    && (d.outcome == DroppedSuspended <==>
          && SuspendedByHistory(DEFAULT_CONFIG, ReadingsAt(log, d.at, d.id))
          && !KnownAs(d.tracks, d.live, d.origin, d.frame.mid, Audio))
  }

  ghost predicate GateInv(r: Room) {
    forall d | d in r.hist.deliveries :: GateOk(r.hist.log, d)
  }

  lemma FanoutGates(r: Room, origin: ClientId, f: Frame)
    requires CoreInv(r) && GateInv(r)
    ensures GateInv(Fanout(r, MediaData(origin, f)))
  {
    var r' := Fanout(r, MediaData(origin, f));
    var live, at := IdSet(r.clients), |r.hist.log|;
    RecordsAreOfClients(r.clients, live, origin, f, at);
    forall d | d in r'.hist.deliveries ensures GateOk(r'.hist.log, d) {
      if d !in r.hist.deliveries {
        assert d in Deliveries(r.clients, live, origin, f, at);
        var i :| 0 <= i < |r.clients| && RecordOf(d, r.clients[i], live, origin, f, at);
        RecordIsGated(r, i, d, live, origin, f);
      }
    }
  }

  lemma RecordIsGated(r: Room, i: nat, d: Delivery, live: set<ClientId>, origin: ClientId, f: Frame)
    requires CoreInv(r) && i < |r.clients| && RecordOf(d, r.clients[i], live, origin, f, |r.hist.log|)
    ensures GateOk(r.hist.log, d)
  {
    var c := r.clients[i];
    assert c in r.clients;
    assert r.hist.log[..|r.hist.log|] == r.hist.log;
    DefaultIsUsable();
    SuspendedIffHistory(DEFAULT_CONFIG, Readings(Of(r.hist.log, c.id)));
    MatchedKindExact(c.tracksOut, live, origin, f.mid, Audio);
  }

  /** A longer log does not change what was true at an earlier point. */
  lemma LogGrowthKeepsGates(r: Room, r': Room)
    requires GateInv(r) && r'.hist.deliveries == r.hist.deliveries && r.hist.log <= r'.hist.log
    ensures GateInv(r')
  {
    forall d | d in r'.hist.deliveries ensures GateOk(r'.hist.log, d) {
      assert GateOk(r.hist.log, d);
      assert r'.hist.log[..d.at] == r.hist.log[..d.at];
    }
  }

  lemma DrainOneGates(r: Room, now: Instant)
    requires CoreInv(r) && GateInv(r) && r.queue != []
    ensures GateInv(DrainOne(r, now))
  {
    var e, rest := r.queue[0], Popped(r);
    SameCoresKeepCore(r, rest);
    if e.MediaData? {
      var updated := UpdateLayers(rest, e.origin, now);
      LogGrowthKeepsGates(rest, updated);
      UpdateKeepsCore(rest, e.origin, now);
      FanoutGates(updated, e.origin, e.frame);
    }
  }

  lemma {:induction false} DrainGates(r: Room, now: Instant)
    requires CoreInv(r) && GateInv(r)
    ensures GateInv(Drain(r, now))
    decreases MediaLeft(r.queue), |r.queue|
  {
    if r.queue != [] {
      DrainOneGates(r, now);
      DrainOneKeepsCore(r, now);
      DrainOneProgress(r, now);
      DrainGates(DrainOne(r, now), now);
    }
  }

  lemma StepGates(r: Room, op: Op)
    requires CoreInv(r) && GateInv(r)
    ensures GateInv(Step(r, op))
  {
    match op
    case Poll(ps, _) => PollKeepsHistory(r, ps);
    case UpdatePacers(origin, now) => LogGrowthKeepsGates(r, Step(r, op));
    case FanoutPending(now) => DrainGates(r, now);
    case _ =>
  }

  /** From readings to frames, over every run: the suspension filter drops exactly
      the frames that are not known audio for a subscriber whose readings so far
      amount to a suspension. */
  lemma {:induction false} SuspensionGatesMedia(ops: seq<Op>)
    ensures GateInv(Trace(ops))
  {
    if ops != [] {
      SuspensionGatesMedia(ops[..|ops| - 1]);
      TraceKeepsCore(ops[..|ops| - 1]);
      StepGates(Trace(ops[..|ops| - 1]), ops[|ops| - 1]);
    }
  }

  /** What decides whether a frame gets through to a client in this room. */
  ghost predicate GetsThrough(r: Room, c: ClientState, origin: ClientId, f: Frame) {
    && (SuspendedByHistory(DEFAULT_CONFIG, Readings(Of(r.hist.log, c.id))) ==>
          KnownAs(c.tracksOut, IdSet(r.clients), origin, f.mid, Audio))
    && (f.rid.Some? ==> f.rid.value == BestFit(c.desired, c.activeRids))
  }

  lemma OutcomeIff(r: Room, c: ClientState, origin: ClientId, f: Frame)
    requires CoreInv(r) && c in r.clients
    ensures MediaOutcome(c, IdSet(r.clients), origin, f) == Delivered <==> GetsThrough(r, c, origin, f)
  {
    DefaultIsUsable();
    SuspendedIffHistory(DEFAULT_CONFIG, Readings(Of(r.hist.log, c.id)));
    MatchedKindExact(c.tracksOut, IdSet(r.clients), origin, f.mid, Audio);
  }

  /** After any run, the next frame fanned out is delivered to a client exactly when
      it gets through, as above. Audio-only mode is not part of it: only a
      suspension stops video. */
  lemma FrameDeliveredIff(ops: seq<Op>, i: nat, origin: ClientId, f: Frame)
    requires i < |Trace(ops).clients| && Trace(ops).clients[i].id != origin
    ensures var r := Trace(ops);
            var c := r.clients[i];
            Fanout(r, MediaData(origin, f)).clients[i].delivered == c.delivered + 1 <==>
              GetsThrough(r, c, origin, f)
  {
    TraceKeepsCore(ops);
    OutcomeIff(Trace(ops), Trace(ops).clients[i], origin, f);
  }
}
