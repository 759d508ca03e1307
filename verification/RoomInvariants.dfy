/** What every step of the room keeps. */
module RoomInvariants {
  import opened Basics
  import opened PacerConfigs
  import opened Pacer
  import opened PacerHistory
  import opened Subscriber
  import opened Estimator
  import opened Clients
  import opened Rooms

  // --------------------------------------------------------- projections of the log

  /** The advances of one subscriber. */
  ghost function Of(log: seq<Advance>, id: ClientId): (l: seq<Advance>)
    ensures |l| <= |log|
  {
    if log == [] then []
    else Of(log[..|log| - 1], id) + if log[|log| - 1].id == id then [log[|log| - 1]] else []
  }

  /** The readings a subscriber's state machine was fed. */
  ghost function Readings(l: seq<Advance>): (h: seq<nat>)
    ensures |h| == |l| && forall i | 0 <= i < |l| :: h[i] == l[i].reading.bps
  {
    seq(|l|, i requires 0 <= i < |l| => l[i].reading.bps)
  }

  lemma {:induction false} OfAppends(a: seq<Advance>, b: seq<Advance>, id: ClientId)
    ensures Of(a + b, id) == Of(a, id) + Of(b, id)
  {
    if b == [] {
      assert a + b == a;
    } else {
      OfAppends(a, b[..|b| - 1], id);
      AppendFront(a, b);
    }
  }

  lemma {:induction false} OfMembers(log: seq<Advance>, id: ClientId)
    ensures forall a | a in Of(log, id) :: a in log && a.id == id
  {
    if log != [] {
      OfMembers(log[..|log| - 1], id);
    }
  }

  lemma {:induction false} OfAbsent(log: seq<Advance>, id: ClientId)
    requires forall a | a in log :: a.id != id
    ensures Of(log, id) == []
  {
    if log != [] {
      OfAbsent(log[..|log| - 1], id);
    }
  }

  // ----------------------------------------------------------------- the invariants

  /** An advance happened as the pacer's history prescribes, on a reading with a
      cause, no sooner than 100 ms after the previous one. */
  ghost predicate HonestNext(l: seq<Advance>, a: Advance) {
    DefaultIsUsable();
    && a.action == Act(DEFAULT_CONFIG, Readings(l), a.reading.bps)
    && Grounded(a.reading)
    && (l != [] ==> a.now >= l[|l| - 1].now + PACER_MIN_TICK_INTERVAL)
  }

  ghost predicate Honest(l: seq<Advance>) {
    l == [] || (Honest(l[..|l| - 1]) && HonestNext(l[..|l| - 1], l[|l| - 1]))
  }

  /** A client is what its advances made of it. */
  ghost predicate Faithful(c: ClientState, l: seq<Advance>) {
    DefaultIsUsable();
    && c.pacer == Run(DEFAULT_CONFIG, Readings(l))
    && c.suspended == c.pacer.suspended
    && c.desired == RunDrive(c.id, Readings(l)).desired
    && c.lastDrive == if l == [] then None else Some(l[|l| - 1].now)
  }

  ghost predicate DistinctIds(cs: seq<ClientState>) {
    cs == [] || (DistinctIds(cs[..|cs| - 1]) && cs[|cs| - 1].id !in IdSet(cs[..|cs| - 1]))
  }

  ghost predicate CoreInv(r: Room) {
    && RoomOk(r)
    && DistinctIds(r.clients)
    && IdSet(r.clients) <= r.hist.joined
    && (forall a | a in r.hist.log :: a.id in r.hist.joined)
    && (forall c | c in r.clients :: Faithful(c, Of(r.hist.log, c.id)))
    && (forall id :: Honest(Of(r.hist.log, id)))
  }

  // ---------------------------------------------------------------- one client's turn

  lemma ReadingsSnoc(l: seq<Advance>, a: Advance)
    ensures Readings(l + [a]) == Readings(l) + [a.reading.bps]
  {
  }

  lemma FlagMirrorsPacer(st: PacerState, bps: nat)
    requires Inv(DEFAULT_CONFIG, st)
    ensures var t := Tick(DEFAULT_CONFIG, st, bps);
            && (t.action == SuspendVideo ==> !st.suspended && t.state.suspended)
            && (t.action == RestoreAudio ==> st.suspended && !t.state.suspended)
            && (t.action != SuspendVideo && t.action != RestoreAudio ==> t.state.suspended == st.suspended)
  {
  }

  /** An advance on a grounded reading keeps a client faithful to its log... */
  lemma AdvanceKeepsFaith(c: ClientState, reading: Reading, now: Instant, l: seq<Advance>)
    requires ClientOk(c) && Faithful(c, l)
    ensures var action := Tick(DEFAULT_CONFIG, c.pacer, reading.bps).action;
            Faithful(Flagged(Driven(c.(lastDrive := Some(now)), reading.bps), action),
                     l + [Advance(c.id, now, reading, action)])
  {
    DefaultIsUsable();
    var a := Advance(c.id, now, reading, Tick(DEFAULT_CONFIG, c.pacer, reading.bps).action);
    FlagMirrorsPacer(c.pacer, reading.bps);
    ReadingsSnoc(l, a);
    RunSnoc(DEFAULT_CONFIG, Readings(l), reading.bps);
    RunDriveSnoc(c.id, Readings(l), reading.bps);
  }

  /** ...and the log honest. */
  lemma AdvanceIsHonest(c: ClientState, reading: Reading, now: Instant, l: seq<Advance>)
    requires ClientOk(c) && Grounded(reading) && Faithful(c, l) && Honest(l) && Ready(c.lastDrive, now)
    ensures var action := Tick(DEFAULT_CONFIG, c.pacer, reading.bps).action;
            Honest(l + [Advance(c.id, now, reading, action)])
  {
  }

  lemma TurnKeepsFaith(c: ClientState, bw: Bandwidth, origin: ClientId, now: Instant, l: seq<Advance>)
    requires ClientOk(c) && BandwidthInv(bw) && Faithful(c, l) && Honest(l)
    ensures var d := DriveOne(c, bw, origin, now);
            && Faithful(After(c, d), l + LogOf(d)) && Honest(l + LogOf(d))
  {
    var d := DriveOne(c, bw, origin, now);
    if d.Advanced? {
      ReadingIsGrounded(bw[c.id], now);
      AdvanceKeepsFaith(c, ReadingOf(bw[c.id], now), now, l);
      AdvanceIsHonest(c, ReadingOf(bw[c.id], now), now, l);
    } else {
      assert l + [] == l;
    }
  }

  /** Only a subscriber that has an estimator entry and is not the publisher
      advances, and it advances as itself, at the time of the sweep. */
  lemma TurnIsOwn(c: ClientState, bw: Bandwidth, origin: ClientId, now: Instant)
    requires ClientOk(c)
    ensures var d := DriveOne(c, bw, origin, now);
            && After(c, d).id == c.id
            && (d.Advanced? ==> d.advance.id == c.id && d.advance.now == now && c.id in bw && c.id != origin)
  {
  }

  // ------------------------------------------------------------------ the whole sweep

  lemma {:induction false} DistinctAt(cs: seq<ClientState>, i: nat, j: nat)
    requires DistinctIds(cs) && i < j < |cs|
    ensures cs[i].id != cs[j].id
  {
    var n := |cs| - 1;
    if j < n {
      DistinctAt(cs[..n], i, j);
    } else {
      assert cs[..n][i].id in IdSet(cs[..n]);
    }
  }

  ghost predicate Labelled(cs: seq<ClientState>, ds: seq<Drive>) {
    |cs| == |ds| && forall i | 0 <= i < |cs| && ds[i].Advanced? :: ds[i].advance.id == cs[i].id
  }

  ghost predicate Advances(d: Drive, id: ClientId) {
    d.Advanced? && d.advance.id == id
  }

  lemma OfSweepStep(ds: seq<Drive>, id: ClientId)
    requires ds != []
    ensures var n := |ds| - 1;
            Of(LogAll(ds), id) == Of(LogAll(ds[..n]), id) + if Advances(ds[n], id) then LogOf(ds[n]) else []
  {
    var n := |ds| - 1;
    OfAppends(LogAll(ds[..n]), LogOf(ds[n]), id);
    if ds[n].Advanced? {
      assert [ds[n].advance][..0] == [];
    }
  }

  lemma {:induction false} OfSweepAbsent(ds: seq<Drive>, id: ClientId)
    requires forall j | 0 <= j < |ds| :: !Advances(ds[j], id)
    ensures Of(LogAll(ds), id) == []
  {
    if ds != [] {
      OfSweepAbsent(ds[..|ds| - 1], id);
      OfSweepStep(ds, id);
    }
  }

  /** Only the i-th turn can concern `id`. */
  ghost predicate OthersSilent(ds: seq<Drive>, id: ClientId, i: nat) {
    forall j | 0 <= j < |ds| && j != i :: !Advances(ds[j], id)
  }

  lemma OthersSilentFront(ds: seq<Drive>, id: ClientId, i: nat)
    requires i < |ds| - 1 && OthersSilent(ds, id, i)
    ensures OthersSilent(ds[..|ds| - 1], id, i) && !Advances(ds[|ds| - 1], id)
  {
  }

  lemma OthersSilentLast(ds: seq<Drive>, id: ClientId)
    requires ds != [] && OthersSilent(ds, id, |ds| - 1)
    ensures Of(LogAll(ds[..|ds| - 1]), id) == []
  {
    OfSweepAbsent(ds[..|ds| - 1], id);
  }

  /** Then the sweep's log shows that turn. */
  lemma {:induction false} OfSweep(ds: seq<Drive>, id: ClientId, i: nat)
    requires i < |ds| && (ds[i].Advanced? ==> ds[i].advance.id == id) && OthersSilent(ds, id, i)
    ensures Of(LogAll(ds), id) == LogOf(ds[i])
  {
    OfSweepStep(ds, id);
    if i < |ds| - 1 {
      OthersSilentFront(ds, id, i);
      OfSweep(ds[..|ds| - 1], id, i);
    } else {
      OthersSilentLast(ds, id);
    }
  }

  lemma AbsentFromSweep(cs: seq<ClientState>, ds: seq<Drive>, id: ClientId)
    requires Labelled(cs, ds) && id !in IdSet(cs)
    ensures Of(LogAll(ds), id) == []
  {
    forall j | 0 <= j < |ds| ensures !Advances(ds[j], id) {
      assert cs[j].id in IdSet(cs);
    }
    OfSweepAbsent(ds, id);
  }

  /** In a sweep each client contributes its own turn and no other. */
  lemma OwnTurn(cs: seq<ClientState>, ds: seq<Drive>, i: nat)
    requires Labelled(cs, ds) && DistinctIds(cs) && i < |cs|
    ensures Of(LogAll(ds), cs[i].id) == LogOf(ds[i])
  {
    forall j | 0 <= j < |ds| && j != i ensures !Advances(ds[j], cs[i].id) {
      if j < i {
        DistinctAt(cs, j, i);
      } else {
        DistinctAt(cs, i, j);
      }
    }
    OfSweep(ds, cs[i].id, i);
  }

  lemma {:induction false} SameIdsDistinct(a: seq<ClientState>, b: seq<ClientState>)
    requires |a| == |b| && DistinctIds(a) && forall i | 0 <= i < |a| :: a[i].id == b[i].id
    ensures DistinctIds(b) && IdSet(b) == IdSet(a)
  {
    SameIdSet(a, b);
    if a != [] {
      var n := |a| - 1;
      SameIdsDistinct(a[..n], b[..n]);
    }
  }

  lemma SameIdSet(a: seq<ClientState>, b: seq<ClientState>)
    requires |a| == |b| && forall i | 0 <= i < |a| :: a[i].id == b[i].id
    ensures IdSet(b) == IdSet(a)
  {
  }

  ghost predicate LoggedIn(log: seq<Advance>, joined: set<ClientId>) {
    forall a | a in log :: a.id in joined
  }

  lemma {:induction false} SweepLoggedIn(cs: seq<ClientState>, ds: seq<Drive>, joined: set<ClientId>)
    requires Labelled(cs, ds) && IdSet(cs) <= joined
    ensures LoggedIn(LogAll(ds), joined)
  {
    if cs != [] {
      var n := |cs| - 1;
      IdSetSnoc(cs, n);
      assert cs[..n + 1] == cs;
      SweepLoggedIn(cs[..n], ds[..n], joined);
    }
  }

  lemma DrivesLabelled(cs: seq<ClientState>, bw: Bandwidth, origin: ClientId, now: Instant)
    requires ClientsOk(cs)
    ensures var ds := Drives(cs, bw, origin, now);
            Labelled(cs, ds) && forall i | 0 <= i < |cs| :: AfterAll(cs, ds)[i].id == cs[i].id
  {
  }

  /** Driving the pacers keeps the core of the room. */
  lemma UpdateKeepsCore(r: Room, origin: ClientId, now: Instant)
    requires CoreInv(r)
    ensures CoreInv(UpdateLayers(r, origin, now))
  {
    var ds := Drives(r.clients, r.bw, origin, now);
    var r' := UpdateLayers(r, origin, now);
    UpdateLayersKeepsOk(r, origin, now);
    DrivesLabelled(r.clients, r.bw, origin, now);
    SameIdsDistinct(r.clients, r'.clients);
    SweepLoggedIn(r.clients, ds, r.hist.joined);
    forall c | c in r'.clients ensures Faithful(c, Of(r'.hist.log, c.id)) {
      var i :| 0 <= i < |r'.clients| && r'.clients[i] == c;
      UpdateAt(r, origin, now, i);
    }
    forall id ensures Honest(Of(r'.hist.log, id)) {
      OfAppends(r.hist.log, LogAll(ds), id);
      if id in IdSet(r.clients) {
        var i :| 0 <= i < |r.clients| && r.clients[i].id == id;
        UpdateAt(r, origin, now, i);
      } else {
        AbsentFromSweep(r.clients, ds, id);
        assert Of(r.hist.log, id) + [] == Of(r.hist.log, id);
      }
    }
  }

  lemma UpdateAt(r: Room, origin: ClientId, now: Instant, i: nat)
    requires CoreInv(r) && i < |r.clients|
    ensures var r' := UpdateLayers(r, origin, now);
            var c' := r'.clients[i];
            && c'.id == r.clients[i].id
            && Faithful(c', Of(r'.hist.log, c'.id)) && Honest(Of(r'.hist.log, c'.id))
            && Of(r'.hist.log, c'.id) == Of(r.hist.log, c'.id)
                 + LogOf(DriveOne(r.clients[i], r.bw, origin, now))
  {
    var ds := Drives(r.clients, r.bw, origin, now);
    DrivesLabelled(r.clients, r.bw, origin, now);
    var c := r.clients[i];
    assert c in r.clients;
    OfAppends(r.hist.log, LogAll(ds), c.id);
    OwnTurn(r.clients, ds, i);
    TurnKeepsFaith(c, r.bw, origin, now, Of(r.hist.log, c.id));
  }

  // --------------------------------------------------------- steps that drive no pacer

  /** Equal in everything the core speaks of. */
  ghost predicate SameCore(c: ClientState, c': ClientState) {
    && c'.id == c.id && c'.pacer == c.pacer && c'.suspended == c.suspended
    && c'.desired == c.desired && c'.lastDrive == c.lastDrive
  }

  ghost predicate SameCores(cs: seq<ClientState>, cs': seq<ClientState>) {
    |cs| == |cs'| && forall i | 0 <= i < |cs| :: SameCore(cs[i], cs'[i])
  }

  lemma SameCoresKeepCore(r: Room, r': Room)
    requires CoreInv(r) && BandwidthInv(r'.bw) && SameCores(r.clients, r'.clients)
    requires r'.hist.log == r.hist.log && r'.hist.joined == r.hist.joined
    ensures CoreInv(r')
  {
    SameIdsDistinct(r.clients, r'.clients);
    forall i | 0 <= i < |r'.clients|
      ensures Faithful(r'.clients[i], Of(r'.hist.log, r'.clients[i].id)) && ClientOk(r'.clients[i])
    {
      assert r.clients[i] in r.clients;
      SameCoreIsFaithful(r.clients[i], r'.clients[i], Of(r.hist.log, r.clients[i].id));
    }
  }

  lemma SameCoreIsFaithful(c: ClientState, c': ClientState, l: seq<Advance>)
    requires SameCore(c, c') && ClientOk(c) && Faithful(c, l)
    ensures ClientOk(c') && Faithful(c', l)
  {
  }

  lemma FanoutKeepsCore(r: Room, e: Event)
    requires CoreInv(r)
    ensures CoreInv(Fanout(r, e)) && Fanout(r, e).hist.log == r.hist.log
  {
    var r' := Fanout(r, e);
    match e {
      case MediaData(origin, f) =>
        forall i | 0 <= i < |r.clients| ensures SameCore(r.clients[i], r'.clients[i]) {
          FanClientKeepsCore(r.clients[i], IdSet(r.clients), origin, f);
        }
      case TrackOpen(t) =>
      case _ =>
    }
    SameCoresKeepCore(r, r');
  }

  lemma FanClientKeepsCore(c: ClientState, live: set<ClientId>, origin: ClientId, f: Frame)
    ensures SameCore(c, FanClient(c, live, origin, f))
  {
  }

  lemma InsertKeepsCore(r: Room, id: ClientId)
    requires CoreInv(r)
    ensures CoreInv(Insert(r, id))
  {
    if id !in r.hist.joined {
      DefaultIsUsable();
      StepKeepsOk(r, Join(id));
      var r' := Insert(r, id);
      var n := |r.clients|;
      assert r'.clients[..n] == r.clients;
      IdSetSnoc(r'.clients, n);
      assert r'.clients[..n + 1] == r'.clients;
      OfAbsent(r.hist.log, id);
      forall c | c in r'.clients ensures Faithful(c, Of(r'.hist.log, c.id)) {
        if c !in r.clients {
          assert c == r'.clients[n] && c.id == id;
          assert RunDrive(id, []) == FreshClient(id);
        }
      }
    }
  }

  lemma {:induction false} SurvivorsAreClients(cs: seq<ClientState>, dead: set<ClientId>)
    ensures forall c | c in Survivors(cs, dead) :: c in cs && c.id !in dead
  {
    if cs != [] {
      SurvivorsAreClients(cs[..|cs| - 1], dead);
    }
  }

  lemma SurvivorIds(cs: seq<ClientState>, dead: set<ClientId>)
    ensures IdSet(Survivors(cs, dead)) <= IdSet(cs)
  {
    SurvivorsAreClients(cs, dead);
    var s := Survivors(cs, dead);
    forall x | x in IdSet(s) ensures x in IdSet(cs) {
      var i :| 0 <= i < |s| && s[i].id == x;
      assert s[i] in s;
      var j :| 0 <= j < |cs| && cs[j] == s[i];
      assert cs[j].id == x;
    }
  }

  lemma {:induction false} SurvivorsStayDistinct(cs: seq<ClientState>, dead: set<ClientId>)
    requires DistinctIds(cs)
    ensures DistinctIds(Survivors(cs, dead))
  {
    if cs != [] {
      var n := |cs| - 1;
      SurvivorsStayDistinct(cs[..n], dead);
      SurvivorIds(cs[..n], dead);
      var s := Survivors(cs, dead);
      if cs[n].id in dead {
        assert s == Survivors(cs[..n], dead);
      } else {
        assert s[..|s| - 1] == Survivors(cs[..n], dead);
      }
    }
  }

  lemma ReapKeepsCore(r: Room, dead: set<ClientId>)
    requires CoreInv(r)
    ensures CoreInv(Reap(r, dead))
  {
    SurvivorsOk(r.clients, dead);
    SurvivorsAreClients(r.clients, dead);
    SurvivorIds(r.clients, dead);
    SurvivorsStayDistinct(r.clients, dead);
  }

  lemma {:induction false} PollKeepsCore(r: Room, ps: seq<Polled>)
    requires CoreInv(r)
    ensures CoreInv(PollEach(r, ps)) && PollEach(r, ps).hist == r.hist
  {
    if ps != [] {
      var f := PollEach(r, ps[..|ps| - 1]);
      PollKeepsCore(r, ps[..|ps| - 1]);
      PollOneKeepsOk(f, ps[|ps| - 1]);
      SameCoresKeepCore(f, PollOne(f, ps[|ps| - 1]));
    }
  }

  lemma PollAllKeepsCore(r: Room, ps: seq<Polled>, arrivalMs: real)
    requires CoreInv(r)
    ensures CoreInv(PollAll(r, ps, arrivalMs))
  {
    PollKeepsCore(r, ps);
    StepKeepsOk(r, Poll(ps, arrivalMs));
    SameCoresKeepCore(PollEach(r, ps), PollAll(r, ps, arrivalMs));
  }

  lemma DrainOneKeepsCore(r: Room, now: Instant)
    requires CoreInv(r) && r.queue != []
    ensures CoreInv(DrainOne(r, now))
  {
    var e, rest := r.queue[0], Popped(r);
    SameCoresKeepCore(r, rest);
    match e
    case ClientBudgetHint(peer, bps) =>
      HintKeepsInv(rest.bw, peer, bps, now);
      SameCoresKeepCore(rest, DrainOne(r, now));
    case MediaData(origin, _) =>
      UpdateKeepsCore(rest, origin, now);
      FanoutKeepsCore(UpdateLayers(rest, origin, now), e);
    case _ => FanoutKeepsCore(rest, e);
  }

  lemma {:induction false} DrainKeepsCore(r: Room, now: Instant)
    requires CoreInv(r)
    ensures CoreInv(Drain(r, now))
    decreases MediaLeft(r.queue), |r.queue|
  {
    if r.queue != [] {
      DrainOneKeepsCore(r, now);
      DrainOneProgress(r, now);
      DrainKeepsCore(DrainOne(r, now), now);
    }
  }

  /** Every operation keeps the core. */
  lemma StepKeepsCore(r: Room, op: Op)
    requires CoreInv(r)
    ensures CoreInv(Step(r, op))
  {
    StepKeepsOk(r, op);
    match op
    case Join(id) => InsertKeepsCore(r, id);
    case ReapDead(dead) => ReapKeepsCore(r, dead);
    case Poll(ps, arrivalMs) => PollAllKeepsCore(r, ps, arrivalMs);
    case UpdatePacers(origin, now) => UpdateKeepsCore(r, origin, now);
    case FanoutPending(now) => DrainKeepsCore(r, now);
    case Feed(_, _) => SameCoresKeepCore(r, Step(r, op));
    case Notify(_) => SameCoresKeepCore(r, Step(r, op));
  }

  lemma {:induction false} TraceKeepsCore(ops: seq<Op>)
    ensures CoreInv(Trace(ops))
  {
    if ops != [] {
      TraceKeepsCore(ops[..|ops| - 1]);
      StepKeepsCore(Trace(ops[..|ops| - 1]), ops[|ops| - 1]);
    } else {
      assert forall id :: Of([], id) == [];
    }
  }
}
