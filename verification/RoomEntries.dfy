/** Whether estimator entries outlive their clients, which the eviction in the
    reap sweep is there to prevent (src/registry/lifecycle.rs). */
module RoomEntries {
  import opened Basics
  import opened Estimator
  import opened Clients
  import opened Rooms
  import opened RoomInvariants
  import GoogCc

  /** No entry without a client in the room. */
  ghost predicate NoOrphans(r: Room) {
    r.bw.Keys <= IdSet(r.clients)
  }

  // ------------------------------------------------------- who gets an entry, and when

  ghost function HintPeers(q: seq<Event>): set<ClientId> {
    if q == [] then {}
    else HintPeers(q[1..]) + if q[0].ClientBudgetHint? then {q[0].peer} else {}
  }

  ghost function EstimatePeers(ps: seq<Polled>): set<ClientId> {
    if ps == [] then {}
    else
      var p := ps[|ps| - 1];
      EstimatePeers(ps[..|ps| - 1]) + if p.output.EgressEstimate? then {p.id} else {}
  }

  /** The ids whose entry an operation writes, creating it if need be. A GoogCC
      packet only updates an entry that is there. */
  ghost function Writes(r: Room, op: Op): set<ClientId> {
    match op
    case Poll(ps, _) => EstimatePeers(ps)
    case Feed(id, f) => if f.GoogCcPacket? then {} else {id}
    case FanoutPending(_) => HintPeers(r.queue)
    case _ => {}
  }

  /** Everything the operation writes belongs to a client in the room: no polled
      estimate, feed or queued hint names a peer that is gone. */
  ghost predicate Addressed(r: Room, op: Op) {
    Writes(r, op) <= IdSet(r.clients)
  }

  // ---------------------------------------------------------------------- one operation

  lemma {:induction false} PollEntries(r: Room, ps: seq<Polled>)
    ensures PollEach(r, ps).bw.Keys == r.bw.Keys + EstimatePeers(ps)
    ensures IdSet(PollEach(r, ps).clients) == IdSet(r.clients)
  {
    if ps != [] {
      var f, p := ps[..|ps| - 1], ps[|ps| - 1];
      PollEntries(r, f);
      SameIdSet(PollEach(r, f).clients, NoteAt(PollEach(r, f).clients, p));
    }
  }

  lemma {:induction false} FeedEntries(m: Bandwidth, cs: seq<ClientState>, p: GoogCc.Packet)
    requires BandwidthInv(m)
    ensures FeedEach(m, cs, p).Keys == m.Keys
  {
    if cs != [] {
      FeedEntries(m, cs[..|cs| - 1], p);
    }
  }

  lemma PollAllEntries(r: Room, ps: seq<Polled>, arrivalMs: real)
    requires RoomOk(r)
    ensures var r' := PollAll(r, ps, arrivalMs);
            && r'.bw.Keys == r.bw.Keys + EstimatePeers(ps) && IdSet(r'.clients) == IdSet(r.clients)
            && r'.queue == PollEach(r, ps).queue
  {
    PollEntries(r, ps);
    PollEachKeepsOk(r, ps);
    var polled := PollEach(r, ps);
    if LastVideo(ps).Some? {
      FeedEntries(polled.bw, polled.clients, GoogCc.Packet(GoogCc.Stamp(arrivalMs, LastVideo(ps).value), 0.0));
    }
  }

  lemma FedEntries(m: Bandwidth, id: ClientId, f: Feeding)
    requires BandwidthInv(m)
    ensures Fed(m, id, f).Keys == m.Keys + if f.GoogCcPacket? then {} else {id}
  {
  }

  lemma ReapEntries(r: Room, dead: set<ClientId>)
    ensures var r' := Reap(r, dead);
            r'.bw.Keys == r.bw.Keys - IdSet(r.clients) * dead && IdSet(r'.clients) == IdSet(r.clients) - dead
  {
    SurvivorIdSet(r.clients, dead);
  }

  lemma {:induction false} HintPeersAppend(a: seq<Event>, b: seq<Event>)
    ensures HintPeers(a + b) == HintPeers(a) + HintPeers(b)
  {
    if a == [] {
      assert a + b == b;
    } else {
      HintPeersAppend(a[1..], b);
      assert (a + b)[1..] == a[1..] + b;
    }
  }

  lemma {:induction false} AnnouncementsHintNothing(log: seq<Advance>)
    ensures HintPeers(EventsOf(log)) == {}
  {
    if log != [] {
      var f, a := log[..|log| - 1], log[|log| - 1];
      AnnouncementsHintNothing(f);
      var e := Effect(a.action, a.id).0;
      if e.Some? {
        HintPeersAppend(EventsOf(f), [e.value]);
        assert [e.value][1..] == [];
      } else {
        assert EventsOf(log) == EventsOf(f);
      }
    }
  }

  lemma UpdateEntries(r: Room, origin: ClientId, now: Instant)
    requires RoomOk(r)
    ensures var r' := UpdateLayers(r, origin, now);
            && r'.bw == r.bw && IdSet(r'.clients) == IdSet(r.clients)
            && HintPeers(r'.queue) == HintPeers(r.queue)
  {
    var ds := Drives(r.clients, r.bw, origin, now);
    DrivesLabelled(r.clients, r.bw, origin, now);
    SameIdSet(r.clients, AfterAll(r.clients, ds));
    HintPeersAppend(r.queue, EventsOf(LogAll(ds)));
    AnnouncementsHintNothing(LogAll(ds));
  }

  lemma FanoutEntries(r: Room, e: Event)
    ensures var r' := Fanout(r, e);
            r'.bw == r.bw && IdSet(r'.clients) == IdSet(r.clients) && r'.queue == r.queue
  {
    SameIdSet(r.clients, Fanout(r, e).clients);
  }

  lemma DrainOneEntries(r: Room, now: Instant)
    requires RoomOk(r) && r.queue != []
    ensures var r' := DrainOne(r, now);
            && r'.bw.Keys + HintPeers(r'.queue) == r.bw.Keys + HintPeers(r.queue)
            && IdSet(r'.clients) == IdSet(r.clients)
  {
    var e, rest := r.queue[0], Popped(r);
    if e.MediaData? {
      UpdateEntries(rest, e.origin, now);
      FanoutEntries(UpdateLayers(rest, e.origin, now), e);
    } else {
      FanoutEntries(rest, e);
    }
  }

  lemma {:induction false} DrainEntries(r: Room, now: Instant)
    requires RoomOk(r)
    ensures Drain(r, now).bw.Keys == r.bw.Keys + HintPeers(r.queue)
    ensures IdSet(Drain(r, now).clients) == IdSet(r.clients)
    decreases MediaLeft(r.queue), |r.queue|
  {
    if r.queue != [] {
      DrainOneEntries(r, now);
      DrainOneProgress(r, now);
      DrainEntries(DrainOne(r, now), now);
    }
  }

  lemma {:induction false} SurvivorIdSet(cs: seq<ClientState>, dead: set<ClientId>)
    ensures IdSet(Survivors(cs, dead)) == IdSet(cs) - dead
  {
    if cs != [] {
      var n := |cs| - 1;
      SurvivorIdSet(cs[..n], dead);
      IdSetSnoc(cs, n);
      assert cs[..n + 1] == cs;
      var s := Survivors(cs, dead);
      if cs[n].id in dead {
        assert s == Survivors(cs[..n], dead);
      } else {
        IdSetSnoc(s, |s| - 1);
        assert s[..|s| - 1] == Survivors(cs[..n], dead) && s[..|s|] == s;
      }
    }
  }

  lemma InsertIds(r: Room, id: ClientId)
    ensures IdSet(Insert(r, id).clients) == IdSet(r.clients) + if id in r.hist.joined then {} else {id}
  {
    if id !in r.hist.joined {
      var cs, n := Insert(r, id).clients, |r.clients|;
      IdSetSnoc(cs, n);
      assert cs[..n] == r.clients && cs[..n + 1] == cs;
    }
  }

  /** The entries after an operation: those there were, and those it writes, less
      those of the clients it reaps. */
  lemma StepEntries(r: Room, op: Op)
    requires RoomOk(r)
    ensures Step(r, op).bw.Keys ==
            r.bw.Keys + Writes(r, op) - if op.ReapDead? then IdSet(r.clients) * op.dead else {}
    ensures IdSet(Step(r, op).clients) == match op {
              case Join(id) => IdSet(r.clients) + if id in r.hist.joined then {} else {id}
              case ReapDead(dead) => IdSet(r.clients) - dead
              case _ => IdSet(r.clients)
            }
  {
    match op
    case Join(id) => InsertIds(r, id);
    case ReapDead(dead) => ReapEntries(r, dead);
    case Poll(ps, arrivalMs) => PollAllEntries(r, ps, arrivalMs);
    case Feed(id, f) => FedEntries(r.bw, id, f);
    case UpdatePacers(origin, now) => UpdateEntries(r, origin, now);
    case FanoutPending(now) => DrainEntries(r, now);
    case Notify(_) =>
  }

  /** An operation leaves no orphan behind exactly when everything it writes
      belongs to a client in the room. */
  lemma StepOrphansIff(r: Room, op: Op)
    requires RoomOk(r) && NoOrphans(r)
    ensures NoOrphans(Step(r, op)) <==> Addressed(r, op)
  {
    StepEntries(r, op);
  }

  // -------------------------------------------------------------------------- whole runs

  ghost predicate NeverOrphans(ops: seq<Op>) {
    NoOrphans(Trace(ops)) && (ops == [] || NeverOrphans(ops[..|ops| - 1]))
  }

  ghost predicate AlwaysAddressed(ops: seq<Op>) {
    ops == [] ||
    (AlwaysAddressed(ops[..|ops| - 1]) && Addressed(Trace(ops[..|ops| - 1]), ops[|ops| - 1]))
  }

  /** A run is free of orphans throughout exactly when none of its operations
      wrote for a peer that was not in the room. */
  lemma {:induction false} NoOrphansIffAddressed(ops: seq<Op>)
    ensures NeverOrphans(ops) <==> AlwaysAddressed(ops)
  {
    if ops != [] {
      var front := ops[..|ops| - 1];
      NoOrphansIffAddressed(front);
      if NeverOrphans(front) {
        StepOrphansIff(Trace(front), ops[|ops| - 1]);
      }
    }
  }

  /** An entry whose client came and went. */
  ghost predicate Orphan(r: Room, id: ClientId) {
    id in r.bw && id in r.hist.joined && id !in IdSet(r.clients)
  }

  lemma StepJoined(r: Room, op: Op)
    requires RoomOk(r)
    ensures r.hist.joined <= Step(r, op).hist.joined
  {
    match op
    case Poll(ps, _) => PollKeepsHistory(r, ps);
    case FanoutPending(now) => DrainJoined(r, now);
    case _ =>
  }

  lemma {:induction false} DrainJoined(r: Room, now: Instant)
    requires RoomOk(r)
    ensures Drain(r, now).hist.joined == r.hist.joined
    decreases MediaLeft(r.queue), |r.queue|
  {
    if r.queue != [] {
      DrainOneProgress(r, now);
      DrainJoined(DrainOne(r, now), now);
    }
  }

  lemma OrphanStays(r: Room, op: Op, id: ClientId)
    requires RoomOk(r) && Orphan(r, id)
    ensures Orphan(Step(r, op), id)
  {
    StepEntries(r, op);
    StepJoined(r, op);
  }

  /** No later operation removes it: the reap sweep evicts only for clients it
      finds, and an id never joins twice. */
  lemma {:induction false} OrphansStay(ops: seq<Op>, later: seq<Op>, id: ClientId)
    requires Orphan(Trace(ops), id)
    ensures Orphan(Trace(ops + later), id)
  {
    if later == [] {
      assert ops + later == ops;
    } else {
      var f, op := later[..|later| - 1], later[|later| - 1];
      OrphansStay(ops, f, id);
      AppendLast(ops, later);
      TraceSnoc(ops + f, op);
      OrphanStays(Trace(ops + f), op, id);
    }
  }

  /** They do arise, for any client of any run: feedback that arrives after its
      subscriber was reaped, or enabling GoogCC then, brings the entry back. */
  lemma LateFeedLeavesOrphan(ops: seq<Op>, id: ClientId, f: Feeding)
    requires id in IdSet(Trace(ops).clients) && (f.Feedback? || f.EnableGoogCc?)
    ensures Orphan(Trace(ops + [ReapDead({id})] + [Feed(id, f)]), id)
  {
    var reaped := ops + [ReapDead({id})];
    TraceSnoc(ops, ReapDead({id}));
    TraceSnoc(reaped, Feed(id, f));
    StepEntries(Trace(ops), ReapDead({id}));
    StepEntries(Trace(reaped), Feed(id, f));
    TraceKeepsCore(ops);
  }

  // ---------------------------------------------------------------------- the UDP loop

  lemma {:induction false} PolledHintPeers(r: Room, ps: seq<Polled>, live: set<ClientId>)
    requires forall i | 0 <= i < |ps| :: ps[i].id in live
    ensures EstimatePeers(ps) <= live
    ensures HintPeers(PollEach(r, ps).queue) <= HintPeers(r.queue) + live
  {
    if ps != [] {
      var f, p := ps[..|ps| - 1], ps[|ps| - 1];
      PolledHintPeers(r, f, live);
      HintPeersAppend(PollEach(r, f).queue, [EventFor(p)]);
      assert [EventFor(p)][1..] == [];
    }
  }

  /** One turn of the UDP loop reaps, polls and drains, in that order, and polls
      only clients that are there. Unless a hint was already waiting, it leaves
      neither an orphan nor a queued event. */
  lemma LoopTurnLeavesNoOrphan(r: Room, dead: set<ClientId>, ps: seq<Polled>, arrivalMs: real, now: Instant)
    requires RoomOk(r) && NoOrphans(r) && HintPeers(r.queue) == {}
    requires forall i | 0 <= i < |ps| :: ps[i].id in IdSet(r.clients) - dead
    ensures RoomOk(Reap(r, dead)) && RoomOk(PollAll(Reap(r, dead), ps, arrivalMs))
    ensures var r' := Drain(PollAll(Reap(r, dead), ps, arrivalMs), now);
            NoOrphans(r') && r'.queue == []
  {
    var reaped := Reap(r, dead);
    StepKeepsOk(r, ReapDead(dead));
    var polled := PollAll(reaped, ps, arrivalMs);
    StepKeepsOk(reaped, Poll(ps, arrivalMs));
    ReapEntries(r, dead);
    PollAllEntries(reaped, ps, arrivalMs);
    PolledHintPeers(reaped, ps, IdSet(r.clients) - dead);
    DrainEntries(polled, now);
  }
}
