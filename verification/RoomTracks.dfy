/** What clients know of each other's tracks, and what the room notes of what a
    client publishes (src/client/mod.rs, src/registry/mod.rs, src/fanout.rs). */
module RoomTracks {
  import opened Basics
  import opened Pacer
  import opened Estimator
  import opened Clients
  import opened Rooms
  import opened RoomInvariants
  import opened RoomEvents

  // ------------------------------------------------------------------ who knows what

  /** A client's published tracks are its own; the tracks it was told of are not. */
  ghost predicate Owned(c: ClientState) {
    && (forall t | t in c.tracksIn :: t.origin == c.id)
    && (forall t | t in c.tracksOut :: t.origin != c.id)
  }

  /** `d` was told of every track of `c`, or is about to be. */
  ghost predicate Knows(d: ClientState, c: ClientState, queue: seq<Event>) {
    forall t | t in c.tracksIn :: t in d.tracksOut || TrackOpen(t) in queue
  }

  /** Nobody was told of a track that no client announced. */
  ghost predicate Announced(c: ClientState, emitted: seq<Event>) {
    && (forall t | t in c.tracksIn :: TrackOpen(t) in emitted)
    && (forall t | t in c.tracksOut :: TrackOpen(t) in emitted)
  }

  ghost predicate TrackInv(r: Room) {
    && (forall c | c in r.clients :: Owned(c) && Announced(c, Emitted(r)))
    && (forall c, d | c in r.clients && d in r.clients && c.id != d.id :: Knows(d, c, r.queue))
  }

  ghost predicate SameTracks(c: ClientState, c': ClientState) {
    c'.id == c.id && c'.tracksIn == c.tracksIn && c'.tracksOut == c.tracksOut
  }

  ghost predicate NoFewer(q: seq<Event>, q': seq<Event>) {
    forall e | e in q :: e in q'
  }

  lemma StillKnows(d: ClientState, c: ClientState, d': ClientState, c': ClientState, q: seq<Event>, q': seq<Event>)
    requires Knows(d, c, q) && SameTracks(c, c') && SameTracks(d, d') && NoFewer(q, q')
    ensures Knows(d', c', q')
  {
  }

  /** Steps that open no track and take none off the queue. */
  lemma QuietKeepsTracks(r: Room, r': Room)
    requires TrackInv(r) && |r'.clients| == |r.clients|
    requires forall i | 0 <= i < |r.clients| :: SameTracks(r.clients[i], r'.clients[i])
    requires NoFewer(r.queue, r'.queue) && NoFewer(Emitted(r), Emitted(r'))
    ensures TrackInv(r')
  {
    forall c | c in r'.clients ensures Owned(c) && Announced(c, Emitted(r')) {
      var i :| 0 <= i < |r'.clients| && r'.clients[i] == c;
      assert r.clients[i] in r.clients && SameTracks(r.clients[i], c);
      assert Announced(r.clients[i], Emitted(r));
    }
    forall c, d | c in r'.clients && d in r'.clients && c.id != d.id ensures Knows(d, c, r'.queue) {
      var i :| 0 <= i < |r'.clients| && r'.clients[i] == c;
      var j :| 0 <= j < |r'.clients| && r'.clients[j] == d;
      assert r.clients[i] in r.clients && r.clients[j] in r.clients;
      assert SameTracks(r.clients[i], c) && SameTracks(r.clients[j], d);
      StillKnows(r.clients[j], r.clients[i], d, c, r.queue, r'.queue);
    }
  }

  lemma TurnKeepsTracks(c: ClientState, bw: Bandwidth, origin: ClientId, now: Instant)
    requires ClientOk(c)
    ensures SameTracks(c, After(c, DriveOne(c, bw, origin, now)))
  {
  }

  lemma UpdateKeepsTracks(r: Room, origin: ClientId, now: Instant)
    requires RoomOk(r) && TrackInv(r)
    ensures TrackInv(UpdateLayers(r, origin, now))
  {
    var r' := UpdateLayers(r, origin, now);
    forall i | 0 <= i < |r.clients| ensures SameTracks(r.clients[i], r'.clients[i]) {
      TurnKeepsTracks(r.clients[i], r.bw, origin, now);
    }
    EmittedAppends(r, r', EventsOf(LogAll(Drives(r.clients, r.bw, origin, now))));
    QuietKeepsTracks(r, r');
  }

  lemma FrameKeepsTracks(r: Room, origin: ClientId, f: Frame)
    requires TrackInv(r)
    ensures TrackInv(Fanout(r, MediaData(origin, f)))
  {
    var r' := Fanout(r, MediaData(origin, f));
    forall i | 0 <= i < |r.clients| ensures SameTracks(r.clients[i], r'.clients[i]) {
      assert r'.clients[i] == FanClient(r.clients[i], IdSet(r.clients), origin, f);
    }
    QuietKeepsTracks(r, r');
  }

  // ----------------------------------------------------------------- opening a track

  /** What opening `t` does to one client. */
  ghost predicate Told(c: ClientState, c': ClientState, t: Track) {
    && c'.id == c.id && c'.tracksIn == c.tracksIn
    && c'.tracksOut == c.tracksOut + if c.id == t.origin then [] else [t]
  }

  lemma ToldKnows(d: ClientState, c: ClientState, d': ClientState, c': ClientState, q: seq<Event>, t: Track)
    requires q != [] && q[0] == TrackOpen(t) && Knows(d, c, q) && Told(c, c', t) && Told(d, d', t)
    requires Owned(c) && c.id != d.id
    ensures Knows(d', c', q[1..])
  {
    forall u | u in c'.tracksIn ensures u in d'.tracksOut || TrackOpen(u) in q[1..] {
      if u !in d.tracksOut {
        assert TrackOpen(u) in q;
        if u == t {
          assert d.id != t.origin;
        }
      }
    }
  }

  lemma TrackIsTold(r: Room, t: Track)
    requires TrackInv(r) && r.queue != [] && r.queue[0] == TrackOpen(t)
    ensures TrackInv(Fanout(Popped(r), TrackOpen(t)))
  {
    var r' := Fanout(Popped(r), TrackOpen(t));
    PoppedEmitsTheSame(r);
    assert TrackOpen(t) in Emitted(r') by {
      assert Emitted(r')[|r.hist.taken|] == TrackOpen(t);
    }
    assert forall i | 0 <= i < |r.clients| :: Told(r.clients[i], r'.clients[i], t);
    forall c | c in r'.clients ensures Owned(c) && Announced(c, Emitted(r')) {
      var i :| 0 <= i < |r'.clients| && r'.clients[i] == c;
      assert r.clients[i] in r.clients && Told(r.clients[i], c, t);
      assert Owned(r.clients[i]) && Announced(r.clients[i], Emitted(r));
    }
    forall c, d | c in r'.clients && d in r'.clients && c.id != d.id ensures Knows(d, c, r'.queue) {
      var i :| 0 <= i < |r'.clients| && r'.clients[i] == c;
      var j :| 0 <= j < |r'.clients| && r'.clients[j] == d;
      assert r.clients[i] in r.clients && r.clients[j] in r.clients;
      assert Told(r.clients[i], c, t) && Told(r.clients[j], d, t);
      ToldKnows(r.clients[j], r.clients[i], d, c, r.queue, t);
    }
  }

  lemma PoppedKeepsTracks(r: Room)
    requires TrackInv(r) && r.queue != [] && !r.queue[0].TrackOpen?
    ensures TrackInv(Popped(r))
  {
    var r' := Popped(r);
    PoppedEmitsTheSame(r);
    forall c, d | c in r'.clients && d in r'.clients && c.id != d.id ensures Knows(d, c, r'.queue) {
      assert Knows(d, c, r.queue);
      forall t | t in c.tracksIn ensures t in d.tracksOut || TrackOpen(t) in r'.queue {
        if t !in d.tracksOut {
          assert TrackOpen(t) in r.queue;
        }
      }
    }
  }

  lemma DrainOneKeepsTracks(r: Room, now: Instant)
    requires RoomOk(r) && TrackInv(r) && r.queue != []
    ensures TrackInv(DrainOne(r, now))
  {
    var e := r.queue[0];
    if e.TrackOpen? {
      TrackIsTold(r, e.track);
    } else {
      PoppedKeepsTracks(r);
      if e.MediaData? {
        UpdateKeepsTracks(Popped(r), e.origin, now);
        FrameKeepsTracks(UpdateLayers(Popped(r), e.origin, now), e.origin, e.frame);
      } else {
        QuietKeepsTracks(Popped(r), DrainOne(r, now));
      }
    }
  }

  lemma {:induction false} DrainKeepsTracks(r: Room, now: Instant)
    requires RoomOk(r) && TrackInv(r)
    ensures TrackInv(Drain(r, now))
    decreases MediaLeft(r.queue), |r.queue|
  {
    if r.queue != [] {
      DrainOneKeepsTracks(r, now);
      DrainOneProgress(r, now);
      DrainKeepsTracks(DrainOne(r, now), now);
    }
  }

  // ------------------------------------------------------------------------- polling

  /** What one polled output does to one client's notes. */
  ghost predicate Notes(c: ClientState, c': ClientState, p: Polled) {
    && c'.id == c.id && c'.tracksOut == c.tracksOut
    && c'.tracksIn == c.tracksIn + if c.id == p.id && p.output.TrackAdded?
                                   then [Track(c.id, p.output.mid, p.output.kind)] else []
  }

  lemma NotesKnow(d: ClientState, c: ClientState, d': ClientState, c': ClientState, q: seq<Event>, p: Polled)
    requires Knows(d, c, q) && Notes(c, c', p) && Notes(d, d', p)
    ensures Knows(d', c', q + [EventFor(p)])
  {
  }

  lemma PollOneKeepsTracks(r: Room, p: Polled)
    requires TrackInv(r)
    ensures TrackInv(PollOne(r, p))
  {
    var r' := PollOne(r, p);
    EmittedAppends(r, r', [EventFor(p)]);
    assert forall i | 0 <= i < |r.clients| :: Notes(r.clients[i], r'.clients[i], p);
    forall c | c in r'.clients ensures Owned(c) && Announced(c, Emitted(r')) {
      var i :| 0 <= i < |r'.clients| && r'.clients[i] == c;
      assert r.clients[i] in r.clients && Notes(r.clients[i], c, p);
      assert Owned(r.clients[i]) && Announced(r.clients[i], Emitted(r));
    }
    forall c, d | c in r'.clients && d in r'.clients && c.id != d.id ensures Knows(d, c, r'.queue) {
      var i :| 0 <= i < |r'.clients| && r'.clients[i] == c;
      var j :| 0 <= j < |r'.clients| && r'.clients[j] == d;
      assert r.clients[i] in r.clients && r.clients[j] in r.clients;
      assert Notes(r.clients[i], c, p) && Notes(r.clients[j], d, p);
      NotesKnow(r.clients[j], r.clients[i], d, c, r.queue, p);
    }
  }

  lemma {:induction false} PollKeepsTracks(r: Room, ps: seq<Polled>)
    requires TrackInv(r)
    ensures TrackInv(PollEach(r, ps))
  {
    if ps != [] {
      PollKeepsTracks(r, ps[..|ps| - 1]);
      PollOneKeepsTracks(PollEach(r, ps[..|ps| - 1]), ps[|ps| - 1]);
    }
  }

  // ------------------------------------------------------------------ coming and going

  lemma {:induction false} AllTracksExact(cs: seq<ClientState>, t: Track)
    ensures t in AllTracks(cs) <==> exists i :: 0 <= i < |cs| && t in cs[i].tracksIn
  {
    if cs != [] {
      var n := |cs| - 1;
      AllTracksExact(cs[..n], t);
      if i :| 0 <= i < |cs| && t in cs[i].tracksIn && t !in cs[n].tracksIn {
        assert cs[..n][i] == cs[i];
      }
    }
  }

  lemma NewcomerKnows(r: Room, id: ClientId)
    requires CoreInv(r) && TrackInv(r) && id !in r.hist.joined
    ensures var n := FreshClient(id).(tracksOut := AllTracks(r.clients));
            && Owned(n) && Announced(n, Emitted(r))
            && forall c | c in r.clients :: Knows(n, c, r.queue)
  {
    var n := FreshClient(id).(tracksOut := AllTracks(r.clients));
    forall t | t in n.tracksOut ensures t.origin != id && TrackOpen(t) in Emitted(r) {
      AllTracksExact(r.clients, t);
      var i :| 0 <= i < |r.clients| && t in r.clients[i].tracksIn;
      assert r.clients[i] in r.clients && r.clients[i].id in IdSet(r.clients);
      assert Owned(r.clients[i]) && Announced(r.clients[i], Emitted(r));
    }
    forall c | c in r.clients ensures Knows(n, c, r.queue) {
      var i :| 0 <= i < |r.clients| && r.clients[i] == c;
      forall t | t in c.tracksIn ensures t in n.tracksOut {
        AllTracksExact(r.clients, t);
      }
    }
  }

  lemma InsertKeepsTracks(r: Room, id: ClientId)
    requires CoreInv(r) && TrackInv(r)
    ensures TrackInv(Insert(r, id))
  {
    if id !in r.hist.joined {
      NewcomerKnows(r, id);
    }
  }

  lemma StepKeepsTracks(r: Room, op: Op)
    requires CoreInv(r) && TrackInv(r)
    ensures TrackInv(Step(r, op))
  {
    match op
    case Join(id) => InsertKeepsTracks(r, id);
    case ReapDead(dead) => SurvivorsAreClients(r.clients, dead);
    case Poll(ps, arrivalMs) =>
      PollKeepsTracks(r, ps);
      QuietKeepsTracks(PollEach(r, ps), Step(r, op));
    case UpdatePacers(origin, now) => UpdateKeepsTracks(r, origin, now);
    case FanoutPending(now) => DrainKeepsTracks(r, now);
    case Feed(_, _) => QuietKeepsTracks(r, Step(r, op));
    case Notify(peer) =>
      EmittedAppends(r, Step(r, op), [OtherEvent(peer)]);
      QuietKeepsTracks(r, Step(r, op));
  }

  lemma {:induction false} TraceKeepsTracks(ops: seq<Op>)
    ensures TrackInv(Trace(ops))
  {
    if ops != [] {
      TraceKeepsTracks(ops[..|ops| - 1]);
      TraceKeepsCore(ops[..|ops| - 1]);
      StepKeepsTracks(Trace(ops[..|ops| - 1]), ops[|ops| - 1]);
    }
  }

  /** Over every run, once the queue is drained, a client has been told of every
      track of every other client, whichever joined or published first; of none of
      its own; and of none that nobody announced. */
  lemma TracksAreKnown(ops: seq<Op>, c: ClientState, d: ClientState)
    requires c in Trace(ops).clients && d in Trace(ops).clients && c.id != d.id
    ensures Trace(ops).queue == [] ==> forall t | t in c.tracksIn :: t in d.tracksOut
    ensures forall t | t in d.tracksOut :: t.origin != d.id && TrackOpen(t) in Emitted(Trace(ops))
    ensures forall t | t in c.tracksIn :: t.origin == c.id
  {
    TraceKeepsTracks(ops);
    assert Knows(d, c, Trace(ops).queue) && Owned(c) && Owned(d) && Announced(d, Emitted(Trace(ops)));
  }

  // ------------------------------------------------------ what the room notes of a client

  ghost function RidsIn(ps: seq<Polled>, id: ClientId): set<Rid> {
    if ps == [] then {}
    else
      var p := ps[|ps| - 1];
      RidsIn(ps[..|ps| - 1], id)
      + if p.id == id && p.output.Media? && p.output.frame.rid.Some? then {p.output.frame.rid.value} else {}
  }

  ghost function TracksIn(ps: seq<Polled>, id: ClientId): seq<Track> {
    if ps == [] then []
    else
      var p := ps[|ps| - 1];
      TracksIn(ps[..|ps| - 1], id)
      + if p.id == id && p.output.TrackAdded? then [Track(id, p.output.mid, p.output.kind)] else []
  }

  /** The layers a client has been seen publishing since it joined. */
  ghost function LayersSeen(ops: seq<Op>, id: ClientId): set<Rid> {
    if ops == [] || id !in IdSet(Trace(ops[..|ops| - 1]).clients) then {}
    else
      var op := ops[|ops| - 1];
      LayersSeen(ops[..|ops| - 1], id) + if op.Poll? then RidsIn(op.polled, id) else {}
  }

  /** The tracks it has opened since. */
  ghost function TracksOpened(ops: seq<Op>, id: ClientId): seq<Track> {
    if ops == [] || id !in IdSet(Trace(ops[..|ops| - 1]).clients) then []
    else
      var op := ops[|ops| - 1];
      TracksOpened(ops[..|ops| - 1], id) + if op.Poll? then TracksIn(op.polled, id) else []
  }

  ghost function RidSet(c: ClientState): set<Rid> {
    set r | r in c.activeRids
  }

  /** `c'` is `c` with these layers and tracks noted besides. */
  ghost predicate Adds(c: ClientState, c': ClientState, rids: set<Rid>, ts: seq<Track>) {
    c'.id == c.id && RidSet(c') == RidSet(c) + rids && c'.tracksIn == c.tracksIn + ts
  }

  /** What one output adds. */
  ghost function RidOf(p: Polled, id: ClientId): set<Rid> {
    if p.id == id && p.output.Media? && p.output.frame.rid.Some? then {p.output.frame.rid.value} else {}
  }

  ghost function TrackOf(p: Polled, id: ClientId): seq<Track> {
    if p.id == id && p.output.TrackAdded? then [Track(id, p.output.mid, p.output.kind)] else []
  }

  lemma NotedAdds(c: ClientState, p: Polled)
    ensures Adds(c, if c.id == p.id then Noted(c, p.output) else c, RidOf(p, c.id), TrackOf(p, c.id))
  {
  }

  lemma AddsTwice(c: ClientState, d: ClientState, e: ClientState,
                  rs: set<Rid>, ts: seq<Track>, rs': set<Rid>, ts': seq<Track>)
    requires Adds(c, d, rs, ts) && Adds(d, e, rs', ts')
    ensures Adds(c, e, rs + rs', ts + ts')
  {
    assert c.tracksIn + ts + ts' == c.tracksIn + (ts + ts');
  }

  lemma {:induction false} PollAdds(r: Room, ps: seq<Polled>, i: nat)
    requires i < |r.clients|
    ensures var r', c := PollEach(r, ps), r.clients[i];
            |r'.clients| == |r.clients| && Adds(c, r'.clients[i], RidsIn(ps, c.id), TracksIn(ps, c.id))
  {
    if ps != [] {
      var f, p, c := ps[..|ps| - 1], ps[|ps| - 1], r.clients[i];
      PollAdds(r, f, i);
      var d := PollEach(r, f).clients[i];
      NotedAdds(d, p);
      AddsTwice(c, d, PollEach(r, ps).clients[i], RidsIn(f, c.id), TracksIn(f, c.id), RidOf(p, c.id), TrackOf(p, c.id));
    }
  }

  ghost predicate SamePublished(c: ClientState, c': ClientState) {
    c'.id == c.id && c'.activeRids == c.activeRids && c'.tracksIn == c.tracksIn
  }

  ghost predicate AllSamePublished(cs: seq<ClientState>, cs': seq<ClientState>) {
    |cs'| == |cs| && forall i | 0 <= i < |cs| :: SamePublished(cs[i], cs'[i])
  }

  lemma UpdateSamePublished(r: Room, origin: ClientId, now: Instant)
    requires RoomOk(r)
    ensures AllSamePublished(r.clients, UpdateLayers(r, origin, now).clients)
  {
    var r' := UpdateLayers(r, origin, now);
    forall i | 0 <= i < |r.clients| ensures SamePublished(r.clients[i], r'.clients[i]) {
      TurnSamePublished(r.clients[i], r.bw, origin, now);
    }
  }

  lemma TurnSamePublished(c: ClientState, bw: Bandwidth, origin: ClientId, now: Instant)
    requires ClientOk(c)
    ensures SamePublished(c, After(c, DriveOne(c, bw, origin, now)))
  {
  }

  lemma FanoutSamePublished(r: Room, e: Event)
    ensures AllSamePublished(r.clients, Fanout(r, e).clients)
  {
  }

  lemma DrainOneSamePublished(r: Room, now: Instant)
    requires RoomOk(r) && r.queue != []
    ensures AllSamePublished(r.clients, DrainOne(r, now).clients)
  {
    var e, rest := r.queue[0], Popped(r);
    if e.MediaData? {
      UpdateSamePublished(rest, e.origin, now);
      FanoutSamePublished(UpdateLayers(rest, e.origin, now), e);
      SamePublishedTrans(rest.clients, UpdateLayers(rest, e.origin, now).clients, DrainOne(r, now).clients);
    } else {
      FanoutSamePublished(rest, e);
    }
  }

  lemma SamePublishedTrans(a: seq<ClientState>, b: seq<ClientState>, c: seq<ClientState>)
    requires AllSamePublished(a, b) && AllSamePublished(b, c)
    ensures AllSamePublished(a, c)
  {
    forall i | 0 <= i < |a| ensures SamePublished(a[i], c[i]) {
      assert SamePublished(a[i], b[i]) && SamePublished(b[i], c[i]);
    }
  }

  lemma {:induction false} DrainSamePublished(r: Room, now: Instant)
    requires RoomOk(r)
    ensures AllSamePublished(r.clients, Drain(r, now).clients)
    decreases MediaLeft(r.queue), |r.queue|
  {
    if r.queue != [] {
      DrainOneSamePublished(r, now);
      DrainOneProgress(r, now);
      DrainSamePublished(DrainOne(r, now), now);
      SamePublishedTrans(r.clients, DrainOne(r, now).clients, Drain(r, now).clients);
    }
  }

  /** A client with exactly these layers and tracks on record. */
  ghost predicate OnRecord(c: ClientState, rids: set<Rid>, ts: seq<Track>) {
    RidSet(c) == rids && c.tracksIn == ts
  }

  ghost predicate Recorded(r: Room, ops: seq<Op>) {
    forall c | c in r.clients :: OnRecord(c, LayersSeen(ops, c.id), TracksOpened(ops, c.id))
  }

  /** The records of clients that were there before the last operation. */
  lemma RecordsOfPresent(ops: seq<Op>, id: ClientId)
    requires ops != [] && id in IdSet(Trace(ops[..|ops| - 1]).clients)
    ensures var f, op := ops[..|ops| - 1], ops[|ops| - 1];
            && LayersSeen(ops, id) == LayersSeen(f, id) + (if op.Poll? then RidsIn(op.polled, id) else {})
            && TracksOpened(ops, id) == TracksOpened(f, id) + (if op.Poll? then TracksIn(op.polled, id) else [])
  {
  }

  lemma QuietKeepsRecords(r: Room, r': Room, ops: seq<Op>)
    requires ops != [] && !ops[|ops| - 1].Poll? && r == Trace(ops[..|ops| - 1]) && Recorded(r, ops[..|ops| - 1])
    requires AllSamePublished(r.clients, r'.clients)
    ensures Recorded(r', ops)
  {
    forall c' | c' in r'.clients ensures OnRecord(c', LayersSeen(ops, c'.id), TracksOpened(ops, c'.id)) {
      var i :| 0 <= i < |r'.clients| && r'.clients[i] == c';
      assert SamePublished(r.clients[i], c') && r.clients[i] in r.clients;
      StayerKeepsRecord(ops, r.clients[i]);
    }
  }

  lemma PollKeepsRecords(r: Room, ops: seq<Op>, ps: seq<Polled>, arrivalMs: real)
    requires ops != [] && ops[|ops| - 1] == Poll(ps, arrivalMs)
    requires r == Trace(ops[..|ops| - 1]) && Recorded(r, ops[..|ops| - 1])
    ensures Recorded(PollAll(r, ps, arrivalMs), ops)
  {
    var r' := PollAll(r, ps, arrivalMs);
    assert r'.clients == PollEach(r, ps).clients;
    forall c' | c' in r'.clients ensures OnRecord(c', LayersSeen(ops, c'.id), TracksOpened(ops, c'.id)) {
      var i :| 0 <= i < |r'.clients| && r'.clients[i] == c';
      PollSameLength(r, ps);
      PollAdds(r, ps, i);
      assert r.clients[i] in r.clients;
      RecordsOfPresent(ops, c'.id);
    }
  }

  lemma {:induction false} PollSameLength(r: Room, ps: seq<Polled>)
    ensures |PollEach(r, ps).clients| == |r.clients|
  {
    if ps != [] {
      PollSameLength(r, ps[..|ps| - 1]);
    }
  }

  lemma StayerKeepsRecord(ops: seq<Op>, c: ClientState)
    requires ops != [] && !ops[|ops| - 1].Poll? && c in Trace(ops[..|ops| - 1]).clients
    requires Recorded(Trace(ops[..|ops| - 1]), ops[..|ops| - 1])
    ensures OnRecord(c, LayersSeen(ops, c.id), TracksOpened(ops, c.id))
  {
    var cs := Trace(ops[..|ops| - 1]).clients;
    var i :| 0 <= i < |cs| && cs[i] == c;
    RecordsOfPresent(ops, c.id);
  }

  lemma NewcomerHasNoRecord(ops: seq<Op>, id: ClientId)
    requires ops != [] && id !in IdSet(Trace(ops[..|ops| - 1]).clients)
    ensures LayersSeen(ops, id) == {} && TracksOpened(ops, id) == []
  {
  }

  lemma JoinKeepsRecords(ops: seq<Op>, r: Room, id: ClientId)
    requires ops != [] && ops[|ops| - 1] == Join(id) && r == Trace(ops[..|ops| - 1])
    requires CoreInv(r) && Recorded(r, ops[..|ops| - 1])
    ensures Recorded(Insert(r, id), ops)
  {
    forall c | c in Insert(r, id).clients ensures OnRecord(c, LayersSeen(ops, c.id), TracksOpened(ops, c.id)) {
      if c in r.clients {
        StayerKeepsRecord(ops, c);
      } else {
        NewcomerHasNoRecord(ops, id);
      }
    }
  }

  lemma ReapKeepsRecords(ops: seq<Op>, r: Room, dead: set<ClientId>)
    requires ops != [] && ops[|ops| - 1] == ReapDead(dead) && r == Trace(ops[..|ops| - 1])
    requires Recorded(r, ops[..|ops| - 1])
    ensures Recorded(Reap(r, dead), ops)
  {
    SurvivorsAreClients(r.clients, dead);
    forall c | c in Reap(r, dead).clients ensures OnRecord(c, LayersSeen(ops, c.id), TracksOpened(ops, c.id)) {
      StayerKeepsRecord(ops, c);
    }
  }

  /** Over every run, the layers and tracks on record for a client are exactly those
      it was seen publishing since it joined. */
  lemma {:induction false} PublicationsAreRecorded(ops: seq<Op>)
    ensures Recorded(Trace(ops), ops)
  {
    if ops != [] {
      var f, op := ops[..|ops| - 1], ops[|ops| - 1];
      PublicationsAreRecorded(f);
      var r := Trace(f);
      match op
      case Join(id) =>
        TraceKeepsCore(f);
        JoinKeepsRecords(ops, r, id);
      case ReapDead(dead) => ReapKeepsRecords(ops, r, dead);
      case Poll(ps, arrivalMs) => PollKeepsRecords(r, ops, ps, arrivalMs);
      case UpdatePacers(origin, now) =>
        UpdateSamePublished(r, origin, now);
        QuietKeepsRecords(r, Trace(ops), ops);
      case FanoutPending(now) =>
        DrainSamePublished(r, now);
        QuietKeepsRecords(r, Trace(ops), ops);
      case Feed(_, _) => QuietKeepsRecords(r, Trace(ops), ops);
      case Notify(_) => QuietKeepsRecords(r, Trace(ops), ops);
    }
  }
}
