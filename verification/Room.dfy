/** The room as a step system (src/registry/drive.rs, src/registry/lifecycle.rs,
    src/registry/mod.rs, src/fanout.rs): clients, their estimators, the queue of
    propagated events and the counters, together with a history that the code
    does not keep but the theorems speak about. */
module Rooms {
  import opened Basics
  import opened PacerConfigs
  import opened Pacer
  import opened SendLog
  import opened CombineTerms
  import opened Subscriber
  import opened Estimator
  import opened Clients
  import GoogCc

  datatype Event =
    | MediaData(origin: ClientId, frame: Frame)
    | TrackOpen(track: Track)
    | BandwidthEstimate(peer: ClientId, bps: nat)
    | ClientBudgetHint(peer: ClientId, bps: nat)
    | AudioOnlyMode(peer: ClientId, audioOnly: bool)
    | SuspendVideoMode(peer: ClientId, suspended: bool)
    | OtherEvent(peer: ClientId)

  /** One advance of a subscriber's state machine. */
  datatype Advance = Advance(id: ClientId, now: Instant, reading: Reading, action: PacerAction)

  /** What became of one frame at one client, with the tracks it knew and the
      clients in the room; `at` is the number of advances seen by then. */
  datatype Delivery = Delivery(id: ClientId, origin: ClientId, frame: Frame, tracks: seq<Track>,
                               live: set<ClientId>, outcome: Outcome, at: nat)

  /** One media event fanned out, with the clients then in the room. */
  datatype Fanned = Fanned(origin: ClientId, frame: Frame, present: seq<ClientId>)

  datatype History = History(
    log: seq<Advance>,
    deliveries: seq<Delivery>,
    fanned: seq<Fanned>,
    taken: seq<Event>,
    joined: set<ClientId>,
    reapedSuspended: nat)

  datatype Room = Room(
    clients: seq<ClientState>,
    bw: Bandwidth,
    queue: seq<Event>,
    enters: nat,
    exits: nat,
    throttled: nat,
    hist: History)

  const EMPTY_ROOM := Room([], map[], [], 0, 0, 0, History([], [], [], [], {}, 0))

  ghost predicate ClientsOk(cs: seq<ClientState>) {
    forall i | 0 <= i < |cs| :: ClientOk(cs[i])
  }

  ghost predicate RoomOk(r: Room) {
    ClientsOk(r.clients) && BandwidthInv(r.bw)
  }

  function Ids(cs: seq<ClientState>): (ids: seq<ClientId>)
    ensures |ids| == |cs| && forall i | 0 <= i < |cs| :: ids[i] == cs[i].id
  {
    seq(|cs|, i requires 0 <= i < |cs| => cs[i].id)
  }

  function IdSet(cs: seq<ClientState>): set<ClientId> {
    set i | 0 <= i < |cs| :: cs[i].id
  }

  // ------------------------------------------------------------ driving the pacers

  /** `apply_pacer_action`: the event to enqueue and the new `suspended` flag. */
  function Effect(action: PacerAction, peer: ClientId): (Option<Event>, Option<bool>) {
    match action
    case GoAudioOnly => (Some(AudioOnlyMode(peer, true)), None)
    case RestoreVideo => (Some(AudioOnlyMode(peer, false)), None)
    case SuspendVideo => (Some(SuspendVideoMode(peer, true)), Some(true))
    case RestoreAudio => (Some(SuspendVideoMode(peer, false)), Some(false))
    case ChangeLayer(_) => (None, None)
    case NoChange => (None, None)
  }

  function Flagged(c: ClientState, action: PacerAction): ClientState {
    var flag := Effect(action, c.id).1;
    if flag.None? then c else c.(suspended := flag.value)
  }

  datatype Drive = Idle | Throttled | Advanced(client: ClientState, advance: Advance)

  /** One client's turn in `update_pacer_layers`. */
  ghost function DriveOne(c: ClientState, bw: Bandwidth, origin: ClientId, now: Instant): Drive
    requires ClientOk(c)
  {
    var reading := ReadingFor(bw, c.id, now);
    if c.id == origin || reading.None? then Idle
    else if !Ready(c.lastDrive, now) then Throttled
    else
      var action := Tick(DEFAULT_CONFIG, c.pacer, reading.value.bps).action;
      Advanced(Flagged(Driven(c.(lastDrive := Some(now)), reading.value.bps), action),
               Advance(c.id, now, reading.value, action))
  }

  ghost function After(c: ClientState, d: Drive): ClientState {
    if d.Advanced? then d.client else c
  }

  /** Every client's turn. A turn looks at its own client and the estimators
      only, so the turns of one sweep do not affect each other. */
  ghost function Drives(cs: seq<ClientState>, bw: Bandwidth, origin: ClientId, now: Instant): (ds: seq<Drive>)
    requires ClientsOk(cs)
    ensures |ds| == |cs| && forall i | 0 <= i < |cs| :: ds[i] == DriveOne(cs[i], bw, origin, now)
  {
    seq(|cs|, i requires 0 <= i < |cs| => DriveOne(cs[i], bw, origin, now))
  }

  ghost function AfterAll(cs: seq<ClientState>, ds: seq<Drive>): (r: seq<ClientState>)
    requires |cs| == |ds|
    ensures |r| == |cs| && forall i | 0 <= i < |cs| :: r[i] == After(cs[i], ds[i])
  {
    seq(|cs|, i requires 0 <= i < |cs| => After(cs[i], ds[i]))
  }

  ghost function LogOf(d: Drive): seq<Advance> {
    if d.Advanced? then [d.advance] else []
  }

  ghost function LogAll(ds: seq<Drive>): (log: seq<Advance>)
    ensures |log| <= |ds|
  {
    if ds == [] then [] else LogAll(ds[..|ds| - 1]) + LogOf(ds[|ds| - 1])
  }

  ghost function CountThrottled(ds: seq<Drive>): nat {
    if ds == [] then 0 else CountThrottled(ds[..|ds| - 1]) + if ds[|ds| - 1].Throttled? then 1 else 0
  }

  ghost function EventsOf(log: seq<Advance>): seq<Event> {
    if log == [] then []
    else
      var a := log[|log| - 1];
      var e := Effect(a.action, a.id).0;
      EventsOf(log[..|log| - 1]) + if e.None? then [] else [e.value]
  }

  ghost function CountActions(log: seq<Advance>, action: PacerAction): nat {
    if log == [] then 0
    else CountActions(log[..|log| - 1], action) + if log[|log| - 1].action == action then 1 else 0
  }

  lemma {:induction false} EventsAppend(a: seq<Advance>, b: seq<Advance>)
    ensures EventsOf(a + b) == EventsOf(a) + EventsOf(b)
  {
    if b == [] {
      assert a + b == a;
    } else {
      EventsAppend(a, b[..|b| - 1]);
      AppendFront(a, b);
    }
  }

  lemma {:induction false} CountAppends(a: seq<Advance>, b: seq<Advance>, action: PacerAction)
    ensures CountActions(a + b, action) == CountActions(a, action) + CountActions(b, action)
  {
    if b == [] {
      assert a + b == a;
    } else {
      CountAppends(a, b[..|b| - 1], action);
      AppendFront(a, b);
    }
  }

  /** Book the outcome of turns whose log is `log`. */
  ghost function Booked(r: Room, cs: seq<ClientState>, log: seq<Advance>, throttled: nat): Room {
    r.(clients := cs,
       queue := r.queue + EventsOf(log),
       enters := r.enters + CountActions(log, SuspendVideo),
       exits := r.exits + CountActions(log, RestoreAudio),
       throttled := r.throttled + throttled,
       hist := r.hist.(log := r.hist.log + log))
  }

  ghost function UpdateLayers(r: Room, origin: ClientId, now: Instant): Room
    requires RoomOk(r)
  {
    var ds := Drives(r.clients, r.bw, origin, now);
    Booked(r, AfterAll(r.clients, ds), LogAll(ds), CountThrottled(ds))
  }

  /** The room once the first `i` clients have had their turn. */
  ghost function PartialUpdate(r: Room, ds: seq<Drive>, i: nat): Room
    requires i <= |r.clients| == |ds|
  {
    Booked(r, AfterAll(r.clients[..i], ds[..i]) + r.clients[i..], LogAll(ds[..i]), CountThrottled(ds[..i]))
  }

  ghost function TurnAt(r: Room, i: nat, d: Drive): Room
    requires i < |r.clients|
  {
    Booked(r, r.clients[i := After(r.clients[i], d)], LogOf(d), if d.Throttled? then 1 else 0)
  }

  /** A turn that advances nothing leaves the room as it was. */
  lemma NoTurn(r: Room, i: nat)
    requires i < |r.clients|
    ensures TurnAt(r, i, Idle) == r
    ensures TurnAt(r, i, Throttled) == r.(throttled := r.throttled + 1)
  {
  }

  lemma OneAdvance(a: Advance)
    ensures var e := Effect(a.action, a.id).0;
            EventsOf([a]) == if e.None? then [] else [e.value]
    ensures forall x :: CountActions([a], x) == if a.action == x then 1 else 0
  {
  }

  lemma PartialUpdateStart(r: Room, ds: seq<Drive>)
    requires |r.clients| == |ds|
    ensures PartialUpdate(r, ds, 0) == r
  {
  }

  lemma PartialUpdateAhead(r: Room, ds: seq<Drive>, i: nat)
    requires i < |r.clients| == |ds|
    ensures var p := PartialUpdate(r, ds, i);
            |p.clients| == |r.clients| && p.clients[i] == r.clients[i] && p.bw == r.bw
  {
  }

  lemma PartialUpdateEnd(r: Room, ds: seq<Drive>)
    requires |r.clients| == |ds|
    ensures PartialUpdate(r, ds, |ds|) == Booked(r, AfterAll(r.clients, ds), LogAll(ds), CountThrottled(ds))
  {
    assert ds[..|ds|] == ds && r.clients[..|ds|] == r.clients && r.clients[|ds|..] == [];
    assert AfterAll(r.clients, ds) + [] == AfterAll(r.clients, ds);
  }

  lemma BookedTwice(r: Room, cs: seq<ClientState>, log: seq<Advance>, t: nat,
                    cs': seq<ClientState>, log': seq<Advance>, t': nat)
    ensures Booked(Booked(r, cs, log, t), cs', log', t') == Booked(r, cs', log + log', t + t')
  {
    EventsAppend(log, log');
    CountAppends(log, log', SuspendVideo);
    CountAppends(log, log', RestoreAudio);
    assert r.hist.log + log + log' == r.hist.log + (log + log');
    assert r.queue + EventsOf(log) + EventsOf(log') == r.queue + (EventsOf(log) + EventsOf(log'));
  }

  lemma PartialUpdateStep(r: Room, ds: seq<Drive>, i: nat)
    requires i < |r.clients| == |ds|
    ensures PartialUpdate(r, ds, i + 1) == TurnAt(PartialUpdate(r, ds, i), i, ds[i])
  {
    var cs := AfterAll(r.clients[..i], ds[..i]) + r.clients[i..];
    var cs' := AfterAll(r.clients[..i + 1], ds[..i + 1]) + r.clients[i + 1..];
    assert ds[..i + 1][..i] == ds[..i];
    assert cs' == cs[i := After(cs[i], ds[i])];
    BookedTwice(r, cs, LogAll(ds[..i]), CountThrottled(ds[..i]),
                cs', LogOf(ds[i]), if ds[i].Throttled? then 1 else 0);
  }

  // ------------------------------------------------------------------------ fanout

  function FanClient(c: ClientState, live: set<ClientId>, origin: ClientId, f: Frame): ClientState {
    if c.id == origin then c else Counted(c, MediaOutcome(c, live, origin, f))
  }

  function FanMedia(cs: seq<ClientState>, live: set<ClientId>, origin: ClientId, f: Frame): (r: seq<ClientState>)
    ensures |r| == |cs| && forall i | 0 <= i < |cs| :: r[i] == FanClient(cs[i], live, origin, f)
  {
    seq(|cs|, i requires 0 <= i < |cs| => FanClient(cs[i], live, origin, f))
  }

  ghost function DeliveryTo(c: ClientState, live: set<ClientId>, origin: ClientId, f: Frame, at: nat): seq<Delivery> {
    if c.id == origin then []
    else [Delivery(c.id, origin, f, c.tracksOut, live, MediaOutcome(c, live, origin, f), at)]
  }

  ghost function DeliveriesTo(cs: seq<ClientState>, live: set<ClientId>, origin: ClientId, f: Frame, at: nat)
    : (r: seq<seq<Delivery>>)
    ensures |r| == |cs| && forall i | 0 <= i < |cs| :: r[i] == DeliveryTo(cs[i], live, origin, f, at)
  {
    seq(|cs|, i requires 0 <= i < |cs| => DeliveryTo(cs[i], live, origin, f, at))
  }

  ghost function Joined(parts: seq<seq<Delivery>>): seq<Delivery> {
    if parts == [] then [] else Joined(parts[..|parts| - 1]) + parts[|parts| - 1]
  }

  ghost function Deliveries(cs: seq<ClientState>, live: set<ClientId>, origin: ClientId, f: Frame, at: nat)
    : seq<Delivery>
  {
    Joined(DeliveriesTo(cs, live, origin, f, at))
  }

  ghost function FanTrack(cs: seq<ClientState>, t: Track): (r: seq<ClientState>)
    ensures |r| == |cs|
  {
    seq(|cs|, i requires 0 <= i < |cs| =>
      if cs[i].id == t.origin then cs[i] else cs[i].(tracksOut := cs[i].tracksOut + [t]))
  }

  /** One event to every client but its originator; only media and new tracks
      change anything modelled here. */
  ghost function Fanout(r: Room, e: Event): Room {
    match e
    case MediaData(origin, f) =>
      var live := IdSet(r.clients);
      r.(clients := FanMedia(r.clients, live, origin, f),
         hist := r.hist.(deliveries := r.hist.deliveries + Deliveries(r.clients, live, origin, f, |r.hist.log|),
                         fanned := r.hist.fanned + [Fanned(origin, f, Ids(r.clients))]))
    case TrackOpen(t) => r.(clients := FanTrack(r.clients, t))
    case _ => r
  }

  function MediaLeft(q: seq<Event>): nat {
    if q == [] then 0 else (if q[0].MediaData? then 1 else 0) + MediaLeft(q[1..])
  }

  /** The room once the event at the head of the queue is taken. */
  ghost function Popped(r: Room): Room
    requires r.queue != []
  {
    r.(queue := r.queue[1..], hist := r.hist.(taken := r.hist.taken + [r.queue[0]]))
  }

  /** Take the event at the head of the queue and deal with it. */
  ghost function DrainOne(r: Room, now: Instant): Room
    requires RoomOk(r) && r.queue != []
  {
    var e, rest := r.queue[0], Popped(r);
    match e
    case ClientBudgetHint(peer, bps) => rest.(bw := WithHint(rest.bw, peer, bps, now))
    case MediaData(origin, _) => Fanout(UpdateLayers(rest, origin, now), e)
    case _ => Fanout(rest, e)
  }

  lemma {:induction false} MediaLeftAppends(a: seq<Event>, b: seq<Event>)
    ensures MediaLeft(a + b) == MediaLeft(a) + MediaLeft(b)
  {
    if a == [] {
      assert a + b == b;
    } else {
      MediaLeftAppends(a[1..], b);
      assert (a + b)[1..] == a[1..] + b;
    }
  }

  lemma {:induction false} EventsCarryNoMedia(log: seq<Advance>)
    ensures MediaLeft(EventsOf(log)) == 0
  {
    if log != [] {
      EventsCarryNoMedia(log[..|log| - 1]);
      var e := Effect(log[|log| - 1].action, log[|log| - 1].id).0;
      if e.Some? {
        MediaLeftAppends(EventsOf(log[..|log| - 1]), [e.value]);
        assert [e.value][1..] == [];
      } else {
        assert EventsOf(log) == EventsOf(log[..|log| - 1]);
      }
    }
  }

  lemma DriveKeepsOk(c: ClientState, bw: Bandwidth, origin: ClientId, now: Instant)
    requires ClientOk(c)
    ensures ClientOk(After(c, DriveOne(c, bw, origin, now)))
  {
  }

  lemma FanoutKeepsOk(r: Room, e: Event)
    requires RoomOk(r)
    ensures RoomOk(Fanout(r, e)) && Fanout(r, e).queue == r.queue
  {
  }

  lemma UpdateLayersKeepsOk(r: Room, origin: ClientId, now: Instant)
    requires RoomOk(r)
    ensures RoomOk(UpdateLayers(r, origin, now))
    ensures MediaLeft(UpdateLayers(r, origin, now).queue) == MediaLeft(r.queue)
  {
    var ds := Drives(r.clients, r.bw, origin, now);
    forall i | 0 <= i < |r.clients| ensures ClientOk(AfterAll(r.clients, ds)[i]) {
      DriveKeepsOk(r.clients[i], r.bw, origin, now);
    }
    EventsCarryNoMedia(LogAll(ds));
    MediaLeftAppends(r.queue, EventsOf(LogAll(ds)));
  }

  lemma HintKeepsInv(m: Bandwidth, peer: ClientId, bps: nat, now: Instant)
    requires BandwidthInv(m)
    ensures BandwidthInv(WithHint(m, peer, bps, now))
  {
  }

  /** Draining enqueues as it goes, yet each turn uses up a media event or
      shortens the queue. */
  lemma DrainOneProgress(r: Room, now: Instant)
    requires RoomOk(r) && r.queue != []
    ensures RoomOk(DrainOne(r, now))
    ensures var q := DrainOne(r, now).queue;
            || MediaLeft(q) < MediaLeft(r.queue)
            || (MediaLeft(q) == MediaLeft(r.queue) && |q| < |r.queue|)
  {
    var e, rest := r.queue[0], Popped(r);
    match e
    case ClientBudgetHint(peer, bps) => HintKeepsInv(rest.bw, peer, bps, now);
    case MediaData(origin, _) =>
      UpdateLayersKeepsOk(rest, origin, now);
      FanoutKeepsOk(UpdateLayers(rest, origin, now), e);
    case _ => FanoutKeepsOk(rest, e);
  }

  /** `fanout_pending` with the clock read once at the start. */
  ghost function Drain(r: Room, now: Instant): (r': Room)
    requires RoomOk(r)
    ensures RoomOk(r') && r'.queue == []
    decreases MediaLeft(r.queue), |r.queue|
  {
    if r.queue == [] then r
    else
      DrainOneProgress(r, now);
      Drain(DrainOne(r, now), now)
  }

  // ------------------------------------------------------------------------- polling

  datatype Output =
    | EgressEstimate(bps: nat)
    | Media(frame: Frame)
    | TrackAdded(mid: nat, kind: Kind)
    | Budget(bps: nat)
    | OtherOutput

  /** One result of polling the client `id`. */
  datatype Polled = Polled(id: ClientId, output: Output)

  function Noted(c: ClientState, o: Output): ClientState {
    match o
    case Media(f) =>
      if f.rid.Some? && f.rid.value !in c.activeRids
      then c.(activeRids := c.activeRids + [f.rid.value]) else c
    case TrackAdded(mid, kind) => c.(tracksIn := c.tracksIn + [Track(c.id, mid, kind)])
    case _ => c
  }

  function EventFor(p: Polled): Event {
    match p.output
    case EgressEstimate(bps) => BandwidthEstimate(p.id, bps)
    case Media(f) => MediaData(p.id, f)
    case TrackAdded(mid, kind) => TrackOpen(Track(p.id, mid, kind))
    case Budget(bps) => ClientBudgetHint(p.id, bps)
    case OtherOutput => OtherEvent(p.id)
  }

  function NoteAt(cs: seq<ClientState>, p: Polled): (r: seq<ClientState>)
    ensures |r| == |cs|
  {
    seq(|cs|, i requires 0 <= i < |cs| => if cs[i].id == p.id then Noted(cs[i], p.output) else cs[i])
  }

  function PollOne(r: Room, p: Polled): Room {
    r.(clients := NoteAt(r.clients, p),
       bw := if p.output.EgressEstimate? then WithNative(r.bw, p.id, Num(p.output.bps as real)) else r.bw,
       queue := r.queue + [EventFor(p)])
  }

  function PollEach(r: Room, ps: seq<Polled>): Room {
    if ps == [] then r else PollOne(PollEach(r, ps[..|ps| - 1]), ps[|ps| - 1])
  }

  /** Send timestamp of the last video frame seen in the pass. */
  function LastVideo(ps: seq<Polled>): Option<real> {
    if ps == [] then None
    else
      var o := ps[|ps| - 1].output;
      if o.Media? && o.frame.videoCodec then Some(o.frame.sendMs) else LastVideo(ps[..|ps| - 1])
  }

  ghost function FeedEach(m: Bandwidth, cs: seq<ClientState>, p: GoogCc.Packet): (r: Bandwidth)
    requires BandwidthInv(m)
    ensures BandwidthInv(r)
  {
    if cs == [] then m
    else
      var prev := FeedEach(m, cs[..|cs| - 1], p);
      PacketKeepsInv(prev, cs[|cs| - 1].id, p);
      WithPacket(prev, cs[|cs| - 1].id, p)
  }

  lemma PacketKeepsInv(m: Bandwidth, id: ClientId, p: GoogCc.Packet)
    requires BandwidthInv(m)
    ensures BandwidthInv(WithPacket(m, id, p))
  {
  }

  lemma PollOneKeepsOk(r: Room, p: Polled)
    requires RoomOk(r)
    ensures RoomOk(PollOne(r, p))
  {
  }

  lemma {:induction false} PollEachKeepsOk(r: Room, ps: seq<Polled>)
    requires RoomOk(r)
    ensures RoomOk(PollEach(r, ps))
  {
    if ps != [] {
      PollEachKeepsOk(r, ps[..|ps| - 1]);
      PollOneKeepsOk(PollEach(r, ps[..|ps| - 1]), ps[|ps| - 1]);
    }
  }

  lemma {:induction false} PollKeepsHistory(r: Room, ps: seq<Polled>)
    ensures PollEach(r, ps).hist == r.hist
  {
    if ps != [] {
      PollKeepsHistory(r, ps[..|ps| - 1]);
    }
  }

  /** `poll_all`, given what polling returned in order: events are queued, native
      estimates recorded, and every client's GoogCC estimator is fed the pass's
      last video timing with zero loss. */
  ghost function PollAll(r: Room, ps: seq<Polled>, arrivalMs: real): Room
    requires RoomOk(r)
  {
    PollEachKeepsOk(r, ps);
    var polled, video := PollEach(r, ps), LastVideo(ps);
    if video.None? then polled
    else polled.(bw := FeedEach(polled.bw, polled.clients,
                                GoogCc.Packet(GoogCc.Stamp(arrivalMs, video.value), 0.0)))
  }

  // ----------------------------------------------------------------------- lifecycle

  function AllTracks(cs: seq<ClientState>): seq<Track> {
    if cs == [] then [] else AllTracks(cs[..|cs| - 1]) + cs[|cs| - 1].tracksIn
  }

  /** A freshly built client joins and is told of every published track. Ids come
      from a process-wide counter, so no id joins twice. */
  function Insert(r: Room, id: ClientId): Room {
    if id in r.hist.joined then r
    else r.(clients := r.clients + [FreshClient(id).(tracksOut := AllTracks(r.clients))],
            hist := r.hist.(joined := r.hist.joined + {id}))
  }

  function Survivors(cs: seq<ClientState>, dead: set<ClientId>): (r: seq<ClientState>)
    ensures |r| <= |cs|
  {
    if cs == [] then []
    else Survivors(cs[..|cs| - 1], dead) + if cs[|cs| - 1].id in dead then [] else [cs[|cs| - 1]]
  }

  lemma IdSetSnoc(cs: seq<ClientState>, i: nat)
    requires i < |cs|
    ensures IdSet(cs[..i + 1]) == IdSet(cs[..i]) + {cs[i].id}
  {
  }

  lemma EvictStep(bw: Bandwidth, cs: seq<ClientState>, dead: set<ClientId>, i: nat)
    requires i < |cs|
    ensures bw - (IdSet(cs[..i + 1]) * dead) ==
            var before := bw - (IdSet(cs[..i]) * dead);
            if cs[i].id in dead then before - {cs[i].id} else before
  {
  }

  function CountSuspended(cs: seq<ClientState>): nat {
    if cs == [] then 0
    else CountSuspended(cs[..|cs| - 1]) + if cs[|cs| - 1].suspended then 1 else 0
  }

  function DeadSuspended(cs: seq<ClientState>, dead: set<ClientId>): nat {
    if cs == [] then 0
    else
      DeadSuspended(cs[..|cs| - 1], dead)
      + if cs[|cs| - 1].id in dead && cs[|cs| - 1].suspended then 1 else 0
  }

  /** Estimator entries leave in the same sweep as their clients. */
  function Reap(r: Room, dead: set<ClientId>): Room {
    r.(clients := Survivors(r.clients, dead),
       bw := r.bw - (IdSet(r.clients) * dead),
       hist := r.hist.(reapedSuspended := r.hist.reapedSuspended + DeadSuspended(r.clients, dead)))
  }

  // ----------------------------------------------------------------------------- runs

  /** What reaches one subscriber's estimators from outside the drain. */
  datatype Feeding =
    | Feedback(samples: seq<TwccSample>, now: Instant)
    | SendTime(sent: Sent)
    | EnableGoogCc
    | GoogCcPacket(packet: GoogCc.Packet)

  ghost function Fed(m: Bandwidth, id: ClientId, f: Feeding): Bandwidth
    requires BandwidthInv(m)
  {
    match f
    case Feedback(xs, now) => WithFeedback(m, id, xs, now)
    case SendTime(sent) => WithSend(m, id, sent)
    case EnableGoogCc => WithGoogcc(m, id)
    case GoogCcPacket(p) => WithPacket(m, id, p)
  }

  lemma FedKeepsInv(m: Bandwidth, id: ClientId, f: Feeding)
    requires BandwidthInv(m)
    ensures BandwidthInv(Fed(m, id, f))
  {
    EntryKeepsInv(m, id);
    match f
    case Feedback(xs, now) => IngestKeepsInv(Entry(m, id), xs, now);
    case SendTime(sent) => RecordedStaysBounded(Entry(m, id).sendTimes, sent);
    case EnableGoogCc =>
    case GoogCcPacket(p) => PacketKeepsInv(m, id, p);
  }

  /** `Notify` stands for the other code that enqueues: the speaker tick and the
      publisher layer hints, whose events change nothing modelled here. */
  datatype Op =
    | Join(id: ClientId)
    | ReapDead(dead: set<ClientId>)
    | Poll(polled: seq<Polled>, arrivalMs: real)
    | Feed(id: ClientId, feed: Feeding)
    | UpdatePacers(origin: ClientId, now: Instant)
    | FanoutPending(now: Instant)
    | Notify(peer: ClientId)

  ghost function Step(r: Room, op: Op): Room
    requires RoomOk(r)
  {
    match op
    case Join(id) => Insert(r, id)
    case ReapDead(dead) => Reap(r, dead)
    case Poll(ps, arrivalMs) => PollAll(r, ps, arrivalMs)
    case Feed(id, f) => r.(bw := Fed(r.bw, id, f))
    case UpdatePacers(origin, now) => UpdateLayers(r, origin, now)
    case FanoutPending(now) => Drain(r, now)
    case Notify(peer) => r.(queue := r.queue + [OtherEvent(peer)])
  }

  lemma {:induction false} SurvivorsOk(cs: seq<ClientState>, dead: set<ClientId>)
    requires ClientsOk(cs)
    ensures ClientsOk(Survivors(cs, dead))
  {
    if cs != [] {
      SurvivorsOk(cs[..|cs| - 1], dead);
    }
  }

  lemma StepKeepsOk(r: Room, op: Op)
    requires RoomOk(r)
    ensures RoomOk(Step(r, op))
  {
    match op
    case Join(id) => DefaultIsUsable(); UsableOrder(DEFAULT_CONFIG);
    case ReapDead(dead) => SurvivorsOk(r.clients, dead);
    case Poll(ps, _) => PollEachKeepsOk(r, ps);
    case Feed(id, f) => FedKeepsInv(r.bw, id, f);
    case UpdatePacers(origin, now) => UpdateLayersKeepsOk(r, origin, now);
    case FanoutPending(now) =>
    case Notify(_) =>
  }

  ghost function Trace(ops: seq<Op>): (r: Room)
    ensures RoomOk(r)
  {
    if ops == [] then EMPTY_ROOM
    else
      var before := Trace(ops[..|ops| - 1]);
      StepKeepsOk(before, ops[|ops| - 1]);
      Step(before, ops[|ops| - 1])
  }

  lemma TraceSnoc(ops: seq<Op>, op: Op)
    ensures Trace(ops + [op]) == Step(Trace(ops), op)
  {
    assert (ops + [op])[..|ops|] == ops;
  }
}
