/** The events that pass through the room's queue: nothing is lost, duplicated or
    reordered, and what a consumer of the pacer's announcements can tell. */
module RoomEvents {
  import opened Basics
  import opened PacerConfigs
  import opened Pacer
  import opened PacerHistory
  import opened Clients
  import opened Estimator
  import opened Rooms
  import opened RoomInvariants

  // --------------------------------------------------------------- through the queue

  datatype Source = Pacers | Clientele | Publishers | Hinters

  /** Mode announcements come from the pacers, everything else from the clients
      or from code that speaks for them; media comes from those that publish. */
  ghost predicate From(e: Event, source: Source) {
    match source
    case Pacers => e.AudioOnlyMode? || e.SuspendVideoMode?
    case Clientele => !e.AudioOnlyMode? && !e.SuspendVideoMode?
    case Publishers => e.MediaData?
    case Hinters => e.ClientBudgetHint?
  }

  ghost function Select(es: seq<Event>, source: Source): (r: seq<Event>)
    ensures |r| <= |es|
  {
    if es == [] then []
    else Select(es[..|es| - 1], source) + if From(es[|es| - 1], source) then [es[|es| - 1]] else []
  }

  lemma {:induction false} SelectAppends(a: seq<Event>, b: seq<Event>, source: Source)
    ensures Select(a + b, source) == Select(a, source) + Select(b, source)
  {
    if b == [] {
      assert a + b == a;
    } else {
      SelectAppends(a, b[..|b| - 1], source);
      AppendFront(a, b);
    }
  }

  lemma SelectLast(es: seq<Event>, source: Source)
    requires es != []
    ensures var f, e := es[..|es| - 1], es[|es| - 1];
            Select(es, source) == if From(e, source) then Select(f, source) + [e] else Select(f, source)
  {
  }

  lemma SelectSnoc(es: seq<Event>, e: Event, source: Source)
    ensures Select(es + [e], source) == if From(e, source) then Select(es, source) + [e] else Select(es, source)
  {
    assert (es + [e])[..|es|] == es;
  }

  ghost predicate AllFrom(es: seq<Event>, source: Source) {
    forall i | 0 <= i < |es| :: From(es[i], source)
  }

  lemma {:induction false} SelectAll(es: seq<Event>, source: Source)
    requires AllFrom(es, source)
    ensures Select(es, source) == es
  {
    if es != [] {
      SelectAll(es[..|es| - 1], source);
    }
  }

  lemma {:induction false} SelectNone(es: seq<Event>, source: Source)
    requires forall i | 0 <= i < |es| :: !From(es[i], source)
    ensures Select(es, source) == []
  {
    if es != [] {
      SelectNone(es[..|es| - 1], source);
    }
  }

  /** Everything ever enqueued: what drains took, then what still waits. */
  ghost function Emitted(r: Room): seq<Event> {
    r.hist.taken + r.queue
  }

  ghost function PolledEvents(ps: seq<Polled>): (es: seq<Event>)
    ensures |es| == |ps| && forall i | 0 <= i < |ps| :: es[i] == EventFor(ps[i])
  {
    seq(|ps|, i requires 0 <= i < |ps| => EventFor(ps[i]))
  }

  /** What polling, speaker ticks and layer hints enqueue over a whole run. */
  ghost function EnqueuedOver(ops: seq<Op>): seq<Event> {
    if ops == [] then []
    else EnqueuedOver(ops[..|ops| - 1]) + EnqueuedBy(ops[|ops| - 1])
  }

  ghost function EnqueuedBy(op: Op): seq<Event> {
    match op
    case Poll(ps, _) => PolledEvents(ps)
    case Notify(peer) => [OtherEvent(peer)]
    case _ => []
  }

  /** The media events fanned out, in order. */
  ghost function FannedMedia(fs: seq<Fanned>): (es: seq<Event>)
    ensures |es| == |fs| && forall i | 0 <= i < |fs| :: es[i] == MediaData(fs[i].origin, fs[i].frame)
  {
    seq(|fs|, i requires 0 <= i < |fs| => MediaData(fs[i].origin, fs[i].frame))
  }

  /** The queue carries the pacers' announcements and the polled events, each in
      order and nothing else. */
  ghost predicate Ordered(r: Room, polled: seq<Event>) {
    && Select(Emitted(r), Pacers) == EventsOf(r.hist.log)
    && Select(Emitted(r), Clientele) == polled
  }

  /** Every media event taken off the queue was fanned out, once, in order. */
  ghost predicate TakenIsFanned(r: Room) {
    FannedMedia(r.hist.fanned) == Select(r.hist.taken, Publishers)
  }

  lemma {:induction false} AnnouncementsAreFromPacers(log: seq<Advance>)
    ensures AllFrom(EventsOf(log), Pacers)
  {
    if log != [] {
      AnnouncementsAreFromPacers(log[..|log| - 1]);
    }
  }

  lemma SplitPacers(es: seq<Event>)
    requires AllFrom(es, Pacers)
    ensures Select(es, Pacers) == es && Select(es, Clientele) == []
  {
    SelectAll(es, Pacers);
    SelectNone(es, Clientele);
  }

  lemma SplitClientele(es: seq<Event>)
    requires AllFrom(es, Clientele)
    ensures Select(es, Pacers) == [] && Select(es, Clientele) == es
  {
    SelectNone(es, Pacers);
    SelectAll(es, Clientele);
  }

  /** A sweep appends its announcements and nothing else. */
  lemma UpdateKeepsOrder(r: Room, origin: ClientId, now: Instant, polled: seq<Event>)
    requires RoomOk(r) && Ordered(r, polled)
    ensures Ordered(UpdateLayers(r, origin, now), polled)
  {
    var log := LogAll(Drives(r.clients, r.bw, origin, now));
    var r' := UpdateLayers(r, origin, now);
    EmittedAppends(r, r', EventsOf(log));
    AnnouncementsAreFromPacers(log);
    SplitPacers(EventsOf(log));
    SelectAppends(Emitted(r), EventsOf(log), Pacers);
    SelectAppends(Emitted(r), EventsOf(log), Clientele);
    EventsAppend(r.hist.log, log);
  }

  lemma PoppedEmitsTheSame(r: Room)
    requires r.queue != []
    ensures Emitted(Popped(r)) == Emitted(r)
  {
    assert r.queue == [r.queue[0]] + r.queue[1..];
  }

  lemma DrainOneKeepsOrder(r: Room, now: Instant, polled: seq<Event>)
    requires RoomOk(r) && r.queue != [] && Ordered(r, polled)
    ensures Ordered(DrainOne(r, now), polled)
  {
    PoppedEmitsTheSame(r);
    var e, rest := r.queue[0], Popped(r);
    if e.MediaData? {
      UpdateKeepsOrder(rest, e.origin, now, polled);
    } else {
      assert Emitted(DrainOne(r, now)) == Emitted(rest);
    }
  }

  lemma FannedMediaSnoc(fs: seq<Fanned>, f: Fanned)
    ensures FannedMedia(fs + [f]) == FannedMedia(fs) + [MediaData(f.origin, f.frame)]
  {
  }

  lemma DrainOneFans(r: Room, now: Instant)
    requires RoomOk(r) && r.queue != [] && TakenIsFanned(r)
    ensures TakenIsFanned(DrainOne(r, now))
  {
    var e, rest := r.queue[0], Popped(r);
    var taken := rest.hist.taken;
    assert taken[..|taken| - 1] == r.hist.taken;
    if e.MediaData? {
      var present := Ids(UpdateLayers(rest, e.origin, now).clients);
      FannedMediaSnoc(r.hist.fanned, Fanned(e.origin, e.frame, present));
      assert DrainOne(r, now).hist.fanned == r.hist.fanned + [Fanned(e.origin, e.frame, present)];
    } else {
      assert DrainOne(r, now).hist.fanned == r.hist.fanned;
    }
  }

  lemma {:induction false} DrainKeepsOrder(r: Room, now: Instant, polled: seq<Event>)
    requires RoomOk(r) && Ordered(r, polled) && TakenIsFanned(r)
    ensures Ordered(Drain(r, now), polled) && TakenIsFanned(Drain(r, now))
    decreases MediaLeft(r.queue), |r.queue|
  {
    if r.queue != [] {
      DrainOneKeepsOrder(r, now, polled);
      DrainOneFans(r, now);
      DrainOneProgress(r, now);
      DrainKeepsOrder(DrainOne(r, now), now, polled);
    }
  }

  lemma {:induction false} PollAppends(r: Room, ps: seq<Polled>)
    ensures PollEach(r, ps).queue == r.queue + PolledEvents(ps) && PollEach(r, ps).hist == r.hist
  {
    if ps != [] {
      var f, p := ps[..|ps| - 1], ps[|ps| - 1];
      PollAppends(r, f);
      assert PolledEvents(ps) == PolledEvents(f) + [EventFor(p)];
    }
  }

  lemma EmittedAppends(r: Room, r': Room, es: seq<Event>)
    requires r'.queue == r.queue + es && r'.hist.taken == r.hist.taken
    ensures Emitted(r') == Emitted(r) + es
  {
  }

  lemma EnqueuingKeepsOrder(r: Room, r': Room, es: seq<Event>, polled: seq<Event>)
    requires Ordered(r, polled) && AllFrom(es, Clientele)
    requires r'.queue == r.queue + es && r'.hist == r.hist
    ensures Ordered(r', polled + es)
  {
    EmittedAppends(r, r', es);
    SplitClientele(es);
    SelectAppends(Emitted(r), es, Pacers);
    SelectAppends(Emitted(r), es, Clientele);
  }

  /** Steps that touch neither the queue nor its history. */
  lemma QuietKeepsOrder(r: Room, r': Room, polled: seq<Event>)
    requires Ordered(r, polled) && TakenIsFanned(r) && r'.queue == r.queue
    requires r'.hist.taken == r.hist.taken && r'.hist.log == r.hist.log && r'.hist.fanned == r.hist.fanned
    ensures Ordered(r', polled + []) && TakenIsFanned(r')
  {
    assert polled + [] == polled;
  }

  lemma StepKeepsOrder(r: Room, op: Op, polled: seq<Event>)
    requires RoomOk(r) && Ordered(r, polled) && TakenIsFanned(r)
    ensures Ordered(Step(r, op), polled + EnqueuedBy(op)) && TakenIsFanned(Step(r, op))
  {
    match op
    case Poll(ps, _) =>
      PollAppends(r, ps);
      EnqueuingKeepsOrder(r, Step(r, op), PolledEvents(ps), polled);
    case UpdatePacers(origin, now) =>
      UpdateKeepsOrder(r, origin, now, polled);
      QuietKeepsOrder(Step(r, op), Step(r, op), polled);
    case FanoutPending(now) =>
      DrainKeepsOrder(r, now, polled);
      QuietKeepsOrder(Step(r, op), Step(r, op), polled);
    case Notify(peer) => EnqueuingKeepsOrder(r, Step(r, op), [OtherEvent(peer)], polled);
    case _ => QuietKeepsOrder(r, Step(r, op), polled);
  }

  /** Over every run the queue loses, repeats and reorders nothing: the pacers'
      announcements among the events taken and waiting are exactly those of the
      advances, and the rest are exactly what polling, speaker ticks and layer
      hints enqueued. */
  lemma {:induction false} QueueConservesEvents(ops: seq<Op>)
    ensures Ordered(Trace(ops), EnqueuedOver(ops)) && TakenIsFanned(Trace(ops))
  {
    if ops != [] {
      QueueConservesEvents(ops[..|ops| - 1]);
      StepKeepsOrder(Trace(ops[..|ops| - 1]), ops[|ops| - 1], EnqueuedOver(ops[..|ops| - 1]));
    }
  }

  /** Media and hints are among the events that do not come from the pacers. */
  lemma {:induction false} SelectWithin(es: seq<Event>, source: Source)
    requires source != Pacers
    ensures Select(Select(es, Clientele), source) == Select(es, source)
  {
    if es != [] {
      var f, e := es[..|es| - 1], es[|es| - 1];
      SelectWithin(f, source);
      SelectLast(es, Clientele);
      SelectLast(es, source);
      if From(e, Clientele) {
        SelectSnoc(Select(f, Clientele), e, source);
      }
    }
  }

  /** The frames polled, each as coming from the client polled. */
  ghost function FramesIn(ps: seq<Polled>): seq<Event> {
    if ps == [] then []
    else
      var p := ps[|ps| - 1];
      FramesIn(ps[..|ps| - 1]) + if p.output.Media? then [MediaData(p.id, p.output.frame)] else []
  }

  ghost function FramesPolled(ops: seq<Op>): seq<Event> {
    if ops == [] then []
    else
      var op := ops[|ops| - 1];
      FramesPolled(ops[..|ops| - 1]) + if op.Poll? then FramesIn(op.polled) else []
  }

  lemma {:induction false} FramesAreMedia(ps: seq<Polled>)
    ensures Select(PolledEvents(ps), Publishers) == FramesIn(ps)
  {
    if ps != [] {
      var f := ps[..|ps| - 1];
      FramesAreMedia(f);
      assert PolledEvents(ps)[..|ps| - 1] == PolledEvents(f);
      SelectLast(PolledEvents(ps), Publishers);
    }
  }

  lemma {:induction false} FramesAreEnqueued(ops: seq<Op>)
    ensures Select(EnqueuedOver(ops), Publishers) == FramesPolled(ops)
  {
    if ops != [] {
      var f, op := ops[..|ops| - 1], ops[|ops| - 1];
      FramesAreEnqueued(f);
      SelectAppends(EnqueuedOver(f), EnqueuedBy(op), Publishers);
      if op.Poll? {
        FramesAreMedia(op.polled);
      } else {
        SelectNone(EnqueuedBy(op), Publishers);
      }
    }
  }

  /** Every frame polled is fanned out exactly once, in order: the fanned ones
      followed by those still queued are the polled ones. */
  lemma PolledMediaIsFanned(ops: seq<Op>)
    ensures var r := Trace(ops);
            FannedMedia(r.hist.fanned) + Select(r.queue, Publishers) == FramesPolled(ops)
  {
    QueueConservesEvents(ops);
    FramesAreEnqueued(ops);
    var r := Trace(ops);
    SelectWithin(Emitted(r), Publishers);
    SelectAppends(r.hist.taken, r.queue, Publishers);
  }

  /** The hints polled, each as coming from the client polled. */
  ghost function HintsIn(ps: seq<Polled>): seq<Event> {
    if ps == [] then []
    else
      var p := ps[|ps| - 1];
      HintsIn(ps[..|ps| - 1]) + if p.output.Budget? then [ClientBudgetHint(p.id, p.output.bps)] else []
  }

  ghost function HintsPolled(ops: seq<Op>): seq<Event> {
    if ops == [] then []
    else
      var op := ops[|ops| - 1];
      HintsPolled(ops[..|ops| - 1]) + if op.Poll? then HintsIn(op.polled) else []
  }

  lemma {:induction false} HintsAreHints(ps: seq<Polled>)
    ensures Select(PolledEvents(ps), Hinters) == HintsIn(ps)
  {
    if ps != [] {
      var f := ps[..|ps| - 1];
      HintsAreHints(f);
      assert PolledEvents(ps)[..|ps| - 1] == PolledEvents(f);
      SelectLast(PolledEvents(ps), Hinters);
    }
  }

  lemma {:induction false} HintsAreEnqueued(ops: seq<Op>)
    ensures Select(EnqueuedOver(ops), Hinters) == HintsPolled(ops)
  {
    if ops != [] {
      var f, op := ops[..|ops| - 1], ops[|ops| - 1];
      HintsAreEnqueued(f);
      SelectAppends(EnqueuedOver(f), EnqueuedBy(op), Hinters);
      if op.Poll? {
        HintsAreHints(op.polled);
      } else {
        SelectNone(EnqueuedBy(op), Hinters);
      }
    }
  }

  /** So is every hint: those taken and those waiting are the polled ones, in order. */
  lemma PolledHintsAreQueued(ops: seq<Op>)
    ensures Select(Emitted(Trace(ops)), Hinters) == HintsPolled(ops)
  {
    QueueConservesEvents(ops);
    HintsAreEnqueued(ops);
    SelectWithin(Emitted(Trace(ops)), Hinters);
  }

  // ------------------------------------------------------------ the announced modes

  /** The suspend flags announced for one peer, in order. */
  ghost function SuspendFlags(events: seq<Event>, id: ClientId): seq<bool> {
    if events == [] then []
    else
      var e := events[|events| - 1];
      SuspendFlags(events[..|events| - 1], id)
      + if e.SuspendVideoMode? && e.peer == id then [e.suspended] else []
  }

  ghost function FlagOf(a: Advance): seq<bool> {
    if a.action == SuspendVideo then [true] else if a.action == RestoreAudio then [false] else []
  }

  ghost function Toggles(l: seq<Advance>): seq<bool> {
    if l == [] then [] else Toggles(l[..|l| - 1]) + FlagOf(l[|l| - 1])
  }

  ghost function Announced(a: Advance): seq<Event> {
    var e := Effect(a.action, a.id).0;
    if e.None? then [] else [e.value]
  }

  lemma AnnouncedFlags(events: seq<Event>, a: Advance, id: ClientId)
    ensures SuspendFlags(events + Announced(a), id)
            == SuspendFlags(events, id) + if a.id == id then FlagOf(a) else []
  {
    if Announced(a) != [] {
      assert (events + Announced(a))[..|events|] == events;
    } else {
      assert events + [] == events;
    }
  }

  lemma TogglesSnoc(l: seq<Advance>, a: Advance)
    ensures Toggles(l + [a]) == Toggles(l) + FlagOf(a)
  {
  }

  /** The events announce exactly the suspend and restore actions of the log. */
  lemma {:induction false} EventsAnnounceToggles(log: seq<Advance>, id: ClientId)
    ensures SuspendFlags(EventsOf(log), id) == Toggles(Of(log, id))
  {
    if log != [] {
      var f, a := log[..|log| - 1], log[|log| - 1];
      EventsAnnounceToggles(f, id);
      assert EventsOf(log) == EventsOf(f) + Announced(a);
      AnnouncedFlags(EventsOf(f), a, id);
      if a.id == id {
        assert Of(log, id) == Of(f, id) + [a];
        TogglesSnoc(Of(f, id), a);
      } else {
        assert Of(log, id) == Of(f, id);
      }
    }
  }

  /** true, false, true, ... */
  ghost predicate Alternating(flags: seq<bool>) {
    && (flags != [] ==> flags[0])
    && forall k | 0 < k < |flags| :: flags[k] != flags[k - 1]
  }

  ghost predicate LastFlag(flags: seq<bool>) {
    flags != [] && flags[|flags| - 1]
  }

  ghost predicate SuspendedAfter(l: seq<Advance>) {
    DefaultIsUsable();
    Run(DEFAULT_CONFIG, Readings(l)).suspended
  }

  /** An honest advance announces a flag exactly when it flips the pacer's. */
  lemma FlagStep(l: seq<Advance>, a: Advance)
    requires HonestNext(l, a)
    ensures var after := SuspendedAfter(l + [a]);
            FlagOf(a) == if SuspendedAfter(l) == after then [] else [after]
  {
    DefaultIsUsable();
    ReadingsSnoc(l, a);
    RunSnoc(DEFAULT_CONFIG, Readings(l), a.reading.bps);
    FlagMirrorsPacer(Run(DEFAULT_CONFIG, Readings(l)), a.reading.bps);
  }

  /** A flag that differs from the last one continues the alternation. */
  lemma AlternatingSnoc(flags: seq<bool>, more: seq<bool>, after: bool)
    requires Alternating(flags) && more == if LastFlag(flags) == after then [] else [after]
    ensures Alternating(flags + more) && LastFlag(flags + more) == after
  {
  }

  ghost predicate TogglesMirror(l: seq<Advance>) {
    Alternating(Toggles(l)) && LastFlag(Toggles(l)) == SuspendedAfter(l)
  }

  lemma TogglesMirrorStep(l: seq<Advance>, a: Advance)
    requires TogglesMirror(l) && HonestNext(l, a)
    ensures TogglesMirror(l + [a])
  {
    FlagStep(l, a);
    TogglesSnoc(l, a);
    AlternatingSnoc(Toggles(l), FlagOf(a), SuspendedAfter(l + [a]));
  }

  lemma {:induction false} TogglesMirrorPacer(l: seq<Advance>)
    requires Honest(l)
    ensures TogglesMirror(l)
  {
    if l == [] {
      assert Readings(l) == [];
    } else {
      TogglesMirrorPacer(l[..|l| - 1]);
      TogglesMirrorStep(l[..|l| - 1], l[|l| - 1]);
      FrontAndLast(l);
    }
  }

  lemma {:induction false} FlagsAppend(a: seq<Event>, b: seq<Event>, id: ClientId)
    ensures SuspendFlags(a + b, id) == SuspendFlags(a, id) + SuspendFlags(b, id)
  {
    if b == [] {
      assert a + b == a;
    } else {
      FlagsAppend(a, b[..|b| - 1], id);
      AppendFront(a, b);
    }
  }

  lemma FlagsSnoc(es: seq<Event>, e: Event, id: ClientId)
    ensures SuspendFlags(es + [e], id)
            == SuspendFlags(es, id) + if e.SuspendVideoMode? && e.peer == id then [e.suspended] else []
  {
    assert (es + [e])[..|es|] == es;
  }

  lemma {:induction false} FlagsFromPacers(es: seq<Event>, id: ClientId)
    ensures SuspendFlags(Select(es, Pacers), id) == SuspendFlags(es, id)
  {
    if es != [] {
      var f, e := es[..|es| - 1], es[|es| - 1];
      FlagsFromPacers(f, id);
      SelectLast(es, Pacers);
      if From(e, Pacers) {
        FlagsSnoc(Select(f, Pacers), e, id);
      }
    }
  }

  lemma AlternatingPrefix(a: seq<bool>, b: seq<bool>)
    requires Alternating(a + b)
    ensures Alternating(a)
  {
    assert forall k | 0 <= k < |a| :: a[k] == (a + b)[k];
  }

  /** Over every run, the SuspendVideo events a peer's consumer was handed
      alternate and start with `true`, and so they do together with those still
      queued; a connected client's flag is the last of them. */
  lemma SuspendEventsAlternate(ops: seq<Op>, id: ClientId)
    ensures Alternating(SuspendFlags(Trace(ops).hist.taken, id))
    ensures var flags := SuspendFlags(Emitted(Trace(ops)), id);
            && Alternating(flags)
            && forall c | c in Trace(ops).clients && c.id == id :: c.suspended == LastFlag(flags)
  {
    TraceKeepsCore(ops);
    QueueConservesEvents(ops);
    var r := Trace(ops);
    FlagsFromPacers(Emitted(r), id);
    FlagsAppend(r.hist.taken, r.queue, id);
    LoggedFlagsAlternate(r, id);
    AlternatingPrefix(SuspendFlags(r.hist.taken, id), SuspendFlags(r.queue, id));
  }

  lemma LoggedFlagsAlternate(r: Room, id: ClientId)
    requires CoreInv(r)
    ensures var flags := SuspendFlags(EventsOf(r.hist.log), id);
            && Alternating(flags)
            && forall c | c in r.clients && c.id == id :: c.suspended == LastFlag(flags)
  {
    var l := Of(r.hist.log, id);
    EventsAnnounceToggles(r.hist.log, id);
    TogglesMirrorPacer(l);
    forall c | c in r.clients && c.id == id ensures c.suspended == LastFlag(Toggles(l)) {
      assert Faithful(c, l);
    }
  }

  /** A consumer's view of one peer, from the queued events alone. */
  ghost function ModeFrom(events: seq<Event>, id: ClientId): Mode {
    if events == [] then Mode.Video
    else
      var e := events[|events| - 1];
      if e.SuspendVideoMode? && e.peer == id then (if e.suspended then Suspended else AudioOnly)
      else if e.AudioOnlyMode? && e.peer == id then (if e.audioOnly then AudioOnly else Mode.Video)
      else ModeFrom(events[..|events| - 1], id)
  }

  lemma AnnouncedMode(events: seq<Event>, a: Advance, id: ClientId)
    ensures ModeFrom(events + Announced(a), id) ==
            if a.id == id then Applied(Posture(ModeFrom(events, id), Low), a.action).mode else ModeFrom(events, id)
  {
    if Announced(a) != [] {
      assert (events + Announced(a))[..|events|] == events;
    } else {
      assert events + [] == events;
    }
  }

  ghost function ModeAfter(l: seq<Advance>): Mode {
    DefaultIsUsable();
    PostureOf(Run(DEFAULT_CONFIG, Readings(l))).mode
  }

  lemma ModeStep(l: seq<Advance>, a: Advance, layer: Rid)
    requires HonestNext(l, a)
    ensures ModeAfter(l + [a]) == Applied(Posture(ModeAfter(l), layer), a.action).mode
  {
    DefaultIsUsable();
    ReadingsSnoc(l, a);
    RunSnoc(DEFAULT_CONFIG, Readings(l), a.reading.bps);
    PostureStep(DEFAULT_CONFIG, Run(DEFAULT_CONFIG, Readings(l)), a.reading.bps);
  }

  lemma {:induction false} EventsCarryMode(log: seq<Advance>, id: ClientId)
    requires Honest(Of(log, id))
    ensures ModeFrom(EventsOf(log), id) == ModeAfter(Of(log, id))
  {
    if log == [] {
      assert Readings([]) == [];
    } else {
      var f, a := log[..|log| - 1], log[|log| - 1];
      AnnouncedMode(EventsOf(f), a, id);
      assert EventsOf(log) == EventsOf(f) + Announced(a);
      var l := Of(f, id);
      if a.id == id {
        assert Of(log, id) == l + [a];
        assert (l + [a])[..|l|] == l;
        EventsCarryMode(f, id);
        ModeStep(l, a, Low);
      } else {
        assert Of(log, id) == l;
        EventsCarryMode(f, id);
      }
    }
  }

  lemma ModeSnoc(es: seq<Event>, e: Event, id: ClientId)
    ensures ModeFrom(es + [e], id) ==
            if e.SuspendVideoMode? && e.peer == id then (if e.suspended then Suspended else AudioOnly)
            else if e.AudioOnlyMode? && e.peer == id then (if e.audioOnly then AudioOnly else Mode.Video)
            else ModeFrom(es, id)
  {
    assert (es + [e])[..|es|] == es;
  }

  lemma {:induction false} ModeFromPacers(es: seq<Event>, id: ClientId)
    ensures ModeFrom(Select(es, Pacers), id) == ModeFrom(es, id)
  {
    if es != [] {
      var f, e := es[..|es| - 1], es[|es| - 1];
      ModeFromPacers(f, id);
      SelectLast(es, Pacers);
      if From(e, Pacers) {
        ModeSnoc(Select(f, Pacers), e, id);
      }
    }
  }

  /** Over every run, the events handed out and still queued tell a consumer the
      mode of every peer's pacer; once a drain has emptied the queue, those handed
      out do. */
  lemma EventsReconstructMode(ops: seq<Op>, c: ClientState)
    requires c in Trace(ops).clients
    ensures ModeFrom(Emitted(Trace(ops)), c.id) == PostureOf(c.pacer).mode
    ensures Trace(ops).queue == [] ==> ModeFrom(Trace(ops).hist.taken, c.id) == PostureOf(c.pacer).mode
  {
    TraceKeepsCore(ops);
    QueueConservesEvents(ops);
    var r := Trace(ops);
    ModeFromPacers(Emitted(r), c.id);
    EventsCarryMode(r.hist.log, c.id);
    if r.queue == [] {
      assert Emitted(r) == r.hist.taken;
    }
  }
}
