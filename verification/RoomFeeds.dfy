/** Every estimator entry of the room, from what reached its subscriber and from
    nothing else: feedback, native estimates, hints and GoogCC packets. */
module RoomFeeds {
  import opened Basics
  import opened CombineTerms
  import opened Subscriber
  import opened Estimator
  import opened Clients
  import opened Rooms
  import opened RoomInvariants
  import Ingestion = Feedback
  import GoogCc
  import SendLog

  // ------------------------------------------------------------- one operation, one entry

  /** The latest native estimate polled for `id`. */
  ghost function LatestEstimate(ps: seq<Polled>, id: ClientId): Option<nat> {
    if ps == [] then None
    else
      var p := ps[|ps| - 1];
      if p.id == id && p.output.EgressEstimate? then Some(p.output.bps)
      else LatestEstimate(ps[..|ps| - 1], id)
  }

  /** The latest hint for `id` in the queue. */
  ghost function LatestHint(q: seq<Event>, id: ClientId): Option<nat> {
    if q == [] then None
    else
      var later := LatestHint(q[1..], id);
      if later.Some? then later
      else if q[0].ClientBudgetHint? && q[0].peer == id then Some(q[0].bps) else None
  }

  ghost function NativeAfter(n: Option<Float>, latest: Option<nat>): Option<Float> {
    if latest.Some? then Some(Num(latest.value as real)) else n
  }

  lemma {:induction false} PollNative(r: Room, ps: seq<Polled>, id: ClientId)
    ensures var e := Entry(r.bw, id);
            Entry(PollEach(r, ps).bw, id) == e.(native := NativeAfter(e.native, LatestEstimate(ps, id)))
  {
    if ps != [] {
      PollNative(r, ps[..|ps| - 1], id);
    }
  }

  /** A feed reaches every client of the list once. */
  lemma {:induction false} FeedEachOnce(m: Bandwidth, cs: seq<ClientState>, p: GoogCc.Packet, id: ClientId)
    requires BandwidthInv(m) && DistinctIds(cs)
    ensures var e := Entry(m, id);
            && Ingestible(e) && (e.googcc.Some? ==> |e.googcc.value.trend.deltas| <= 20)
            && Entry(FeedEach(m, cs, p), id) ==
               if id in IdSet(cs) && e.googcc.Some?
               then e.(googcc := Some(GoogCc.Received(e.googcc.value, p))) else e
  {
    EntryKeepsInv(m, id);
    if cs != [] {
      var n := |cs| - 1;
      FeedEachOnce(m, cs[..n], p, id);
      IdSetSnoc(cs, n);
      assert cs[..n + 1] == cs;
    }
  }

  ghost function HintAfter(h: Option<ClientHint>, latest: Option<nat>, now: Instant): Option<ClientHint> {
    if latest.Some? then Some(ClientHint(latest.value, now)) else h
  }

  lemma {:induction false} LatestHintAppends(a: seq<Event>, b: seq<Event>, id: ClientId)
    requires LatestHint(b, id) == None
    ensures LatestHint(a + b, id) == LatestHint(a, id)
  {
    if a == [] {
      assert a + b == b;
    } else {
      LatestHintAppends(a[1..], b, id);
      assert (a + b)[1..] == a[1..] + b;
    }
  }

  lemma {:induction false} NoHintInAnnouncements(q: seq<Event>, id: ClientId)
    requires forall i | 0 <= i < |q| :: !q[i].ClientBudgetHint?
    ensures LatestHint(q, id) == None
  {
    if q != [] {
      NoHintInAnnouncements(q[1..], id);
    }
  }

  lemma {:induction false} AnnouncementsAreNoHints(log: seq<Advance>)
    ensures forall i | 0 <= i < |EventsOf(log)| :: !EventsOf(log)[i].ClientBudgetHint?
  {
    if log != [] {
      AnnouncementsAreNoHints(log[..|log| - 1]);
    }
  }

  lemma UpdateKeepsHints(r: Room, origin: ClientId, now: Instant, id: ClientId)
    requires RoomOk(r)
    ensures LatestHint(UpdateLayers(r, origin, now).queue, id) == LatestHint(r.queue, id)
  {
    var log := LogAll(Drives(r.clients, r.bw, origin, now));
    AnnouncementsAreNoHints(log);
    NoHintInAnnouncements(EventsOf(log), id);
    LatestHintAppends(r.queue, EventsOf(log), id);
  }

  lemma FanoutKeepsEntries(r: Room, e: Event)
    ensures Fanout(r, e).bw == r.bw && Fanout(r, e).queue == r.queue
  {
  }

  /** Taking one event leaves what the drain will make of the hint. */
  lemma DrainOneHint(r: Room, now: Instant, id: ClientId)
    requires RoomOk(r) && r.queue != []
    ensures var e, e' := Entry(r.bw, id), Entry(DrainOne(r, now).bw, id);
            && e' == e.(hint := e'.hint)
            && HintAfter(e'.hint, LatestHint(DrainOne(r, now).queue, id), now)
               == HintAfter(e.hint, LatestHint(r.queue, id), now)
  {
    var head, rest := r.queue[0], Popped(r);
    if head.MediaData? {
      UpdateKeepsHints(rest, head.origin, now, id);
      FanoutKeepsEntries(UpdateLayers(rest, head.origin, now), head);
    } else {
      FanoutKeepsEntries(rest, head);
    }
  }

  lemma {:induction false} DrainHint(r: Room, now: Instant, id: ClientId)
    requires RoomOk(r)
    ensures var e := Entry(r.bw, id);
            Entry(Drain(r, now).bw, id) == e.(hint := HintAfter(e.hint, LatestHint(r.queue, id), now))
    decreases MediaLeft(r.queue), |r.queue|
  {
    if r.queue != [] {
      DrainOneHint(r, now, id);
      DrainOneProgress(r, now);
      DrainHint(DrainOne(r, now), now, id);
    }
  }

  /** The client left in this operation, and its entry with it. */
  ghost predicate Leaves(r: Room, op: Op, id: ClientId) {
    op.ReapDead? && id in op.dead && id in IdSet(r.clients)
  }

  /** The packet a polling pass feeds: the timing of its last video frame, with zero
      loss. */
  ghost function PassPacket(op: Op): Option<GoogCc.Packet> {
    if op.Poll? && LastVideo(op.polled).Some?
    then Some(GoogCc.Packet(GoogCc.Stamp(op.arrivalMs, LastVideo(op.polled).value), 0.0)) else None
  }

  lemma PollEntry(r: Room, ps: seq<Polled>, arrivalMs: real, id: ClientId)
    requires CoreInv(r)
    ensures var e := Entry(r.bw, id);
            var fed := PassPacket(Poll(ps, arrivalMs));
            && (e.googcc.Some? ==> |e.googcc.value.trend.deltas| <= 20)
            && Entry(PollAll(r, ps, arrivalMs).bw, id) ==
               e.(native := NativeAfter(e.native, LatestEstimate(ps, id)),
                  googcc := if e.googcc.Some? && fed.Some? && id in IdSet(r.clients)
                            then Some(GoogCc.Received(e.googcc.value, fed.value)) else e.googcc)
  {
    EntryKeepsInv(r.bw, id);
    PollNative(r, ps, id);
    PollEachKeepsOk(r, ps);
    PollKeepsCore(r, ps);
    PollSameIds(r, ps);
    var fed := PassPacket(Poll(ps, arrivalMs));
    if fed.Some? {
      FeedEachOnce(PollEach(r, ps).bw, PollEach(r, ps).clients, fed.value, id);
    }
  }

  lemma {:induction false} PollSameIds(r: Room, ps: seq<Polled>)
    ensures IdSet(PollEach(r, ps).clients) == IdSet(r.clients)
  {
    if ps != [] {
      PollSameIds(r, ps[..|ps| - 1]);
      var f := PollEach(r, ps[..|ps| - 1]);
      SameIdSet(f.clients, NoteAt(f.clients, ps[|ps| - 1]));
    }
  }

  // ----------------------------------------------------------------------- whole runs

  /** What an operation feeds to one subscriber's delay and loss estimators. */
  ghost function FedBy(op: Op, id: ClientId): seq<Ingestion.Feed> {
    if !op.Feed? || op.id != id then []
    else
      match op.feed
      case Feedback(xs, now) => [Ingestion.Report(xs, now)]
      case SendTime(sent) => [Ingestion.Send(sent)]
      case _ => []
  }

  /** The sends and reports of one subscriber since it last left. */
  ghost function FeedsOf(ops: seq<Op>, id: ClientId): seq<Ingestion.Feed> {
    if ops == [] || Leaves(Trace(ops[..|ops| - 1]), ops[|ops| - 1], id) then []
    else FeedsOf(ops[..|ops| - 1], id) + FedBy(ops[|ops| - 1], id)
  }

  /** Its latest native estimate since then. */
  ghost function NativeOf(ops: seq<Op>, id: ClientId): Option<Float> {
    if ops == [] || Leaves(Trace(ops[..|ops| - 1]), ops[|ops| - 1], id) then None
    else
      var op := ops[|ops| - 1];
      NativeAfter(NativeOf(ops[..|ops| - 1], id), if op.Poll? then LatestEstimate(op.polled, id) else None)
  }

  /** Its latest hint since then, stamped with the time of the drain. */
  ghost function HintOf(ops: seq<Op>, id: ClientId): Option<ClientHint> {
    if ops == [] || Leaves(Trace(ops[..|ops| - 1]), ops[|ops| - 1], id) then None
    else
      var before := HintOf(ops[..|ops| - 1], id);
      match ops[|ops| - 1]
      case FanoutPending(now) => HintAfter(before, LatestHint(Trace(ops[..|ops| - 1]).queue, id), now)
      case _ => before
  }

  /** What an operation does to the packets fed to an enabled GoogCC estimator. */
  ghost function PacketsAfter(ps: Option<seq<GoogCc.Packet>>, op: Op, id: ClientId, present: bool)
    : Option<seq<GoogCc.Packet>>
  {
    if op == Feed(id, EnableGoogCc) then (if ps.None? then Some([]) else ps)
    else if ps.None? then None
    else if op.Feed? && op.id == id && op.feed.GoogCcPacket? then Some(ps.value + [op.feed.packet])
    else if PassPacket(op).Some? && present then Some(ps.value + [PassPacket(op).value])
    else ps
  }

  /** The packets its GoogCC estimator was fed since it was enabled, if it was. */
  ghost function PacketsOf(ops: seq<Op>, id: ClientId): Option<seq<GoogCc.Packet>> {
    if ops == [] || Leaves(Trace(ops[..|ops| - 1]), ops[|ops| - 1], id) then None
    else PacketsAfter(PacketsOf(ops[..|ops| - 1], id), ops[|ops| - 1], id,
                      id in IdSet(Trace(ops[..|ops| - 1]).clients))
  }

  ghost function GoogAfter(packets: Option<seq<GoogCc.Packet>>): Option<GoogCc.GoogState> {
    if packets.None? then None else Some(GoogCc.RunGoog(GoogCc.FreshGoog(), packets.value))
  }

  /** The entry of a subscriber that was fed this. */
  ghost function EntryFrom(feeds: seq<Ingestion.Feed>, native: Option<Float>, hint: Option<ClientHint>,
                           packets: Option<seq<GoogCc.Packet>>): SubState
  {
    Ingestion.RunFeeds(FreshSub(), feeds).(native := native, hint := hint, googcc := GoogAfter(packets))
  }

  /** Native estimate, hint and GoogCC do not matter to ingestion. */
  lemma {:induction false} IngestAllBeside(s: SubState, xs: seq<TwccSample>, native: Option<Float>,
                                           hint: Option<ClientHint>, googcc: Option<GoogCc.GoogState>)
    requires Ingestible(s)
    ensures IngestAll(s.(native := native, hint := hint, googcc := googcc), xs)
            == IngestAll(s, xs).(native := native, hint := hint, googcc := googcc)
  {
    if xs != [] {
      IngestAllBeside(s, xs[..|xs| - 1], native, hint, googcc);
    }
  }

  lemma RunFeedsSnoc(feeds: seq<Ingestion.Feed>, f: Ingestion.Feed)
    ensures Ingestion.RunFeeds(FreshSub(), feeds + [f])
            == Ingestion.FeedOne(Ingestion.RunFeeds(FreshSub(), feeds), f)
  {
    assert (feeds + [f])[..|feeds|] == feeds;
  }

  lemma RunGoogSnoc(ps: seq<GoogCc.Packet>, p: GoogCc.Packet)
    ensures GoogCc.RunGoog(GoogCc.FreshGoog(), ps + [p])
            == GoogCc.Received(GoogCc.RunGoog(GoogCc.FreshGoog(), ps), p)
  {
    assert (ps + [p])[..|ps|] == ps;
  }

  lemma ReportedEntry(e: SubState, xs: seq<TwccSample>, now: Instant, feeds: seq<Ingestion.Feed>,
                      native: Option<Float>, hint: Option<ClientHint>, packets: Option<seq<GoogCc.Packet>>)
    requires e == EntryFrom(feeds, native, hint, packets)
    ensures Ingestible(e)
    ensures Ingest(e, xs, now) == EntryFrom(feeds + [Ingestion.Report(xs, now)], native, hint, packets)
  {
    RunFeedsSnoc(feeds, Ingestion.Report(xs, now));
    IngestAllBeside(Ingestion.RunFeeds(FreshSub(), feeds), xs, native, hint, GoogAfter(packets));
  }

  lemma PacketEntry(e: SubState, p: GoogCc.Packet, feeds: seq<Ingestion.Feed>,
                    native: Option<Float>, hint: Option<ClientHint>, ps: seq<GoogCc.Packet>)
    requires e == EntryFrom(feeds, native, hint, Some(ps))
    ensures |e.googcc.value.trend.deltas| <= 20
    ensures e.(googcc := Some(GoogCc.Received(e.googcc.value, p)))
            == EntryFrom(feeds, native, hint, Some(ps + [p]))
  {
    RunGoogSnoc(ps, p);
  }

  lemma SentEntry(e: SubState, sent: SendLog.Sent, feeds: seq<Ingestion.Feed>,
                  native: Option<Float>, hint: Option<ClientHint>, packets: Option<seq<GoogCc.Packet>>)
    requires e == EntryFrom(feeds, native, hint, packets)
    ensures e.(sendTimes := SendLog.Recorded(e.sendTimes, sent))
            == EntryFrom(feeds + [Ingestion.Send(sent)], native, hint, packets)
  {
    RunFeedsSnoc(feeds, Ingestion.Send(sent));
  }

  /** The entry that a feed makes of an entry. */
  ghost function FedState(e: SubState, f: Feeding): SubState
    requires Ingestible(e) && (e.googcc.Some? ==> |e.googcc.value.trend.deltas| <= 20)
  {
    match f
    case Feedback(xs, now) => Ingest(e, xs, now)
    case SendTime(sent) => e.(sendTimes := SendLog.Recorded(e.sendTimes, sent))
    case EnableGoogCc => if e.googcc.Some? then e else e.(googcc := Some(GoogCc.FreshGoog()))
    case GoogCcPacket(p) =>
      if e.googcc.Some? then e.(googcc := Some(GoogCc.Received(e.googcc.value, p))) else e
  }

  lemma FedStateOf(m: Bandwidth, id: ClientId, f: Feeding)
    requires BandwidthInv(m)
    ensures var e := Entry(m, id);
            && Ingestible(e) && (e.googcc.Some? ==> |e.googcc.value.trend.deltas| <= 20)
            && Entry(Fed(m, id, f), id) == FedState(e, f)
  {
    EntryKeepsInv(m, id);
  }

  /** Feeding an entry that is explained explains the entry fed. */
  lemma FedEntry(e: SubState, id: ClientId, f: Feeding, feeds: seq<Ingestion.Feed>, native: Option<Float>,
                 hint: Option<ClientHint>, packets: Option<seq<GoogCc.Packet>>)
    requires Ingestible(e) && (e.googcc.Some? ==> |e.googcc.value.trend.deltas| <= 20)
    requires e == EntryFrom(feeds, native, hint, packets)
    ensures FedState(e, f)
            == EntryFrom(feeds + FedBy(Feed(id, f), id), native, hint, PacketsAfter(packets, Feed(id, f), id, false))
  {
    match f
    case Feedback(xs, now) => ReportedEntry(e, xs, now, feeds, native, hint, packets);
    case SendTime(sent) => SentEntry(e, sent, feeds, native, hint, packets);
    case EnableGoogCc => EnabledEntry(feeds);
    case GoogCcPacket(p) =>
      EnabledEntry(feeds);
      if packets.Some? {
        PacketEntry(e, p, feeds, native, hint, packets.value);
      }
  }

  lemma EnabledEntry(feeds: seq<Ingestion.Feed>)
    ensures feeds + [] == feeds && GoogAfter(Some([])) == Some(GoogCc.FreshGoog())
  {
  }

  /** The entry of `id` after a run, from what reached it. */
  ghost function EntryOf(ops: seq<Op>, id: ClientId): SubState {
    EntryFrom(FeedsOf(ops, id), NativeOf(ops, id), HintOf(ops, id), PacketsOf(ops, id))
  }

  lemma FreshEntry()
    ensures EntryFrom([], None, None, None) == FreshSub()
  {
  }

  /** An operation that concerns someone else, or no estimator at all. */
  ghost predicate Unconcerned(op: Op, id: ClientId) {
    && !op.Poll? && !op.FanoutPending? && !(op.Feed? && op.id == id)
  }

  lemma UnconcernedEntry(r: Room, op: Op, id: ClientId)
    requires RoomOk(r) && Unconcerned(op, id)
    ensures Entry(Step(r, op).bw, id) == if Leaves(r, op, id) then FreshSub() else Entry(r.bw, id)
  {
  }

  lemma UnconcernedInputs(ops: seq<Op>, id: ClientId)
    requires ops != [] && Unconcerned(ops[|ops| - 1], id)
    ensures var f := ops[..|ops| - 1];
            EntryOf(ops, id) == if Leaves(Trace(f), ops[|ops| - 1], id) then FreshSub() else EntryOf(f, id)
  {
    FreshEntry();
    var f := ops[..|ops| - 1];
    assert FeedsOf(f, id) + [] == FeedsOf(f, id);
  }

  lemma FeedInputs(ops: seq<Op>, id: ClientId, f: Feeding)
    requires ops != [] && ops[|ops| - 1] == Feed(id, f)
    ensures var front := ops[..|ops| - 1];
            EntryOf(ops, id) == EntryFrom(FeedsOf(front, id) + FedBy(Feed(id, f), id), NativeOf(front, id),
                                          HintOf(front, id), PacketsAfter(PacketsOf(front, id), Feed(id, f), id, false))
  {
  }

  lemma PollInputs(ops: seq<Op>, id: ClientId)
    requires ops != [] && ops[|ops| - 1].Poll?
    ensures var front, op := ops[..|ops| - 1], ops[|ops| - 1];
            var e, fed := EntryOf(front, id), PassPacket(ops[|ops| - 1]);
            EntryOf(ops, id) ==
            e.(native := NativeAfter(e.native, LatestEstimate(op.polled, id)),
               googcc := if e.googcc.Some? && fed.Some? && id in IdSet(Trace(front).clients)
                         then GoogAfter(Some(PacketsOf(front, id).value + [fed.value])) else e.googcc)
  {
    var front := ops[..|ops| - 1];
    assert FeedsOf(front, id) + [] == FeedsOf(front, id);
  }

  lemma DrainInputs(ops: seq<Op>, id: ClientId, now: Instant)
    requires ops != [] && ops[|ops| - 1] == FanoutPending(now)
    ensures var front := ops[..|ops| - 1];
            var e := EntryOf(front, id);
            EntryOf(ops, id) == e.(hint := HintAfter(e.hint, LatestHint(Trace(front).queue, id), now))
  {
    var front := ops[..|ops| - 1];
    assert FeedsOf(front, id) + [] == FeedsOf(front, id);
  }

  lemma ExplainedByPoll(ops: seq<Op>, id: ClientId)
    requires ops != [] && ops[|ops| - 1].Poll?
    requires Entry(Trace(ops[..|ops| - 1]).bw, id) == EntryOf(ops[..|ops| - 1], id)
    ensures Entry(Trace(ops).bw, id) == EntryOf(ops, id)
  {
    var front, op := ops[..|ops| - 1], ops[|ops| - 1];
    TraceKeepsCore(front);
    PollEntry(Trace(front), op.polled, op.arrivalMs, id);
    PollInputs(ops, id);
    if PacketsOf(front, id).Some? && PassPacket(op).Some? {
      RunGoogSnoc(PacketsOf(front, id).value, PassPacket(op).value);
    }
  }

  /** Over every run, every estimator entry is exactly what the subscriber's own
      sends, reports, estimates, hints and packets since it last left make of a
      fresh one. */
  lemma {:induction false} EntryIsExplained(ops: seq<Op>, id: ClientId)
    ensures Entry(Trace(ops).bw, id) == EntryOf(ops, id)
  {
    if ops == [] {
      FreshEntry();
    } else {
      var front, op := ops[..|ops| - 1], ops[|ops| - 1];
      EntryIsExplained(front, id);
      if op.Poll? {
        ExplainedByPoll(ops, id);
      } else if op.FanoutPending? {
        DrainHint(Trace(front), op.now, id);
        DrainInputs(ops, id, op.now);
      } else if op.Feed? && op.id == id {
        FedStateOf(Trace(front).bw, id, op.feed);
        FedEntry(EntryOf(front, id), id, op.feed, FeedsOf(front, id), NativeOf(front, id), HintOf(front, id),
                 PacketsOf(front, id));
        FeedInputs(ops, id, op.feed);
      } else {
        UnconcernedEntry(Trace(front), op, id);
        UnconcernedInputs(ops, id);
      }
    }
  }

  /** Which frame's timing a polling pass uses. */
  lemma {:induction false} LastVideoIsLast(ps: seq<Polled>) returns (k: nat)
    ensures k <= |ps|
    ensures forall j | k <= j < |ps| && ps[j].output.Media? :: j == k || !ps[j].output.frame.videoCodec
    ensures k == |ps| ==> LastVideo(ps) == None
    ensures k == |ps| ==> forall j | 0 <= j < |ps| && ps[j].output.Media? :: !ps[j].output.frame.videoCodec
    ensures k < |ps| ==> ps[k].output.Media? && ps[k].output.frame.videoCodec
    ensures k < |ps| ==> LastVideo(ps) == Some(ps[k].output.frame.sendMs)
  {
    if ps == [] {
      k := 0;
    } else {
      var n := |ps| - 1;
      if ps[n].output.Media? && ps[n].output.frame.videoCodec {
        k := n;
      } else {
        var f := ps[..n];
        k := LastVideoIsLast(f);
        assert forall j | 0 <= j < n :: f[j] == ps[j];
        if k == n {
          k := |ps|;
        }
      }
    }
  }
}
