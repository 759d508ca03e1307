/** Concrete runs, from the empty room, of the behaviour that the documentation
    would not lead one to expect. */
module RoomInstances {
  import opened Basics
  import opened PacerConfigs
  import opened Pacer
  import opened CombineTerms
  import opened Subscriber
  import opened Estimator
  import opened Clients
  import opened Rooms

  const CAMERA := Track(1, 0, Kind.Video)

  /** Client 1 publishes a video track; client 2 subscribes. */
  ghost function Subscribed(): seq<Op> {
    [Join(1)] + [Poll([Polled(1, TrackAdded(0, Kind.Video))], 0.0)] + [Join(2)]
  }

  /** Then client 2 has a native estimate of `bps`. */
  ghost function Link(bps: nat): seq<Op> {
    Subscribed() + [Poll([Polled(2, EgressEstimate(bps))], 0.0)]
  }

  ghost function Publisher(): ClientState {
    FreshClient(1).(tracksIn := [CAMERA])
  }

  ghost function Viewer(): ClientState {
    FreshClient(2).(tracksOut := [CAMERA])
  }

  ghost function Entries(bps: nat): Bandwidth {
    map[2 := FreshSub().(native := Some(Num(bps as real)))]
  }

  lemma PollSingle(r: Room, p: Polled)
    requires RoomOk(r) && !p.output.Media?
    ensures PollAll(r, [p], 0.0) == PollOne(r, p)
  {
    assert [p][..0] == [];
    assert PollEach(r, [p]) == PollOne(r, p);
    assert LastVideo([p]) == None;
  }

  lemma FirstPublishes()
    ensures var r := Trace([Join(1)] + [Poll([Polled(1, TrackAdded(0, Kind.Video))], 0.0)]);
            r.clients == [Publisher()] && r.bw == map[] && r.hist.joined == {1}
  {
    var p := Polled(1, TrackAdded(0, Kind.Video));
    TraceSnoc([], Join(1));
    assert [] + [Join(1)] == [Join(1)];
    TraceSnoc([Join(1)], Poll([p], 0.0));
    var r := Trace([Join(1)]);
    assert r.clients == [FreshClient(1)];
    PollSingle(r, p);
    assert Noted(FreshClient(1), p.output) == Publisher();
    assert NoteAt([FreshClient(1)], p) == [Publisher()];
  }

  lemma SecondSubscribes()
    ensures var r := Trace(Subscribed());
            r.clients == [Publisher(), Viewer()] && r.bw == map[]
  {
    FirstPublishes();
    TraceSnoc([Join(1)] + [Poll([Polled(1, TrackAdded(0, Kind.Video))], 0.0)], Join(2));
    assert [Publisher()][..0] == [];
    assert AllTracks([Publisher()]) == [CAMERA];
  }

  lemma LinkStart(bps: nat)
    ensures var r := Trace(Link(bps));
            r.clients == [Publisher(), Viewer()] && r.bw == Entries(bps)
  {
    SecondSubscribes();
    var p := Polled(2, EgressEstimate(bps));
    TraceSnoc(Subscribed(), Poll([p], 0.0));
    var r := Trace(Subscribed());
    PollSingle(r, p);
    assert NoteAt(r.clients, p) == r.clients;
  }

  lemma LinkReading(bps: nat, now: Instant)
    requires bps < 300_000
    ensures ReadingOf(Entries(bps)[2], now) == Reading(bps, ByNative)
  {
    var s := Entries(bps)[2];
    var two := [Ceiling(Num(s.delay.rate.bps), ByDelay), Ceiling(Num(s.loss.rate.bps), ByLoss)];
    var three := two + [Ceiling(Num(bps as real), ByNative)];
    assert two[..1] == [two[0]] && three[..2] == two;
    assert Binding(two).value.value == 300_000.0;
    assert Binding(three) == three[2];
    assert Ceilings(s, now) == three;
  }

  ghost function Turn(c: ClientState, bps: nat, now: Instant): ClientState
    requires ClientOk(c)
  {
    Flagged(Driven(c.(lastDrive := Some(now)), bps), Tick(DEFAULT_CONFIG, c.pacer, bps).action)
  }

  /** A sweep on behalf of the publisher gives the viewer its turn. */
  lemma LinkSweep(r: Room, bps: nat, now: Instant)
    requires RoomOk(r) && |r.clients| == 2 && r.clients[0].id == 1 && r.clients[1].id == 2
    requires bps < 300_000 && r.bw == Entries(bps)
    ensures var r', c := UpdateLayers(r, 1, now), r.clients[1];
            && |r'.clients| == 2 && r'.clients[0] == r.clients[0] && r'.bw == r.bw
            && r'.clients[1] == if Ready(c.lastDrive, now) then Turn(c, bps, now) else c
  {
    LinkReading(bps, now);
  }

  lemma LowTurns(t: Instant, u: Instant)
    requires ClientOk(Viewer())
    ensures var c := Turn(Viewer(), 5_000, t);
            && c.id == 2 && c.lastDrive == Some(t) && !c.suspended
            && ClientOk(c) && Turn(c, 5_000, u).id == 2 && Turn(c, 5_000, u).suspended
  {
  }

  /** One hundred milliseconds between two low readings are enough to suspend, and
      nothing shorter is. */
  lemma TwoLowReadingsSuspendIff(t: Instant, u: Instant)
    ensures var r := Trace(Link(5_000) + [UpdatePacers(1, t)] + [UpdatePacers(1, u)]);
            |r.clients| == 2 && r.clients[1].id == 2 && (r.clients[1].suspended <==> u - t >= 100_000)
  {
    LinkStart(5_000);
    var ops := Link(5_000);
    var once := ops + [UpdatePacers(1, t)];
    TraceSnoc(ops, UpdatePacers(1, t));
    TraceSnoc(once, UpdatePacers(1, u));
    LinkSweep(Trace(ops), 5_000, t);
    LowTurns(t, u);
    LinkSweep(Trace(once), 5_000, u);
  }

  lemma PoorTurn(t: Instant)
    requires ClientOk(Viewer())
    ensures var c := Turn(Viewer(), 50_000, t);
            && c.id == 2 && c.pacer.audioOnly && !c.suspended && c.tracksOut == [CAMERA] && c.delivered == 0
  {
  }

  /** A viewer in audio-only mode is still delivered a video frame. */
  lemma AudioOnlyViewerGetsVideo(t: Instant, f: Frame)
    requires f.mid == 0 && f.rid.None?
    ensures var r := Trace(Link(50_000) + [UpdatePacers(1, t)]);
            && |r.clients| == 2 && r.clients[1].id == 2 && r.clients[1].pacer.audioOnly
            && KnownAs(r.clients[1].tracksOut, IdSet(r.clients), 1, f.mid, Kind.Video)
            && r.clients[1].delivered == 0 && Fanout(r, MediaData(1, f)).clients[1].delivered == 1
  {
    LinkStart(50_000);
    TraceSnoc(Link(50_000), UpdatePacers(1, t));
    LinkSweep(Trace(Link(50_000)), 50_000, t);
    PoorTurn(t);
    var r := Trace(Link(50_000) + [UpdatePacers(1, t)]);
    assert r.clients[0].id in IdSet(r.clients);
    assert Resolves(r.clients[1].tracksOut, 0, IdSet(r.clients), 1, f.mid);
  }
}
