/** The mutable registry (src/registry/drive.rs, src/registry/lifecycle.rs,
    src/registry/mod.rs, src/fanout.rs): loops over the client list and the event
    queue, each method proved against the room's step function. Clients sit in
    the list by value, as the source's vector owns them. */
module Registries {
  import opened Basics
  import opened PacerConfigs
  import opened Pacer
  import opened CombineTerms
  import opened Estimator
  import opened Clients
  import opened Rooms
  import GoogCc

  /** A frame to every client; each applies its own filter, its publisher none. */
  method FanoutFrame(clients: seq<ClientState>, live: set<ClientId>, origin: ClientId, f: Frame)
    returns (r: seq<ClientState>)
    ensures r == FanMedia(clients, live, origin, f)
  {
    r := clients;
    ghost var target := FanMedia(clients, live, origin, f);
    for i := 0 to |clients|
      invariant r == target[..i] + clients[i..]
    {
      RewriteStep(clients, target, i);
      assert target[i] == FanClient(clients[i], live, origin, f);
      r := r[i := FanClient(r[i], live, origin, f)];
    }
  }

  /** A new track to every client but its publisher. */
  method FanoutTrack(clients: seq<ClientState>, t: Track) returns (r: seq<ClientState>)
    ensures r == FanTrack(clients, t)
  {
    r := clients;
    ghost var target := FanTrack(clients, t);
    for i := 0 to |clients|
      invariant r == target[..i] + clients[i..]
    {
      RewriteStep(clients, target, i);
      var c := r[i];
      if c.id != t.origin {
        c := c.(tracksOut := c.tracksOut + [t]);
      }
      r := r[i := c];
    }
  }

  /** The polled client's own bookkeeping: the layers and tracks it publishes. */
  method NoteOutput(clients: seq<ClientState>, p: Polled) returns (r: seq<ClientState>)
    ensures r == NoteAt(clients, p)
  {
    r := clients;
    ghost var target := NoteAt(clients, p);
    for i := 0 to |clients|
      invariant r == target[..i] + clients[i..]
    {
      RewriteStep(clients, target, i);
      var c := r[i];
      if c.id == p.id {
        c := Noted(c, p.output);
      }
      r := r[i := c];
    }
  }

  class Registry {
    var clients: seq<ClientState>
    const bandwidth: BandwidthEstimator
    var toPropagate: seq<Event>
    var suspendEnters: nat
    var suspendExits: nat
    var ticksThrottled: nat
    ghost var hist: History

    ghost function View(): Room
      reads this, bandwidth
    {
      Room(clients, bandwidth.subscribers, toPropagate,
           suspendEnters, suspendExits, ticksThrottled, hist)
    }

    ghost predicate Valid()
      reads this, bandwidth
    {
      bandwidth.Valid() && RoomOk(View())
    }

    constructor ()
      ensures Valid() && fresh(bandwidth) && View() == EMPTY_ROOM
    {
      clients, toPropagate, hist := [], [], EMPTY_ROOM.hist;
      suspendEnters, suspendExits, ticksThrottled := 0, 0, 0;
      bandwidth := new BandwidthEstimator();
    }

    // --------------------------------------------------------------- driving pacers

    /** Carry out what `apply_pacer_action` asks for. */
    method ApplyAction(c: ClientState, action: PacerAction) returns (c': ClientState)
      modifies this`toPropagate, this`suspendEnters, this`suspendExits
      ensures c' == Flagged(c, action)
      ensures var e := Effect(action, c.id).0;
              toPropagate == old(toPropagate) + if e.None? then [] else [e.value]
      ensures suspendEnters == old(suspendEnters) + if action == SuspendVideo then 1 else 0
      ensures suspendExits == old(suspendExits) + if action == RestoreAudio then 1 else 0
    {
      c' := c;
      var (event, suspend) := Effect(action, c.id);
      if suspend.Some? {
        c' := c'.(suspended := suspend.value);
        if suspend.value {
          suspendEnters := suspendEnters + 1;
        } else {
          suspendExits := suspendExits + 1;
        }
      }
      if event.Some? {
        toPropagate := toPropagate + [event.value];
      }
    }

    /** The body of the drive loop for the i-th client. */
    method DriveClient(i: nat, origin: ClientId, now: Instant) returns (ghost d: Drive)
      requires bandwidth.Valid() && i < |clients| && ClientOk(clients[i])
      modifies this
      ensures d == DriveOne(old(clients)[i], bandwidth.subscribers, origin, now)
      ensures View() == TurnAt(old(View()), i, d)
    {
      var c := clients[i];
      d := DriveOne(c, bandwidth.subscribers, origin, now);
      NoTurn(View(), i);
      if c.id == origin {
        return;
      }
      var reading := bandwidth.EstimateWithTerm(c.id, now);
      if reading.None? {
        return;
      }
      if c.lastDrive.Some? && Elapsed(now, c.lastDrive.value) < PACER_MIN_TICK_INTERVAL {
        ticksThrottled := ticksThrottled + 1;
        return;
      }
      AdvanceClient(i, reading.value.bps, now, d.advance);
    }

    /** An advance that is due: record its time, drive the pacer, apply the action. */
    method AdvanceClient(i: nat, bps: nat, now: Instant, ghost a: Advance)
      requires i < |clients| && !clients[i].pacer.layer.Other?
      requires a.id == clients[i].id && a.action == Tick(DEFAULT_CONFIG, clients[i].pacer, bps).action
      modifies this
      ensures View() == TurnAt(old(View()), i,
                Advanced(Flagged(Driven(old(clients)[i].(lastDrive := Some(now)), bps), a.action), a))
    {
      var c := clients[i].(lastDrive := Some(now));
      var t := Tick(DEFAULT_CONFIG, c.pacer, bps);
      c := c.(pacer := t.state);
      if t.action.ChangeLayer? {
        c := c.(desired := t.action.rid);
      }
      c := ApplyAction(c, t.action);
      clients := clients[i := c];
      hist := hist.(log := hist.log + [a]);
      OneAdvance(a);
    }

    /** Offer every subscriber of `origin` one advance. */
    method UpdatePacerLayers(origin: ClientId, now: Instant)
      requires Valid()
      modifies this
      ensures Valid() && View() == UpdateLayers(old(View()), origin, now)
    {
      ghost var r0 := View();
      ghost var ds := Drives(r0.clients, r0.bw, origin, now);
      PartialUpdateStart(r0, ds);
      var n := |clients|;
      for i := 0 to n
        invariant n == |clients| == |r0.clients| == |ds|
        invariant View() == PartialUpdate(r0, ds, i)
      {
        PartialUpdateAhead(r0, ds, i);
        DriveNext(i, origin, now, r0, ds);
      }
      PartialUpdateEnd(r0, ds);
      UpdateLayersKeepsOk(r0, origin, now);
    }

    method DriveNext(i: nat, origin: ClientId, now: Instant, ghost r0: Room, ghost ds: seq<Drive>)
      requires RoomOk(r0) && ds == Drives(r0.clients, r0.bw, origin, now)
      requires i < |r0.clients| == |clients| && clients[i] == r0.clients[i] && bandwidth.subscribers == r0.bw
      requires View() == PartialUpdate(r0, ds, i)
      modifies this
      ensures View() == PartialUpdate(r0, ds, i + 1) && |clients| == |r0.clients|
    {
      PartialUpdateStep(r0, ds, i);
      assert ClientOk(r0.clients[i]);
      ghost var d := DriveClient(i, origin, now);
    }

    // ---------------------------------------------------------------------- fanout

    /** Deliver a frame, and remember what became of it. */
    method FanoutMedia(origin: ClientId, f: Frame)
      requires Valid()
      modifies this
      ensures Valid() && View() == Fanout(old(View()), MediaData(origin, f))
    {
      FanoutKeepsOk(View(), MediaData(origin, f));
      var live := IdSet(clients);
      hist := hist.(deliveries := hist.deliveries + Deliveries(clients, live, origin, f, |hist.log|),
                    fanned := hist.fanned + [Fanned(origin, f, Ids(clients))]);
      clients := FanoutFrame(clients, live, origin, f);
    }

    /** Fan out every queued event. Driving a pacer enqueues further events, which
        this same loop then takes; it ends because they are never media. */
    method FanoutPending(now: Instant)
      requires Valid()
      modifies this, bandwidth
      ensures Valid() && View() == Drain(old(View()), now)
      ensures toPropagate == []
    {
      ghost var r0 := View();
      while |toPropagate| > 0
        invariant Valid() && Drain(View(), now) == Drain(r0, now)
        decreases MediaLeft(toPropagate), |toPropagate|
      {
        DrainOneProgress(View(), now);
        TakeEvent(now);
      }
    }

    /** Pop one event and deal with it. */
    method TakeEvent(now: Instant)
      requires Valid() && toPropagate != []
      modifies this, bandwidth
      ensures Valid() && View() == DrainOne(old(View()), now)
    {
      var p := toPropagate[0];
      toPropagate := toPropagate[1..];
      hist := hist.(taken := hist.taken + [p]);
      match p {
        case ClientBudgetHint(peer, bps) =>
          bandwidth.RecordClientHint(peer, bps, now);
        case MediaData(origin, f) =>
          UpdatePacerLayers(origin, now);
          FanoutMedia(origin, f);
        case TrackOpen(t) =>
          FanoutKeepsOk(View(), TrackOpen(t));
          clients := FanoutTrack(clients, t);
        case _ =>
      }
    }

    // --------------------------------------------------------------------- polling

    /** Record one polled output; returns the send time of a video frame. */
    method TakeOutput(p: Polled) returns (sendMs: Option<real>)
      requires Valid()
      modifies this`clients, this`toPropagate, bandwidth
      ensures Valid() && View() == PollOne(old(View()), p)
      ensures sendMs == if p.output.Media? && p.output.frame.videoCodec then Some(p.output.frame.sendMs) else None
    {
      PollOneKeepsOk(View(), p);
      clients := NoteOutput(clients, p);
      if p.output.EgressEstimate? {
        bandwidth.RecordNativeEstimate(p.id, Num(p.output.bps as real));
      }
      toPropagate := toPropagate + [EventFor(p)];
      sendMs := if p.output.Media? && p.output.frame.videoCodec then Some(p.output.frame.sendMs) else None;
    }

    /** `poll_all` over the outputs in the order polling returned them. */
    method PollClients(polled: seq<Polled>, arrivalMs: real)
      requires Valid()
      modifies this`clients, this`toPropagate, bandwidth
      ensures Valid() && View() == PollAll(old(View()), polled, arrivalMs)
    {
      ghost var r0 := View();
      var lastVideo: Option<real> := None;
      for i := 0 to |polled|
        invariant Valid() && View() == PollEach(r0, polled[..i]) && lastVideo == LastVideo(polled[..i])
      {
        assert polled[..i + 1][..i] == polled[..i];
        var sendMs := TakeOutput(polled[i]);
        if sendMs.Some? {
          lastVideo := sendMs;
        }
      }
      assert polled[..|polled|] == polled;
      if lastVideo.Some? {
        var packet := GoogCc.Packet(GoogCc.Stamp(arrivalMs, lastVideo.value), 0.0);
        ghost var r1 := View();
        var cs := clients;
        for i := 0 to |cs|
          invariant Valid() && View() == r1.(bw := FeedEach(r1.bw, cs[..i], packet))
        {
          assert cs[..i + 1][..i] == cs[..i];
          bandwidth.FeedGoogcc(cs[i].id, packet);
        }
        assert cs[..|cs|] == cs;
      }
    }

    // ------------------------------------------------------------------- lifecycle

    method InsertClient(id: ClientId)
      requires Valid() && id !in hist.joined
      modifies this`clients, this`hist
      ensures Valid() && View() == Insert(old(View()), id)
    {
      StepKeepsOk(View(), Join(id));
      var client := FreshClient(id);
      for i := 0 to |clients|
        invariant client == FreshClient(id).(tracksOut := AllTracks(clients[..i]))
      {
        assert clients[..i + 1][..i] == clients[..i];
        client := client.(tracksOut := client.tracksOut + clients[i].tracksIn);
      }
      assert clients[..|clients|] == clients;
      clients := clients + [client];
      hist := hist.(joined := hist.joined + {id});
    }

    /** Drop the clients whose connection is gone, and their estimators with them;
        `dead` is what `is_alive` reports. */
    method ReapDeadClients(dead: set<ClientId>)
      requires Valid()
      modifies this`clients, this`hist, bandwidth
      ensures Valid() && View() == Reap(old(View()), dead)
    {
      SurvivorsOk(clients, dead);
      hist := hist.(reapedSuspended := hist.reapedSuspended + DeadSuspended(clients, dead));
      clients := Retain(clients, dead);
    }

    /** The retain sweep: who stays, with the estimators of the others evicted. */
    method Retain(cs: seq<ClientState>, dead: set<ClientId>) returns (kept: seq<ClientState>)
      requires bandwidth.Valid()
      modifies bandwidth
      ensures bandwidth.Valid() && kept == Survivors(cs, dead)
      ensures bandwidth.subscribers == old(bandwidth.subscribers) - (IdSet(cs) * dead)
    {
      kept := [];
      ghost var bw := bandwidth.subscribers;
      for i := 0 to |cs|
        invariant bandwidth.Valid() && kept == Survivors(cs[..i], dead)
        invariant bandwidth.subscribers == bw - (IdSet(cs[..i]) * dead)
      {
        assert cs[..i + 1][..i] == cs[..i];
        EvictStep(bw, cs, dead, i);
        if cs[i].id in dead {
          bandwidth.ReapDead(cs[i].id);
        } else {
          kept := kept + [cs[i]];
        }
      }
      assert cs[..|cs|] == cs;
    }
  }
}
