/** Conservation of the suspend counters: every suspension entered is either
    still in force, was exited, or left the room with its client. */
module RoomCounts {
  import opened Basics
  import opened Pacer
  import opened Estimator
  import opened Clients
  import opened Rooms
  import opened RoomInvariants

  ghost predicate CountInv(r: Room) {
    && r.enters == CountActions(r.hist.log, SuspendVideo)
    && r.exits == CountActions(r.hist.log, RestoreAudio)
    && r.enters == r.exits + CountSuspended(r.clients) + r.hist.reapedSuspended
  }

  ghost function Bit(b: bool): nat {
    if b then 1 else 0
  }

  /** A turn changes the flag by exactly what it books. */
  ghost predicate Balanced(c: ClientState, d: Drive) {
    Bit(After(c, d).suspended) + CountActions(LogOf(d), RestoreAudio)
    == Bit(c.suspended) + CountActions(LogOf(d), SuspendVideo)
  }

  lemma TurnBalances(c: ClientState, bw: Bandwidth, origin: ClientId, now: Instant)
    requires ClientOk(c) && c.suspended == c.pacer.suspended
    ensures Balanced(c, DriveOne(c, bw, origin, now))
  {
  }

  lemma CountLast(cs: seq<ClientState>)
    requires cs != []
    ensures CountSuspended(cs) == CountSuspended(cs[..|cs| - 1]) + Bit(cs[|cs| - 1].suspended)
  {
  }

  lemma AfterAllFront(cs: seq<ClientState>, ds: seq<Drive>)
    requires |cs| == |ds| != 0
    ensures AfterAll(cs, ds)[..|cs| - 1] == AfterAll(cs[..|cs| - 1], ds[..|cs| - 1])
  {
  }

  lemma {:induction false} SweepBalances(cs: seq<ClientState>, ds: seq<Drive>)
    requires |cs| == |ds| && forall i | 0 <= i < |cs| :: Balanced(cs[i], ds[i])
    ensures CountSuspended(AfterAll(cs, ds)) + CountActions(LogAll(ds), RestoreAudio)
            == CountSuspended(cs) + CountActions(LogAll(ds), SuspendVideo)
  {
    if cs != [] {
      var n := |cs| - 1;
      SweepBalances(cs[..n], ds[..n]);
      CountAppends(LogAll(ds[..n]), LogOf(ds[n]), SuspendVideo);
      CountAppends(LogAll(ds[..n]), LogOf(ds[n]), RestoreAudio);
      var after := AfterAll(cs, ds);
      AfterAllFront(cs, ds);
      CountLast(after);
      CountLast(cs);
      assert Balanced(cs[n], ds[n]);
    }
  }

  lemma UpdateKeepsCounts(r: Room, origin: ClientId, now: Instant)
    requires CoreInv(r) && CountInv(r)
    ensures CountInv(UpdateLayers(r, origin, now))
  {
    var ds := Drives(r.clients, r.bw, origin, now);
    forall i | 0 <= i < |r.clients| ensures Balanced(r.clients[i], ds[i]) {
      assert r.clients[i] in r.clients;
      TurnBalances(r.clients[i], r.bw, origin, now);
    }
    SweepBalances(r.clients, ds);
    CountAppends(r.hist.log, LogAll(ds), SuspendVideo);
    CountAppends(r.hist.log, LogAll(ds), RestoreAudio);
  }

  lemma {:induction false} SameFlagsSameCount(cs: seq<ClientState>, cs': seq<ClientState>)
    requires SameCores(cs, cs')
    ensures CountSuspended(cs') == CountSuspended(cs)
  {
    if cs != [] {
      SameFlagsSameCount(cs[..|cs| - 1], cs'[..|cs| - 1]);
      assert SameCore(cs[|cs| - 1], cs'[|cs| - 1]);
    }
  }

  /** Steps that drive no pacer and lose no client. */
  lemma QuietKeepsCounts(r: Room, r': Room)
    requires CountInv(r) && SameCores(r.clients, r'.clients)
    requires r'.enters == r.enters && r'.exits == r.exits
    requires r'.hist.log == r.hist.log && r'.hist.reapedSuspended == r.hist.reapedSuspended
    ensures CountInv(r')
  {
    SameFlagsSameCount(r.clients, r'.clients);
  }

  lemma {:induction false} ReapSplitsCount(cs: seq<ClientState>, dead: set<ClientId>)
    ensures CountSuspended(Survivors(cs, dead)) + DeadSuspended(cs, dead) == CountSuspended(cs)
  {
    if cs != [] {
      ReapSplitsCount(cs[..|cs| - 1], dead);
      var s := Survivors(cs, dead);
      if cs[|cs| - 1].id in dead {
        assert s == Survivors(cs[..|cs| - 1], dead);
      } else {
        assert s[..|s| - 1] == Survivors(cs[..|cs| - 1], dead);
      }
    }
  }

  lemma FanoutSameCores(r: Room, e: Event)
    ensures SameCores(r.clients, Fanout(r, e).clients)
  {
  }

  lemma DrainOneKeepsCounts(r: Room, now: Instant)
    requires CoreInv(r) && CountInv(r) && r.queue != []
    ensures CountInv(DrainOne(r, now))
  {
    var e, rest := r.queue[0], Popped(r);
    SameCoresKeepCore(r, rest);
    if e.MediaData? {
      UpdateKeepsCounts(rest, e.origin, now);
      FanoutSameCores(UpdateLayers(rest, e.origin, now), e);
      QuietKeepsCounts(UpdateLayers(rest, e.origin, now), DrainOne(r, now));
    } else {
      FanoutSameCores(rest, e);
      QuietKeepsCounts(r, DrainOne(r, now));
    }
  }

  lemma {:induction false} DrainKeepsCounts(r: Room, now: Instant)
    requires CoreInv(r) && CountInv(r)
    ensures CountInv(Drain(r, now))
    decreases MediaLeft(r.queue), |r.queue|
  {
    if r.queue != [] {
      DrainOneKeepsCounts(r, now);
      DrainOneKeepsCore(r, now);
      DrainOneProgress(r, now);
      DrainKeepsCounts(DrainOne(r, now), now);
    }
  }

  lemma {:induction false} PollSameCores(r: Room, ps: seq<Polled>)
    ensures SameCores(r.clients, PollEach(r, ps).clients)
    ensures PollEach(r, ps).hist == r.hist && PollEach(r, ps).enters == r.enters && PollEach(r, ps).exits == r.exits
  {
    if ps != [] {
      PollSameCores(r, ps[..|ps| - 1]);
      var f := PollEach(r, ps[..|ps| - 1]);
      forall i | 0 <= i < |r.clients| ensures SameCore(r.clients[i], PollOne(f, ps[|ps| - 1]).clients[i]) {
        assert SameCore(r.clients[i], f.clients[i]);
      }
    }
  }

  lemma PollKeepsCounts(r: Room, ps: seq<Polled>, arrivalMs: real)
    requires RoomOk(r) && CountInv(r)
    ensures CountInv(PollAll(r, ps, arrivalMs))
  {
    PollSameCores(r, ps);
    QuietKeepsCounts(r, PollAll(r, ps, arrivalMs));
  }

  lemma InsertKeepsCounts(r: Room, id: ClientId)
    requires CountInv(r)
    ensures CountInv(Insert(r, id))
  {
    if id !in r.hist.joined {
      var cs := Insert(r, id).clients;
      assert cs[..|cs| - 1] == r.clients;
      CountLast(cs);
    }
  }

  lemma StepKeepsCounts(r: Room, op: Op)
    requires CoreInv(r) && CountInv(r)
    ensures CountInv(Step(r, op))
  {
    match op
    case Join(id) => InsertKeepsCounts(r, id);
    case ReapDead(dead) => ReapSplitsCount(r.clients, dead);
    case Poll(ps, arrivalMs) => PollKeepsCounts(r, ps, arrivalMs);
    case UpdatePacers(origin, now) => UpdateKeepsCounts(r, origin, now);
    case FanoutPending(now) => DrainKeepsCounts(r, now);
    case _ => QuietKeepsCounts(r, Step(r, op));
  }

  /** Over every run, suspensions entered minus suspensions exited are the clients
      suspended now plus those reaped while suspended. */
  lemma {:induction false} SuspensionsAreConserved(ops: seq<Op>)
    ensures CountInv(Trace(ops))
  {
    if ops != [] {
      var before := Trace(ops[..|ops| - 1]);
      SuspensionsAreConserved(ops[..|ops| - 1]);
      TraceKeepsCore(ops[..|ops| - 1]);
      StepKeepsCounts(before, ops[|ops| - 1]);
    }
  }
}
