/** One connected peer: its pacer and the flags mirrored from it
    (src/client/accessors.rs), and the outbound media filter
    (src/client/fanout.rs, src/layer_selector.rs). */
module Clients {
  import opened Basics
  import opened PacerConfigs
  import opened Pacer
  import opened PacerHistory
  import opened Estimator

  /** `PACER_MIN_TICK_INTERVAL`, in microseconds. */
  const PACER_MIN_TICK_INTERVAL: nat := 100_000

  datatype Kind = Audio | Video

  /** A published track. Subscribers hold it weakly: it can be resolved only
      while its publisher is still in the room. */
  datatype Track = Track(origin: ClientId, mid: nat, kind: Kind)

  datatype Frame = Frame(mid: nat, rid: Option<Rid>, videoCodec: bool, sendMs: real)

  datatype Outcome = Delivered | DroppedSuspended | DroppedLayer

  datatype ClientState = ClientState(
    id: ClientId,
    pacer: PacerState,
    suspended: bool,
    desired: Rid,
    lastDrive: Option<Instant>,
    activeRids: seq<Rid>,
    tracksIn: seq<Track>,
    tracksOut: seq<Track>,
    delivered: nat,
    dropped: nat)

  function FreshClient(id: ClientId): ClientState {
    ClientState(id, FRESH, false, Low, None, [], [], [], 0, 0)
  }

  ghost predicate ClientOk(c: ClientState) {
    Inv(DEFAULT_CONFIG, c.pacer)
  }

  // ------------------------------------------------------------- driving the pacer

  predicate Ready(last: Option<Instant>, now: Instant) {
    last.None? || Elapsed(now, last.value) >= PACER_MIN_TICK_INTERVAL
  }

  /** `drive_pacer`: a layer change, and nothing else, moves the desired layer. */
  function Driven(c: ClientState, bps: nat): ClientState
    requires !c.pacer.layer.Other?
  {
    var t := Tick(DEFAULT_CONFIG, c.pacer, bps);
    c.(pacer := t.state, desired := if t.action.ChangeLayer? then t.action.rid else c.desired)
  }

  // -------------------------------------------------------------- layer selection

  function SelectRank(r: Rid): nat {
    if r == Low then 0 else if r == Medium then 1 else 2
  }

  /** `filter(rank <= cap).max_by_key(rank)`: the last of the best. */
  function BestBelow(active: seq<Rid>, cap: nat): Option<Rid> {
    if active == [] then None
    else
      var best, r := BestBelow(active[..|active| - 1], cap), active[|active| - 1];
      if SelectRank(r) <= cap && (best.None? || SelectRank(r) >= SelectRank(best.value)) then Some(r)
      else best
  }

  /** `min_by_key(rank)`: the first of the lowest. */
  function Lowest(active: seq<Rid>): Rid
    requires active != []
  {
    if |active| == 1 then active[0]
    else
      var low, r := Lowest(active[..|active| - 1]), active[|active| - 1];
      if SelectRank(r) < SelectRank(low) then r else low
  }

  function BestFit(desired: Rid, active: seq<Rid>): Rid {
    if active == [] then desired
    else
      var best := BestBelow(active, SelectRank(desired));
      if best.Some? then best.value else Lowest(active)
  }

  lemma {:induction false} BestBelowSpec(active: seq<Rid>, cap: nat)
    ensures var b := BestBelow(active, cap);
            if b.Some? then
              && b.value in active && SelectRank(b.value) <= cap
              && forall r | r in active && SelectRank(r) <= cap :: SelectRank(r) <= SelectRank(b.value)
            else forall r | r in active :: SelectRank(r) > cap
  {
    if active != [] {
      BestBelowSpec(active[..|active| - 1], cap);
      assert forall r | r in active :: r in active[..|active| - 1] || r == active[|active| - 1];
    }
  }

  lemma {:induction false} LowestSpec(active: seq<Rid>)
    requires active != []
    ensures Lowest(active) in active && forall r | r in active :: SelectRank(Lowest(active)) <= SelectRank(r)
  {
    if |active| > 1 {
      LowestSpec(active[..|active| - 1]);
      assert forall r | r in active :: r in active[..|active| - 1] || r == active[|active| - 1];
    }
  }

  /** LOW below MEDIUM below everything else. */
  ghost predicate NotAbove(a: Rid, b: Rid) {
    a == Low || b == a || (a == Medium && b != Low) || (a != Medium && b != Low && b != Medium)
  }

  lemma RanksAreTheLadder(a: Rid, b: Rid)
    ensures SelectRank(a) <= SelectRank(b) <==> NotAbove(a, b)
  {
  }

  /** The selector's promise: an active layer, the best one not above the wish
      when there is one, otherwise the lowest; the wish itself when nothing is
      known to be active. */
  lemma BestFitSpec(desired: Rid, active: seq<Rid>)
    ensures active == [] ==> BestFit(desired, active) == desired
    ensures active != [] ==>
              var b := BestFit(desired, active);
              && b in active
              && (forall r | r in active && NotAbove(r, desired) :: NotAbove(r, b) && NotAbove(b, desired))
              && (!NotAbove(b, desired) ==> forall r | r in active :: NotAbove(b, r))
  {
    if active != [] {
      BestBelowSpec(active, SelectRank(desired));
      LowestSpec(active);
      var b := BestFit(desired, active);
      RanksAreTheLadder(b, desired);
      forall r | r in active
        ensures NotAbove(r, desired) ==> NotAbove(r, b) && NotAbove(b, desired)
        ensures !NotAbove(b, desired) ==> NotAbove(b, r)
      {
        RanksAreTheLadder(r, desired);
        RanksAreTheLadder(r, b);
        RanksAreTheLadder(b, r);
      }
    }
  }

  // --------------------------------------------------------------- outbound media

  /** Kind of the first resolvable outbound track for `(origin, mid)`. */
  function MatchedKind(tracks: seq<Track>, live: set<ClientId>, origin: ClientId, mid: nat): Option<Kind> {
    if tracks == [] then None
    else if tracks[0].origin in live && tracks[0].origin == origin && tracks[0].mid == mid
    then Some(tracks[0].kind)
    else MatchedKind(tracks[1..], live, origin, mid)
  }

  /** Track number `i` is this publisher's track `mid`, and its publisher is still
      in the room. */
  ghost predicate Resolves(tracks: seq<Track>, i: nat, live: set<ClientId>, origin: ClientId, mid: nat) {
    i < |tracks| && tracks[i].origin == origin && tracks[i].mid == mid && origin in live
  }

  /** The frame's track is known, and the first entry for it has this kind. */
  ghost predicate KnownAs(tracks: seq<Track>, live: set<ClientId>, origin: ClientId, mid: nat, kind: Kind) {
    exists i: nat :: Resolves(tracks, i, live, origin, mid) && tracks[i].kind == kind
      && forall j: nat | j < i :: !Resolves(tracks, j, live, origin, mid)
  }

  lemma {:induction false} LookupFindsFirst(tracks: seq<Track>, live: set<ClientId>, origin: ClientId, mid: nat)
    returns (i: nat)
    ensures i <= |tracks| && forall j: nat | j < i :: !Resolves(tracks, j, live, origin, mid)
    ensures MatchedKind(tracks, live, origin, mid) == if i < |tracks| then Some(tracks[i].kind) else None
    ensures i < |tracks| ==> Resolves(tracks, i, live, origin, mid)
  {
    if tracks == [] || Resolves(tracks, 0, live, origin, mid) {
      i := 0;
    } else {
      var k := LookupFindsFirst(tracks[1..], live, origin, mid);
      i := k + 1;
      forall j: nat | j < i ensures !Resolves(tracks, j, live, origin, mid) {
        if j > 0 {
          assert Resolves(tracks[1..], j - 1, live, origin, mid) <==> Resolves(tracks, j, live, origin, mid);
        }
      }
      assert i < |tracks| ==> tracks[i] == tracks[1..][k];
    }
  }

  /** The lookup by publisher and track id, in terms of positions. */
  lemma MatchedKindExact(tracks: seq<Track>, live: set<ClientId>, origin: ClientId, mid: nat, kind: Kind)
    ensures MatchedKind(tracks, live, origin, mid) == Some(kind) <==> KnownAs(tracks, live, origin, mid, kind)
    ensures MatchedKind(tracks, live, origin, mid) == None <==>
            forall i: nat | i < |tracks| :: !Resolves(tracks, i, live, origin, mid)
  {
    var i := LookupFindsFirst(tracks, live, origin, mid);
    if j: nat :| Resolves(tracks, j, live, origin, mid) && tracks[j].kind == kind
                 && forall k: nat | k < j :: !Resolves(tracks, k, live, origin, mid) {
      assert i == j;
    }
  }

  /** Suspension treats an unmatched track as video; the layer filter lets a
      frame without a layer through. */
  function MediaOutcome(c: ClientState, live: set<ClientId>, origin: ClientId, f: Frame): Outcome {
    var kind := MatchedKind(c.tracksOut, live, origin, f.mid);
    if c.suspended && kind != Some(Audio) then DroppedSuspended
    else if f.rid.None? || f.rid.value == BestFit(c.desired, c.activeRids) then Delivered
    else DroppedLayer
  }

  function Counted(c: ClientState, o: Outcome): ClientState {
    match o
    case Delivered => c.(delivered := c.delivered + 1)
    case DroppedSuspended => c.(dropped := c.dropped + 1)
    case DroppedLayer => c
  }

  // ------------------------------------------- the desired layer and the pacer's

  /** A fresh client driven by a history of readings and by nothing else. */
  ghost function RunDrive(id: ClientId, h: seq<nat>): (c: ClientState)
    ensures Usable(DEFAULT_CONFIG) && c.pacer == Run(DEFAULT_CONFIG, h)
  {
    DefaultIsUsable();
    if h == [] then FreshClient(id) else Driven(RunDrive(id, Front(h)), Last(h))
  }

  /** Some RestoreVideo since the last layer change dropped the pacer to LOW from
      a higher layer. */
  ghost predicate StaleLayer(h: seq<nat>) {
    DefaultIsUsable();
    if h == [] then false
    else
      var st, a := Run(DEFAULT_CONFIG, Front(h)), Act(DEFAULT_CONFIG, Front(h), Last(h));
      if a.ChangeLayer? then false
      else if a == RestoreVideo then StaleLayer(Front(h)) || st.layer != Low
      else StaleLayer(Front(h))
  }

  /** What one reading does to the two layers. */
  lemma DrivenLayers(c: ClientState, bps: nat)
    requires Usable(DEFAULT_CONFIG) && ClientOk(c)
    ensures var t := Tick(DEFAULT_CONFIG, c.pacer, bps);
            var d := Driven(c, bps);
            && (t.action.ChangeLayer? ==> d.desired == d.pacer.layer)
            && (!t.action.ChangeLayer? ==> d.desired == c.desired)
            && (t.action == RestoreVideo ==> d.pacer.layer == Low)
            && (!t.action.ChangeLayer? && t.action != RestoreVideo ==> d.pacer.layer == c.pacer.layer)
  {
  }

  /** The layer a client forwards never ranks below the pacer's, and differs from
      it exactly while a restore from above LOW awaits its next layer change. */
  lemma {:induction false} DesiredLayerExact(id: ClientId, h: seq<nat>)
    ensures var c := RunDrive(id, h);
            && !c.desired.Other?
            && Rank(c.desired) >= Rank(c.pacer.layer)
            && (c.desired != c.pacer.layer <==> StaleLayer(h))
            && (StaleLayer(h) ==> c.pacer.layer == Low)
  {
    DefaultIsUsable();
    if h != [] {
      DesiredLayerExact(id, Front(h));
      DrivenLayers(RunDrive(id, Front(h)), Last(h));
    }
  }

  ghost predicate AllLowBand(h: seq<nat>) {
    forall i | 0 <= i < |h| :: DEFAULT_CONFIG.lowMinBps <= h[i] < DEFAULT_CONFIG.mediumMinBps
  }

  lemma RunDriveSnoc(id: ClientId, h: seq<nat>, bps: nat)
    ensures RunDrive(id, h + [bps]) == Driven(RunDrive(id, h), bps)
  {
  }

  lemma LowBandStep(c: ClientState, bps: nat)
    requires ClientOk(c) && c.pacer.layer == Low && !c.pacer.audioOnly
    requires DEFAULT_CONFIG.lowMinBps <= bps < DEFAULT_CONFIG.mediumMinBps
    ensures var d := Driven(c, bps);
            d.desired == c.desired && d.pacer.layer == Low && !d.pacer.audioOnly
  {
  }

  /** A stale layer is not corrected by a link that sustains LOW and no more: it
      stays for as long as the readings stay in that band. */
  lemma {:induction false} StaleLayerPersists(id: ClientId, h: seq<nat>, later: seq<nat>)
    requires Usable(DEFAULT_CONFIG) && StaleLayer(h) && !Run(DEFAULT_CONFIG, h).audioOnly
    requires AllLowBand(later)
    ensures RunDrive(id, h + later).desired == RunDrive(id, h).desired != Low
    ensures RunDrive(id, h + later).pacer.layer == Low && !RunDrive(id, h + later).pacer.audioOnly
  {
    DesiredLayerExact(id, h);
    if later == [] {
      assert h + later == h;
    } else {
      var f := later[..|later| - 1];
      StaleLayerPersists(id, h, f);
      RunDriveSnoc(id, h + f, later[|later| - 1]);
      LowBandStep(RunDrive(id, h + f), later[|later| - 1]);
      AppendLast(h, later);
    }
  }

  /** It does arise: three good readings, one poor one, one at the LOW threshold
      leave the pacer on LOW and the client forwarding HIGH. */
  lemma StaleLayerArises(id: ClientId)
    ensures var c := RunDrive(id, [700_000, 700_000, 700_000, 50_000, 150_000]);
            c.pacer.layer == Low && !c.pacer.audioOnly && c.desired == High
  {
    var h3 := [700_000, 700_000, 700_000];
    UpgradeToHigh(id);
    RunDriveSnoc(id, h3, 50_000);
    assert h3 + [50_000] == [700_000, 700_000, 700_000, 50_000];
    RunDriveSnoc(id, [700_000, 700_000, 700_000, 50_000], 150_000);
    assert [700_000, 700_000, 700_000, 50_000] + [150_000] == [700_000, 700_000, 700_000, 50_000, 150_000];
  }

  lemma UpgradeToHigh(id: ClientId)
    ensures var c := RunDrive(id, [700_000, 700_000, 700_000]);
            c.pacer == PacerState(High, false, false, 0, 0) && c.desired == High
  {
  }

  // -------------------------------------------------------------------- the object

  class Client {
    const id: ClientId
    const pacer: SubscriberPacer
    var suspended: bool
    var desiredLayer: Rid
    var lastPacerDrive: Option<Instant>
    var activeRids: seq<Rid>
    var tracksIn: seq<Track>
    var tracksOut: seq<Track>
    var deliveredMedia: nat
    var videoFramesDropped: nat

    ghost function View(): ClientState
      reads this, pacer
    {
      ClientState(id, pacer.View(), suspended, desiredLayer, lastPacerDrive, activeRids,
                  tracksIn, tracksOut, deliveredMedia, videoFramesDropped)
    }

    ghost predicate Valid()
      reads this, pacer
    {
      pacer.Valid() && pacer.config == DEFAULT_CONFIG
    }

    constructor (id: ClientId)
      ensures Valid() && fresh(pacer) && View() == FreshClient(id)
    {
      DefaultIsUsable();
      this.id := id;
      pacer := new SubscriberPacer(DEFAULT_CONFIG);
      suspended, desiredLayer, lastPacerDrive := false, Low, None;
      activeRids, tracksIn, tracksOut := [], [], [];
      deliveredMedia, videoFramesDropped := 0, 0;
    }

    method SetDesiredLayer(rid: Rid)
      requires Valid()
      modifies this`desiredLayer
      ensures Valid() && View() == old(View()).(desired := rid)
    {
      desiredLayer := rid;
    }

    method SetSuspended(on: bool)
      requires Valid()
      modifies this`suspended
      ensures Valid() && View() == old(View()).(suspended := on)
    {
      suspended := on;
    }

    method DrivePacer(bps: nat) returns (action: PacerAction)
      requires Valid()
      modifies this`desiredLayer, pacer
      ensures Valid() && View() == Driven(old(View()), bps)
      ensures action == Tick(DEFAULT_CONFIG, old(View()).pacer, bps).action
    {
      action := pacer.Update(bps);
      if action.ChangeLayer? {
        SetDesiredLayer(action.rid);
      }
    }

    method PacerTickReady(now: Instant, minInterval: nat) returns (ready: bool)
      requires Valid()
      modifies this`lastPacerDrive
      ensures Valid()
      ensures ready <==> old(lastPacerDrive).None? || Elapsed(now, old(lastPacerDrive).value) >= minInterval
      ensures View() == if ready then old(View()).(lastDrive := Some(now)) else old(View())
    {
      if lastPacerDrive.Some? && Elapsed(now, lastPacerDrive.value) < minInterval {
        ready := false;
      } else {
        lastPacerDrive := Some(now);
        ready := true;
      }
    }

    method HandleTrackOpen(t: Track)
      requires Valid()
      modifies this`tracksOut
      ensures Valid() && View() == old(View()).(tracksOut := old(tracksOut) + [t])
    {
      tracksOut := tracksOut + [t];
    }

    /** Up to the delivery counter; the RTP writer behind it is not modelled. */
    method HandleMediaDataOut(live: set<ClientId>, origin: ClientId, f: Frame) returns (outcome: Outcome)
      requires Valid()
      modifies this`deliveredMedia, this`videoFramesDropped
      ensures Valid() && outcome == MediaOutcome(old(View()), live, origin, f)
      ensures View() == Counted(old(View()), outcome)
    {
      if suspended {
        var kind := MatchedKind(tracksOut, live, origin, f.mid);
        var isVideo := kind.None? || kind.value == Kind.Video;
        if isVideo {
          videoFramesDropped := videoFramesDropped + 1;
          return DroppedSuspended;
        }
      }
      var target := BestFit(desiredLayer, activeRids);
      if f.rid.Some? && f.rid.value != target {
        return DroppedLayer;
      }
      deliveredMedia := deliveredMedia + 1;
      return Delivered;
    }
  }
}
