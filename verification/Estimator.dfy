/** The per-room bandwidth estimator (src/bwe/estimator.rs): one subscriber
    state per peer, created on first use and removed when the peer leaves. */
module Estimator {
  import opened Basics
  import opened CombineTerms
  import opened SendLog
  import opened Subscriber
  import GoogCc

  type ClientId = nat

  type Bandwidth = map<ClientId, SubState>

  ghost predicate BandwidthInv(m: Bandwidth) {
    forall id | id in m :: SubInv(m[id])
  }

  function Entry(m: Bandwidth, id: ClientId): SubState {
    if id in m then m[id] else FreshSub()
  }

  function WithNative(m: Bandwidth, id: ClientId, bps: Float): Bandwidth {
    m[id := Entry(m, id).(native := Some(bps))]
  }

  function WithHint(m: Bandwidth, id: ClientId, bps: nat, now: Instant): Bandwidth {
    m[id := Entry(m, id).(hint := Some(ClientHint(bps, now)))]
  }

  function WithSend(m: Bandwidth, id: ClientId, s: Sent): Bandwidth {
    var e := Entry(m, id);
    m[id := e.(sendTimes := Recorded(e.sendTimes, s))]
  }

  ghost function WithFeedback(m: Bandwidth, id: ClientId, xs: seq<TwccSample>, now: Instant): Bandwidth
    requires BandwidthInv(m)
  {
    EntryKeepsInv(m, id);
    m[id := Ingest(Entry(m, id), xs, now)]
  }

  /** Enabling twice keeps the estimator that is already there. */
  function WithGoogcc(m: Bandwidth, id: ClientId): Bandwidth {
    var e := Entry(m, id);
    m[id := if e.googcc.Some? then e else e.(googcc := Some(GoogCc.FreshGoog()))]
  }

  /** Feeding is a no-op for a peer that is unknown or has no GoogCC. */
  ghost function WithPacket(m: Bandwidth, id: ClientId, p: GoogCc.Packet): Bandwidth
    requires BandwidthInv(m)
  {
    if id in m && m[id].googcc.Some?
    then m[id := m[id].(googcc := Some(GoogCc.Received(m[id].googcc.value, p)))] else m
  }

  function ReadingFor(m: Bandwidth, id: ClientId, now: Instant): Option<Reading> {
    if id in m then Some(ReadingOf(m[id], now)) else None
  }

  lemma EntryKeepsInv(m: Bandwidth, id: ClientId)
    requires BandwidthInv(m)
    ensures SubInv(Entry(m, id))
  {
  }

  /** The map of subscriber states. Entries are held by value: the source owns
      them through the map and never shares one. */
  class BandwidthEstimator {
    var subscribers: Bandwidth

    ghost predicate Valid()
      reads this
    {
      BandwidthInv(subscribers)
    }

    constructor ()
      ensures Valid() && subscribers == map[]
    {
      subscribers := map[];
    }

    method RecordNativeEstimate(id: ClientId, bps: Float)
      requires Valid()
      modifies this
      ensures Valid() && subscribers == WithNative(old(subscribers), id, bps)
    {
      EntryKeepsInv(subscribers, id);
      var sub := Entry(subscribers, id);
      subscribers := subscribers[id := sub.(native := Some(bps))];
    }

    method RecordClientHint(id: ClientId, bps: nat, now: Instant)
      requires Valid()
      modifies this
      ensures Valid() && subscribers == WithHint(old(subscribers), id, bps, now)
    {
      EntryKeepsInv(subscribers, id);
      var sub := Entry(subscribers, id);
      subscribers := subscribers[id := sub.(hint := Some(ClientHint(bps, now)))];
    }

    method RecordSendTime(id: ClientId, seqNo: nat, sentAt: Instant)
      requires Valid()
      modifies this
      ensures Valid() && subscribers == WithSend(old(subscribers), id, Sent(seqNo, sentAt))
    {
      EntryKeepsInv(subscribers, id);
      var sub := Entry(subscribers, id);
      RecordedStaysBounded(sub.sendTimes, Sent(seqNo, sentAt));
      var sendTimes := sub.sendTimes;
      if |sendTimes| >= MAX_SEND_TIMES {
        var oldest := OldestSeq(sendTimes);
        sendTimes := sendTimes - {oldest};
      }
      subscribers := subscribers[id := sub.(sendTimes := sendTimes[seqNo := sentAt])];
    }

    method OnTwccFeedback(id: ClientId, samples: seq<TwccSample>, now: Instant)
      requires Valid()
      modifies this
      ensures Valid() && subscribers == WithFeedback(old(subscribers), id, samples, now)
    {
      EntryKeepsInv(subscribers, id);
      var sub := Entry(subscribers, id);
      IngestKeepsInv(sub, samples, now);
      subscribers := subscribers[id := Ingest(sub, samples, now)];
    }

    method EnableGoogcc(id: ClientId)
      requires Valid()
      modifies this
      ensures Valid() && subscribers == WithGoogcc(old(subscribers), id)
    {
      EntryKeepsInv(subscribers, id);
      var sub := Entry(subscribers, id);
      if sub.googcc.None? {
        sub := sub.(googcc := Some(GoogCc.FreshGoog()));
      }
      subscribers := subscribers[id := sub];
    }

    /** `googcc_for_subscriber_mut` followed by `on_receive`. */
    method FeedGoogcc(id: ClientId, p: GoogCc.Packet)
      requires Valid()
      modifies this
      ensures Valid() && subscribers == WithPacket(old(subscribers), id, p)
    {
      if id in subscribers && subscribers[id].googcc.Some? {
        var sub := subscribers[id];
        GoogCc.StepKeepsBounds(sub.googcc.value.aimd, p.loss);
        subscribers := subscribers[id := sub.(googcc := Some(GoogCc.Received(sub.googcc.value, p)))];
      }
    }

    method EstimateWithTerm(id: ClientId, now: Instant) returns (r: Option<Reading>)
      ensures r == ReadingFor(subscribers, id, now)
    {
      if id !in subscribers {
        return None;
      }
      var sub := subscribers[id];
      var bps, term := Combine(Num(sub.delay.rate.bps), Num(sub.loss.rate.bps), sub.native,
                               GoogCeiling(sub), FreshHint(sub, now));
      return Some(Reading(bps.Floor, term));
    }

    method ReapDead(id: ClientId)
      requires Valid()
      modifies this
      ensures Valid() && subscribers == old(subscribers) - {id}
    {
      subscribers := subscribers - {id};
    }
  }
}
