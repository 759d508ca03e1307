/** The bounded map from sequence number to send time that stands in for the
    full send history (src/bwe/estimator.rs). */
module SendLog {
  import opened Basics

  const MAX_SEND_TIMES: nat := 512

  datatype Sent = Sent(seqNo: nat, at: Instant)

  ghost predicate IsMin(s: set<nat>, m: nat) {
    m in s && forall k | k in s :: m <= k
  }

  lemma {:induction false} MinExists(s: set<nat>)
    requires s != {}
    ensures exists m :: IsMin(s, m)
  {
    var x :| x in s;
    var rest := s - {x};
    assert s == rest + {x};
    if rest == {} {
      assert IsMin(s, x);
    } else {
      MinExists(rest);
      var r :| IsMin(rest, r);
      assert IsMin(s, if x < r then x else r);
    }
  }

  function OldestSeq(m: map<nat, Instant>): (k: nat)
    requires m != map[]
    ensures k in m && forall j | j in m :: k <= j
  {
    MinExists(m.Keys);
    assert exists k :: k in m.Keys && forall j | j in m.Keys :: k <= j by {
      var k :| IsMin(m.Keys, k);
      assert k in m.Keys;
    }
    var k :| k in m.Keys && forall j | j in m.Keys :: k <= j;
    k
  }

  /** Recording a send evicts the lowest sequence number once the map is full,
      even when the new one only overwrites. */
  function Recorded(m: map<nat, Instant>, s: Sent): (r: map<nat, Instant>)
    ensures s.seqNo in r && r[s.seqNo] == s.at
  {
    (if |m| >= MAX_SEND_TIMES then m - {OldestSeq(m)} else m)[s.seqNo := s.at]
  }

  ghost function RunSends(h: seq<Sent>): map<nat, Instant> {
    if h == [] then map[] else Recorded(RunSends(h[..|h| - 1]), h[|h| - 1])
  }

  lemma SizeAfterPut(m: map<nat, Instant>, k: nat, t: Instant)
    ensures |m[k := t]| == if k in m then |m| else |m| + 1
  {
  }

  lemma RecordedStaysBounded(m: map<nat, Instant>, s: Sent)
    requires |m| <= MAX_SEND_TIMES
    ensures |Recorded(m, s)| <= MAX_SEND_TIMES
  {
  }

  /** Never more than 512 entries, for any sequence numbers in any order. */
  lemma {:induction false} SendLogBounded(h: seq<Sent>)
    ensures |RunSends(h)| <= MAX_SEND_TIMES
  {
    if h != [] {
      SendLogBounded(h[..|h| - 1]);
      RecordedStaysBounded(RunSends(h[..|h| - 1]), h[|h| - 1]);
    }
  }

  // --------------------------------------------------- against the unbounded log

  ghost predicate Increasing(h: seq<Sent>) {
    forall i, j | 0 <= i < j < |h| :: h[i].seqNo < h[j].seqNo
  }

  /** The log without a bound. */
  ghost function FullLog(h: seq<Sent>): map<nat, Instant> {
    if h == [] then map[] else FullLog(h[..|h| - 1])[h[|h| - 1].seqNo := h[|h| - 1].at]
  }

  lemma {:induction false} KeysBelow(h: seq<Sent>, bound: nat)
    requires forall i | 0 <= i < |h| :: h[i].seqNo < bound
    ensures forall k | k in FullLog(h) :: k < bound
  {
    if h != [] {
      KeysBelow(h[..|h| - 1], bound);
    }
  }

  lemma {:induction false} FullLogSize(h: seq<Sent>)
    requires Increasing(h)
    ensures |FullLog(h)| == |h|
  {
    if h != [] {
      var f, x := h[..|h| - 1], h[|h| - 1];
      FullLogSize(f);
      KeysBelow(f, x.seqNo);
      SizeAfterPut(FullLog(f), x.seqNo, x.at);
    }
  }

  lemma {:induction false} FirstIsOldest(h: seq<Sent>)
    requires Increasing(h) && h != []
    ensures h[0].seqNo in FullLog(h) && forall k | k in FullLog(h) :: h[0].seqNo <= k
  {
    if |h| > 1 {
      FirstIsOldest(h[..|h| - 1]);
    } else {
      assert FullLog(h[..0]) == map[];
    }
  }

  lemma {:induction false} DropFirst(h: seq<Sent>)
    requires Increasing(h) && h != []
    ensures FullLog(h) - {h[0].seqNo} == FullLog(h[1..])
  {
    var f, x := h[..|h| - 1], h[|h| - 1];
    if f == [] {
      assert h[1..] == [];
    } else {
      DropFirst(f);
      var t := h[1..];
      assert t[..|t| - 1] == f[1..] && t[|t| - 1] == x;
      assert h[0].seqNo < x.seqNo;
    }
  }

  lemma RecordedEvictsFirst(w: seq<Sent>, x: Sent)
    requires Increasing(w) && |w| == MAX_SEND_TIMES
    ensures Recorded(FullLog(w), x) == FullLog(w[1..] + [x])
  {
    FullLogSize(w);
    FirstIsOldest(w);
    DropFirst(w);
    assert (w[1..] + [x])[..|w| - 1] == w[1..];
  }

  lemma RecordedAppends(w: seq<Sent>, x: Sent)
    requires Increasing(w) && |w| < MAX_SEND_TIMES
    ensures Recorded(FullLog(w), x) == FullLog(w + [x])
  {
    FullLogSize(w);
    assert (w + [x])[..|w|] == w;
  }

  lemma RecordedPushes(w: seq<Sent>, x: Sent)
    requires Increasing(w) && |w| <= MAX_SEND_TIMES
    ensures Recorded(FullLog(w), x) == FullLog(PushBounded(w, x, MAX_SEND_TIMES))
  {
    if |w| == MAX_SEND_TIMES {
      RecordedEvictsFirst(w, x);
    } else {
      RecordedAppends(w, x);
    }
  }

  /** With increasing sequence numbers the map holds exactly the last 512 sends. */
  lemma {:induction false} IncreasingSendsKeepLast(h: seq<Sent>)
    requires Increasing(h)
    ensures RunSends(h) == FullLog(LastN(h, MAX_SEND_TIMES))
  {
    if h != [] {
      var f, x := h[..|h| - 1], h[|h| - 1];
      IncreasingSendsKeepLast(f);
      RecordedPushes(LastN(f, MAX_SEND_TIMES), x);
      PushKeepsLastN(f, x, MAX_SEND_TIMES);
      assert f + [x] == h;
    }
  }

  /** Sent, but older than the last 512 sends. */
  ghost predicate Evicted(h: seq<Sent>, seqNo: nat) {
    |h| > MAX_SEND_TIMES && seqNo in FullLog(h[..|h| - MAX_SEND_TIMES])
  }

  lemma {:induction false} SuffixAgrees(early: seq<Sent>, late: seq<Sent>, k: nat)
    requires k !in FullLog(early)
    ensures k in FullLog(early + late) <==> k in FullLog(late)
    ensures k in FullLog(late) ==> FullLog(early + late)[k] == FullLog(late)[k]
  {
    var all := early + late;
    if late == [] {
      assert all == early;
    } else {
      SuffixAgrees(early, late[..|late| - 1], k);
      assert all[..|all| - 1] == early + late[..|late| - 1];
    }
  }

  lemma WindowAgrees(h: seq<Sent>, seqNo: nat)
    requires !Evicted(h, seqNo)
    ensures var w := FullLog(LastN(h, MAX_SEND_TIMES));
            && (seqNo in w <==> seqNo in FullLog(h))
            && (seqNo in w ==> w[seqNo] == FullLog(h)[seqNo])
  {
    if |h| > MAX_SEND_TIMES {
      var cut := |h| - MAX_SEND_TIMES;
      SuffixAgrees(h[..cut], h[cut..], seqNo);
      assert h == h[..cut] + h[cut..];
    }
  }

  /** Outside the evicted numbers the bounded log answers as the full one. */
  lemma BoundedAgreesWithFull(h: seq<Sent>, seqNo: nat)
    requires Increasing(h) && !Evicted(h, seqNo)
    ensures seqNo in RunSends(h) <==> seqNo in FullLog(h)
    ensures seqNo in RunSends(h) ==> RunSends(h)[seqNo] == FullLog(h)[seqNo]
  {
    IncreasingSendsKeepLast(h);
    WindowAgrees(h, seqNo);
  }

  /** An increasing history answers for a packet with its own send time. */
  lemma {:induction false} FullLogExact(h: seq<Sent>, seqNo: nat, t: Instant)
    requires Increasing(h)
    ensures seqNo in FullLog(h) && FullLog(h)[seqNo] == t <==> Sent(seqNo, t) in h
  {
    if h != [] {
      var f, x := h[..|h| - 1], h[|h| - 1];
      FullLogExact(f, seqNo, t);
      KeysBelow(f, x.seqNo);
      assert h == f + [x];
    }
  }
}
