/** What the pacer's state means in terms of the readings it was fed, with no
    reference to counters: exact, for every usable configuration and history. */
module PacerHistory {
  import opened Basics
  import opened PacerConfigs
  import opened Pacer

  /** The pacer after a history of readings. */
  ghost function Run(cfg: PacerConfig, h: seq<nat>): (st: PacerState)
    requires Usable(cfg)
    ensures Inv(cfg, st)
  {
    UsableOrder(cfg);
    if h == [] then FRESH
    else
      TickKeepsInv(cfg, Run(cfg, Front(h)), Last(h));
      Tick(cfg, Run(cfg, Front(h)), Last(h)).state
  }

  /** The action taken on a reading `bps` that follows history `h`. */
  ghost function Act(cfg: PacerConfig, h: seq<nat>, bps: nat): PacerAction
    requires Usable(cfg)
  {
    Tick(cfg, Run(cfg, h), bps).action
  }

  lemma RunSnoc(cfg: PacerConfig, h: seq<nat>, bps: nat)
    requires Usable(cfg)
    ensures Run(cfg, h + [bps]) == Tick(cfg, Run(cfg, h), bps).state
  {
  }

  // ---------------------------------------------------------------- suspension

  /** Readings `[e - suspendStreak, e)` were all below the suspend threshold and
      none from `e` on reached the audio-only threshold. */
  ghost predicate SuspendWindow(cfg: PacerConfig, h: seq<nat>, e: int) {
    && cfg.suspendStreak <= e <= |h|
    && (forall j | e - cfg.suspendStreak <= j < e :: h[j] < cfg.suspendVideoBps)
    && (forall j | e <= j < |h| :: h[j] < cfg.audioOnlyBps)
  }

  ghost predicate SuspendedByHistory(cfg: PacerConfig, h: seq<nat>) {
    exists e :: SuspendWindow(cfg, h, e)
  }

  /** How many of the latest readings in a row lie below the suspend threshold. */
  ghost function TrailingLow(cfg: PacerConfig, h: seq<nat>): (n: nat)
    ensures n <= |h|
    ensures forall j | |h| - n <= j < |h| :: h[j] < cfg.suspendVideoBps
    ensures n < |h| ==> h[|h| - n - 1] >= cfg.suspendVideoBps
  {
    if h == [] || Last(h) >= cfg.suspendVideoBps then 0
    else 1 + TrailingLow(cfg, Front(h))
  }

  /** While not suspended, the suspend counter is that number. */
  lemma {:induction false} SuspendStreakExact(cfg: PacerConfig, h: seq<nat>)
    requires Usable(cfg) && !Run(cfg, h).suspended
    ensures Run(cfg, h).suspendStreak == TrailingLow(cfg, h)
  {
    UsableOrder(cfg);
    if h != [] && !Run(cfg, Front(h)).suspended {
      SuspendStreakExact(cfg, Front(h));
    }
  }

  lemma {:induction false} TrailingLowAtLeast(cfg: PacerConfig, h: seq<nat>, m: nat)
    ensures TrailingLow(cfg, h) >= m <==>
            m <= |h| && forall j | |h| - m <= j < |h| :: h[j] < cfg.suspendVideoBps
  {
  }

  lemma {:induction false} WindowSuspends(cfg: PacerConfig, h: seq<nat>, e: int)
    requires Usable(cfg) && SuspendWindow(cfg, h, e)
    ensures Run(cfg, h).suspended
  {
    UsableOrder(cfg);
    if e < |h| {
      WindowSuspends(cfg, Front(h), e);
    } else if !Run(cfg, h).suspended {
      TrailingLowAtLeast(cfg, h, cfg.suspendStreak);
      SuspendStreakExact(cfg, h);
    }
  }

  lemma {:induction false} SuspendedHasWindow(cfg: PacerConfig, h: seq<nat>)
    requires Usable(cfg) && Run(cfg, h).suspended
    ensures SuspendedByHistory(cfg, h)
  {
    UsableOrder(cfg);
    var f := Front(h);
    if Run(cfg, f).suspended {
      SuspendedHasWindow(cfg, f);
      var e :| SuspendWindow(cfg, f, e);
      assert SuspendWindow(cfg, h, e);
    } else {
      SuspendStreakExact(cfg, f);
      assert TrailingLow(cfg, h) == cfg.suspendStreak;
      assert SuspendWindow(cfg, h, |h|);
    }
  }

  /** Suspension has an exact meaning without any state: a long enough run of
      very low readings, and no recovery since. */
  lemma SuspendedIffHistory(cfg: PacerConfig, h: seq<nat>)
    requires Usable(cfg)
    ensures Run(cfg, h).suspended <==> SuspendedByHistory(cfg, h)
  {
    if Run(cfg, h).suspended {
      SuspendedHasWindow(cfg, h);
    } else if SuspendedByHistory(cfg, h) {
      var e :| SuspendWindow(cfg, h, e);
      WindowSuspends(cfg, h, e);
    }
  }

  ghost predicate PointwiseAtMost(lower: seq<nat>, upper: seq<nat>) {
    |lower| == |upper| && forall i | 0 <= i < |lower| :: lower[i] <= upper[i]
  }

  /** Lowering readings never lifts a suspension, although the two runs may pass
      through quite different layers and modes on the way. */
  lemma SuspensionMonotone(cfg: PacerConfig, lower: seq<nat>, upper: seq<nat>)
    requires Usable(cfg) && PointwiseAtMost(lower, upper)
    requires Run(cfg, upper).suspended
    ensures Run(cfg, lower).suspended
  {
    SuspendedIffHistory(cfg, upper);
    SuspendedIffHistory(cfg, lower);
    var e :| SuspendWindow(cfg, upper, e);
    assert SuspendWindow(cfg, lower, e);
  }

  lemma TrailingLowSnoc(cfg: PacerConfig, h: seq<nat>, bps: nat)
    ensures TrailingLow(cfg, h + [bps]) ==
            if bps < cfg.suspendVideoBps then TrailingLow(cfg, h) + 1 else 0
  {
  }

  lemma SuspendActionIffStreak(cfg: PacerConfig, st: PacerState, bps: nat)
    requires Usable(cfg) && Inv(cfg, st)
    ensures Tick(cfg, st, bps).action == SuspendVideo <==>
            && !st.suspended && bps < cfg.suspendVideoBps
            && st.suspendStreak + 1 >= cfg.suspendStreak
  {
  }

  /** The reading that suspends closes `suspendStreak` low readings in a row. */
  lemma SuspendActionNeedsStreak(cfg: PacerConfig, h: seq<nat>, bps: nat)
    requires Usable(cfg)
    ensures var hb := h + [bps];
            Act(cfg, h, bps) == SuspendVideo <==>
              && !Run(cfg, h).suspended
              && cfg.suspendStreak <= |hb|
              && forall j | |hb| - cfg.suspendStreak <= j < |hb| :: hb[j] < cfg.suspendVideoBps
  {
    UsableOrder(cfg);
    SuspendActionIffStreak(cfg, Run(cfg, h), bps);
    if !Run(cfg, h).suspended {
      SuspendStreakExact(cfg, h);
    }
    TrailingLowSnoc(cfg, h, bps);
    TrailingLowAtLeast(cfg, h + [bps], cfg.suspendStreak);
  }

  // ---------------------------------------------------------------- audio only

  /** `suspendStreak` readings in a row, ending before `e`, were all low. */
  ghost predicate LowStreak(cfg: PacerConfig, h: seq<nat>, e: nat) {
    && cfg.suspendStreak <= e <= |h|
    && forall j | e - cfg.suspendStreak <= j < e :: h[j] < cfg.suspendVideoBps
  }

  /** Reading `e - 1` stopped video: it was poor but above the suspend threshold,
      or it completed a streak of low ones. */
  ghost predicate StopsVideo(cfg: PacerConfig, h: seq<nat>, e: nat) {
    && 0 < e <= |h|
    && (cfg.suspendVideoBps <= h[e - 1] < cfg.audioOnlyBps || LowStreak(cfg, h, e))
  }

  /** Video was stopped before `e`, and every good reading since came while the
      history amounted to a suspension: such a reading only ends the suspension. */
  ghost predicate AudioOnlyWindow(cfg: PacerConfig, h: seq<nat>, e: nat) {
    && StopsVideo(cfg, h, e)
    && forall j | e <= j < |h| && h[j] >= cfg.lowMinBps :: SuspendedByHistory(cfg, h[..j])
  }

  ghost predicate AudioOnlyByHistory(cfg: PacerConfig, h: seq<nat>) {
    exists e: nat :: AudioOnlyWindow(cfg, h, e)
  }

  lemma WindowOfFront(cfg: PacerConfig, h: seq<nat>, e: nat)
    requires h != [] && e < |h|
    ensures AudioOnlyWindow(cfg, h, e) <==>
            && AudioOnlyWindow(cfg, Front(h), e)
            && (Last(h) >= cfg.lowMinBps ==> SuspendedByHistory(cfg, Front(h)))
  {
    var f := Front(h);
    assert forall j | 0 <= j < |f| :: f[..j] == h[..j] && f[j] == h[j];
    assert h[..|f|] == f;
  }

  lemma StopsVideoNow(cfg: PacerConfig, h: seq<nat>)
    requires Usable(cfg) && StopsVideo(cfg, h, |h|)
    ensures Run(cfg, h).audioOnly
  {
    UsableOrder(cfg);
    if LowStreak(cfg, h, |h|) {
      WindowSuspends(cfg, h, |h|);
    }
  }

  lemma {:induction false} WindowStopsVideo(cfg: PacerConfig, h: seq<nat>, e: nat)
    requires Usable(cfg) && AudioOnlyWindow(cfg, h, e)
    ensures Run(cfg, h).audioOnly
  {
    if e == |h| {
      StopsVideoNow(cfg, h);
    } else {
      WindowOfFront(cfg, h, e);
      WindowStopsVideo(cfg, Front(h), e);
      SuspendedIffHistory(cfg, Front(h));
    }
  }

  lemma StoppingAction(cfg: PacerConfig, st: PacerState, bps: nat)
    requires Usable(cfg) && Inv(cfg, st) && !st.audioOnly && Tick(cfg, st, bps).state.audioOnly
    ensures cfg.suspendVideoBps <= bps < cfg.audioOnlyBps || Tick(cfg, st, bps).action == SuspendVideo
  {
  }

  /** The tick that stops video is one that `StopsVideo` describes. */
  lemma StoppingTick(cfg: PacerConfig, h: seq<nat>, bps: nat)
    requires Usable(cfg) && !Run(cfg, h).audioOnly && Tick(cfg, Run(cfg, h), bps).state.audioOnly
    ensures StopsVideo(cfg, h + [bps], |h| + 1)
  {
    StoppingAction(cfg, Run(cfg, h), bps);
    SuspendActionNeedsStreak(cfg, h, bps);
  }

  lemma {:induction false} AudioOnlyHasWindow(cfg: PacerConfig, h: seq<nat>)
    requires Usable(cfg) && Run(cfg, h).audioOnly
    ensures AudioOnlyByHistory(cfg, h)
  {
    UsableOrder(cfg);
    var f := Front(h);
    if Run(cfg, f).audioOnly {
      AudioOnlyHasWindow(cfg, f);
      SuspendedIffHistory(cfg, f);
      var e: nat :| AudioOnlyWindow(cfg, f, e);
      WindowOfFront(cfg, h, e);
    } else {
      StoppingTick(cfg, f, Last(h));
      assert h == f + [Last(h)];
      assert AudioOnlyWindow(cfg, h, |h|);
    }
  }

  /** Audio-only, too, has an exact meaning without any state. */
  lemma AudioOnlyIffHistory(cfg: PacerConfig, h: seq<nat>)
    requires Usable(cfg)
    ensures Run(cfg, h).audioOnly <==> AudioOnlyByHistory(cfg, h)
  {
    if Run(cfg, h).audioOnly {
      AudioOnlyHasWindow(cfg, h);
    } else if e: nat :| AudioOnlyWindow(cfg, h, e) {
      WindowStopsVideo(cfg, h, e);
    }
  }

  lemma WorseTickIff(cfg: PacerConfig, st: PacerState, poor: nat, worse: nat)
    requires Usable(cfg) && Inv(cfg, st) && worse <= poor
    ensures Tick(cfg, st, poor).state.audioOnly && !Tick(cfg, st, worse).state.audioOnly <==>
            && !st.audioOnly
            && worse < cfg.suspendVideoBps <= poor < cfg.audioOnlyBps
            && st.suspendStreak + 1 < cfg.suspendStreak
  {
    UsableOrder(cfg);
  }

  /** Unlike suspension it is not monotone. A worse last reading keeps video on
      where the better one stops it exactly when video is on, the better one lies
      between the thresholds, and the worse one falls below both without
      completing a streak of low ones. */
  lemma WorseReadingKeepsVideoIff(cfg: PacerConfig, h: seq<nat>, poor: nat, worse: nat)
    requires Usable(cfg) && worse <= poor
    ensures Run(cfg, h + [poor]).audioOnly && !Run(cfg, h + [worse]).audioOnly <==>
            && !AudioOnlyByHistory(cfg, h)
            && worse < cfg.suspendVideoBps <= poor < cfg.audioOnlyBps
            && TrailingLow(cfg, h) + 1 < cfg.suspendStreak
  {
    RunSnoc(cfg, h, poor);
    RunSnoc(cfg, h, worse);
    WorseTickIff(cfg, Run(cfg, h), poor, worse);
    AudioOnlyIffHistory(cfg, h);
    if !Run(cfg, h).suspended {
      SuspendStreakExact(cfg, h);
    }
  }

  // ---------------------------------------------------------- upgrade debounce

  /** The readings since the last tick that changed mode or layer. */
  ghost function Since(cfg: PacerConfig, h: seq<nat>): (s: seq<nat>)
    requires Usable(cfg)
    ensures |s| <= |h| && s == h[|h| - |s|..]
  {
    if h == [] || Act(cfg, Front(h), Last(h)) != NoChange then []
    else
      var f := Since(cfg, Front(h));
      assert f + [Last(h)] == h[|h| - |f| - 1..];
      f + [Last(h)]
  }

  /** Readings below the suspend threshold return before the layer logic, so the
      upgrade debounce does not see them. */
  ghost function Kept(cfg: PacerConfig, s: seq<nat>): (r: seq<nat>)
    ensures forall b | b in r :: b >= cfg.suspendVideoBps && b in s
  {
    if s == [] then []
    else if Last(s) < cfg.suspendVideoBps then Kept(cfg, Front(s))
    else Kept(cfg, Front(s)) + [Last(s)]
  }

  ghost predicate Above(cfg: PacerConfig, layer: Rid, bps: nat)
    requires !layer.Other?
  {
    Rank(LayerFor(cfg, bps)) > Rank(layer)
  }

  /** How many of the latest readings in a row target a layer above `layer`. */
  ghost function TrailingAbove(cfg: PacerConfig, layer: Rid, s: seq<nat>): (n: nat)
    requires !layer.Other?
    ensures n <= |s|
    ensures forall i | |s| - n <= i < |s| :: Above(cfg, layer, s[i])
    ensures n < |s| ==> !Above(cfg, layer, s[|s| - n - 1])
  {
    if s == [] || !Above(cfg, layer, Last(s)) then 0
    else 1 + TrailingAbove(cfg, layer, Front(s))
  }

  lemma KeptSnoc(cfg: PacerConfig, s: seq<nat>, bps: nat)
    ensures Kept(cfg, s + [bps]) ==
            if bps < cfg.suspendVideoBps then Kept(cfg, s) else Kept(cfg, s) + [bps]
  {
  }

  lemma TrailingAboveSnoc(cfg: PacerConfig, layer: Rid, s: seq<nat>, bps: nat)
    requires !layer.Other?
    ensures TrailingAbove(cfg, layer, s + [bps]) ==
            if Above(cfg, layer, bps) then TrailingAbove(cfg, layer, s) + 1 else 0
  {
  }

  /** What one reading does to the upgrade counter, whatever the mode. */
  lemma UpgradeStreakStep(cfg: PacerConfig, st: PacerState, bps: nat)
    requires Usable(cfg) && Inv(cfg, st)
    ensures var r := Tick(cfg, st, bps);
            if r.action != NoChange then r.state.upgradeStreak == 0
            else
              && r.state.layer == st.layer
              && r.state.upgradeStreak ==
                   (if bps < cfg.suspendVideoBps then st.upgradeStreak
                    else if Above(cfg, st.layer, bps) then st.upgradeStreak + 1
                    else 0)
  {
    UsableOrder(cfg);
  }

  /** In every mode the upgrade counter is the trailing run of upward targets
      among the readings the debounce has seen since the last change. */
  lemma {:induction false} UpgradeStreakExact(cfg: PacerConfig, h: seq<nat>)
    requires Usable(cfg)
    ensures var st := Run(cfg, h);
            st.upgradeStreak == TrailingAbove(cfg, st.layer, Kept(cfg, Since(cfg, h)))
  {
    if h != [] {
      var f, b := Front(h), Last(h);
      UpgradeStreakExact(cfg, f);
      UpgradeStreakStep(cfg, Run(cfg, f), b);
      if Act(cfg, f, b) == NoChange {
        KeptSnoc(cfg, Since(cfg, f), b);
        TrailingAboveSnoc(cfg, Run(cfg, f).layer, Kept(cfg, Since(cfg, f)), b);
      }
    }
  }

  ghost predicate UpwardChange(layer: Rid, a: PacerAction)
    requires !layer.Other?
  {
    a.ChangeLayer? && !a.rid.Other? && Rank(a.rid) > Rank(layer)
  }

  lemma {:induction false} TrailingAboveAtLeast(cfg: PacerConfig, layer: Rid, s: seq<nat>, m: nat)
    requires !layer.Other?
    ensures TrailingAbove(cfg, layer, s) >= m <==>
            m <= |s| && forall i | |s| - m <= i < |s| :: Above(cfg, layer, s[i])
  {
  }

  /** The same in terms of one state and its counter. */
  lemma UpwardChangeIffStreak(cfg: PacerConfig, st: PacerState, bps: nat)
    requires Usable(cfg) && Inv(cfg, st)
    ensures var a := Tick(cfg, st, bps).action;
            && (UpwardChange(st.layer, a) <==>
                  !st.audioOnly && Above(cfg, st.layer, bps) && st.upgradeStreak + 1 >= cfg.upgradeStreak)
            && (UpwardChange(st.layer, a) ==> a == ChangeLayer(LayerFor(cfg, bps)))
  {
    UsableOrder(cfg);
  }

  /** An upward switch happens exactly when video is on and the last
      `upgradeStreak` readings the debounce saw since the previous change all
      targeted a higher layer; it adopts the target of the last one alone. */
  lemma UpwardChangeIffHistory(cfg: PacerConfig, h: seq<nat>, bps: nat)
    requires Usable(cfg)
    ensures var st := Run(cfg, h);
            var seen := Kept(cfg, Since(cfg, h)) + [bps];
            UpwardChange(st.layer, Act(cfg, h, bps)) <==>
              && !st.audioOnly
              && cfg.upgradeStreak <= |seen|
              && forall i | |seen| - cfg.upgradeStreak <= i < |seen| :: Above(cfg, st.layer, seen[i])
    ensures UpwardChange(Run(cfg, h).layer, Act(cfg, h, bps)) ==>
              Act(cfg, h, bps) == ChangeLayer(LayerFor(cfg, bps))
  {
    UsableOrder(cfg);
    UpgradeStreakExact(cfg, h);
    var st := Run(cfg, h);
    var kept := Kept(cfg, Since(cfg, h));
    UpwardChangeIffStreak(cfg, st, bps);
    TrailingAboveSnoc(cfg, st.layer, kept, bps);
    TrailingAboveAtLeast(cfg, st.layer, kept + [bps], cfg.upgradeStreak);
  }

  lemma {:induction false} KeptNoLonger(cfg: PacerConfig, s: seq<nat>)
    ensures |Kept(cfg, s)| <= |s|
  {
    if s != [] {
      KeptNoLonger(cfg, Front(s));
    }
  }

  ghost function Tail(s: seq<nat>, n: nat): (t: seq<nat>)
    requires n <= |s|
    ensures |t| == n
  {
    s[|s| - n..]
  }

  lemma TailSnoc(s: seq<nat>, b: nat, n: nat)
    requires 0 < n <= |s| + 1
    ensures Tail(s + [b], n) == Tail(s, n - 1) + [b]
  {
  }

  ghost predicate NoneBelow(t: seq<nat>, bps: nat) {
    forall i | 0 <= i < |t| :: t[i] >= bps
  }

  ghost predicate AllAbove(cfg: PacerConfig, layer: Rid, t: seq<nat>)
    requires !layer.Other?
  {
    forall i | 0 <= i < |t| :: Above(cfg, layer, t[i])
  }

  lemma NoneBelowSnoc(t: seq<nat>, b: nat, bps: nat)
    requires NoneBelow(t + [b], bps)
    ensures NoneBelow(t, bps) && b >= bps
  {
    assert (t + [b])[|t|] == b;
    assert forall i | 0 <= i < |t| :: t[i] == (t + [b])[i];
  }

  /** Latest readings that all reach the suspend threshold are all kept. */
  lemma {:induction false} KeptTail(cfg: PacerConfig, s: seq<nat>, n: nat)
    requires n <= |s| && NoneBelow(Tail(s, n), cfg.suspendVideoBps)
    ensures n <= |Kept(cfg, s)| && Tail(Kept(cfg, s), n) == Tail(s, n)
  {
    if n > 0 {
      var f, b := Front(s), Last(s);
      assert s == f + [b];
      TailSnoc(f, b, n);
      NoneBelowSnoc(Tail(f, n - 1), b, cfg.suspendVideoBps);
      KeptTail(cfg, f, n - 1);
      TailSnoc(Kept(cfg, f), b, n);
    }
  }

  /** When none of the latest `n` readings is passed over, they are the latest
      `n` that the debounce sees of a recent stretch. */
  lemma SeenTail(cfg: PacerConfig, h: seq<nat>, recent: seq<nat>, bps: nat, n: nat)
    requires |recent| <= |h| && recent == h[|h| - |recent|..] && 0 < n <= |recent| + 1
    requires NoneBelow(Tail(h + [bps], n), cfg.suspendVideoBps)
    ensures n <= |Kept(cfg, recent)| + 1
    ensures Tail(Kept(cfg, recent) + [bps], n) == Tail(h + [bps], n)
  {
    TailSnoc(h, bps, n);
    NoneBelowSnoc(Tail(h, n - 1), bps, cfg.suspendVideoBps);
    assert Tail(recent, n - 1) == Tail(h, n - 1);
    KeptTail(cfg, recent, n - 1);
    TailSnoc(Kept(cfg, recent), bps, n);
  }

  /** The ticks of an upgrade are consecutive exactly when none of the last
      `upgradeStreak` readings fell below the suspend threshold, the guard of the
      early return. */
  lemma UpgradeConsecutiveIff(cfg: PacerConfig, h: seq<nat>, bps: nat)
    requires Usable(cfg) && UpwardChange(Run(cfg, h).layer, Act(cfg, h, bps))
    ensures cfg.upgradeStreak <= |h| + 1
    ensures var latest := Tail(h + [bps], cfg.upgradeStreak);
            AllAbove(cfg, Run(cfg, h).layer, latest) <==> NoneBelow(latest, cfg.suspendVideoBps)
  {
    UsableOrder(cfg);
    UpwardChangeIffHistory(cfg, h, bps);
    var since, n := Since(cfg, h), cfg.upgradeStreak;
    KeptNoLonger(cfg, since);
    var latest, seen := Tail(h + [bps], n), Kept(cfg, since) + [bps];
    assert AllAbove(cfg, Run(cfg, h).layer, Tail(seen, n));
    if NoneBelow(latest, cfg.suspendVideoBps) {
      SeenTail(cfg, h, since, bps, n);
    } else if AllAbove(cfg, Run(cfg, h).layer, latest) {
      AboveIsKept(cfg, Run(cfg, h).layer, latest);
    }
  }

  /** A reading that targets a higher layer is far above the suspend threshold. */
  lemma AboveIsKept(cfg: PacerConfig, layer: Rid, t: seq<nat>)
    requires Usable(cfg) && !layer.Other? && AllAbove(cfg, layer, t)
    ensures NoneBelow(t, cfg.suspendVideoBps)
  {
    UsableOrder(cfg);
    forall i | 0 <= i < |t| ensures t[i] >= cfg.suspendVideoBps {
      assert Above(cfg, layer, t[i]);
    }
  }

  /** They need not be: with the default thresholds a reading below the suspend
      threshold in between is passed over. */
  lemma UpgradePassesOverLowReading()
    ensures Usable(DEFAULT_CONFIG)
    ensures Act(DEFAULT_CONFIG, [400_000, 400_000, 5_000], 400_000) == ChangeLayer(Medium)
  {
  }

  // --------------------------------------------------- layers by their thresholds

  /** The reading from which a layer is sustained. */
  ghost function MinBps(cfg: PacerConfig, layer: Rid): nat
    requires !layer.Other?
  {
    match layer
    case Low => 0
    case Medium => cfg.mediumMinBps
    case High => cfg.highMinBps
  }

  /** A reading counts toward an upgrade exactly from the next layer's threshold. */
  lemma AboveByThreshold(cfg: PacerConfig, layer: Rid, bps: nat)
    requires Usable(cfg) && !layer.Other?
    ensures Above(cfg, layer, bps) <==>
            (layer == Low && bps >= cfg.mediumMinBps) || (layer == Medium && bps >= cfg.highMinBps)
  {
    UsableOrder(cfg);
  }

  /** Downgrades are not debounced: after any history, a reading that keeps video on
      but does not sustain the current layer changes the layer at once, to the
      best one it does sustain. Every other layer change is upward. */
  lemma DowngradeIsImmediate(cfg: PacerConfig, h: seq<nat>, bps: nat)
    requires Usable(cfg)
    ensures var st, a := Run(cfg, h), Act(cfg, h, bps);
            && (!st.audioOnly && cfg.audioOnlyBps <= bps < MinBps(cfg, st.layer) ==>
                  a == ChangeLayer(if bps >= cfg.mediumMinBps then Medium else Low))
            && (a.ChangeLayer? && bps >= MinBps(cfg, st.layer) ==> Above(cfg, st.layer, bps))
            && (a.ChangeLayer? ==> !st.audioOnly && cfg.audioOnlyBps <= bps)
  {
    UsableOrder(cfg);
  }

  // ---------------------------------------------------------- replay of actions

  datatype Mode = Video | AudioOnly | Suspended

  datatype Posture = Posture(mode: Mode, layer: Rid)

  ghost function PostureOf(st: PacerState): Posture {
    Posture(if st.suspended then Suspended else if st.audioOnly then AudioOnly else Video, st.layer)
  }

  ghost function Actions(cfg: PacerConfig, h: seq<nat>): (s: seq<PacerAction>)
    requires Usable(cfg)
    ensures |s| == |h|
  {
    if h == [] then [] else Actions(cfg, Front(h)) + [Act(cfg, Front(h), Last(h))]
  }

  ghost function Applied(p: Posture, a: PacerAction): Posture {
    match a
    case NoChange => p
    case ChangeLayer(rid) => p.(layer := rid)
    case GoAudioOnly => p.(mode := AudioOnly)
    case RestoreVideo => Posture(Video, Low)
    case SuspendVideo => p.(mode := Suspended)
    case RestoreAudio => p.(mode := AudioOnly)
  }

  /** A consumer's view, built from the emitted actions alone. */
  ghost function Replay(actions: seq<PacerAction>): Posture {
    if actions == [] then Posture(Video, Low)
    else Applied(Replay(Front(actions)), Last(actions))
  }

  lemma PostureStep(cfg: PacerConfig, st: PacerState, bps: nat)
    requires Usable(cfg) && Inv(cfg, st)
    ensures var r := Tick(cfg, st, bps);
            PostureOf(r.state) == Applied(PostureOf(st), r.action)
  {
  }

  /** No state change is silent: the actions determine mode and layer. */
  lemma {:induction false} ReplayReconstructs(cfg: PacerConfig, h: seq<nat>)
    requires Usable(cfg)
    ensures Replay(Actions(cfg, h)) == PostureOf(Run(cfg, h))
  {
    if h != [] {
      ReplayReconstructs(cfg, Front(h));
      PostureStep(cfg, Run(cfg, Front(h)), Last(h));
      assert Front(Actions(cfg, h)) == Actions(cfg, Front(h));
    }
  }
}
