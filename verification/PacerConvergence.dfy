/** Where a steady reading takes the pacer, from every state it can be in. */
module PacerConvergence {
  import opened PacerConfigs
  import opened Pacer

  /** The pacer after `n` ticks that all read `bps`. */
  ghost function Hold(cfg: PacerConfig, st: PacerState, bps: nat, n: nat): (r: PacerState)
    requires Usable(cfg) && Inv(cfg, st)
    ensures Inv(cfg, r)
  {
    if n == 0 then st
    else
      TickKeepsInv(cfg, Hold(cfg, st, bps, n - 1), bps);
      Tick(cfg, Hold(cfg, st, bps, n - 1), bps).state
  }

  ghost predicate Settled(cfg: PacerConfig, st: PacerState, bps: nat)
    requires !st.layer.Other?
  {
    Tick(cfg, st, bps) == Ticked(st, NoChange)
  }

  /** Holding for `m` ticks and then for `n` more is holding for the sum. */
  lemma {:induction false} HoldAdds(cfg: PacerConfig, st: PacerState, mid: PacerState, bps: nat,
                                    m: nat, n: nat, total: nat)
    requires Usable(cfg) && Inv(cfg, st) && mid == Hold(cfg, st, bps, m) && total == m + n
    ensures Hold(cfg, st, bps, total) == Hold(cfg, mid, bps, n)
  {
    if n > 0 {
      var a, b := Hold(cfg, st, bps, total - 1), Hold(cfg, mid, bps, n - 1);
      assert a == b by {
        HoldAdds(cfg, st, mid, bps, m, n - 1, total - 1);
      }
      assert Hold(cfg, st, bps, total) == Tick(cfg, a, bps).state;
      assert Hold(cfg, mid, bps, n) == Tick(cfg, b, bps).state;
    }
  }

  lemma {:induction false} SettledStays(cfg: PacerConfig, st: PacerState, bps: nat, m: nat, n: nat)
    requires Usable(cfg) && Inv(cfg, st) && m <= n
    requires Settled(cfg, Hold(cfg, st, bps, m), bps)
    ensures Hold(cfg, st, bps, n) == Hold(cfg, st, bps, m)
  {
    if m < n {
      SettledStays(cfg, st, bps, m, n - 1);
    }
  }

  /** The rest point of a steady reading, in closed form. From `lowMinBps` up it
      does not depend on the starting state; in the two middle bands it keeps
      only the starting mode, which is the hysteresis. */
  ghost function RestPoint(cfg: PacerConfig, st: PacerState, bps: nat): PacerState {
    if bps >= cfg.lowMinBps then PacerState(LayerFor(cfg, bps), false, false, 0, 0)
    else if bps < cfg.suspendVideoBps then PacerState(st.layer, true, true, 0, 0)
    else if bps < cfg.audioOnlyBps then PacerState(st.layer, true, st.suspended, 0, 0)
    else if st.audioOnly then PacerState(st.layer, true, false, 0, 0)
    else PacerState(Low, false, false, 0, 0)
  }

  /** The larger of the suspend streak and the upgrade streak plus two; the
      suspend streak does not matter when no reading can be below its threshold. */
  ghost function SettlingTime(cfg: PacerConfig): nat {
    if cfg.suspendVideoBps == 0 || cfg.suspendStreak <= cfg.upgradeStreak + 2 then cfg.upgradeStreak + 2
    else cfg.suspendStreak
  }

  lemma RestPointSettled(cfg: PacerConfig, st: PacerState, bps: nat)
    requires Usable(cfg) && Inv(cfg, st)
    ensures Inv(cfg, RestPoint(cfg, st, bps)) && Settled(cfg, RestPoint(cfg, st, bps), bps)
  {
    UsableOrder(cfg);
  }

  /** Counting up: the upgrade has not fired yet after `k` ticks. */
  lemma {:induction false} Climbing(cfg: PacerConfig, st: PacerState, bps: nat, k: nat)
    requires Usable(cfg) && Inv(cfg, st) && !st.audioOnly
    requires bps >= cfg.lowMinBps && Rank(LayerFor(cfg, bps)) > Rank(st.layer)
    requires 0 < k && st.upgradeStreak + k < cfg.upgradeStreak
    ensures Hold(cfg, st, bps, k) == PacerState(st.layer, false, false, st.upgradeStreak + k, 0)
  {
    UsableOrder(cfg);
    if k > 1 {
      Climbing(cfg, st, bps, k - 1);
    } else {
      assert Hold(cfg, st, bps, 0) == st;
    }
  }

  lemma VideoSettles(cfg: PacerConfig, st: PacerState, bps: nat)
    requires Usable(cfg) && Inv(cfg, st) && !st.audioOnly && bps >= cfg.lowMinBps
    ensures Hold(cfg, st, bps, cfg.upgradeStreak) == RestPoint(cfg, st, bps)
  {
    UsableOrder(cfg);
    RestPointSettled(cfg, st, bps);
    var k: nat :=
      if Rank(LayerFor(cfg, bps)) > Rank(st.layer) then cfg.upgradeStreak - st.upgradeStreak else 1;
    assert Hold(cfg, st, bps, k) == RestPoint(cfg, st, bps) by {
      if k > 1 {
        Climbing(cfg, st, bps, k - 1);
      } else {
        assert Hold(cfg, st, bps, 0) == st;
      }
    }
    SettledStays(cfg, st, bps, k, cfg.upgradeStreak);
  }

  lemma {:induction false} Sinking(cfg: PacerConfig, st: PacerState, bps: nat, k: nat)
    requires Usable(cfg) && Inv(cfg, st) && !st.suspended
    requires bps < cfg.suspendVideoBps && st.suspendStreak + k < cfg.suspendStreak
    ensures Hold(cfg, st, bps, k) == st.(suspendStreak := st.suspendStreak + k)
  {
    if k > 0 {
      Sinking(cfg, st, bps, k - 1);
    }
  }

  lemma SinkSettles(cfg: PacerConfig, st: PacerState, bps: nat)
    requires Usable(cfg) && Inv(cfg, st) && bps < cfg.suspendVideoBps
    ensures Hold(cfg, st, bps, cfg.suspendStreak) == RestPoint(cfg, st, bps)
  {
    UsableOrder(cfg);
    RestPointSettled(cfg, st, bps);
    if st.suspended {
      assert Hold(cfg, st, bps, 0) == st;
      SettledStays(cfg, st, bps, 0, cfg.suspendStreak);
    } else {
      var k: nat := cfg.suspendStreak - st.suspendStreak;
      Sinking(cfg, st, bps, k - 1);
      SettledStays(cfg, st, bps, k, cfg.suspendStreak);
    }
  }

  lemma VideoReturns(cfg: PacerConfig, st: PacerState, bps: nat)
    requires Usable(cfg) && Inv(cfg, st) && bps >= cfg.lowMinBps
    ensures !Hold(cfg, st, bps, if st.suspended then 2 else if st.audioOnly then 1 else 0).audioOnly
  {
    UsableOrder(cfg);
    assert Hold(cfg, st, bps, 0) == st;
    assert Hold(cfg, st, bps, 1) == Tick(cfg, st, bps).state;
  }

  /** Recovery from any mode: at most one tick out of suspension, one out of
      audio-only, then the upgrade debounce. */
  lemma RecoverySettles(cfg: PacerConfig, st: PacerState, bps: nat) returns (k: nat)
    requires Usable(cfg) && Inv(cfg, st) && bps >= cfg.lowMinBps
    ensures k <= cfg.upgradeStreak + 2 && Hold(cfg, st, bps, k) == RestPoint(cfg, st, bps)
  {
    var lead := if st.suspended then 2 else if st.audioOnly then 1 else 0;
    var mid := Hold(cfg, st, bps, lead);
    VideoReturns(cfg, st, bps);
    VideoSettles(cfg, mid, bps);
    k := lead + cfg.upgradeStreak;
    HoldAdds(cfg, st, mid, bps, lead, cfg.upgradeStreak, k);
  }

  /** From every reachable state and for every reading, `SettlingTime` ticks are
      enough; from then on the state is the rest point and nothing is emitted. */
  lemma Converges(cfg: PacerConfig, st: PacerState, bps: nat, n: nat)
    requires Usable(cfg) && Inv(cfg, st) && n >= SettlingTime(cfg)
    ensures Hold(cfg, st, bps, n) == RestPoint(cfg, st, bps)
    ensures Settled(cfg, Hold(cfg, st, bps, n), bps)
  {
    UsableOrder(cfg);
    RestPointSettled(cfg, st, bps);
    if bps >= cfg.lowMinBps {
      var k := RecoverySettles(cfg, st, bps);
      SettledStays(cfg, st, bps, k, n);
    } else if bps < cfg.suspendVideoBps {
      SinkSettles(cfg, st, bps);
      SettledStays(cfg, st, bps, cfg.suspendStreak, n);
    } else {
      assert Hold(cfg, st, bps, 0) == st;
      assert Hold(cfg, st, bps, 1) == RestPoint(cfg, st, bps);
      SettledStays(cfg, st, bps, 1, n);
    }
  }

  /** The recovery bound cannot be lowered: a suspended subscriber whose link
      comes back at medium quality or better is still one tick short after
      `upgradeStreak + 1` ticks, for every usable configuration. */
  lemma RecoveryBoundTight(cfg: PacerConfig, bps: nat)
    requires Usable(cfg) && bps >= cfg.mediumMinBps
    ensures var down := PacerState(Low, true, true, 0, 0);
            Inv(cfg, down) && Hold(cfg, down, bps, cfg.upgradeStreak + 1).layer == Low
            && RestPoint(cfg, down, bps).layer != Low
  {
    UsableOrder(cfg);
    var down := PacerState(Low, true, true, 0, 0);
    assert Hold(cfg, down, bps, 0) == down;
    assert Hold(cfg, down, bps, 1) == PacerState(Low, true, false, 0, 0);
    assert Hold(cfg, down, bps, 2) == FRESH;
    HoldAdds(cfg, down, FRESH, bps, 2, cfg.upgradeStreak - 1, cfg.upgradeStreak + 1);
    if cfg.upgradeStreak > 1 {
      Climbing(cfg, FRESH, bps, cfg.upgradeStreak - 1);
    }
  }

  /** A fresh pacer on a link below the suspend threshold is still forwarding
      video one tick before the suspend streak is complete. */
  lemma SinkingBoundTight(cfg: PacerConfig, bps: nat)
    requires Usable(cfg) && bps < cfg.suspendVideoBps
    ensures Inv(cfg, FRESH) && !Hold(cfg, FRESH, bps, cfg.suspendStreak - 1).suspended
    ensures RestPoint(cfg, FRESH, bps).suspended
  {
    UsableOrder(cfg);
    Sinking(cfg, FRESH, bps, cfg.suspendStreak - 1);
  }

  /** `SettlingTime` cannot be lowered for any usable configuration: some state
      and reading are not yet at rest one tick earlier. */
  lemma SettlingTimeTight(cfg: PacerConfig) returns (st: PacerState, bps: nat)
    requires Usable(cfg)
    ensures Inv(cfg, st) && Hold(cfg, st, bps, SettlingTime(cfg) - 1) != RestPoint(cfg, st, bps)
  {
    if SettlingTime(cfg) == cfg.upgradeStreak + 2 {
      st, bps := PacerState(Low, true, true, 0, 0), cfg.mediumMinBps;
      RecoveryBoundTight(cfg, bps);
    } else {
      st, bps := FRESH, 0;
      SinkingBoundTight(cfg, bps);
    }
  }
}
