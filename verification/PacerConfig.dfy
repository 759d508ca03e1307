/** Thresholds of the subscriber pacer and their validation
    (src/bwe/pacer_config.rs). */
module PacerConfigs {
  import opened Basics

  datatype PacerConfig = PacerConfig(
    suspendVideoBps: nat,
    audioOnlyBps: nat,
    lowMinBps: nat,
    mediumMinBps: nat,
    highMinBps: nat,
    suspendStreak: U8,
    upgradeStreak: U8)

  datatype ConfigError = UpgradeStreakZero | SuspendStreakZero | BitrateOrderingViolation

  const DEFAULT_CONFIG := PacerConfig(10_000, 80_000, 150_000, 350_000, 700_000, 2, 3)

  /** The bitrate fields from the most severe threshold to the best layer. */
  function Ladder(c: PacerConfig): (s: seq<nat>)
    ensures |s| == 5
  {
    [c.suspendVideoBps, c.audioOnlyBps, c.lowMinBps, c.mediumMinBps, c.highMinBps]
  }

  ghost predicate Ascending(s: seq<nat>) {
    forall i, j | 0 <= i < j < |s| :: s[i] <= s[j]
  }

  /** What every proof about the pacer rests on. */
  ghost predicate Usable(c: PacerConfig) {
    c.upgradeStreak >= 1 && c.suspendStreak >= 1 && Ascending(Ladder(c))
  }

  /** Reports the first violated rule, streak rules before the ordering rule. */
  function Validate(c: PacerConfig): (r: Result<(), ConfigError>)
    ensures r.Ok? <==> Usable(c)
    ensures r == Err(BitrateOrderingViolation) ==> c.upgradeStreak >= 1 && c.suspendStreak >= 1
    ensures r == Err(SuspendStreakZero) ==> c.upgradeStreak >= 1
  {
    assert Ladder(c)[0] == c.suspendVideoBps && Ladder(c)[1] == c.audioOnlyBps
        && Ladder(c)[2] == c.lowMinBps && Ladder(c)[3] == c.mediumMinBps
        && Ladder(c)[4] == c.highMinBps;
    if c.upgradeStreak == 0 then Err(UpgradeStreakZero)
    else if c.suspendStreak == 0 then Err(SuspendStreakZero)
    else if !(&& c.suspendVideoBps <= c.audioOnlyBps
              && c.audioOnlyBps <= c.lowMinBps
              && c.lowMinBps <= c.mediumMinBps
              && c.mediumMinBps <= c.highMinBps) then Err(BitrateOrderingViolation)
    else Ok(())
  }

  /** The ordering in the form the pacer proofs use. */
  lemma UsableOrder(c: PacerConfig)
    requires Usable(c)
    ensures c.suspendVideoBps <= c.audioOnlyBps <= c.lowMinBps <= c.mediumMinBps <= c.highMinBps
    ensures c.upgradeStreak >= 1 && c.suspendStreak >= 1
  {
    var s := Ladder(c);
    assert s[0] <= s[1] && s[1] <= s[2] && s[2] <= s[3] && s[3] <= s[4];
  }

  lemma DefaultIsUsable()
    ensures Usable(DEFAULT_CONFIG)
  {
  }
}
