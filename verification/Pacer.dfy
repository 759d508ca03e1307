/** The per-subscriber hysteresis state machine (src/bwe/hysteresis.rs): video
    on one of three layers, audio only, or suspended, with one debounce counter
    for suspending and one for upgrading. */
module Pacer {
  import opened Basics
  import opened PacerConfigs

  /** A simulcast layer identifier. Any other short tag is legal on the wire,
      but the pacer itself only ever holds one of the first three. */
  datatype Rid = Low | Medium | High | Other(tag: string)

  datatype PacerAction =
    | NoChange
    | ChangeLayer(rid: Rid)
    | GoAudioOnly
    | RestoreVideo
    | SuspendVideo
    | RestoreAudio

  datatype PacerState = PacerState(
    layer: Rid,
    audioOnly: bool,
    suspended: bool,
    upgradeStreak: U8,
    suspendStreak: U8)

  datatype Ticked = Ticked(state: PacerState, action: PacerAction)

  const FRESH := PacerState(Low, false, false, 0, 0)

  /** The source panics on a foreign RID; here that is a precondition, so every
      caller proves the panic unreachable. */
  function Rank(r: Rid): (n: U8)
    requires !r.Other?
    ensures n <= 2
  {
    match r
    case Low => 0
    case Medium => 1
    case High => 2
  }

  function LayerFor(cfg: PacerConfig, bps: nat): (r: Rid)
    ensures !r.Other?
  {
    if bps >= cfg.highMinBps then High
    else if bps >= cfg.mediumMinBps then Medium
    else Low
  }

  /** What every reachable pacer satisfies; the counters never reach their
      configured streak, so neither `saturating_add` ever saturates. */
  ghost predicate Inv(cfg: PacerConfig, st: PacerState) {
    && !st.layer.Other?
    && (st.suspended ==> st.audioOnly && st.suspendStreak == 0)
    && (st.audioOnly ==> st.upgradeStreak == 0)
    && st.upgradeStreak < cfg.upgradeStreak
    && st.suspendStreak < cfg.suspendStreak
  }

  /** One reading, by mode. */
  function Tick(cfg: PacerConfig, st: PacerState, bps: nat): (r: Ticked)
    requires !st.layer.Other?
    ensures !r.state.layer.Other?
  {
    if st.suspended then
      if bps < cfg.audioOnlyBps then Ticked(st, NoChange)
      else Ticked(PacerState(st.layer, true, false, 0, 0), RestoreAudio)
    else if bps < cfg.suspendVideoBps then
      var streak := SaturatingInc(st.suspendStreak);
      if streak < cfg.suspendStreak then Ticked(st.(suspendStreak := streak), NoChange)
      else Ticked(PacerState(st.layer, true, true, 0, 0), SuspendVideo)
    else if st.audioOnly then
      if bps < cfg.lowMinBps then Ticked(st.(suspendStreak := 0), NoChange)
      else Ticked(PacerState(Low, false, false, 0, 0), RestoreVideo)
    else if bps < cfg.audioOnlyBps then
      Ticked(PacerState(st.layer, true, false, 0, 0), GoAudioOnly)
    else
      TickVideo(cfg, st.(suspendStreak := 0), LayerFor(cfg, bps))
  }

  /** The layer decision of a reading that keeps video on. */
  function TickVideo(cfg: PacerConfig, st: PacerState, target: Rid): (r: Ticked)
    requires !st.layer.Other? && !target.Other?
    ensures !r.state.layer.Other?
  {
    if Rank(target) < Rank(st.layer) then
      Ticked(st.(layer := target, upgradeStreak := 0), ChangeLayer(target))
    else if Rank(target) == Rank(st.layer) then
      Ticked(st.(upgradeStreak := 0), NoChange)
    else
      var streak := SaturatingInc(st.upgradeStreak);
      if streak < cfg.upgradeStreak then Ticked(st.(upgradeStreak := streak), NoChange)
      else Ticked(st.(layer := target, upgradeStreak := 0), ChangeLayer(target))
  }

  lemma TickKeepsInv(cfg: PacerConfig, st: PacerState, bps: nat)
    requires Usable(cfg) && Inv(cfg, st)
    ensures Inv(cfg, Tick(cfg, st, bps).state)
  {
  }

  /** The mutable pacer, in the source's early-return order. */
  class SubscriberPacer {
    var currentLayer: Rid
    var audioOnly: bool
    var suspended: bool
    var upgradeStreak: U8
    var suspendStreak: U8
    const config: PacerConfig

    ghost function View(): PacerState
      reads this
    {
      PacerState(currentLayer, audioOnly, suspended, upgradeStreak, suspendStreak)
    }

    ghost predicate Valid()
      reads this
    {
      Usable(config) && Inv(config, View())
    }

    constructor (config: PacerConfig)
      requires Usable(config)
      ensures Valid() && View() == FRESH && this.config == config
    {
      UsableOrder(config);
      currentLayer, audioOnly, suspended := Low, false, false;
      upgradeStreak, suspendStreak := 0, 0;
      this.config := config;
    }

    static method TryWithConfig(config: PacerConfig)
      returns (r: Result<SubscriberPacer, ConfigError>)
      ensures r.Ok? <==> Usable(config)
      ensures r.Err? ==> Validate(config) == Err(r.error)
      ensures r.Ok? ==> fresh(r.value) && r.value.Valid() && r.value.View() == FRESH
                        && r.value.config == config
    {
      var verdict := Validate(config);
      if verdict.Err? {
        return Err(verdict.error);
      }
      var p := new SubscriberPacer(config);
      return Ok(p);
    }

    method Update(bps: nat) returns (action: PacerAction)
      requires Valid()
      modifies this
      ensures Valid()
      ensures Ticked(View(), action) == Tick(config, old(View()), bps)
    {
      TickKeepsInv(config, View(), bps);
      if suspended {
        if bps >= config.audioOnlyBps {
          suspended := false;
          audioOnly := true;
          upgradeStreak := 0;
          suspendStreak := 0;
          return RestoreAudio;
        }
        return NoChange;
      }
      if bps < config.suspendVideoBps {
        suspendStreak := SaturatingInc(suspendStreak);
        if suspendStreak >= config.suspendStreak {
          suspended := true;
          audioOnly := true;
          upgradeStreak := 0;
          suspendStreak := 0;
          return SuspendVideo;
        }
        return NoChange;
      }
      suspendStreak := 0;
      if audioOnly {
        if bps >= config.lowMinBps {
          audioOnly := false;
          currentLayer := Low;
          upgradeStreak := 0;
          return RestoreVideo;
        }
        return NoChange;
      }
      if bps < config.audioOnlyBps {
        audioOnly := true;
        upgradeStreak := 0;
        return GoAudioOnly;
      }
      var target := LayerFor(config, bps);
      if Rank(target) < Rank(currentLayer) {
        currentLayer := target;
        upgradeStreak := 0;
        return ChangeLayer(target);
      }
      if Rank(target) > Rank(currentLayer) {
        upgradeStreak := SaturatingInc(upgradeStreak);
        if upgradeStreak >= config.upgradeStreak {
          currentLayer := target;
          upgradeStreak := 0;
          return ChangeLayer(target);
        }
      } else {
        upgradeStreak := 0;
      }
      return NoChange;
    }
  }
}
