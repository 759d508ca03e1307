# Bandwidth-adaptive forwarding, verified

This project models the bandwidth-adaptive forwarding loop of the oxpulse SFU
kit as built with `pacer`, `kalman-bwe` and `googcc-bwe`, and proves what that
loop promises over whole histories of packets, readings and events. Check it with
`dafny verify dfyconfig.toml`.

The loop has four linked parts.

- **Estimators.** Feedback about sent packets drives a Kalman filter on the delay
  gradient (`Kalman.dfy`), a 64-packet loss window (`Loss.dfy`) and, when enabled,
  a least-squares trendline with a multiplicative controller (`Trendline.dfy`,
  `GoogCc.dfy`). Delay and loss share one cooldown-limited rate rule
  (`RateControl.dfy`); `Averages.dfy` is about weighted averages.
- **Combination.** `CombineTerms.dfy` takes the minimum of the ceilings and names
  the term that binds it; `Subscriber.dfy`, `Feedback.dfy`, `SendLog.dfy` and
  `Estimator.dfy` hold one subscriber's state, feedback ingestion, the bounded send
  log and the per-room map.
- **Pacer.** `PacerConfig.dfy` and `Pacer.dfy` are the hysteresis state machine;
  `PacerHistory.dfy` and `PacerConvergence.dfy` say what its state means.
- **Room.** `Client.dfy` has the client's flags and outbound filter; `Room.dfy` is
  the room as a step system; `Registry.dfy` is the mutable registry proved against
  it; `RoomInvariants.dfy`, `RoomCounts.dfy`, `RoomDeliveries.dfy`,
  `RoomEvents.dfy`, `RoomTracks.dfy`, `RoomFeeds.dfy`, `RoomEntries.dfy` and
  `RoomTheorems.dfy` prove the room-wide results, and `RoomInstances.dfy` has two concrete runs.

Stateful objects are classes whose methods are proved equal to a function on their
abstract value (`View()`); the theorems are then about those functions. The
registry carries a ghost history (every state-machine advance, every event taken
off the queue, every frame's fate at every client) that the code does not keep but the theorems speak about.

## Main results

- A pacer is suspended exactly when enough consecutive readings fell below the
  suspend threshold and none since reached the audio-only threshold
  (`SuspendedIffHistory`), for every usable configuration and history; so lower
  readings never lift a suspension. The same is done for audio-only mode
  (`AudioOnlyIffHistory`) and for upward layer switches (`UpwardChangeIffHistory`).
  A steady reading settles every reachable state at a rest point given in closed
  form, within a bound that no usable configuration allows to be lowered
  (`Converges`, `SettlingTimeTight`).
- Over every run of the room, a client is suspended exactly when two consecutive
  advances, at least 100 ms apart and both bound by the native estimate or the
  browser's hint, justify it (`SuspendedClientExplained`); the media filter then
  drops exactly the frames that are not known audio (`SuspensionGatesMedia`). Every
  media event polled is fanned out once, in order (`PolledMediaIsFanned`), and is
  accounted for once at every other client (`MediaIsAccounted`).
- Suspensions entered minus exited are the clients suspended now plus those reaped
  while suspended (`SuspensionsAreConserved`). The event queue loses, repeats and
  reorders nothing (`QueueConservesEvents`), so the suspend events handed out
  alternate and reconstruct each peer's mode (`SuspendEventsAlternate`,
  `EventsReconstructMode`).
- Over every run, every estimator entry is exactly what its subscriber's own sends,
  reports, native estimates, hints and packets make of a fresh one
  (`EntryIsExplained`), and a client knows exactly the tracks of the others
  (`TracksAreKnown`).
- The trendline slope is a weighted average of the recent delay increases with
  weights k(n-k) (`SlopeIsWeightedAverage`), and the Kalman gradient one of its
  samples with weights given by the variance recurrence
  (`GradientIsWeightedAverage`); it forgets its start by at least 13 % per sample
  (`FilterForgetsStart`), yet one spike does not look like congestion
  (`SpikeIsDamped`). Rates lose at most one factor of 0.85 per cooldown whatever the
  clock does (`RateFloor`), and exactly that under lasting congestion
  (`CongestedRate`, `LateRunCutsRate`, `LossyRunCutsRate`). Overuse alone takes
  GoogCC to its floor (`LateLinkReachesFloor`).
- Lost and unmatched packets cannot disturb the delay side (`LossErasure`), the
  bounded send log refines the unbounded one however sends and reports interleave
  (`BoundedRunRefines`), and gradients telescope across batches
  (`RunGradientsTelescope`).

## Where the code differs from what one would expect

- The debounce window is described as `SUSPEND_STREAK` intervals, about 200 ms
  (src/bwe/mod.rs:84-91). Two advances span one interval: for every room,
  `SweepSuspendsIff` gives the exact condition, in which 100 ms since the previous
  low advance suffice and are needed; `TwoLowReadingsSuspendIff` is an instance.
- "Three consecutive ticks" to upgrade: a reading below the suspend threshold
  returns before the layer logic and is passed over, so the ticks need not be
  consecutive. `UpgradePassesOverLowReading` is an instance; `UpgradeConsecutiveIff`
  says that they are consecutive exactly when none of the last `upgrade_streak`
  readings was below the suspend threshold, and `UpwardChangeIffHistory` when an
  upgrade happens at all.
- After a RestoreVideo taken from above LOW, the pacer is on LOW while the client
  still forwards its old, higher layer, and no reading in the LOW band ever corrects
  that. `StaleLayerArises` is an instance, `StaleLayerPersists` the family,
  `DesiredLayerExact` says exactly when the two layers agree.
- Audio-only mode is documented as "stop forwarding video"
  (src/bwe/hysteresis.rs:13-14, src/propagate.rs:138-141), but the outbound filter
  reads the `suspended` flag alone. `AudioOnlyViewerGetsVideo` is an instance of a
  video frame delivered in audio-only mode; `FrameDeliveredIff` is the exact
  condition for a frame to be delivered, and audio-only is not part of it.
- Suspension is monotone in the readings (`SuspensionMonotone`), audio-only is not:
  a poor reading stops video where a still worse one may not. For every history,
  `WorseReadingKeepsVideoIff` says exactly when.
- The reap sweep evicts estimator entries so that none outlives its client
  (src/registry/lifecycle.rs:31-37). Feedback that arrives after its subscriber was
  reaped, or enabling GoogCC then, brings the entry back (`LateFeedLeavesOrphan`),
  and then nothing removes it (`OrphansStay`). `NoOrphansIffAddressed` is the exact
  condition: no feed, polled estimate or queued hint names a peer that is not in
  the room. The UDP loop reaps before it polls and drains, and meets it by itself
  (`LoopTurnLeavesNoOrphan`).
- "A ceiling never raises the estimate" fails when every other term is NaN: the
  estimate goes from zero to the ceiling. `CeilingCanRaiseFromNaN` is an instance,
  `AddingCeilingNeverRaisesIff` the exact condition; inside a subscriber both rate
  estimators are numbers, so it holds there (`CeilingsOnlyLower`).
- The API documentation says that an invalid pacer configuration is accepted in release
  builds; the code validates in every build, and the model follows the code.

## Modelling choices

- Clock readings are integers in microseconds and may repeat or go backwards;
  `duration_since` saturates at zero. `f64` is `real`, `as u64` is floor, and only
  the ceilings of `CombineTerms` can be NaN.
- Streak counters keep their `u8` type and saturating increment; the invariant shows
  that saturation never happens and that the pacer's `rank` never meets a foreign
  layer.
- Which clients are alive, what polling returns and what the clock reads are
  parameters. Client ids come from a process-wide counter, so no id joins twice.
- `fanout_pending` consumes budget hints, but no code in the repository enqueues
  one; the polled output `Budget` stands for one that an application might add.
- `Notify` stands for the speaker tick and the publisher layer hints: it enqueues an
  event that changes nothing modelled here.
- A track held weakly resolves exactly while its publisher is in the room.
- Clients always use the default pacer configuration, as the constructor does;
  everything about the pacer alone holds for every usable configuration.

## Model

| member | source | states |
|---|---|---|
| `PacerConfigs.Validate` | src/bwe/pacer_config.rs:117-132 | accepts exactly the configurations with positive streaks and an ascending ladder; reports streak faults before the ordering fault |
| `PacerConfigs.DefaultIsUsable` | src/bwe/pacer_config.rs:135-147 | the default configuration is valid |
| `Pacer.TickKeepsInv` | src/bwe/hysteresis.rs:110-192 | every tick keeps both counters below their streaks, the layer among the three known ones, and suspended inside audio-only |
| `Pacer.SubscriberPacer.constructor` | src/bwe/hysteresis.rs:66-107 | a fresh pacer is on LOW video with zero counters |
| `Pacer.SubscriberPacer.TryWithConfig` | src/bwe/hysteresis.rs:97-107 | succeeds exactly for usable configurations, otherwise returns the validation error |
| `Pacer.SubscriberPacer.Update` | src/bwe/hysteresis.rs:110-192 | the early-return code computes the specified state and action and keeps the invariant |
| `PacerHistory.SuspendStreakExact` | src/bwe/hysteresis.rs:125-148 | the suspend counter is the number of trailing readings below the threshold |
| `PacerHistory.SuspendedIffHistory` | src/bwe/hysteresis.rs:111-148 | suspended iff some full streak of low readings is followed by none at the audio-only threshold |
| `PacerHistory.SuspensionMonotone` | src/bwe/hysteresis.rs:111-148 | pointwise lower readings never leave a suspended run unsuspended |
| `PacerHistory.SuspendActionNeedsStreak` | src/bwe/hysteresis.rs:125-138 | SuspendVideo is emitted exactly on the reading that completes a streak |
| `PacerHistory.AudioOnlyIffHistory` | src/bwe/hysteresis.rs:110-164 | for every history, audio-only iff some reading stopped video and every good reading since fell into a suspension |
| `PacerHistory.WorseReadingKeepsVideoIff` | src/bwe/hysteresis.rs:128-164 | lowering the last reading keeps video on iff video was on, the better reading lay between the thresholds and the worse one fell below both without completing a streak |
| `PacerHistory.UpgradeStreakStep` | src/bwe/hysteresis.rs:110-192 | effect of any reading, in any mode, on the upgrade counter |
| `PacerHistory.UpgradeStreakExact` | src/bwe/hysteresis.rs:128-189 | in every mode the upgrade counter is the trailing run of upward targets among the readings not below the suspend threshold since the last change |
| `PacerHistory.UpwardChangeIffHistory` | src/bwe/hysteresis.rs:128-189 | an upward switch happens iff video is on and the last streak of such readings all target a higher layer; the last target is adopted |
| `PacerHistory.UpgradeConsecutiveIff` | src/bwe/hysteresis.rs:128-192 | the last `upgrade_streak` readings before an upgrade all targeted a higher layer iff none of them was below the suspend threshold |
| `PacerHistory.UpgradePassesOverLowReading` | src/bwe/hysteresis.rs:125-138 | an instance of an upgrade whose ticks are not consecutive |
| `PacerHistory.AboveByThreshold` | src/bwe/hysteresis.rs:194-234 | a reading counts toward an upgrade iff it reaches the next layer's threshold |
| `PacerHistory.DowngradeIsImmediate` | src/bwe/hysteresis.rs:166-192 | a reading that keeps video but not the layer changes it at once, to the best layer it sustains; every other layer change is upward |
| `PacerHistory.ReplayReconstructs` | src/bwe/hysteresis.rs:4-24 | replaying the emitted actions alone gives the pacer's mode and layer |
| `PacerConvergence.RestPointSettled` | src/bwe/hysteresis.rs:110-202 | the rest point of a steady reading is reachable-valid and emits nothing more |
| `PacerConvergence.Converges` | src/bwe/hysteresis.rs:110-202 | from every reachable state a steady reading is at its rest point after max(suspend streak, upgrade streak + 2) ticks, for good |
| `PacerConvergence.RecoveryBoundTight` | src/bwe/hysteresis.rs:110-202 | upgrade streak + 1 ticks are not enough from suspension, for every usable configuration |
| `PacerConvergence.SettlingTimeTight` | src/bwe/hysteresis.rs:110-202 | for every usable configuration some state and reading are not at rest one tick before the bound |
| `RateControl.RateStaysInRange` | src/bwe/kalman.rs:68-82 | on every run of calls the rate stays in [30 000, 50 000 000] |
| `RateControl.DecreasesAreSpaced` | src/bwe/kalman.rs:69-77 | decreases are a cooldown apart for any clock readings |
| `RateControl.DecreaseCount` | src/bwe/kalman.rs:69-77 | calls within a span T make at most T/cooldown + 1 decreases |
| `RateControl.RateFloor` | src/bwe/kalman.rs:68-82 | within a span T the rate keeps 0.85^(T/cooldown + 1) of its start and the floor |
| `RateControl.CongestedRate` | src/bwe/kalman.rs:69-77 | n congested calls, each a cooldown after the previous decrease, leave max(30 000, 0.85^n of the start) |
| `RateControl.CooldownHoldsRate` | src/bwe/kalman.rs:71-74 | congested calls within a cooldown change nothing |
| `RateControl.ClearRate` | src/bwe/kalman.rs:78-81 | n clear calls add n steps, up to 50 000 000 |
| `RateControl.SteadyRate` | src/bwe/loss.rs:66-82 | calls between the loss thresholds change nothing |
| `Kalman.GainBounds` | src/bwe/kalman.rs:57-60 | the gain lies in [0.13, 1) and the predicted variance is at least 0.00075 |
| `Kalman.VarianceStaysSound` | src/bwe/kalman.rs:57-62 | the variance never collapses or grows past its start |
| `Kalman.FilterForgetsStart` | src/bwe/kalman.rs:56-63 | two filters differing in gradient, fed the same n samples, differ by at most 0.87^n of the start |
| `Kalman.TracksConstantGradient` | src/bwe/kalman.rs:56-63 | the error to a constant gradient shrinks as fast |
| `Kalman.GradientStaysInHull` | src/bwe/kalman.rs:56-63 | the filtered gradient stays in the hull of its start and the samples |
| `Kalman.GradientIsWeightedAverage` | src/bwe/kalman.rs:56-63 | the filtered gradient is the average of start and samples whose weights are products of shares given by the variance recurrence; the variance follows it |
| `Kalman.FreshFilterExact` | src/bwe/kalman.rs:44-63 | the same from scratch: gradient zero, variance one |
| `Averages.WeightsSumToOne` | src/bwe/kalman.rs:56-63 | those weights add up to one |
| `Kalman.SpikeIsDamped` | src/bwe/kalman.rs:56-82 | after eight samples at most zero from a fresh filter, one of up to 80 ms still raises the rate by 8 000 |
| `Kalman.CalmRunNeverLowersRate` | src/bwe/kalman.rs:56-82 | a run with no sample above the overuse threshold never lowers the rate |
| `Kalman.CalmRunRaisesRate` | src/bwe/kalman.rs:68-82 | with no gradient above 12.5 ms, n calls add n * 8 000, up to 50 000 000 |
| `Kalman.LateRunCutsRate` | src/bwe/kalman.rs:68-82 | with every gradient above it, n calls 200 ms apart leave max(30 000, 0.85^n of the start) |
| `Kalman.DelayRateIsRateRun` | src/bwe/kalman.rs:68-82 | the delay rate is the shared rate rule on the verdicts the filter gives |
| `Kalman.DelayRateFloor` | src/bwe/kalman.rs:68-82 | the rate floor with the 200 ms cooldown |
| `Kalman.DelayEstimator.constructor` | src/bwe/kalman.rs:44-51 | zero gradient, unit variance, clamped rate |
| `Kalman.DelayEstimator.UpdateKalman` | src/bwe/kalman.rs:56-63 | one filter step, ranges kept |
| `Kalman.DelayEstimator.ApplyRateControl` | src/bwe/kalman.rs:68-82 | one rate step on the current gradient, ranges kept |
| `Loss.WindowIsLastOutcomes` | src/bwe/loss.rs:46-51 | for every history the window is the last 64 of the old window and the outcomes |
| `Loss.CountLostIsCardinality` | src/bwe/loss.rs:55-61 | the losses counted are the entries of the window that did not arrive |
| `Loss.VerdictByCount` | src/bwe/loss.rs:55-82 | for every window, one in ten lost means a decrease, fewer than one in fifty an increase |
| `Loss.FullWindowVerdict` | src/bwe/loss.rs:55-82 | on a full window seven losses lower the rate, at most one raises it |
| `Loss.LossRateIsRateRun` | src/bwe/loss.rs:66-82 | the loss rate is the shared rate rule on the window's verdicts |
| `Loss.LossRateFloor` | src/bwe/loss.rs:66-82 | the rate floor with the 250 ms cooldown |
| `Loss.LossyRunCutsRate` | src/bwe/loss.rs:66-82 | while all is lost, n calls 250 ms apart leave max(30 000, 0.85^n of the start) |
| `Loss.CleanRunRaisesRate` | src/bwe/loss.rs:66-82 | while nothing is, n calls add n * 5 000, up to 50 000 000 |
| `Loss.LossEstimator.constructor` | src/bwe/loss.rs:37-43 | empty window, clamped rate |
| `Loss.LossEstimator.Record` | src/bwe/loss.rs:46-51 | the bounded push |
| `Loss.LossEstimator.ApplyRateControl` | src/bwe/loss.rs:66-82 | one rate step on the window's loss fraction |
| `Trendline.DenPositive` | src/bwe/googcc/trendline.rs:113-123 | the denominator is at least one half from two pairs up, so the guard is for a window of one |
| `Trendline.TotalWeightClosed` | src/bwe/googcc/trendline.rs:102-127 | the weights k(n-k) add up to n(n^2-1)/6 |
| `Trendline.SlopeIsWeightedAverage` | src/bwe/googcc/trendline.rs:102-127 | the fitted slope is the k(n-k)-weighted average of the delay increases |
| `Trendline.SlopeAtMost` | src/bwe/googcc/trendline.rs:102-127 | no recent increase above t, no slope above t |
| `Trendline.SlopeAbove` | src/bwe/googcc/trendline.rs:102-127 | all recent increases above t, slope above t |
| `Trendline.TrendIsWindowFunction` | src/bwe/googcc/trendline.rs:73-90 | after every history the detector is a function of the last twenty pairs |
| `Trendline.NoOveruseWhenCalm` | src/bwe/googcc/trendline.rs:73-95 | overuse is never reported without a recent increase above 12.5 |
| `Trendline.OveruseWhenSteep` | src/bwe/googcc/trendline.rs:73-95 | overuse is always reported when all recent increases are above 12.5 |
| `Trendline.UnderuseMirrorsOveruse` | src/bwe/googcc/trendline.rs:73-95 | underuse is reported when all recent packets were more than 12.5 ms faster, never when none was |
| `Trendline.TrendlineDetector.constructor` | src/bwe/googcc/trendline.rs:60-65 | empty window, normal state |
| `Trendline.TrendlineDetector.Accumulate` | src/bwe/googcc/trendline.rs:104-114 | running delays and their sum |
| `Trendline.TrendlineDetector.Fit` | src/bwe/googcc/trendline.rs:113-121 | numerator and denominator of the regression |
| `Trendline.TrendlineDetector.TrendlineSlope` | src/bwe/googcc/trendline.rs:102-127 | the loops compute the least-squares slope; zero for a single pair |
| `Trendline.TrendlineDetector.Update` | src/bwe/googcc/trendline.rs:73-90 | bounded push, then classification from three pairs up |
| `GoogCc.AimdController.constructor` | src/bwe/googcc/aimd.rs:45-51 | the given rate and bounds |
| `GoogCc.AimdController.UpdateLoss` | src/bwe/googcc/aimd.rs:60-74 | raise, cut or hold by clamped loss fraction |
| `GoogCc.AimdController.OnOveruse` | src/bwe/googcc/aimd.rs:79-82 | a cut |
| `GoogCc.GoogCcEstimator.constructor` | src/bwe/googcc/mod.rs:65-77 | default bounds, nothing seen |
| `GoogCc.GoogCcEstimator.OnReceive` | src/bwe/googcc/mod.rs:86-109 | trendline first, cut on overuse, otherwise the loss rule; timestamps remembered either way |
| `GoogCc.GoogRateBounded` | src/bwe/googcc/mod.rs:27-109 | on every run the rate stays in [100 000, 2 500 000] |
| `GoogCc.TwentyLossyPacketsReachFloor` | src/bwe/googcc/aimd.rs:60-82 | any twenty packets with loss above 2 % end at the floor; from the ceiling nineteen do not |
| `GoogCc.FortyTwoCleanPacketsReachCeiling` | src/bwe/googcc/aimd.rs:60-74 | any forty-two packets with loss below 0.5 % and no overuse end at the ceiling; from the floor forty-one do not |
| `GoogCc.CalmCleanLinkReachesCeiling` | src/bwe/googcc/mod.rs:86-109 | the same from packet timings: no packet more than 12.5 ms late |
| `GoogCc.PacketEffect` | src/bwe/googcc/mod.rs:86-109 | the exact new rate after one packet, for any bounds: overuse takes 15 % whatever the loss, otherwise loss below 0.5 %, above 2 % or between decides |
| `GoogCc.FirstPacketRate` | src/bwe/googcc/mod.rs:27-77 | a fresh estimator goes from 500 000 to 540 000, 425 000 or stays, by loss alone |
| `GoogCc.TwentyLatePacketsReachFloor` | src/bwe/googcc/mod.rs:95-105 | any twenty packets more than 12.5 ms late, after three, end at the floor whatever their loss; from the ceiling nineteen do not |
| `GoogCc.LateLinkReachesFloor` | src/bwe/googcc/mod.rs:86-109 | twenty-three such packets from a fresh estimator end at the floor |
| `GoogCc.CalmNeutralLinkHolds` | src/bwe/googcc/aimd.rs:60-74 | loss in [0.5 %, 2 %] without late packets leaves the rate alone |
| `CombineTerms.Combine` | src/bwe/subscriber.rs:94-124 | the argmin chain returns the NaN-discarding minimum clamped at zero and its binding term |
| `CombineTerms.MinUpdate` | src/bwe/subscriber.rs:104-109 | one step keeps the binding ceiling of the terms seen |
| `CombineTerms.EstimateIsMinChain` | src/bwe/subscriber.rs:82-124 | equal to the chain of `f64::min` for all inputs, NaN and absent terms included |
| `CombineTerms.BindingIsEarliestMinimum` | src/bwe/subscriber.rs:209-227 | with any number present, the reported term is the earliest attaining the minimum |
| `CombineTerms.AllNaNBlamesLast` | src/bwe/subscriber.rs:101-123 | with none, the estimate is zero and the last present term is reported |
| `CombineTerms.AddingCeilingNeverRaisesIff` | src/bwe/subscriber.rs:94-124 | a further ceiling does not raise the estimate iff some term is a number or the ceiling is NaN or not positive |
| `CombineTerms.CeilingCanRaiseFromNaN` | src/bwe/subscriber.rs:94-124 | an instance that raises it |
| `CombineTerms.CeilingsOnlyLower` | src/bwe/subscriber.rs:195-250 | with numeric delay and loss terms no ceiling raises the estimate |
| `SendLog.Recorded` | src/bwe/estimator.rs:194-204 | the new send is on record |
| `SendLog.SendLogBounded` | src/bwe/estimator.rs:194-204 | never more than 512 entries, for any sequence numbers |
| `SendLog.IncreasingSendsKeepLast` | src/bwe/estimator.rs:194-204 | with increasing numbers the map is exactly the last 512 sends |
| `SendLog.BoundedAgreesWithFull` | src/bwe/estimator.rs:194-204 | outside evicted numbers it answers as the unbounded log |
| `SendLog.FullLogExact` | src/bwe/estimator.rs:194-204 | the unbounded log answers for a packet with its own send time |
| `Subscriber.IngestKeepsInv` | src/bwe/feedback.rs:38-70 | ingestion keeps every estimator in range and touches no ceiling |
| `Subscriber.ReadingIsGrounded` | src/bwe/subscriber.rs:228-250 | a reading bound by delay or loss is at least 30 000, by GoogCC at least 100 000 |
| `Subscriber.ReadingIsLeastInForce` | src/bwe/subscriber.rs:228-250 | the reading is the floor of the least ceiling in force and reports a term that attains it; a hint is in force for five seconds |
| `Subscriber.PerSubscriber.constructor` | src/bwe/subscriber.rs:169-182 | fresh state at 300 000 |
| `Subscriber.PerSubscriber.TakeEcho` | src/bwe/feedback.rs:44-63 | gradient against the previous received packet, then the last-packet fields and RTT |
| `Subscriber.PerSubscriber.IngestSample` | src/bwe/feedback.rs:39-65 | one turn of the loop |
| `Subscriber.PerSubscriber.IngestTwcc` | src/bwe/feedback.rs:38-70 | the whole batch and both rate controls |
| `Subscriber.PerSubscriber.CombinedBpsWithTerm` | src/bwe/subscriber.rs:228-250 | the reading, with stale hints ignored |
| `Feedback.BatchActsThroughEchoes` | src/bwe/feedback.rs:38-65 | a batch acts on the delay side through its matched packets alone |
| `Feedback.LossErasure` | src/bwe/feedback.rs:26-70 | erasing lost or unmatched samples leaves delay estimator, last-packet fields and RTT unchanged |
| `Feedback.EchoIsOfItsPacket` | src/bwe/feedback.rs:41-47 | a sample counts on the delay side iff it arrived and is among the last 512 sends, with that packet's send time |
| `Feedback.BoundedLogRefines` | src/bwe/estimator.rs:180-204 | feedback naming no evicted packet leaves the same state as with an unbounded log |
| `Feedback.BoundedRunRefines` | src/bwe/estimator.rs:180-204 | for any interleaving of sends with increasing numbers and reports that name nothing evicted by then, the run leaves the state of the unbounded log |
| `Feedback.RunActsOnDelay` | src/bwe/feedback.rs:38-70 | across batches the filter sees exactly the gradients of consecutive echoes, one rate-control call per report |
| `Feedback.RunActsOnLoss` | src/bwe/feedback.rs:38-70 | over any run the loss estimator sees whether each reported packet arrived, in order, and one rate-control call per report |
| `Feedback.WindowIsLastArrivals` | src/bwe/feedback.rs:38-42 | the loss window is the last 64 of the old window and those arrivals |
| `Feedback.GradientsTelescope` | src/bwe/feedback.rs:49-63 | gradients sum to arrival span minus send span plus what saturation hid |
| `Feedback.RunGradientsTelescope` | src/bwe/feedback.rs:49-63 | they telescope over a run iff arrivals and sends stepped back equally; in-order packets always do |
| `Feedback.CalmFeedKeepsDelayRate` | src/bwe/feedback.rs:38-70 | no gradient above the threshold, no loss of delay rate, over any run of sends and reports |
| `Estimator.BandwidthEstimator.RecordNativeEstimate` | src/bwe/estimator.rs:27-29 | sets one entry's native ceiling, creating the entry |
| `Estimator.BandwidthEstimator.RecordClientHint` | src/bwe/estimator.rs:32-37 | sets one entry's hint |
| `Estimator.BandwidthEstimator.RecordSendTime` | src/bwe/estimator.rs:194-204 | bounded insertion into one entry's log |
| `Estimator.BandwidthEstimator.OnTwccFeedback` | src/bwe/estimator.rs:180-188 | ingestion into one entry |
| `Estimator.BandwidthEstimator.EnableGoogcc` | src/bwe/estimator.rs:129-134 | idempotent |
| `Estimator.BandwidthEstimator.FeedGoogcc` | src/bwe/estimator.rs:164-169 | feeds an enabled estimator, no-op otherwise |
| `Estimator.BandwidthEstimator.EstimateWithTerm` | src/bwe/estimator.rs:55-64 | the reading, or nothing for an unknown subscriber |
| `Estimator.BandwidthEstimator.ReapDead` | src/bwe/estimator.rs:67-69 | removes one entry |
| `Clients.BestFitSpec` | src/layer_selector.rs:20-57 | an active layer, the best not above the wish if any, else the lowest; the wish when none is known |
| `Clients.MatchedKindExact` | src/client/fanout.rs:38-48 | the kind found is that of the first entry with this publisher, this track id and a live publisher; none iff there is no such entry |
| `Clients.DesiredLayerExact` | src/client/accessors.rs:102-108 | the forwarded layer never ranks below the pacer's and differs exactly while a restore from above LOW awaits a layer change |
| `Clients.StaleLayerPersists` | src/client/accessors.rs:102-108 | readings in the LOW band never correct it |
| `Clients.StaleLayerArises` | src/client/accessors.rs:102-108 | five readings that produce it |
| `Clients.Client.constructor` | src/client/construct.rs:24-62 | fresh client on LOW with the default pacer |
| `Clients.Client.SetDesiredLayer` | src/client/accessors.rs:34-39 | changes the desired layer only |
| `Clients.Client.SetSuspended` | src/client/accessors.rs:175-177 | changes the flag only |
| `Clients.Client.DrivePacer` | src/client/accessors.rs:102-108 | one tick; the desired layer follows layer changes only |
| `Clients.Client.PacerTickReady` | src/client/accessors.rs:197-209 | ready iff first or a full interval elapsed; records the time only then |
| `Clients.Client.HandleTrackOpen` | src/client/mod.rs:255-260 | appends the track |
| `Clients.Client.HandleMediaDataOut` | src/client/fanout.rs:22-123 | outcome and counter of one frame |
| `Rooms.DrainOneProgress` | src/registry/drive.rs:259-276 | each turn of the drain uses up a media event or shortens the queue |
| `Rooms.Drain` | src/registry/drive.rs:259-276 | the drain ends with an empty queue |
| `Rooms.UpdateLayersKeepsOk` | src/registry/drive.rs:540-606 | driving pacers keeps them valid and enqueues no media |
| `Registries.FanoutFrame` | src/fanout.rs:31-61 | the media branch of the fanout loop |
| `Registries.FanoutTrack` | src/fanout.rs:34-39 | the track branch |
| `Registries.NoteOutput` | src/client/mod.rs:213-252 | a polled client notes the layers and tracks it publishes |
| `Registries.Registry.constructor` | src/registry/mod.rs:78-93 | an empty room |
| `Registries.Registry.ApplyAction` | src/registry/drive.rs:25-61 | event, flag and counter for an action |
| `Registries.Registry.DriveClient` | src/registry/drive.rs:561-605 | one client's turn: skip, no estimate, throttled, or advance |
| `Registries.Registry.UpdatePacerLayers` | src/registry/drive.rs:540-606 | every client has exactly its own turn, in order |
| `Registries.Registry.FanoutMedia` | src/fanout.rs:18-61 | a frame reaches every client but its publisher |
| `Registries.Registry.TakeEvent` | src/registry/drive.rs:262-275 | one turn of the drain |
| `Registries.Registry.FanoutPending` | src/registry/drive.rs:259-276 | terminates with an empty queue in the drained room |
| `Registries.Registry.TakeOutput` | src/registry/drive.rs:109-196 | queues an event, records a native estimate, reports video timing |
| `Registries.Registry.PollClients` | src/registry/drive.rs:93-212 | all outputs in order, then GoogCC fed with the last video timing and zero loss |
| `Registries.Registry.InsertClient` | src/registry/mod.rs:125-155 | the newcomer learns every published track |
| `Registries.Registry.Retain` | src/registry/lifecycle.rs:40-63 | survivors in order; estimators of the dead evicted in the same sweep |
| `Registries.Registry.ReapDeadClients` | src/registry/lifecycle.rs:28-64 | the room without the dead |
| `RoomInvariants.TurnKeepsFaith` | src/registry/drive.rs:561-605 | a turn keeps the client what its readings make of it and its advances spaced and grounded |
| `RoomInvariants.UpdateKeepsCore` | src/registry/drive.rs:540-606 | so does a whole sweep, for every client and every id |
| `RoomInvariants.StepKeepsCore` | src/registry/drive.rs:89-276 | so does every operation |
| `RoomInvariants.TraceKeepsCore` | src/registry/drive.rs:89-276 | over every run each client's pacer, flag, layer and last drive are those its own readings prescribe |
| `RoomCounts.SuspensionsAreConserved` | src/registry/drive.rs:596-601 | enters minus exits equal clients suspended now plus those reaped while suspended, over every run |
| `RoomDeliveries.MediaIsAccounted` | src/client/fanout.rs:22-123 | over every run each client accounts for each media event fanned out by another exactly once; the origin never |
| `RoomDeliveries.SuspensionGatesMedia` | src/client/fanout.rs:23-57 | over every run a frame is dropped for suspension iff the readings so far amount to one and the first known entry for its track is not audio |
| `RoomDeliveries.FrameDeliveredIff` | src/client/fanout.rs:22-123 | after any run a fanned frame is delivered iff the readings amount to no suspension or it is known audio, and its layer is the selected one; audio-only mode does not matter |
| `RoomTheorems.AdvancesAreSpaced` | src/client/accessors.rs:187-209 | a subscriber's i-th and j-th advances are at least (j-i) * 100 ms apart, whatever the clock does |
| `RoomTheorems.NoEntryNoAdvance` | src/registry/drive.rs:561-574 | no estimator entry, or being the publisher, means no advance |
| `RoomTheorems.SweepAdvancesIff` | src/registry/drive.rs:561-605 | a sweep advances a client iff it is not the origin, has an entry and last advanced at least 100 ms ago; once, on its own reading and history |
| `RoomTheorems.FrameMeetsFreshReading` | src/registry/drive.rs:268-274 | whether a queued frame gets through is decided with the advance its own arrival triggers |
| `RoomTheorems.ThrottleIsCounted` | src/registry/drive.rs:576-585 | the throttle counter grows by the clients with an entry that a sweep finds in their 100 ms |
| `RoomTheorems.LowReadingsAreExternal` | src/registry/drive.rs:561-605 | every reading below the suspend threshold is bound by the native estimate or the hint; GoogCC never causes audio-only |
| `RoomTheorems.SuspendNeedsJustification` | src/registry/drive.rs:576-601 | SuspendVideo takes two consecutive low advances, 100 ms apart, both bound from outside |
| `RoomTheorems.SuspendedClientExplained` | src/registry/drive.rs:596-601 | a client is suspended iff such a pair exists with no later reading at the audio-only threshold |
| `RoomTheorems.SweepSuspendsIff` | src/registry/drive.rs:561-605 | in every room a sweep suspends a client iff it is not the origin, has an entry, reads low now and read low at its previous advance at least 100 ms ago |
| `RoomTheorems.AudioOnlyClientExplained` | src/registry/drive.rs:561-605 | a client's pacer is in audio-only mode iff its readings over the run amount to it |
| `RoomInstances.TwoLowReadingsSuspendIff` | src/bwe/mod.rs:78-97 | an instance from the empty room: sweeps at t and at u suspend iff u - t is at least 100 ms |
| `RoomInstances.AudioOnlyViewerGetsVideo` | src/client/fanout.rs:22-123 | an instance from the empty room: a viewer in audio-only mode is delivered a video frame |
| `RoomEvents.QueueConservesEvents` | src/registry/drive.rs:93-321 | over every run the events taken and waiting are the pacers' announcements and everything else enqueued (polled events, speaker changes, layer hints), each complete and in order; media taken is media fanned out |
| `RoomEvents.PolledMediaIsFanned` | src/registry/drive.rs:93-276 | the media events fanned out, then those still queued, are exactly the polled ones in order |
| `RoomEvents.PolledHintsAreQueued` | src/registry/drive.rs:262-266 | the hints taken and still queued are exactly the polled ones in order |
| `RoomEvents.SuspendEventsAlternate` | src/registry/drive.rs:25-61 | the suspend flags that passed through the queue alternate from true; a client's flag is the last one |
| `RoomEvents.EventsReconstructMode` | src/registry/drive.rs:25-61 | the events that passed through the queue give every peer's mode |
| `RoomTracks.TracksAreKnown` | src/client/mod.rs:255-260 | over every run, with the queue drained, every client was told of every track of every other, of none of its own and of none not announced |
| `RoomTracks.PublicationsAreRecorded` | src/client/mod.rs:213-252 | over every run the layers and tracks on record for a client are those it published since it joined |
| `RoomFeeds.EntryIsExplained` | src/bwe/estimator.rs:27-204 | over every run each entry is what its subscriber's feeds, estimates, hints and packets since it last left make of a fresh one |
| `RoomFeeds.LastVideoIsLast` | src/registry/drive.rs:109-212 | a polling pass feeds the timing of its last video frame |
| `RoomEntries.StepEntries` | src/registry/lifecycle.rs:38-63 | which entries and clients remain after each operation |
| `RoomEntries.StepOrphansIff` | src/registry/lifecycle.rs:31-63 | from a room without orphaned entries, an operation leaves none iff all it writes belongs to clients in the room |
| `RoomEntries.NoOrphansIffAddressed` | src/registry/lifecycle.rs:31-63 | the same over whole runs |
| `RoomEntries.OrphansStay` | src/registry/lifecycle.rs:38-63 | no later operation removes the entry of a departed client |
| `RoomEntries.LateFeedLeavesOrphan` | src/registry/mod.rs:249-298 | feedback for a reaped subscriber, or enabling GoogCC for it, leaves such an entry, for any client of any run |
| `RoomEntries.LoopTurnLeavesNoOrphan` | src/udp_loop.rs:106-109 | reap, poll, drain in this order leaves none, unless a hint was already queued |
| `RoomTheorems.DrainAdvancesOnce` | src/registry/drive.rs:259-276 | a drain empties the queue and advances each subscriber at most once |
| `RoomTheorems.ForwardedLayerExact` | src/client/accessors.rs:102-108 | in every room the forwarded layer is the pacer's or, exactly while stale, a higher one |

## Left out

- `Registry`, `BandwidthEstimator`: clients and subscriber entries are held in the list and the map by value, as the source's containers own them; sharing and reborrowing of entries is not modelled. `Client` and `PerSubscriber` are also given as objects, proved against the same functions.
- `Registries.Registry.PollClients`: the nested poll loop is given the outputs in the order polling returned them; deadlines, timeouts and RTCP statistics are not modelled.
- Sockets, the UDP loop, and the WebRTC session behind each client (negotiation, writers, ICE): foreign state machines and I/O.
- `Clients.Client.SetDesiredLayer`: does not model clearing the cached chosen layer, which only keyframe requests read.
- `Clients.Client.HandleMediaDataOut`: does not model the forwarded-packet, byte and layer-selection metrics or the temporal-layer gates inside its span.
- `Registries.Registry.InsertClient`: builds a fresh client from its id; a client configured by the application before insertion is not covered.
- Code of `handle_media_data_out` after the delivery counter (payload mapping, key epoch, write errors, forwarding latency).
- AV1 and frame-marking temporal filters: their payload fields are always absent today.
- Keyframe requests, publisher layer hints, data channels, SFrame, identifiers: single-branch code that would only add easy members.
- The dominant-speaker detector: its algorithm is in another crate.
- Prometheus labels: counters are plain integers.
- Iteration order of the set of observed layers: insertion order stands for it, so nothing is claimed about ties between foreign layer ids.
- Applications calling `set_desired_layer` directly, or replacing a GoogCC estimator through its mutable accessor: the room's runs change layers through the pacer only and feed GoogCC through `on_receive` only.
- Floating-point rounding, NaN or infinite timestamps, gradients and loss fractions, and sub-microsecond time.
- Other feature combinations, and the test-only seams.
