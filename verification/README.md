# Blood Bowl dice calculator — a Dafny model

This project models the logic of a React Native dice app for Blood Bowl players. It is written in Dafny and its properties are proved. Two parts of the app are covered.

- **Adaptive animation.** This part has five pieces:
  - The performance controller (`Performance`). It has four fidelity tiers and a static policy table. A frame-drop monitor downgrades one tier per eleven dropped frames. A user pin is sticky. The controller also caps the particle count and chooses how a batch of animations is combined.
  - The accessibility gate (`Accessibility`). It merges the app's "animations enabled" setting with the platform's reduce-motion flag. When animations are off it returns stand-ins that finish at once. Otherwise it scales motion down.
  - The two particle systems (`ParticleEngine`, `ParticleSystem`). They cover generation, per-type motion, the "one run at a time" guard and teardown.
  - The frame statistics and rating (`FrameStats`).
  - A library animation is an opaque descriptor (`Animation`): what it animates, towards what, for how long and on which curve.
- **Dice, statistics and settings.** This part has seven pieces:
  - Single-die and at-least-one-success probabilities, and rolls with an optional re-roll of ones (`Dice`, `DiceRoll`, `Probability`).
  - The statistics service. Its 100-entry history is kept newest first (`Statistics`).
  - The app-state reducer and its probability effect (`AppState`).
  - The settings service, provider and legacy hook (`Settings`).
  - The error record, its 20-entry development history and the error-handling wrappers (`Errors`).
  - The display components' logic (`ProbabilityDisplay`, `StatisticsDisplay`, `SuccessRate`).
  - The input handlers of the calculator, the dice controls, the number pickers and the failed-dice picker (`Controls`, `NumberSelection`, `FailedRollSelector`).

The model leaves out everything outside the logic itself:
- Every `Math.random()` draw is a parameter in [0, 1). Cosine and sine are caller-supplied functions with values in [-1, 1].
- `Date.now()`, `Platform.OS`, the reduce-motion flag and `__DEV__` are inputs.
- Frame timing enters only as the delta between two frames.
- A handler's effects are a sequence of events, in order: haptic or sound feedback, then the parent callbacks. Lemmas apply these events to the parent's state.
- Persistence never changes in-memory state, so saving is not modelled. Loading is an input.
- Probabilities and durations are exact `real`s. `Math.round` is floor(x + 0.5).

Two behaviours of the code differ from what the app's design suggests, and the model follows the code:
- A performance pin, once set, is never cleared. Nothing in src/hooks/useAnimationPerformance.ts resets the override, so a pinned tier stays pinned for good.
- `'../constants'` resolves to src/constants.ts. So the default display mode is System, the value that file gives.

## Model

| member | source | states |
|---|---|---|
| FrameStats.FpsOf | src/animations/AnimationTestingUtils.ts:87-94 | a frame rate is Math.round(1000 / ms); it is infinite exactly for a zero-length frame |
| FrameStats.Largest | src/animations/AnimationTestingUtils.ts:90 | Math.max over the deltas: no delta exceeds it and some delta equals it |
| FrameStats.Smallest | src/animations/AnimationTestingUtils.ts:91 | Math.min over the deltas: no delta is below it and some delta equals it |
| FrameStats.Measure | src/animations/AnimationTestingUtils.ts:38-95 | the one-pass fold over the recorded deltas equals the whole-list definition: all zeros with no frame, else duration = sum, averageFps from the mean, minFps from the longest and maxFps from the shortest delta, drops = deltas over 20 |
| FrameStats.DropCountMatchesThreshold | src/animations/AnimationTestingUtils.ts:61-64 | droppedFrames never exceeds the frame count and is positive exactly when some delta is strictly greater than 20 |
| FrameStats.RatesOrdered | src/animations/AnimationTestingUtils.ts:84-94 | for positive deltas every rate is finite and minFps <= averageFps <= maxFps |
| FrameStats.RatingFor | src/animations/AnimationTestingUtils.ts:293-300 | Poor below 30, Fair below 45, Good below 55, Excellent otherwise (an infinite rate is Excellent), each as an if-and-only-if |
| FrameStats.SuggestsOptimisations | src/animations/AnimationTestingUtils.ts:304-310 | suggestions are printed exactly when the rating is not Excellent |
| FrameStats.RatingMonotonic | src/animations/AnimationTestingUtils.ts:293-300 | a higher average frame rate never earns a worse rating |
| FrameStats.IsNativeDriverCompatible | src/animations/AnimationTestingUtils.ts:187-218 | the scan returns true exactly when there is no `_config`, or useNativeDriver is not false and no listed layout key is animated |
| Performance.ConfigFor | src/hooks/useAnimationPerformance.ts:27-56 | each tier's entry carries its own level; stagger is on only for HIGH and MEDIUM, batching is off only for HIGH, simplified easing is on only for LOW and CRITICAL; the particle cap is 0 exactly at CRITICAL and never above 100 |
| Performance.ParticleCapNonIncreasing | src/hooks/useAnimationPerformance.ts:27-56 | going down the tiers never raises the particle cap |
| Performance.FlagsDegradeMonotonically | src/hooks/useAnimationPerformance.ts:27-56 | going down the tiers only switches stagger off and batching and simplified easing on |
| Performance.NextLevel | src/hooks/useAnimationPerformance.ts:157-190 | the next tier is one step up or down, staying at HIGH and CRITICAL at the ends |
| Performance.AdjustConfig | src/hooks/useAnimationPerformance.ts:150-199 | with a pinned tier the current config is returned unchanged; otherwise the level moves one step, and the config is replaced by a table entry only when the level changes |
| Performance.Fresh | src/hooks/useAnimationPerformance.ts:63-67 | the hook starts on the HIGH table entry, with no pin, a zero drop counter and no monitoring |
| Performance.DefaultLevel | src/hooks/useAnimationPerformance.ts:79-88 | the initial tier is MEDIUM exactly on Android and HIGH elsewhere |
| Performance.ApplyStoredLevel | src/hooks/useAnimationPerformance.ts:70-101 | a stored level pins that tier's config and schedules no monitoring; without one the platform tier is installed and monitoring is scheduled for after interactions, with a stop on cleanup |
| Performance.StartMonitoring | src/hooks/useAnimationPerformance.ts:106-111 | starting is a no-op while monitoring runs; otherwise it starts with a zero drop counter |
| Performance.InteractionsSettled | src/hooks/useAnimationPerformance.ts:94-96 | a scheduled start runs once interactions settle, leaving config and pin alone |
| Performance.StopMonitoring | src/hooks/useAnimationPerformance.ts:143-145 | stopping ends monitoring and keeps config and pin |
| Performance.Tick | src/hooks/useAnimationPerformance.ts:114-135 | an idle monitor ignores frames; a frame never changes the pin, never changes a pinned config, and moves the tier down by at most one step to another table entry |
| Performance.DowngradeEveryElevenDrops | src/hooks/useAnimationPerformance.ts:117-132 | without a pin, a run of frames moves the tier down one step per 11 dropped frames (saturating at CRITICAL) and leaves the counter at the remainder |
| Performance.PinnedTierIsStable | src/hooks/useAnimationPerformance.ts:128-132 | while a tier is pinned no run of frames changes the config |
| Performance.NeverUpgrades | src/hooks/useAnimationPerformance.ts:128-130 | the monitor only ever moves down the tiers and only to table entries |
| Performance.SetPerformanceLevel | src/hooks/useAnimationPerformance.ts:204-207 | the override pins the tier and installs its table entry, leaving the monitor's counter and running flag alone |
| Performance.PinSurvivesDropBurst | src/hooks/useAnimationPerformance.ts:204-207 | after pinning MEDIUM, twenty dropped frames leave the MEDIUM entry in place |
| Performance.OptimizedParticleCount | src/hooks/useAnimationPerformance.ts:242-245 | the count is the smaller of the request and the tier's cap |
| Performance.CriticalAllowsNoParticles | src/hooks/useAnimationPerformance.ts:242-245 | at CRITICAL no non-negative request gets a particle |
| Performance.CreateOptimizedAnimation | src/hooks/useAnimationPerformance.ts:212-238 | at CRITICAL with more than one animation only the first is returned; a stagger request without staggering becomes parallel; otherwise the requested composition is built, parallel when none is given and with a 100 ms stagger gap when none is given |
| Performance.CreatedDrivesBatch | src/hooks/useAnimationPerformance.ts:212-238 | the created animation drives every property of the batch, except at CRITICAL with more than one animation, where it drives only the first member's |
| Performance.RunOptimizedAnimations | src/hooks/useAnimationPerformance.ts:250-265 | the batch always runs in parallel, deferred until interactions settle exactly when the config batches (every table tier but HIGH) |
| Performance.RunStartsWholeBatch | src/hooks/useAnimationPerformance.ts:250-263 | running a batch drives every property of the batch on every tier, and outside CRITICAL it starts what createOptimizedAnimation with its defaults builds |
| Accessibility.ApplySettings | src/hooks/useAccessibleAnimations.ts:39-49 | only an explicit false turns animations off (a missing setting counts as on); reduceMotion and durationScale are untouched |
| Accessibility.ApplyReduceMotion | src/hooks/useAccessibleAnimations.ts:54-61 | the flag is stored, the scale becomes 0.5 exactly when it is on, and animationsEnabled is untouched |
| Accessibility.UpdatesPreserveWellFormed | src/hooks/useAccessibleAnimations.ts:20-61 | the defaults and both updates keep durationScale = 0.5 exactly when reduceMotion holds |
| Accessibility.SubscribeOnMount | src/hooks/useAccessibleAnimations.ts:64-72 | the flag is queried and a listener attached exactly on iOS and Android (what that means for the options is stated by Accessibility.SubscriptionLifecycle) |
| Accessibility.Teardown | src/hooks/useAccessibleAnimations.ts:73-76 | teardown detaches the listener, so no later report reaches the options (Accessibility.SubscriptionLifecycle) |
| Accessibility.DeliveriesFollowLastReport | src/hooks/useAccessibleAnimations.ts:54-61 | while a listener is attached the options follow the platform's latest reduce-motion report and stay well formed; without one no report changes them; animationsEnabled is never touched |
| Accessibility.SubscriptionLifecycle | src/hooks/useAccessibleAnimations.ts:52-78 | on iOS and Android the reduce-motion flag follows the platform's reports from mount on; on other platforms, and after teardown everywhere, the reports change nothing |
| Accessibility.AccessibleTiming | src/hooks/useAccessibleAnimations.ts:83-118 | disabled: the value is set to toValue at once and a stand-in is returned; enabled: a timing whose duration is scaled and whose easing is linear exactly under reduce motion, with the caller's defaults otherwise |
| Accessibility.AccessibleSpring | src/hooks/useAccessibleAnimations.ts:123-156 | disabled: the value is set to toValue and a stand-in is returned; enabled: friction times 1.5 and rest thresholds 0.1 instead of 0.01 exactly under reduce motion |
| Accessibility.AccessibleSequence | src/hooks/useAccessibleAnimations.ts:161-176 | a stand-in when disabled, with no value written; otherwise the sequence of the given animations |
| Accessibility.AccessibleParallel | src/hooks/useAccessibleAnimations.ts:181-196 | a stand-in when disabled, with no value written; otherwise the parallel group of the given animations |
| Accessibility.AccessibleStagger | src/hooks/useAccessibleAnimations.ts:201-222 | a stand-in when disabled; otherwise a stagger whose delay is scaled exactly under reduce motion |
| Accessibility.StandInCompletions | src/hooks/useAccessibleAnimations.ts:94-98 | the stand-in calls back once per start, always with finished = true, and not at all without a callback |
| Accessibility.StandInFinishesAtOnce | src/hooks/useAccessibleAnimations.ts:91-98 | with animations off, timing and spring have already written toValue, every factory's stand-in ends at time 0, and every start reports finished = true |
| Accessibility.ReduceMotionHalvesTime | src/hooks/useAccessibleAnimations.ts:103-109 | under reduce motion a well-formed gate halves timing durations and stagger delays and uses linear easing |
| Accessibility.GateEndTimes | src/hooks/useAccessibleAnimations.ts:91-117 | disabled factories end at once; an enabled timing ends no later than asked, and strictly earlier exactly under reduce motion with a positive duration |
| ParticleEngine.Palette | src/components/OptimizedParticleSystem.tsx:72-83 | confetti has 6 colours, explosion and sparkle 5 each, any other type the single colour #ffffff |
| ParticleEngine.PickIndex | src/components/OptimizedParticleSystem.tsx:100-102 | Math.floor(r * n) of a draw in [0, 1) is a valid index of an n-element list |
| ParticleEngine.MakeParticle | src/components/OptimizedParticleSystem.tsx:93-103 | particle i has id i, a colour from its type's palette and a size in [4, 10) |
| ParticleEngine.GenerateParticles | src/components/OptimizedParticleSystem.tsx:86-107 | exactly count particles (none for a non-positive count), particle i numbered i with a palette colour and a size in [4, 10) |
| ParticleEngine.EndOffsetBounded | src/components/OptimizedParticleSystem.tsx:121-128 | the end offset on each axis is at most 1.5 times the travel distance (150 for explosions, 100 otherwise) |
| ParticleEngine.ParticleAnimation | src/components/OptimizedParticleSystem.tsx:110-427 | every variant is one parallel group, and it is empty exactly for an unrecognised type |
| ParticleEngine.ChannelSelection | src/components/OptimizedParticleSystem.tsx:131-427 | the simplified variants of explosion and sparkle drive no rotation; every other variant of the three effects drives x, y, rotation, scale and opacity; the simplified branch is taken exactly when the tier asks for simplified easing |
| ParticleEngine.ParticleEndTime | src/components/OptimizedParticleSystem.tsx:131-427 | one particle's animation ends after 1.4 times the duration for confetti, after the duration for explosions and sparkles, and at once for an unrecognised type |
| ParticleEngine.EffectiveCount | src/components/OptimizedParticleSystem.tsx:38-51 | the effective count is the requested count (50 when absent) capped by the tier's maximum |
| ParticleEngine.InputsFor | src/components/OptimizedParticleSystem.tsx:36-51 | a run uses the given type and duration, confetti and 1500 ms when left out, and the requested count (50 when left out) capped by the tier |
| ParticleEngine.DefaultProps | src/components/OptimizedParticleSystem.tsx:36-51 | with every prop left out a run is 1500 ms of confetti with 50 particles or the tier's cap, whichever is smaller |
| ParticleEngine.InertExactly | src/components/OptimizedParticleSystem.tsx:38-54 | the component is inert exactly when animations are off, the requested count (50 when left out) is zero, or the tier allows no particles for a non-negative request |
| ParticleEngine.InertCompletions | src/components/OptimizedParticleSystem.tsx:54-63 | an inert component calls onComplete exactly when trigger is set and a callback is given, at most once per effect run (compared with a live run by ParticleEngine.TriggerReportsOnce) |
| ParticleEngine.CriticalTierIsInert | src/components/OptimizedParticleSystem.tsx:51-54 | at CRITICAL no non-negative request makes particles, so the component is inert |
| ParticleEngine.StartAnimation | src/components/OptimizedParticleSystem.tsx:430-466 | a press while a run is in progress is ignored; otherwise count particles and one animation per particle are made and stored, and the group is started staggered by 20 ms exactly when the tier allows stagger |
| ParticleEngine.Complete | src/components/OptimizedParticleSystem.tsx:458-465 | the group's completion clears the run and active flags and calls onComplete once when given |
| ParticleEngine.OnTrigger | src/components/OptimizedParticleSystem.tsx:476-480 | a set trigger starts a run only when nothing is active |
| ParticleEngine.Unmount | src/components/OptimizedParticleSystem.tsx:469-473 | unmount stops every stored per-particle animation, in order (which animations those are is stated by ParticleEngine.UnmountStopsLastRun) |
| ParticleEngine.UnmountStopsLastRun | src/components/OptimizedParticleSystem.tsx:430-473 | after a run has started, unmount stops exactly that run's animations, one per particle in order, also after the run has completed; before any run it stops nothing |
| ParticleEngine.TriggerReportsOnce | src/components/OptimizedParticleSystem.tsx:54-480 | one trigger from idle calls onComplete exactly once when a callback is given, whether the gate makes the component inert or a run starts and completes |
| ParticleEngine.OneRunAtATimeHolds | src/components/OptimizedParticleSystem.tsx:431-465 | the mounted state has no run, and completing a run keeps every earlier run finished |
| ParticleEngine.StartKeepsOneRun | src/components/OptimizedParticleSystem.tsx:430-432 | starting never lets two runs overlap: at most one run is unfinished |
| ParticleSystem.Palette | src/components/ParticleSystem.tsx:50-55 | an explicit colors prop wins, even an empty one; otherwise 4 theme colours for confetti and 3 for any other type, the explosion set containing the theme's error colour |
| ParticleSystem.MakeParticle | src/components/ParticleSystem.tsx:62-70 | particle i has id i, opacity 1, a starting scale in [0.8, 1.2) for confetti and [0.5, 1.0) otherwise, and a palette colour exactly when the palette is non-empty |
| ParticleSystem.Generate | src/components/ParticleSystem.tsx:58-75 | exactly count particles (none for a non-positive count), particle i built from the i-th draws |
| ParticleSystem.GeneratedParticlesInRange | src/components/ParticleSystem.tsx:58-75 | with a non-empty palette every generated particle starts opaque, with a palette colour and a scale in [0.5, 1.2) |
| ParticleSystem.InputsFor | src/components/ParticleSystem.tsx:32-43 | a run uses the given count, duration, gravity and type, 20, 1000 ms, 800 and confetti when left out, and the palette the type and colours choose |
| ParticleSystem.DefaultProps | src/components/ParticleSystem.tsx:32-43 | with every prop left out a run throws 20 confetti particles for 1000 ms under gravity 800 in the theme's four colours |
| ParticleSystem.SpreadIsIgnored | src/components/ParticleSystem.tsx:32-43 | the spread prop is accepted but changes nothing about a run |
| ParticleSystem.Angle | src/components/ParticleSystem.tsx:85-88 | confetti flies within half a turn around straight up, in [pi, 2 pi); other types in any direction, [0, 2 pi) |
| ParticleSystem.Speed | src/components/ParticleSystem.tsx:90-92 | the speed is in [200, 400) for confetti and in [100, 400) otherwise |
| ParticleSystem.Spread | src/components/ParticleSystem.tsx:94-95 | each distance factor is in [0.5, 1.0) |
| ParticleSystem.ParticleAnimation | src/components/ParticleSystem.tsx:78-163 | each particle's composite is one parallel group of five channels |
| ParticleSystem.Targets | src/components/ParticleSystem.tsx:105-154 | gravity is added to the y target for every type but explosion; the fade ends exactly at the duration; explosions end at scale 0, confetti at 0.5, sparkles grow to 1.5 over 0.3 of the duration and then vanish over 0.7 |
| ParticleSystem.ParticleEndsWithDuration | src/components/ParticleSystem.tsx:98-162 | every particle's composite settles exactly when the duration is over |
| ParticleSystem.Composite | src/components/ParticleSystem.tsx:173-177 | the composite holds one animation per particle, in order, all in parallel |
| ParticleSystem.OnTrigger | src/components/ParticleSystem.tsx:166-194 | a set trigger while no run is in progress generates fresh particles, marks the run and holds their composite; otherwise nothing changes |
| ParticleSystem.Complete | src/components/ParticleSystem.tsx:180-185 | completion clears the run flag and calls onComplete once when given |
| ParticleSystem.Unmount | src/components/ParticleSystem.tsx:197-203 | teardown stops the held composite exactly when there is one |
| ParticleSystem.UnmountStopsLastRun | src/components/ParticleSystem.tsx:177-203 | unmounting after a run stops exactly that run's composite, also after it completed |
| ParticleSystem.OneRunAtATimeHolds | src/components/ParticleSystem.tsx:166-194 | mounting, triggering and completing keep at most one run in progress |
| Dice.FaceOf | src/services/diceService.ts:31 | Math.floor(r * 6) + 1 of a draw in [0, 1) is the face whose sixth of the unit interval contains the draw |
| Dice.Kept | src/services/diceService.ts:31-36 | the kept face is the first one, except that a 1 is replaced by the second roll when re-rolling ones |
| Dice.RollFaces | src/services/diceService.ts:27-39 | one kept face per die, each built from that die's draws; none for a non-positive count |
| Dice.Successes | src/services/diceService.ts:42 | the success count is at most the number of dice and positive exactly when some die meets the threshold |
| Dice.RollDice | src/services/diceService.ts:19-48 | the roll has one face per die, and the outcome is success exactly when at least one face meets the threshold |
| Dice.SingleDieProbability | src/services/diceService.ts:57-81 | (7 - t)/6 without re-rolls; with re-rolls 1 for t <= 1 and (7 - t)/6 + (1/6)(7 - t)/6 otherwise |
| Dice.SingleDieMatchesCount | src/services/diceService.ts:57-81 | the closed form equals the share of the 36 equally likely (first roll, re-roll) pairs whose kept face meets the threshold |
| Dice.RerollNeverLowers | src/services/diceService.ts:62-79 | for thresholds 2..6 the probability lies in [0, 1] and re-rolling ones never lowers it |
| Dice.AtLeastOneRecurrence | src/services/diceService.ts:90-106 | 1 - (1 - p)^n is 0 for no dice and satisfies P(n + 1) = p + (1 - p) P(n): one more die either succeeds or leaves it to the others |
| Dice.AtLeastOneBounds | src/services/diceService.ts:90-106 | for p in [0, 1] the result lies in [0, 1] and never decreases as dice are added |
| DiceRoll.AttemptFor | src/services/diceRollService.ts:62-68 | the recorded attempt succeeds exactly when some die met the threshold, and when one missed it names the first die that did |
| DiceRoll.RollDice | src/services/diceRollService.ts:28-73 | one die, threshold 4 and no re-rolls by default; each value is that die's kept face, successes and failures add up to the dice rolled, and the attempt handed to the statistics matches the roll |
| DiceRoll.SuccessProbability | src/services/diceRollService.ts:81-102 | the probability lies in [0, 1] and is (7 - t)/6 whenever ones are not re-rolled or t is 1 |
| DiceRoll.AgreesWithDiceService | src/services/diceRollService.ts:81-102 | on die faces this service's single-die probability equals the one of src/services/diceService.ts |
| DiceRoll.ExpectedSuccesses | src/services/diceRollService.ts:111-114 | for a non-negative number of dice the expectation lies between 0 and the number of dice |
| DiceRoll.ExpectedSuccessesAdditive | src/services/diceRollService.ts:111-114 | splitting the dice into two pools splits the expectation into the sum of the two |
| Probability.SingleDieProbability | src/services/probability.ts:16-22 | (6 - t + 1)/6 lies in [0, 1] for thresholds 1..7, is 0 exactly at 7 and 1 exactly at 1 |
| Probability.AgreesWithDiceService | src/services/probability.ts:16-22 | for every threshold it equals the dice service's single-die probability without re-rolls |
| Probability.SequenceProbabilityShrinks | src/services/probability.ts:30-39 | every die of the sequence must succeed: an empty sequence is certain, the result is a probability, and appending dice never raises it |
| Probability.FormatAsPercentage | src/services/probability.ts:46-48 | the text ends in '%' after at least one character |
| Probability.PercentageRoundTrip | src/services/probability.ts:46-48 | the text before '%' parses back to Math.round(100 p), which is within half a point of 100 p and in 0..100 for a probability |
| Probability.FormatAsFractionAsWritten | src/services/probability.ts:55-74 | formatAsFraction as written, with 6 - ceil(6p) + 1 as the approximate numerator; the '1/6' branch is unreachable behind the <= 1/6 test |
| Probability.ApproximationAsWrittenIsInverted | src/services/probability.ts:60-73 | p = 0.9, above five sixths, is printed as "~1/6^n" |
| Probability.ApproxFaces | src/services/probability.ts:60 | the corrected numerator is the least whole number of sixths not below p, in 2..6 for p strictly between 1/6 and 1 |
| Probability.FormatAsFraction | src/services/probability.ts:55-74 | 0 prints "0/6", 1 prints "6/6", anything else at most 1/6 prints "≤ 1/6^n", and "1/6" is never printed |
| Probability.NamedFractionsExact | src/services/probability.ts:57-70 | each whole number of sixths except one prints as a named fraction reading back as that probability; one sixth prints "≤ 1/6^n" |
| Probability.ApproximationBracketsProbability | src/services/probability.ts:63-73 | any other p between 1/6 and 1 prints "~k/6^n" with (k - 1)/6 < p <= k/6 |
| Probability.TenthsRoundTrip | src/services/probability.ts:89-97 | a ratio rounded to tenths prints without a trailing ".0" and parses back to the same number of tenths |
| Probability.OddsTenths | src/services/probability.ts:85-95 | the larger share over the smaller, rounded to tenths, is within half a tenth of the true ratio and never below one |
| Probability.CalculateOdds | src/services/probability.ts:81-98 | 0:1 at or below 0, 1:0 at or above 1, else "r:1" when success is the larger share and "1:r" otherwise |
| Probability.OddsReadBack | src/services/probability.ts:81-98 | strictly between 0 and 1 the printed odds read back as the rounded ratio against exactly 1, on the side of the larger share |
| Probability.OddsExtremes | src/services/probability.ts:82-83 | certain failure reads back as 0 against 1 and certain success as 1 against 0 |
| Statistics.Initialize | src/services/statistics.ts:20-27 | the stored counters and then the stored history replace the service's; when nothing is stored storage answers zero counters and an empty history, so nothing held before survives |
| Statistics.InitializeNothingStoredIsReset | src/services/statistics.ts:20-27 | initialising with nothing stored is a reset, whatever the service held, and leaves consistent counters |
| Statistics.SaveThenInitializeRestores | src/services/statistics.ts:20-27 | initialising from what the service saved restores the service exactly, consistency included |
| Statistics.AddRollAttempt | src/services/statistics.ts:32-60 | an attempt without an outcome changes nothing; otherwise it goes to the front of the history, the oldest entry beyond 100 is dropped, the total and the matching counter grow by one |
| Statistics.AddKeepsConsistent | src/services/statistics.ts:32-53 | the counters keep adding up, the rate stays successes over total and within [0, 1], and the history stays within 100 entries |
| Statistics.HistoryIsNewestFirst | src/services/statistics.ts:38-41 | after a run of decided attempts the history is the newest 100 of them, newest first, ahead of the old history, and the total counts every attempt |
| Statistics.ResetStatistics | src/services/statistics.ts:98-105 | zero counters, zero rate and an empty history, which is a consistent state |
| Statistics.SuccessRateForThreshold | src/services/statistics.ts:79-93 | the rate times the number of decided attempts at that threshold equals the number of them that succeeded; it lies in [0, 1] and is 0 when there are none |
| Statistics.RateOneIffAllSucceeded | src/services/statistics.ts:79-93 | the rate is 1 exactly when some decided attempt at that threshold exists and all of them succeeded |
| AppState.Reduce | src/context/AppContext.tsx:53-91 | each action sets exactly the fields its payload names, every other field keeps its value, and an unknown action returns the state unchanged |
| AppState.ReduceIdempotent | src/context/AppContext.tsx:53-91 | dispatching any action twice leaves the same state as dispatching it once |
| AppState.Settle | src/context/AppContext.tsx:98-107 | the effect runs only when dice count, threshold or re-roll flag changed, and then leaves the probability of the new parameters; parameters, results and rolling flag are untouched |
| AppState.Mount | src/context/AppContext.tsx:33-107 | after mounting the state holds one die, threshold 4, no re-rolls, no results, and the probability of those parameters |
| AppState.ProbabilityStaysCurrent | src/context/AppContext.tsx:53-107 | a displayed probability that matches the parameters keeps matching them after any action other than UPDATE_PROBABILITY, and lies in [0, 1] |
| AppState.ResetKeepsParameters | src/context/AppContext.tsx:81-86 | resetting clears the results and the last outcome and keeps the parameters, the probability and the rolling flag |
| AppState.RollDice | src/context/AppContext.tsx:110-144 | ignored while rolling; otherwise one kept face per die, success exactly when a face meets the threshold, and one attempt recorded at the front of the history; a throwing roll finishes with no results, failure and nothing recorded; a probability matching the parameters keeps matching and consistent statistics stay consistent |
| AppState.RecordOutcomeAction | src/context/AppContext.tsx:147-162 | the outcome becomes the last result and nothing else changes in the state; an attempt with the current results is recorded exactly when there are results; the probability stays current and consistent statistics stay consistent |
| Settings.Overlay | src/services/settingsService.ts:40 | object spread: every key of the overlay takes its value there, every other key of the base keeps its value, and no other key appears |
| Settings.OverlayComposes | src/services/settingsService.ts:40 | overlaying one partial and then another equals overlaying their merge, the later values winning |
| Settings.Init | src/services/settingsService.ts:16-27 | the saved values are laid over the defaults, so every default key is present and a key not saved keeps its default; the storage answers an empty object when nothing is saved or the read fails, so old settings never survive; the listeners are untouched |
| Settings.InitNothingSavedIsReset | src/services/settingsService.ts:16-27 | with nothing saved, init installs the defaults, as a reset does, whatever updates came before |
| Settings.SaveThenInitRestores | src/services/settingsService.ts:16-27 | the settings a service holds, once they carry every default key, are exactly what an init from them installs |
| Settings.Notify | src/services/settingsService.ts:81-83 | each listener is called once, in subscription order, with the current settings |
| Settings.UpdateSettings | src/services/settingsService.ts:39-44 | the partial's keys take their new values, all other keys keep theirs, and every listener is told the resulting settings |
| Settings.UpdatesCompose | src/services/settingsService.ts:39-44 | two updates in a row leave the same settings as one update with the merged partial |
| Settings.DefaultKeysStayPresent | src/services/settingsService.ts:39-54 | once every default key is present, neither an update nor a reset can remove one |
| Settings.ResetSettings | src/services/settingsService.ts:49-54 | the settings become the defaults and every listener is told so |
| Settings.Subscribe | src/services/settingsService.ts:70-71 | the listener joins the end of the list and the settings are untouched |
| Settings.Unsubscribe | src/services/settingsService.ts:73-75 | every registration of the listener is gone, every other listener stays, the settings are untouched |
| Settings.UnsubscribeUndoesSubscribe | src/services/settingsService.ts:70-75 | subscribing a new listener and calling the returned function restores the listener list |
| Settings.PartialFor | src/context/SettingsContext.tsx:67-121 | each setter writes only its own key with a value of the right type; the vibration setter writes both haptic keys |
| Settings.ApplySetter | src/context/SettingsContext.tsx:67-121 | on success the service takes the partial and the provider shows exactly the service's settings; on a rejection both keep their settings |
| Settings.VibrationWritesBothKeys | src/context/SettingsContext.tsx:78-88 | after the vibration setter both haptic keys hold its argument |
| Settings.SingleKeySetters | src/context/SettingsContext.tsx:67-121 | any other setter leaves every key but its own as it was |
| Settings.InitContext | src/context/SettingsContext.tsx:43-54 | after mounting, loading has ended and the provider shows the service's settings: the saved values over the defaults |
| Settings.ResetContext | src/context/SettingsContext.tsx:123-130 | unless the service rejects, both the provider and the service hold the defaults; the loading flag is untouched |
| Settings.ContextMirrorsService | src/context/SettingsContext.tsx:43-130 | the mount makes the provider show the service's settings, with every default key, and every setter and reset keeps the two equal, whether the call goes through or rejects |
| Settings.RouteFor | src/hooks/useSettings.ts:35-52 | the six known keys route to a setter that writes that key with the given value; the other keys route nowhere |
| Settings.UpdateSetting | src/hooks/useSettings.ts:31-54 | a routed key ends up holding the value in the service and the provider; an unrouted key changes nothing; the returned settings are the snapshot of the calling render |
| Settings.HapticKeysAreAliases | src/hooks/useSettings.ts:25-41 | updating either haptic key has the same effect, and sets hapticFeedbackEnabled as well |
| Errors.CreateError | src/services/error.ts:36-51 | every supplied field is kept; a missing type becomes UNKNOWN and a missing message 'An unknown error occurred'; the timestamp is the current time |
| Errors.RecognisesAppErrors | src/services/error.ts:94-102 | the object test (non-null object with type, message and timestamp keys) accepts exactly the errors built by createError, and no string or Error |
| Errors.ToAppError | src/services/error.ts:56-64 | an AppError is returned unchanged; a string becomes the message with no original error; an Error keeps itself as the original error and uses a non-empty options message, else its own message |
| Errors.HandleError | src/services/error.ts:56-89 | the returned error is the converted one, and only in development is it appended to the history |
| Errors.Record | src/services/error.ts:79 | the history gains the new error at the end and keeps at most the last 20 entries, oldest first |
| Errors.HistoryKeepsLastTwenty | src/services/error.ts:77-80 | after any run of reports the history is exactly the last 20 of the old history followed by the reported errors |
| Errors.GetErrorHistory | src/services/error.ts:107-109 | the history in development, empty in production |
| Errors.ClearErrorHistory | src/services/error.ts:114-118 | empties the history in development only |
| Errors.ClearThenReport | src/services/error.ts:77-118 | after a clear and a report the visible history is that single error in development and empty in production |
| Errors.FriendlyMessage | src/services/error.ts:123-138 | every type has a non-empty message, and the generic one belongs to UNKNOWN alone |
| Errors.FriendlyMessagesDistinct | src/services/error.ts:123-138 | different error types get different messages |
| Errors.NetworkErrorSurvivesContext | src/services/error.ts:143-149 | a message containing 'network', 'connection' or 'Network request failed' still counts as a network error inside any longer message |
| Errors.SafeExecute | src/utils/errorUtils.ts:10-43 | a value is passed through with the history untouched; a throw yields undefined and, in development, exactly one new error of the given type (UNKNOWN by default) |
| Errors.JsonContext | src/utils/errorUtils.ts:58 | the first 100 characters, with '...' appended exactly when the input is longer |
| Errors.SafeParseJson | src/utils/errorUtils.ts:48-62 | a parsed value is returned as is; a failure returns the default and reports a STORAGE error 'Failed to parse JSON' carrying the syntax error and the truncated input |
| Errors.Summary | src/utils/errorUtils.ts:81-85 | objects and null summarise as 'Object', functions as 'Function', strings as themselves and undefined as 'undefined' |
| Errors.WithErrorHandling | src/utils/errorUtils.ts:67-91 | the handler's value is passed through; a throw yields undefined and one error of the given type (UI by default) whose context keeps the caller's entries and adds the handler name and one summary per argument |
| ProbabilityDisplay.Shown | src/components/ProbabilityDisplay.tsx:55-61 | the prop wins when given, else the app state's probability when the card reads the app state; the card renders nothing exactly when neither gives a value |
| ProbabilityDisplay.ShownIsCurrent | src/components/ProbabilityDisplay.tsx:55-61 | without a prop the card shows the probability of the app state's current parameters, a value in [0, 1]; right after mount that of one die at threshold 4 |
| ProbabilityDisplay.FractionFor | src/components/ProbabilityDisplay.tsx:64-85 | 0 is 0/1 and 1 is 1/1; any other non-negative value gives a positive denominator dividing 100 and a fraction equal to the value rounded to hundredths |
| ProbabilityDisplay.LowestTerms | src/components/ProbabilityDisplay.tsx:64-85 | whenever the rounded numerator is positive, the fraction is in lowest terms |
| ProbabilityDisplay.Explanation | src/components/ProbabilityDisplay.tsx:96-101 | with dice in the app state the sentence starts "Based on ", the dice count reads back right after it and the threshold right after " dice with a threshold of ", and it ends in "rolling ones." exactly when ones are re-rolled; otherwise it is the generic sentence |
| ProbabilityDisplay.RollSentence | src/components/ProbabilityDisplay.tsx:99 | the sentence for a roll carries the dice count and the threshold so that both read back, and ends in "rolling ones." exactly when ones are re-rolled |
| StatisticsDisplay.BumpCounts | src/components/StatisticsDisplay.tsx:69-84 | counting one roll adds one roll, and its success if any, under its own key and nowhere else |
| StatisticsDisplay.BumpWellFormed | src/components/StatisticsDisplay.tsx:69-84 | counting one roll keeps keys ascending and unique with successes at most rolls, and introduces no key but its own |
| StatisticsDisplay.Aggregate | src/components/StatisticsDisplay.tsx:59-85 | each group counts exactly the history entries with its key and exactly their successes, keys ascend, and the groups together count the whole history |
| StatisticsDisplay.Derive | src/components/StatisticsDisplay.tsx:56-88 | an empty history leaves the previous groups; otherwise both groupings count every entry once under its threshold or dice count, with exactly that key's successes |
| StatisticsDisplay.GroupRate | src/components/StatisticsDisplay.tsx:163 | a group's rate in percent lies in [0, 100] and is 0 for an empty group |
| StatisticsDisplay.GroupRows | src/components/StatisticsDisplay.tsx:157-182 | one row per group in key order, carrying the group's counts and rate |
| StatisticsDisplay.Render | src/components/StatisticsDisplay.tsx:142-202 | loading and missing data short-circuit; with statistics and a history a group filter shows the rows of its grouping, one per group in ascending key order; the summary shows the total, successful and failed counters with the success rate and its complement in percent |
| StatisticsDisplay.GroupAtItsKey | src/components/StatisticsDisplay.tsx:69-84 | in well-formed groups the counts looked up at a group's key are that group's own counts |
| StatisticsDisplay.ShowGrouped | src/components/StatisticsDisplay.tsx:56-182 | for a non-empty history each row of a grouped view shows exactly the history's rolls and successes under its key, with their rate, in ascending key order |
| StatisticsDisplay.SummaryPercentagesComplement | src/components/StatisticsDisplay.tsx:191-200 | the successful and failed percentages of the summary add up to 100 |
| SuccessRate.RatePercent | src/components/SuccessRateDisplay.tsx:56-58 | 0 without rolls; otherwise rate times total equals 100 times successes, so it lies in [0, 100] for consistent counters |
| SuccessRate.Load | src/components/SuccessRateDisplay.tsx:50-66 | counters replace the rate and the total, missing ones counting as 0; a failed or empty load keeps the old values; loading ends in every case |
| SuccessRate.ShowsServiceRate | src/components/SuccessRateDisplay.tsx:50-66 | loading consistent service counters shows the service's own success rate in percent |
| SuccessRate.BandFor | src/components/SuccessRateDisplay.tsx:70-74 | success band from 70, primary band from 40 below 70, error band below 40 |
| SuccessRate.BandMonotonic | src/components/SuccessRateDisplay.tsx:70-74 | a higher rate is never shown in a worse band |
| SuccessRate.TotalLine | src/components/SuccessRateDisplay.tsx:107 | the line starts "Based on " and the total reads back right after it; it ends in " roll" exactly for one roll and in " rolls" otherwise |
| Controls.ProposedCount | src/components/DiceControls.tsx:23 | the proposed count is always in 1..10, equals count + delta when that is in range, and is the nearer end otherwise |
| Controls.CountChange | src/components/Calculator.tsx:30-36 | nothing happens exactly when the clamped count equals the current one; otherwise a light tap and then one callback with the clamped count |
| Controls.CountPressLandsOnClamp | src/components/DiceControls.tsx:22-28 | after a count press the parent holds exactly the clamped count and every other parameter is unchanged |
| Controls.ThresholdChange | src/components/Calculator.tsx:38-43 | only a value in 2..6 other than the current threshold is forwarded, after a light tap; every offered button other than the current one forwards |
| Controls.ThresholdPressSets | src/components/Calculator.tsx:38-43 | after a threshold press the parent holds the value when it is in 2..6 and is otherwise unchanged |
| Controls.RerollToggle | src/components/Calculator.tsx:45-48 | a light tap, then the negation of the current flag |
| Controls.RerollToggleTwiceRestores | src/components/Calculator.tsx:45-48 | one toggle flips only the flag, and a second toggle restores the parameters |
| Controls.OfferedThresholdsAreTwoToSix | src/components/Calculator.tsx:80 | the threshold buttons are exactly 2+ to 6+ |
| Controls.DisabledExactlyWhenInert | src/components/Calculator.tsx:56-72 | for a count in 1..10 each button is disabled exactly when pressing it would do nothing |
| Controls.PressKeepsInRange | src/components/Calculator.tsx:30-115 | any press on the calculator keeps 1..10 dice and a threshold in 2..6 |
| Controls.SessionStaysInRange | src/components/Calculator.tsx:30-115 | however many presses follow one another, the parameters stay in 1..10 dice and a threshold in 2..6 |
| NumberSelection.CircleSelect | src/components/NumberSelection.tsx:47-80 | a shown plain circle answers every tap with a light tap and the face; a hidden one offers nothing to tap |
| NumberSelection.PlainCircleReportsEveryTap | src/components/NumberSelection.tsx:77-80 | the plain circle has no guard: two taps report two faces |
| NumberSelection.AnimationsEnabled | src/components/NumberSelection.tsx:119 | animations are off only when the settings exist and say false; missing settings or a missing flag count as on |
| NumberSelection.Step | src/components/NumberSelection.tsx:129-191 | a tap during an eating animation or on a hidden circle is ignored; otherwise the face is eaten and reported with the swallow feedback, at once without animations and at the animation's end with them; hiding clears the eaten face and the animation value |
| NumberSelection.PickReportsOnce | src/components/NumberSelection.tsx:166-191 | a fresh pick reports its face exactly once: immediately without animations, only when the animation ends with them |
| NumberSelection.RunWithinBudget | src/components/NumberSelection.tsx:166-191 | while the circle stays shown it never reports more faces than it has pending picks |
| NumberSelection.OneSelectionPerShowing | src/components/NumberSelection.tsx:166-191 | from a freshly shown circle no sequence of taps and animation ends reports more than one face |
| NumberSelection.HidingRearms | src/components/NumberSelection.tsx:129-134 | hiding clears the eaten face and the animation value, so the circle accepts a pick again once shown |
| NumberSelection.GridSelect | src/components/NumberSelection.tsx:311-316 | a disabled face does nothing; any other face gives a tap and is reported |
| NumberSelection.ThresholdChange | src/components/NumberSelection.tsx:319-324 | a threshold is forwarded, after a light tap, exactly when the parent passed a handler |
| NumberSelection.StepDown | src/components/NumberSelection.tsx:364 | the minus button proposes one less, but never below 1 |
| NumberSelection.StepUp | src/components/NumberSelection.tsx:378 | the plus button proposes one more, but never above 6 |
| NumberSelection.StepperDisabledExactlyAtEnds | src/components/NumberSelection.tsx:363-383 | each arrow is disabled exactly where it would propose the current threshold, and elsewhere the two arrows undo each other |
| NumberSelection.StepperPress | src/components/NumberSelection.tsx:357-383 | the arrows exist only with showThreshold and a handler, and an enabled arrow forwards a threshold exactly one away |
| NumberSelection.ColourFor | src/components/NumberSelection.tsx:291-308 | the selected face takes the selected colour, else a disabled face the disabled colour, else the face's own colour |
| NumberSelection.GreyedExactlyWhenIgnored | src/components/NumberSelection.tsx:291-316 | a greyed face ignores taps, a face that ignores taps is greyed unless selected, and a face in its own colour answers taps |
| FailedRollSelector.Toggle | src/components/FailedRollSelector.tsx:70-87 | the tapped die's membership flips and no other die's changes; removal gives a light tap; addition appends the die with a tap and a pulse |
| FailedRollSelector.PulseOnlyOnAdd | src/components/FailedRollSelector.tsx:79-84 | a pulse starts exactly when the tap adds the die, and only for that die |
| FailedRollSelector.ToggleKeepsNoDuplicates | src/components/FailedRollSelector.tsx:70-87 | toggling never lists a die twice |
| FailedRollSelector.ToggleTwiceRestores | src/components/FailedRollSelector.tsx:70-87 | two taps on the same die restore the selected set, and the exact list when the die was not selected |
| FailedRollSelector.SelectedIffOddTaps | src/components/FailedRollSelector.tsx:70-87 | after any taps a die is selected exactly when it was selected before and tapped an even number of times, or the other way round |
| FailedRollSelector.SelectionFromEmpty | src/components/FailedRollSelector.tsx:43-87 | from the empty initial selection the selected dice are exactly those tapped an odd number of times, each listed once |
| FailedRollSelector.Confirm | src/components/FailedRollSelector.tsx:90-149 | an empty selection cannot be confirmed; otherwise the success feedback and the selection handed over as it stands |
| FailedRollSelector.Skip | src/components/FailedRollSelector.tsx:96-99 | a tap and the skip callback; no selection is handed over and the selection is kept |
| FailedRollSelector.SkipKeepsSelection | src/components/FailedRollSelector.tsx:43-99 | after any taps a skip reports once and hands over no failed dice, keeping the odd-tapped selection, so a later confirm would hand over the same list; a confirm never reports a skip |
| FailedRollSelector.ConfirmedListIsOddTaps | src/components/FailedRollSelector.tsx:43-93 | a confirmed list names exactly the dice tapped an odd number of times, each once |

## Left out

- Rendering, styles and layout. This covers JSX, colours from the theme, `toFixed` number formatting and the zoom-in of the failed-dice picker. None of it changes the state the model describes.
- The animation runtime. Curves, springs, interpolation and the native driver belong to React Native. An animation is reduced to its descriptor, its start and its end.
- Interrupting a running animation. In the animated number circle, pending eating animations form a queue that finishes in order. `setValue` stopping an animation mid-run is not modelled.
- NumberSelection.Step: with animations on, the swallow feedback is emitted when the animation ends. In the source the sound trigger fires partway through the animation. Only the order relative to the callback is kept.
- Timers and scheduling: `requestAnimationFrame`, `setTimeout`, `InteractionManager`, and the React effect scheduling, which becomes explicit transitions. Two frame loops started within one frame are not modelled.
- `simulatePerformanceLevel` and `testAnimationMemoryUsage` (src/animations/AnimationTestingUtils.ts:110-153, 228-269). They are busy loops that read the wall clock. `testAcrossPerformanceLevels` only drives them.
- The artificial 500 ms delay before a roll (src/services/diceService.ts:25).
- Storage and feedback I/O: AsyncStorage, audio and haptics. Saving is an effect that never changes in-memory state.
- Reading storage. A load is an input: the saved object, or an absent one when nothing is saved or the read fails, because `getData` in src/services/storage.ts:21-35 answers its default in both cases. Stored JSON of the wrong shape is not modelled; a load yields typed values.
- Errors.JsonContext: the cut is at 100 Dafny characters, whereas `substring` and `length` in src/utils/errorUtils.ts:58 count UTF-16 code units, so text outside the Basic Multilingual Plane would be cut at a different place.
- Console logging.
- The getters' copies (`getStatistics`, `getRollHistory`, `getSettings`). Under value semantics a copy is the value itself, so mutating it cannot reach the service.
- The display components' `loadStatistics` reads the service's counters and history. Its effect is the value it hands over, which is an input to `StatisticsDisplay.Derive`, `StatisticsDisplay.Render` and `SuccessRate.Load`.
- The percentage/fraction toggle of the probability card is a boolean flip that selects the text. It carries no logic beyond that.
- IEEE floating point. The equality tests in src/services/probability.ts:57-70 are exact on reals, and rounding error is not modelled.
- A stored performance level that is not one of the four tier names. The stored level is taken as a tier.
- Negative or fractional dice counts. The app state's count and the exponent of `Math.pow` are natural numbers. Every control clamps the count to 1..10.
- A settings partial whose key is present with the value `undefined`. A partial only carries defined values.
- An `Error` object that happens to carry `type` and `timestamp` keys. A thrown `Error` is modelled as its message, so it never passes the AppError test.
- ProbabilityDisplay.FractionFor: the contract says nothing about negative values. Their rounding and reduction follow the same steps, but no probability is negative.
- Probability.SequenceProbabilityShrinks: proved for thresholds 1..7 only, where the single-die probability is a probability.
- Settings.ApplySetter: a service call that rejects is modelled as one that changes nothing. Storage failures are caught inside the service, so only the rejection path remains.

## Findings

| source | as written | input that shows it | evidently intended | confidence | as-written member | corrected member |
|---|---|---|---|---|---|---|
| src/services/probability.ts:60-73 | the approximate numerator of `formatAsFraction` is 6 - ceil(6p) + 1, which is the threshold rather than the number of success faces | p = 0.9 prints "~1/6^n", though 0.9 is above five sixths | the number of success faces, ceil(6p), so 0.9 prints "~6/6^n" | medium, not executed | Probability.ApproximationAsWrittenIsInverted | Probability.ApproximationBracketsProbability |
