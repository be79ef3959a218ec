/**
 * The adaptive performance controller of src/hooks/useAnimationPerformance.ts:
 * four fidelity tiers, the static policy table, the frame-drop monitor that
 * downgrades one tier per eleven dropped frames, the sticky user pin, the
 * particle cap and the choice of how a batch of animations is combined.
 *
 * The hook's refs and state become the fields of `Monitor`; each callback the
 * hook registers (the settings effect, the after-interactions start, one
 * requestAnimationFrame tick) becomes a pure transition. Wall-clock time enters
 * only as the delta between two ticks.
 */
module Performance {

  import opened Common
  import opened Animation

  datatype PerformanceLevel = High | Medium | Low | Critical {
    /** Position in the fidelity order: 0 is full fidelity, 3 the bare minimum. */
    function Rank(): nat {
      match this
      case High => 0
      case Medium => 1
      case Low => 2
      case Critical => 3
    }
  }

  function LevelOfRank(r: nat): (l: PerformanceLevel)
    requires r <= 3
    ensures l.Rank() == r
  {
    if r == 0 then High else if r == 1 then Medium else if r == 2 then Low else Critical
  }

  lemma RankInjective(a: PerformanceLevel, b: PerformanceLevel)
    ensures a.Rank() == b.Rank() <==> a == b
  {
  }

  datatype PerformanceConfig = PerformanceConfig(
    level: PerformanceLevel,
    maxParticleCount: nat,
    useStaggeredAnimations: bool,
    batchAnimations: bool,
    useSimplifiedEasing: bool)

  /** PERFORMANCE_CONFIGS: the one table of fidelity trade-offs. */
  function ConfigFor(level: PerformanceLevel): (c: PerformanceConfig)
    ensures c.level == level
    ensures c.useStaggeredAnimations <==> level.Rank() <= 1
    ensures !c.batchAnimations <==> level == High
    ensures c.useSimplifiedEasing <==> level.Rank() >= 2
    ensures c.maxParticleCount == 0 <==> level == Critical
    ensures c.maxParticleCount <= 100
  {
    match level
    case High => PerformanceConfig(High, 100, true, false, false)
    case Medium => PerformanceConfig(Medium, 50, true, true, false)
    case Low => PerformanceConfig(Low, 20, false, true, true)
    case Critical => PerformanceConfig(Critical, 0, false, true, true)
  }

  /** A configuration taken verbatim from the table. */
  predicate FromTable(c: PerformanceConfig)
  {
    c == ConfigFor(c.level)
  }

  /** Going down the tiers never raises the particle cap. */
  lemma ParticleCapNonIncreasing(a: PerformanceLevel, b: PerformanceLevel)
    requires a.Rank() <= b.Rank()
    ensures ConfigFor(a).maxParticleCount >= ConfigFor(b).maxParticleCount
  {
  }

  /** Going down the tiers only ever switches fidelity features off. */
  lemma FlagsDegradeMonotonically(a: PerformanceLevel, b: PerformanceLevel)
    requires a.Rank() <= b.Rank()
    ensures ConfigFor(b).useStaggeredAnimations ==> ConfigFor(a).useStaggeredAnimations
    ensures ConfigFor(a).batchAnimations ==> ConfigFor(b).batchAnimations
    ensures ConfigFor(a).useSimplifiedEasing ==> ConfigFor(b).useSimplifiedEasing
  {
  }

  // ---------------------------------------------------------------------------
  // Tier steps
  // ---------------------------------------------------------------------------

  /** The tier `adjustPerformanceLevel` moves to: one step, saturating at either end. */
  function NextLevel(level: PerformanceLevel, increase: bool): (r: PerformanceLevel)
    ensures increase ==> r.Rank() == Max(level.Rank() - 1, 0)
    ensures !increase ==> r.Rank() == Min(level.Rank() + 1, 3)
  {
    if increase then
      match level
      case Critical => Low
      case Low => Medium
      case Medium => High
      case High => High
    else
      match level
      case High => Medium
      case Medium => Low
      case Low => Critical
      case Critical => Critical
  }

  /**
   * The functional update inside `adjustPerformanceLevel`: with a pin the
   * current configuration is kept; otherwise the table entry of the next tier
   * replaces it, but only when the tier actually changes.
   */
  function AdjustConfig(current: PerformanceConfig, pin: Option<PerformanceLevel>, increase: bool): (r: PerformanceConfig)
    ensures pin.Some? ==> r == current
    ensures pin.None? && !increase ==> r.level.Rank() == Min(current.level.Rank() + 1, 3)
    ensures pin.None? && increase ==> r.level.Rank() == Max(current.level.Rank() - 1, 0)
    ensures r.level == current.level ==> r == current
    ensures r.level != current.level ==> FromTable(r)
  {
    if pin.Some? then current
    else
      var next := NextLevel(current.level, increase);
      if next != current.level then ConfigFor(next) else current
  }

  // ---------------------------------------------------------------------------
  // Hook state
  // ---------------------------------------------------------------------------

  /**
   * The hook's state: the active configuration, the user pin
   * (`userOverrideLevel`), the drop counter, whether the frame loop runs,
   * whether an after-interactions start is pending, and whether the settings
   * effect left a cleanup that stops monitoring.
   */
  datatype Monitor = Monitor(
    config: PerformanceConfig,
    pin: Option<PerformanceLevel>,
    frameDropCount: nat,
    monitoring: bool,
    startPending: bool,
    stopOnCleanup: bool)

  /** The state before any effect has run: the HIGH entry, no pin, idle. */
  function Fresh(): (m: Monitor)
    ensures FromTable(m.config) && m.config.level == High
    ensures m.pin.None? && !m.monitoring && m.frameDropCount == 0
  {
    Monitor(ConfigFor(High), None, 0, false, false, false)
  }

  /** The static device heuristic: MEDIUM on Android, HIGH elsewhere. */
  function DefaultLevel(os: Platform): (l: PerformanceLevel)
    ensures l == Medium <==> os == Android
    ensures l == High <==> os != Android
  {
    if os == Android then Medium else High
  }

  /**
   * The settings effect, run on mount and whenever the stored
   * `performanceLevel` changes: the previous run's cleanup (if any) stops the
   * frame loop; a stored level pins that tier and its table entry and schedules
   * nothing; otherwise the platform default tier is installed and a monitoring
   * start is scheduled for after interactions. The pin is never cleared.
   */
  function ApplyStoredLevel(m: Monitor, stored: Option<PerformanceLevel>, os: Platform): (r: Monitor)
    ensures stored.Some? ==> r.pin == stored && r.config == ConfigFor(stored.value)
    ensures stored.Some? ==> !r.stopOnCleanup && r.startPending == m.startPending
    ensures stored.None? ==> r.config == ConfigFor(DefaultLevel(os)) && r.startPending && r.stopOnCleanup
    ensures stored.None? ==> r.pin == m.pin
    ensures m.stopOnCleanup ==> !r.monitoring
    ensures !m.stopOnCleanup ==> r.monitoring == m.monitoring
    ensures r.frameDropCount == m.frameDropCount
  {
    var afterCleanup := if m.stopOnCleanup then m.(monitoring := false) else m;
    match stored
    case Some(level) =>
      afterCleanup.(pin := Some(level), config := ConfigFor(level), stopOnCleanup := false)
    case None =>
      afterCleanup.(config := ConfigFor(DefaultLevel(os)), startPending := true, stopOnCleanup := true)
  }

  /** `startPerformanceMonitoring`: a no-op while the loop already runs; otherwise start it with a zero counter. */
  function StartMonitoring(m: Monitor): (r: Monitor)
    ensures m.monitoring ==> r == m
    ensures !m.monitoring ==> r == m.(monitoring := true, frameDropCount := 0)
  {
    if m.monitoring then m else m.(monitoring := true, frameDropCount := 0)
  }

  /** InteractionManager reports that pending interactions have settled: a scheduled start runs. */
  function InteractionsSettled(m: Monitor): (r: Monitor)
    ensures !m.startPending ==> r == m
    ensures m.startPending ==> !r.startPending && r.monitoring
    ensures r.config == m.config && r.pin == m.pin
  {
    if m.startPending then StartMonitoring(m.(startPending := false)) else m
  }

  /** `stopPerformanceMonitoring`. */
  function StopMonitoring(m: Monitor): (r: Monitor)
    ensures !r.monitoring && r.config == m.config && r.pin == m.pin
  {
    m.(monitoring := false)
  }

  /** A render tick slower than 20 ms counts as a dropped frame. */
  predicate IsDrop(delta: int)
  {
    delta > 20
  }

  /**
   * One requestAnimationFrame tick of `monitorFrameRate`, `delta` milliseconds
   * after the previous one. Once more than ten drops have accumulated and
   * nothing is pinned, the tier goes down once and the counter restarts.
   */
  function Tick(m: Monitor, delta: int): (r: Monitor)
    ensures !m.monitoring ==> r == m
    ensures r.pin == m.pin && r.monitoring == m.monitoring
    ensures m.pin.Some? ==> r.config == m.config
    ensures r.config.level.Rank() == m.config.level.Rank() || r.config.level.Rank() == m.config.level.Rank() + 1
    ensures FromTable(m.config) ==> FromTable(r.config)
  {
    if !m.monitoring then m
    else
      var count := m.frameDropCount + (if IsDrop(delta) then 1 else 0);
      if count > 10 && m.pin.None? then
        m.(config := AdjustConfig(m.config, m.pin, false), frameDropCount := 0)
      else
        m.(frameDropCount := count)
  }

  /** The monitor after a run of ticks. */
  function Run(m: Monitor, deltas: seq<int>): Monitor
    decreases |deltas|
  {
    if |deltas| == 0 then m else Run(Tick(m, deltas[0]), deltas[1..])
  }

  function Drops(deltas: seq<int>): nat
  {
    CountWhere(deltas, IsDrop)
  }

  /**
   * Eleven dropped frames buy exactly one downgrade: after any run of ticks
   * with the loop running and nothing pinned, the tier has gone down by the
   * number of completed groups of eleven drops (stopping at CRITICAL) and the
   * counter holds the remainder. Ticks that are not drops change nothing but
   * the counter's progress.
   */
  lemma {:induction false} DowngradeEveryElevenDrops(m: Monitor, deltas: seq<int>)
    requires m.monitoring && m.pin.None? && m.frameDropCount <= 10
    ensures Run(m, deltas).config.level.Rank() == Min(m.config.level.Rank() + (m.frameDropCount + Drops(deltas)) / 11, 3)
    ensures Run(m, deltas).frameDropCount == (m.frameDropCount + Drops(deltas)) % 11
    decreases |deltas|
  {
    if |deltas| > 0 {
      var next := Tick(m, deltas[0]);
      DowngradeEveryElevenDrops(next, deltas[1..]);
      assert Drops(deltas) == (if IsDrop(deltas[0]) then 1 else 0) + Drops(deltas[1..]);
      if IsDrop(deltas[0]) && m.frameDropCount == 10 {
        assert next.frameDropCount == 0;
        assert next.config.level.Rank() == Min(m.config.level.Rank() + 1, 3);
      } else {
        assert next.config == m.config;
      }
    }
  }

  /** While a tier is pinned, no run of frames, however slow, changes the configuration. */
  lemma {:induction false} PinnedTierIsStable(m: Monitor, deltas: seq<int>)
    requires m.pin.Some?
    ensures Run(m, deltas).config == m.config
    decreases |deltas|
  {
    if |deltas| > 0 {
      PinnedTierIsStable(Tick(m, deltas[0]), deltas[1..]);
    }
  }

  /** The automatic controller only ever goes down the tiers. */
  lemma {:induction false} NeverUpgrades(m: Monitor, deltas: seq<int>)
    ensures Run(m, deltas).config.level.Rank() >= m.config.level.Rank()
    ensures FromTable(m.config) ==> FromTable(Run(m, deltas).config)
    decreases |deltas|
  {
    if |deltas| > 0 {
      NeverUpgrades(Tick(m, deltas[0]), deltas[1..]);
    }
  }

  /** `setPerformanceLevel`: pin the tier and install its table entry. */
  function SetPerformanceLevel(m: Monitor, level: PerformanceLevel): (r: Monitor)
    ensures r.pin == Some(level) && FromTable(r.config) && r.config.level == level
    ensures r.frameDropCount == m.frameDropCount && r.monitoring == m.monitoring
  {
    m.(pin := Some(level), config := ConfigFor(level))
  }

  /** Scenario: pinning MEDIUM survives a burst of twenty dropped frames. */
  lemma PinSurvivesDropBurst(m: Monitor, deltas: seq<int>)
    requires |deltas| == 20 && forall i :: 0 <= i < 20 ==> IsDrop(deltas[i])
    ensures Run(SetPerformanceLevel(m, Medium), deltas).config == ConfigFor(Medium)
  {
    PinnedTierIsStable(SetPerformanceLevel(m, Medium), deltas);
  }

  // ---------------------------------------------------------------------------
  // Using the configuration
  // ---------------------------------------------------------------------------

  /** `getOptimizedParticleCount`: the requested count capped by the tier. */
  function OptimizedParticleCount(config: PerformanceConfig, desired: int): (r: int)
    ensures r <= desired && r <= config.maxParticleCount
    ensures r == desired || r == config.maxParticleCount
  {
    Min(desired, config.maxParticleCount)
  }

  lemma CriticalAllowsNoParticles(desired: int)
    requires desired >= 0
    ensures OptimizedParticleCount(ConfigFor(Critical), desired) == 0
  {
  }

  datatype Composition = ParallelKind | SequenceKind | StaggerKind

  /** The defaults of `createOptimizedAnimation`'s optional arguments. */
  const DefaultComposition := ParallelKind
  const DefaultStaggerMs := 100.0

  /**
   * `createOptimizedAnimation`: under CRITICAL a batch of more than one
   * animation is cut to its first member; otherwise the requested combinator
   * (parallel when left out) wraps the batch, except that a stagger the tier
   * does not allow runs in parallel. The stagger gap is 100 ms when left out.
   */
  function CreateOptimizedAnimation(config: PerformanceConfig, anims: seq<Anim>, kind: Option<Composition>, staggerMs: Option<real>): (r: Anim)
    ensures config.level == Critical && |anims| > 1 ==> r == anims[0]
    ensures !(config.level == Critical && |anims| > 1) ==>
      && r.IsGroup() && r.members == anims
      && (r.Sequence? <==> kind == Some(SequenceKind))
      && (r.Stagger? <==> kind == Some(StaggerKind) && config.useStaggeredAnimations)
      && (r.Stagger? ==> r.gap == staggerMs.GetOr(DefaultStaggerMs))
  {
    var k := kind.GetOr(DefaultComposition);
    if config.level == Critical && |anims| > 1 then anims[0]
    else if k == StaggerKind && !config.useStaggeredAnimations then Parallel(anims)
    else
      match k
      case SequenceKind => Sequence(anims)
      case StaggerKind => Stagger(staggerMs.GetOr(DefaultStaggerMs), anims)
      case ParallelKind => Parallel(anims)
  }

  /**
   * What the created animation drives: the whole batch, except under
   * CRITICAL, where only the first member of a larger batch runs.
   */
  lemma CreatedDrivesBatch(config: PerformanceConfig, anims: seq<Anim>, kind: Option<Composition>, staggerMs: Option<real>)
    ensures var r := CreateOptimizedAnimation(config, anims, kind, staggerMs);
      Props(r) == if config.level == Critical && |anims| > 1 then Props(anims[0]) else BatchProps(anims)
    ensures Props(CreateOptimizedAnimation(config, anims, kind, staggerMs)) <= BatchProps(anims)
  {
    var r := CreateOptimizedAnimation(config, anims, kind, staggerMs);
    if config.level == Critical && |anims| > 1 {
      GroupProps(anims, Parallel(anims));
    } else {
      GroupProps(anims, r);
      assert Props(r) == PropsOf(anims, r);
    }
  }

  /** How `runOptimizedAnimations` starts a batch: in parallel, now or after pending interactions. */
  datatype Dispatch = Dispatch(group: Anim, afterInteractions: bool)

  function RunOptimizedAnimations(config: PerformanceConfig, anims: seq<Anim>): (r: Dispatch)
    ensures r.group == Parallel(anims)
    ensures r.afterInteractions <==> config.batchAnimations
    ensures FromTable(config) ==> (r.afterInteractions <==> config.level != High)
  {
    Dispatch(Parallel(anims), config.batchAnimations)
  }

  /**
   * Unlike `createOptimizedAnimation`, running a batch never drops a member,
   * whatever the tier: it starts what the default composition starts
   * outside CRITICAL, and drives every property of the batch.
   */
  lemma RunStartsWholeBatch(config: PerformanceConfig, anims: seq<Anim>)
    ensures Props(RunOptimizedAnimations(config, anims).group) == BatchProps(anims)
    ensures config.level != Critical || |anims| <= 1 ==>
      RunOptimizedAnimations(config, anims).group == CreateOptimizedAnimation(config, anims, None, None)
  {
    var g := RunOptimizedAnimations(config, anims).group;
    GroupProps(anims, g);
  }
}
