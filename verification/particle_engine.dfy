/**
 * The performance-aware particle system of
 * src/components/OptimizedParticleSystem.tsx: the gate that renders nothing
 * when animations are off or the tier allows no particles, particle
 * generation from palettes and random draws, the per-type choice of animated
 * channels, the single-run guard and the teardown that stops every stored
 * animation.
 *
 * Each `Math.random()` call becomes a draw in [0, 1) passed in by the caller;
 * cosine and sine are functions supplied by the caller with values in [-1, 1].
 */
module ParticleEngine {

  import opened Common
  import opened Animation
  import opened Performance

  datatype ParticleType = Confetti | Explosion | Sparkle | OtherType

  datatype Shape = Circle | Square | Triangle

  /** Math.PI. */
  const Pi: real := 3.141592653589793

  /** `getColors`: the palette of each effect. */
  function Palette(t: ParticleType): (p: seq<string>)
    ensures |p| == (match t case Confetti => 6 case Explosion => 5 case Sparkle => 5 case OtherType => 1)
    ensures t == OtherType ==> p == ["#ffffff"]
  {
    match t
    case Confetti => ["#ff4d4d", "#4d94ff", "#4dff4d", "#ffff4d", "#ff4dff", "#4dffff"]
    case Explosion => ["#ff6b4d", "#ff894d", "#ffaa4d", "#ffd04d", "#ffe74d"]
    case Sparkle => ["#ffffff", "#f0f0f0", "#e0e0e0", "#ffff99", "#ffe0b3"]
    case OtherType => ["#ffffff"]
  }

  const Shapes: seq<Shape> := [Circle, Square, Triangle]

  /** A random draw: a value of Math.random(). */
  predicate IsDraw(r: real)
  {
    0.0 <= r < 1.0
  }

  /** `Math.floor(r * n)`: a uniformly chosen index of an n-element list. */
  function PickIndex(r: real, n: nat): (i: nat)
    requires IsDraw(r) && n > 0
    ensures i < n
    ensures i as real <= r * n as real < i as real + 1.0
  {
    ScaledDrawBelow(r, n);
    (r * n as real).Floor
  }

  /** A draw scaled by n lies in [0, n). */
  lemma ScaledDrawBelow(r: real, n: nat)
    requires IsDraw(r) && n > 0
    ensures 0.0 <= r * n as real < n as real
  {
    assert n as real - r * n as real == (1.0 - r) * n as real;
    assert (1.0 - r) * n as real > 0.0;
  }

  datatype Particle = Particle(id: nat, color: string, size: real, shape: Shape)

  /** The three draws `generateParticles` makes for one particle, in call order. */
  datatype LookDraws = LookDraws(color: real, size: real, shape: real)

  predicate LookDrawsOk(d: LookDraws)
  {
    IsDraw(d.color) && IsDraw(d.size) && IsDraw(d.shape)
  }

  /** Particle number i of a freshly generated batch. */
  function MakeParticle(t: ParticleType, i: nat, d: LookDraws): (p: Particle)
    requires LookDrawsOk(d)
    ensures p.id == i && p.color in Palette(t) && 4.0 <= p.size < 10.0
  {
    var colors := Palette(t);
    Particle(i, colors[PickIndex(d.color, |colors|)], d.size * 6.0 + 4.0, Shapes[PickIndex(d.shape, |Shapes|)])
  }

  /**
   * `generateParticles`: exactly `count` particles (none for a non-positive
   * count), numbered from 0, particle i built from the i-th set of draws.
   */
  method GenerateParticles(t: ParticleType, count: int, draws: seq<LookDraws>) returns (ps: seq<Particle>)
    requires count <= |draws|
    requires forall i :: 0 <= i < |draws| ==> LookDrawsOk(draws[i])
    ensures |ps| == Max(count, 0)
    ensures forall i :: 0 <= i < |ps| ==> ps[i] == MakeParticle(t, i, draws[i])
    ensures forall i :: 0 <= i < |ps| ==> ps[i].id == i && ps[i].color in Palette(t) && 4.0 <= ps[i].size < 10.0
  {
    ps := [];
    var i := 0;
    while i < count
      invariant 0 <= i == |ps| <= Max(count, 0)
      invariant forall k :: 0 <= k < i ==> ps[k] == MakeParticle(t, k, draws[k])
    {
      ps := ps + [MakeParticle(t, i, draws[i])];
      i := i + 1;
    }
  }

  /** The five draws `createParticleAnimations` makes, in call order; the speed draw is made but never used. */
  datatype MotionDraws = MotionDraws(angle: real, speed: real, rotation: real, spreadX: real, spreadY: real)

  predicate MotionDrawsOk(m: MotionDraws)
  {
    IsDraw(m.angle) && IsDraw(m.speed) && IsDraw(m.rotation) && IsDraw(m.spreadX) && IsDraw(m.spreadY)
  }

  ghost predicate IsTrig(f: real -> real)
  {
    forall x :: -1.0 <= f(x) <= 1.0
  }

  function TravelDistance(t: ParticleType): real
  {
    if t == Explosion then 150.0 else 100.0
  }

  /** The end offsets (endX, endY) before the sparkle damping. */
  function EndOffset(t: ParticleType, m: MotionDraws, cos: real -> real, sin: real -> real): (r: (real, real))
  {
    var angle := m.angle * Pi * 2.0;
    (cos(angle) * TravelDistance(t) * (m.spreadX + 0.5), sin(angle) * TravelDistance(t) * (m.spreadY + 0.5))
  }

  /** The spread factor lies in [0.5, 1.5), so a particle travels at most one and a half times its distance per axis. */
  lemma EndOffsetBounded(t: ParticleType, m: MotionDraws, cos: real -> real, sin: real -> real)
    requires MotionDrawsOk(m) && IsTrig(cos) && IsTrig(sin)
    ensures var (ex, ey) := EndOffset(t, m, cos, sin);
      && -1.5 * TravelDistance(t) <= ex <= 1.5 * TravelDistance(t)
      && -1.5 * TravelDistance(t) <= ey <= 1.5 * TravelDistance(t)
  {
    var angle := m.angle * Pi * 2.0;
    var d := TravelDistance(t);
    BoundedProduct(cos(angle), d * (m.spreadX + 0.5), 1.5 * d);
    BoundedProduct(sin(angle), d * (m.spreadY + 0.5), 1.5 * d);
    assert cos(angle) * d * (m.spreadX + 0.5) == cos(angle) * (d * (m.spreadX + 0.5));
    assert sin(angle) * d * (m.spreadY + 0.5) == sin(angle) * (d * (m.spreadY + 0.5));
  }

  lemma BoundedProduct(c: real, x: real, bound: real)
    requires -1.0 <= c <= 1.0 && 0.0 <= x <= bound
    ensures -bound <= c * x <= bound
  {
    if c >= 0.0 {
      assert c * x <= 1.0 * x;
    } else {
      assert (-c) * x <= 1.0 * x;
    }
  }

  /** A native-driver timing of one channel of particle `id`. */
  function Channel(id: nat, prop: Prop, toValue: real, duration: real, delay: real, easing: Easing): Anim
  {
    Timing(Target(id, prop), toValue, duration, delay, easing, true)
  }

  /** A two-step channel: to `peak`, then back to 0. */
  function Pulse(id: nat, prop: Prop, peak: real, up: real, upEasing: Easing,
                 down: real, downDelay: real, downEasing: Easing): Anim
  {
    Sequence([Channel(id, prop, peak, up, 0.0, upEasing), Channel(id, prop, 0.0, down, downDelay, downEasing)])
  }

  /**
   * `createParticleAnimations` for particle `id` with tier flags `config`.
   * Every variant runs its channels in parallel; the simplified one is chosen
   * exactly when the tier asks for simplified easing.
   */
  function ParticleAnimation(t: ParticleType, config: PerformanceConfig, d: real, id: nat,
                             m: MotionDraws, cos: real -> real, sin: real -> real): (r: Anim)
    ensures r.Parallel?
    ensures t == OtherType <==> r.members == []
  {
    var (ex, ey) := EndOffset(t, m, cos, sin);
    var spin := m.rotation * 10.0 - 5.0;
    var simple := config.useSimplifiedEasing;
    match t
    case Confetti =>
      var ease := if simple then Linear else Bezier(0.215, 0.61, 0.355, 1.0);
      Parallel([
        Channel(id, PosX, ex, d, 0.0, ease),
        Channel(id, PosY, ey, d, 0.0, ease),
        Channel(id, Rotation, spin, d, 0.0, ease),
        Pulse(id, Scale, 1.0, d * 0.2, if simple then LibraryDefault else Out(Back(1.5)),
              d * 0.8, d * 0.4, if simple then LibraryDefault else In(Cubic)),
        Pulse(id, Opacity, 1.0, d * 0.1, LibraryDefault,
              d * 0.3, d * 0.6, if simple then LibraryDefault else In(Quad))])
    case Explosion =>
      if simple then
        Parallel([
          Channel(id, PosX, ex, d, 0.0, Linear),
          Channel(id, PosY, ey, d, 0.0, Linear),
          Pulse(id, Scale, 1.0, d * 0.3, LibraryDefault, d * 0.7, 0.0, LibraryDefault),
          Pulse(id, Opacity, 1.0, d * 0.2, LibraryDefault, d * 0.6, d * 0.2, LibraryDefault)])
      else
        Parallel([
          Channel(id, PosX, ex, d, 0.0, Out(Exp)),
          Channel(id, PosY, ey, d, 0.0, Out(Exp)),
          Channel(id, Rotation, spin * 2.0, d, 0.0, Out(Exp)),
          Pulse(id, Scale, 1.5, d * 0.3, Out(Back(1.2)), d * 0.7, 0.0, In(Cubic)),
          Pulse(id, Opacity, 1.0, d * 0.2, LibraryDefault, d * 0.6, d * 0.2, In(Quad))])
    case Sparkle =>
      if simple then
        Parallel([
          Channel(id, PosX, ex * 0.7, d, 0.0, Linear),
          Channel(id, PosY, ey * 0.7, d, 0.0, Linear),
          Pulse(id, Scale, 0.8, d * 0.5, LibraryDefault, d * 0.5, 0.0, LibraryDefault),
          Pulse(id, Opacity, 0.8, d * 0.3, LibraryDefault, d * 0.7, 0.0, LibraryDefault)])
      else
        var ease := Bezier(0.25, 0.46, 0.45, 0.94);
        Parallel([
          Channel(id, PosX, ex * 0.7, d, 0.0, ease),
          Channel(id, PosY, ey * 0.7, d, 0.0, ease),
          Channel(id, Rotation, spin * 0.5, d, 0.0, ease),
          Pulse(id, Scale, 1.2, d * 0.2, Out(Back(1.5)), d * 0.8, 0.0, In(Cubic)),
          Pulse(id, Opacity, 1.0, d * 0.2, LibraryDefault, d * 0.7, d * 0.1, In(Quad))])
    case OtherType => Parallel([])
  }

  /** The channels each variant is meant to animate. */
  function ExpectedChannels(t: ParticleType, simplified: bool): set<Prop>
  {
    if t == OtherType then {}
    else if simplified && t != Confetti then {PosX, PosY, Scale, Opacity}
    else {PosX, PosY, Rotation, Scale, Opacity}
  }

  lemma PropsOfPulse(id: nat, prop: Prop, peak: real, up: real, ue: Easing, down: real, dd: real, de: Easing)
    ensures Props(Pulse(id, prop, peak, up, ue, down, dd, de)) == {prop}
  {
    var p := Pulse(id, prop, peak, up, ue, down, dd, de);
    var ms := p.members;
    assert ms[1..][1..] == [];
    assert Props(p) == Props(ms[0]) + PropsOf(ms[1..], p);
    assert PropsOf(ms[1..], p) == Props(ms[1]) + PropsOf(ms[1..][1..], p);
  }

  lemma PropsOfFour(a: Anim, b: Anim, c: Anim, e: Anim)
    ensures Props(Parallel([a, b, c, e])) == Props(a) + Props(b) + Props(c) + Props(e)
  {
    var p := Parallel([a, b, c, e]);
    var ms := p.members;
    assert PropsOf(ms[1..], p) == Props(b) + PropsOf(ms[2..], p);
    assert PropsOf(ms[2..], p) == Props(c) + PropsOf(ms[3..], p);
    assert PropsOf(ms[3..], p) == Props(e) + PropsOf(ms[4..], p);
  }

  lemma PropsOfFive(a: Anim, b: Anim, c: Anim, e: Anim, f: Anim)
    ensures Props(Parallel([a, b, c, e, f])) == Props(a) + Props(b) + Props(c) + Props(e) + Props(f)
  {
    var p := Parallel([a, b, c, e, f]);
    var ms := p.members;
    assert PropsOf(ms[1..], p) == Props(b) + PropsOf(ms[2..], p);
    assert PropsOf(ms[2..], p) == Props(c) + PropsOf(ms[3..], p);
    assert PropsOf(ms[3..], p) == Props(e) + PropsOf(ms[4..], p);
    assert PropsOf(ms[4..], p) == Props(f) + PropsOf(ms[5..], p);
  }

  /**
   * Channel selection: simplified explosions and sparkles leave rotation
   * alone; every other variant of the three effects drives position,
   * rotation, scale and opacity; an unrecognised type drives nothing.
   */
  lemma {:induction false} ChannelSelection(t: ParticleType, config: PerformanceConfig, d: real, id: nat,
                                            m: MotionDraws, cos: real -> real, sin: real -> real)
    ensures Props(ParticleAnimation(t, config, d, id, m, cos, sin)) == ExpectedChannels(t, config.useSimplifiedEasing)
  {
    var r := ParticleAnimation(t, config, d, id, m, cos, sin);
    if t == OtherType {
      assert r.members == [];
    } else if |r.members| == 4 {
      var ms := r.members;
      PropsOfPulse(id, Scale, ms[2].members[0].toValue, ms[2].members[0].duration, ms[2].members[0].easing,
                   ms[2].members[1].duration, ms[2].members[1].delay, ms[2].members[1].easing);
      PropsOfPulse(id, Opacity, ms[3].members[0].toValue, ms[3].members[0].duration, ms[3].members[0].easing,
                   ms[3].members[1].duration, ms[3].members[1].delay, ms[3].members[1].easing);
      PropsOfFour(ms[0], ms[1], ms[2], ms[3]);
    } else {
      var ms := r.members;
      PropsOfPulse(id, Scale, ms[3].members[0].toValue, ms[3].members[0].duration, ms[3].members[0].easing,
                   ms[3].members[1].duration, ms[3].members[1].delay, ms[3].members[1].easing);
      PropsOfPulse(id, Opacity, ms[4].members[0].toValue, ms[4].members[0].duration, ms[4].members[0].easing,
                   ms[4].members[1].duration, ms[4].members[1].delay, ms[4].members[1].easing);
      PropsOfFive(ms[0], ms[1], ms[2], ms[3], ms[4]);
    }
  }

  lemma EndOfPulse(id: nat, prop: Prop, peak: real, up: real, ue: Easing, down: real, dd: real, de: Easing)
    ensures EndTime(Pulse(id, prop, peak, up, ue, down, dd, de)) == Some(up + dd + down)
  {
    var p := Pulse(id, prop, peak, up, ue, down, dd, de);
    var ms := p.members;
    assert ms[1..][1..] == [];
    assert EndTime(ms[0]) == Some(0.0 + up) && EndTime(ms[1]) == Some(dd + down);
    assert SumEnd(ms[1..][1..], p) == Some(0.0);
    assert SumEnd(ms[1..], p) == Some(dd + down + 0.0);
    assert SumEnd(ms, p) == Some(0.0 + up + (dd + down + 0.0));
  }

  /** The later of two end times, as a parallel group settles them. */
  function Later(x: real, y: real): (r: real)
    ensures r >= x && r >= y && (r == x || r == y)
  {
    if x >= y then x else y
  }

  /** A parallel group whose members end at most at `latest`, one of them exactly then, ends at `latest`. */
  lemma EndOfParallel(p: Anim, ends: seq<real>, latest: real)
    requires p.Parallel? && |ends| == |p.members|
    requires forall i :: 0 <= i < |ends| ==> 0.0 <= ends[i] <= latest && EndTime(p.members[i]) == Some(ends[i])
    requires exists i :: 0 <= i < |ends| && ends[i] == latest
    ensures EndTime(p) == Some(latest)
  {
    LatestEndIs(p.members, ends, p);
  }

  /** The latest of a list of non-negative end times, 0 for none. */
  function LatestOf(ends: seq<real>): (r: real)
    ensures r >= 0.0
    ensures forall i :: 0 <= i < |ends| ==> ends[i] <= r
    ensures r == 0.0 || exists i :: 0 <= i < |ends| && ends[i] == r
  {
    if |ends| == 0 then 0.0
    else
      var rest := LatestOf(ends[1..]);
      assert forall i :: 1 <= i < |ends| ==> ends[i] == ends[1..][i - 1];
      Later(ends[0], rest)
  }

  lemma {:induction false} LatestEndIs(ms: seq<Anim>, ends: seq<real>, parent: Anim)
    requires forall m :: m in ms ==> m < parent
    requires |ends| == |ms|
    requires forall i :: 0 <= i < |ends| ==> ends[i] >= 0.0 && EndTime(ms[i]) == Some(ends[i])
    ensures LatestEnd(ms, 0.0, 0.0, parent) == Some(LatestOf(ends))
    decreases |ms|
  {
    if |ms| > 0 {
      assert forall m :: m in ms[1..] ==> m in ms;
      assert ms[0] in ms;
      LatestEndIs(ms[1..], ends[1..], parent);
      assert EndTime(ms[0]) == Some(ends[0]);
    }
  }

  lemma ConfettiEndTime(config: PerformanceConfig, d: real, id: nat, m: MotionDraws, cos: real -> real, sin: real -> real)
    requires d >= 0.0
    ensures EndTime(ParticleAnimation(Confetti, config, d, id, m, cos, sin)) == Some(1.4 * d)
  {
    var r := ParticleAnimation(Confetti, config, d, id, m, cos, sin);
    var ms := r.members;
    EndOfPulse(id, Scale, 1.0, d * 0.2, ms[3].members[0].easing, d * 0.8, d * 0.4, ms[3].members[1].easing);
    EndOfPulse(id, Opacity, 1.0, d * 0.1, LibraryDefault, d * 0.3, d * 0.6, ms[4].members[1].easing);
    var ends := [d, d, d, 1.4 * d, d];
    assert ends[3] == 1.4 * d;
    EndOfParallel(r, ends, 1.4 * d);
  }

  lemma ExplosionEndTime(config: PerformanceConfig, d: real, id: nat, m: MotionDraws, cos: real -> real, sin: real -> real)
    requires d >= 0.0
    ensures EndTime(ParticleAnimation(Explosion, config, d, id, m, cos, sin)) == Some(d)
  {
    var r := ParticleAnimation(Explosion, config, d, id, m, cos, sin);
    if config.useSimplifiedEasing {
      EndOfPulse(id, Scale, 1.0, d * 0.3, LibraryDefault, d * 0.7, 0.0, LibraryDefault);
      EndOfPulse(id, Opacity, 1.0, d * 0.2, LibraryDefault, d * 0.6, d * 0.2, LibraryDefault);
      var ends := [d, d, d, d];
      assert ends[0] == d;
      EndOfParallel(r, ends, d);
    } else {
      EndOfPulse(id, Scale, 1.5, d * 0.3, Out(Back(1.2)), d * 0.7, 0.0, In(Cubic));
      EndOfPulse(id, Opacity, 1.0, d * 0.2, LibraryDefault, d * 0.6, d * 0.2, In(Quad));
      var ends := [d, d, d, d, d];
      assert ends[0] == d;
      EndOfParallel(r, ends, d);
    }
  }

  lemma SparkleEndTime(config: PerformanceConfig, d: real, id: nat, m: MotionDraws, cos: real -> real, sin: real -> real)
    requires d >= 0.0
    ensures EndTime(ParticleAnimation(Sparkle, config, d, id, m, cos, sin)) == Some(d)
  {
    var r := ParticleAnimation(Sparkle, config, d, id, m, cos, sin);
    if config.useSimplifiedEasing {
      EndOfPulse(id, Scale, 0.8, d * 0.5, LibraryDefault, d * 0.5, 0.0, LibraryDefault);
      EndOfPulse(id, Opacity, 0.8, d * 0.3, LibraryDefault, d * 0.7, 0.0, LibraryDefault);
      var ends := [d, d, d, d];
      assert ends[0] == d;
      EndOfParallel(r, ends, d);
    } else {
      EndOfPulse(id, Scale, 1.2, d * 0.2, Out(Back(1.5)), d * 0.8, 0.0, In(Cubic));
      EndOfPulse(id, Opacity, 1.0, d * 0.2, LibraryDefault, d * 0.7, d * 0.1, In(Quad));
      var ends := [d, d, d, d, d];
      assert ends[0] == d;
      EndOfParallel(r, ends, d);
    }
  }

  /**
   * How long one particle's animation runs: confetti shrinks last, after
   * 1.4 times the duration; explosions and sparkles finish with the
   * duration; an unrecognised type finishes at once.
   */
  lemma ParticleEndTime(t: ParticleType, config: PerformanceConfig, d: real, id: nat,
                        m: MotionDraws, cos: real -> real, sin: real -> real)
    requires d >= 0.0
    ensures EndTime(ParticleAnimation(t, config, d, id, m, cos, sin))
      == Some(match t case Confetti => 1.4 * d case OtherType => 0.0 case _ => d)
  {
    match t
    case Confetti => ConfettiEndTime(config, d, id, m, cos, sin);
    case Explosion => ExplosionEndTime(config, d, id, m, cos, sin);
    case Sparkle => SparkleEndTime(config, d, id, m, cos, sin);
    case OtherType =>
  }

  // ---------------------------------------------------------------------------
  // The component
  // ---------------------------------------------------------------------------

  /**
   * The count and animation gate: the requested count (50 when absent) capped
   * by the tier; with animations off or a zero count the component is inert.
   */
  function EffectiveCount(config: PerformanceConfig, requested: Option<int>): (n: int)
    ensures n <= requested.GetOr(50) && n <= config.maxParticleCount
    ensures n == requested.GetOr(50) || n == config.maxParticleCount
  {
    OptimizedParticleCount(config, requested.GetOr(50))
  }

  predicate IsInert(animationsEnabled: bool, count: int)
  {
    !animationsEnabled || count == 0
  }

  /** An inert component renders nothing and reports completion once each time its effect sees `trigger` set. */
  function InertCompletions(trigger: bool, hasOnComplete: bool): (calls: nat)
    ensures calls == 1 <==> trigger && hasOnComplete
    ensures calls <= 1
  {
    if trigger && hasOnComplete then 1 else 0
  }

  /**
   * The gate over the component's inputs: it is inert exactly when animations
   * are off, the requested count (50 when left out) is zero, or the tier
   * allows no particles for a non-negative request.
   */
  lemma InertExactly(enabled: bool, config: PerformanceConfig, requested: Option<int>)
    requires config.maxParticleCount >= 0
    ensures IsInert(enabled, EffectiveCount(config, requested)) <==>
      !enabled || requested.GetOr(50) == 0 || (config.maxParticleCount == 0 && requested.GetOr(50) >= 0)
  {
  }

  lemma CriticalTierIsInert(requested: int, enabled: bool)
    requires requested >= 0
    ensures IsInert(enabled, EffectiveCount(ConfigFor(Critical), Some(requested)))
  {
  }

  /**
   * The live component: the run flag (`animationRunning`), the rendered flag
   * (`isActive`), the particles, the stored per-particle animations
   * (`activeAnimations`), the last group handed to the runtime, the number of
   * runs started and finished, and the onComplete calls made.
   */
  datatype Engine = Engine(
    running: bool,
    active: bool,
    particles: seq<Particle>,
    stored: seq<Anim>,
    started: Option<Anim>,
    runs: nat,
    finished: nat,
    completions: nat)

  const Mounted := Engine(false, false, [], [], None, 0, 0, 0)

  /** At most one run is ever in progress: every run but the current one has finished. */
  predicate OneRunAtATime(e: Engine)
  {
    e.runs == e.finished + (if e.running then 1 else 0) && (e.running ==> e.active)
  }

  /** The inputs one run needs besides the state: the effect, tier, duration, count and the draws. */
  datatype RunInputs = RunInputs(
    t: ParticleType, config: PerformanceConfig, duration: real, count: int,
    looks: seq<LookDraws>, motions: seq<MotionDraws>)

  predicate RunInputsOk(x: RunInputs)
  {
    && x.count <= |x.looks| && x.count <= |x.motions|
    && (forall i :: 0 <= i < |x.looks| ==> LookDrawsOk(x.looks[i]))
  }

  /** The component's optional props; None is a prop the caller left out. */
  datatype ComponentProps = ComponentProps(t: Option<ParticleType>, count: Option<int>, duration: Option<real>)

  const DefaultType := Confetti
  const DefaultDuration := 1500.0

  /**
   * The run inputs the props resolve to: confetti, 1500 ms and 50 particles
   * when left out, the count capped by the tier.
   */
  function InputsFor(props: ComponentProps, config: PerformanceConfig, looks: seq<LookDraws>, motions: seq<MotionDraws>): (x: RunInputs)
    ensures x.t == props.t.GetOr(DefaultType) && x.duration == props.duration.GetOr(DefaultDuration)
    ensures x.count == EffectiveCount(config, props.count) && x.config == config
    ensures x.looks == looks && x.motions == motions
  {
    RunInputs(props.t.GetOr(DefaultType), config, props.duration.GetOr(DefaultDuration),
              EffectiveCount(config, props.count), looks, motions)
  }

  /** With every prop left out, a run is 1500 ms of confetti with as many of 50 particles as the tier allows. */
  lemma DefaultProps(config: PerformanceConfig, looks: seq<LookDraws>, motions: seq<MotionDraws>)
    requires config.maxParticleCount >= 0
    ensures var x := InputsFor(ComponentProps(None, None, None), config, looks, motions);
      x.t == Confetti && x.duration == 1500.0 && x.count == Min(50, config.maxParticleCount)
  {
  }

  /**
   * `startAnimation`: ignored while a run is in progress; otherwise marks the
   * run, generates the particles, builds one animation per particle, stores
   * them and starts them as one group, staggered by 20 ms when the tier
   * allows it.
   */
  method StartAnimation(e: Engine, x: RunInputs, cos: real -> real, sin: real -> real) returns (r: Engine)
    requires RunInputsOk(x)
    ensures e.running ==> r == e
    ensures !e.running ==>
      && r.running && r.active && r.runs == e.runs + 1
      && r.finished == e.finished && r.completions == e.completions
      && |r.particles| == |r.stored| == Max(x.count, 0)
      && (forall i :: 0 <= i < |r.particles| ==> r.particles[i] == MakeParticle(x.t, i, x.looks[i]))
      && (forall i :: 0 <= i < |r.stored| ==>
            r.stored[i] == ParticleAnimation(x.t, x.config, x.duration, i, x.motions[i], cos, sin))
      && r.started == Some(CreateOptimizedAnimation(x.config, r.stored,
                             Some(if x.config.useStaggeredAnimations then StaggerKind else ParallelKind), Some(20.0)))
  {
    if e.running {
      return e;
    }
    var ps := GenerateParticles(x.t, x.count, x.looks);
    var anims: seq<Anim> := [];
    var i := 0;
    while i < |ps|
      invariant 0 <= i <= |ps| && |anims| == i
      invariant forall k :: 0 <= k < i ==> anims[k] == ParticleAnimation(x.t, x.config, x.duration, k, x.motions[k], cos, sin)
    {
      anims := anims + [ParticleAnimation(x.t, x.config, x.duration, ps[i].id, x.motions[i], cos, sin)];
      i := i + 1;
    }
    var kind := if x.config.useStaggeredAnimations then StaggerKind else ParallelKind;
    r := e.(running := true, active := true, particles := ps, stored := anims,
            started := Some(CreateOptimizedAnimation(x.config, anims, Some(kind), Some(20.0))), runs := e.runs + 1);
  }

  /** The group's completion callback: the run is over and onComplete, if given, is called. */
  function Complete(e: Engine, hasOnComplete: bool): (r: Engine)
    requires e.running
    ensures !r.running && !r.active && r.finished == e.finished + 1 && r.runs == e.runs
    ensures r.completions == e.completions + (if hasOnComplete then 1 else 0)
    ensures r.stored == e.stored && r.particles == e.particles
  {
    e.(running := false, active := false, finished := e.finished + 1,
       completions := e.completions + if hasOnComplete then 1 else 0)
  }

  /** The trigger effect: a set trigger starts a run unless one is already shown. */
  method OnTrigger(e: Engine, trigger: bool, x: RunInputs, cos: real -> real, sin: real -> real) returns (r: Engine)
    requires RunInputsOk(x)
    ensures !trigger || e.active || e.running ==> r == e
    ensures trigger && !e.active && !e.running ==> r.running && r.runs == e.runs + 1
    ensures r.completions == e.completions && r.finished == e.finished
  {
    if trigger && !e.active {
      r := StartAnimation(e, x, cos, sin);
    } else {
      r := e;
    }
  }

  /** Unmount stops every animation stored by the last run, in order. */
  function Unmount(e: Engine): (stopped: seq<Anim>)
    ensures |stopped| == |e.stored| && forall i :: 0 <= i < |stopped| ==> stopped[i] == e.stored[i]
  {
    e.stored
  }

  /**
   * Unmounting after a run has started stops exactly that run's per-particle
   * animations, one per particle in order, and still does after the run has
   * completed; before any run it stops nothing.
   */
  method UnmountStopsLastRun(e: Engine, x: RunInputs, cos: real -> real, sin: real -> real, hasOnComplete: bool)
    returns (stopped: seq<Anim>, stoppedAfterCompletion: seq<Anim>)
    requires RunInputsOk(x) && !e.running
    ensures |stopped| == Max(x.count, 0)
    ensures forall i :: 0 <= i < |stopped| ==>
      stopped[i] == ParticleAnimation(x.t, x.config, x.duration, i, x.motions[i], cos, sin)
    ensures stoppedAfterCompletion == stopped
    ensures Unmount(Mounted) == []
  {
    var started := StartAnimation(e, x, cos, sin);
    stopped := Unmount(started);
    stoppedAfterCompletion := Unmount(Complete(started, hasOnComplete));
  }

  /**
   * Whichever way the component renders, one trigger from idle calls
   * onComplete exactly once when it is given: at once when the gate makes the
   * component inert, at the end of the run otherwise.
   */
  method TriggerReportsOnce(e: Engine, enabled: bool, props: ComponentProps, config: PerformanceConfig,
                            looks: seq<LookDraws>, motions: seq<MotionDraws>,
                            cos: real -> real, sin: real -> real, hasOnComplete: bool)
    returns (calls: nat)
    requires RunInputsOk(InputsFor(props, config, looks, motions)) && !e.running && !e.active
    ensures calls == (if hasOnComplete then 1 else 0)
  {
    var x := InputsFor(props, config, looks, motions);
    if IsInert(enabled, x.count) {
      calls := InertCompletions(true, hasOnComplete);
    } else {
      var started := OnTrigger(e, true, x, cos, sin);
      var done := Complete(started, hasOnComplete);
      calls := done.completions - e.completions;
    }
  }

  /** Start, complete and retrigger never let two runs overlap. */
  lemma OneRunAtATimeHolds(e: Engine, hasOnComplete: bool)
    ensures OneRunAtATime(Mounted)
    ensures OneRunAtATime(e) && e.running ==> OneRunAtATime(Complete(e, hasOnComplete))
  {
  }

  method StartKeepsOneRun(e: Engine, x: RunInputs, cos: real -> real, sin: real -> real) returns (r: Engine)
    requires RunInputsOk(x) && OneRunAtATime(e)
    ensures OneRunAtATime(r)
    ensures r.runs <= r.finished + 1
  {
    r := StartAnimation(e, x, cos, sin);
  }
}
