/**
 * The simple particle system of src/components/ParticleSystem.tsx: the
 * palette choice, particle generation, the per-particle motion (spread,
 * speed, gravity, fade and scale) and the single-run guard with its teardown.
 * Random draws and the trigonometric functions come from the caller.
 */
module ParticleSystem {

  import opened Common
  import opened Animation
  import ParticleEngine

  type ParticleType = ParticleEngine.ParticleType

  /** The theme colours the palette draws on. */
  datatype ThemeColors = ThemeColors(primary: string, secondary: string, success: string, warning: string, error: string)

  /**
   * The palette: an explicit `colors` prop always wins, even an empty one;
   * otherwise four theme colours for confetti, three fiery ones for
   * explosions and three shades of the primary colour for anything else.
   */
  function Palette(colors: Option<seq<string>>, t: ParticleType, theme: ThemeColors): (p: seq<string>)
    ensures colors.Some? ==> p == colors.value
    ensures colors.None? ==> |p| == (if t == ParticleEngine.Confetti then 4 else 3)
    ensures colors.None? && t == ParticleEngine.Explosion ==> theme.error in p
    ensures colors.None? && t != ParticleEngine.Confetti && t != ParticleEngine.Explosion ==>
      forall c :: c in p ==> |c| >= |theme.primary| && c[..|theme.primary|] == theme.primary
  {
    match colors
    case Some(cs) => cs
    case None =>
      if t == ParticleEngine.Confetti then [theme.primary, theme.secondary, theme.success, theme.warning]
      else if t == ParticleEngine.Explosion then [theme.error, "#FF7D00", "#FFD700"]
      else [theme.primary + "80", theme.primary + "B0", theme.primary]
  }

  /**
   * A particle as generated: its number, its starting scale and opacity, and
   * its colour, which is undefined when the palette is empty.
   */
  datatype Particle = Particle(id: nat, scale: real, opacity: real, color: Option<string>)

  /** The two draws per particle, in evaluation order: the starting scale, then the colour. */
  datatype LookDraws = LookDraws(scale: real, color: real)

  predicate LookDrawsOk(d: LookDraws)
  {
    ParticleEngine.IsDraw(d.scale) && ParticleEngine.IsDraw(d.color)
  }

  function MakeParticle(t: ParticleType, palette: seq<string>, i: nat, d: LookDraws): (p: Particle)
    requires LookDrawsOk(d)
    ensures p.id == i && p.opacity == 1.0
    ensures t == ParticleEngine.Confetti ==> 0.8 <= p.scale < 1.2
    ensures t != ParticleEngine.Confetti ==> 0.5 <= p.scale < 1.0
    ensures p.color.Some? <==> |palette| > 0
    ensures p.color.Some? ==> p.color.value in palette
  {
    var scale := if t == ParticleEngine.Confetti then 0.8 + d.scale * 0.4 else 0.5 + d.scale * 0.5;
    var color := if |palette| == 0 then None else Some(palette[ParticleEngine.PickIndex(d.color, |palette|)]);
    Particle(i, scale, 1.0, color)
  }

  /** `generateParticles`: `count` particles numbered 0 .. count - 1, none for a non-positive count. */
  function Generate(t: ParticleType, palette: seq<string>, count: int, draws: seq<LookDraws>): (ps: seq<Particle>)
    requires count <= |draws|
    requires forall i :: 0 <= i < |draws| ==> LookDrawsOk(draws[i])
    ensures |ps| == Max(count, 0)
    ensures forall i :: 0 <= i < |ps| ==> ps[i] == MakeParticle(t, palette, i, draws[i])
    decreases Max(count, 0)
  {
    if count <= 0 then []
    else Generate(t, palette, count - 1, draws) + [MakeParticle(t, palette, count - 1, draws[count - 1])]
  }

  /** Every generated particle starts opaque, with a scale in its type's range and a palette colour. */
  lemma GeneratedParticlesInRange(t: ParticleType, palette: seq<string>, count: int, draws: seq<LookDraws>)
    requires count <= |draws| && |palette| > 0
    requires forall i :: 0 <= i < |draws| ==> LookDrawsOk(draws[i])
    ensures forall p :: p in Generate(t, palette, count, draws) ==>
      p.opacity == 1.0 && p.color.Some? && p.color.value in palette && 0.5 <= p.scale < 1.2
  {
    var ps := Generate(t, palette, count, draws);
    forall p | p in ps
      ensures p.opacity == 1.0 && p.color.Some? && p.color.value in palette && 0.5 <= p.scale < 1.2
    {
      var i :| 0 <= i < |ps| && ps[i] == p;
      assert p == MakeParticle(t, palette, i, draws[i]);
    }
  }

  /**
   * The draws `createParticleAnimation` makes, in order: the angle offset,
   * the full-circle angle (drawn only for non-confetti types), the speed,
   * the two distance factors and the rotation.
   */
  datatype MotionDraws = MotionDraws(offset: real, angle: real, speed: real, spreadX: real, spreadY: real, rotation: real)

  predicate MotionDrawsOk(m: MotionDraws)
  {
    && ParticleEngine.IsDraw(m.offset) && ParticleEngine.IsDraw(m.angle) && ParticleEngine.IsDraw(m.speed)
    && ParticleEngine.IsDraw(m.spreadX) && ParticleEngine.IsDraw(m.spreadY) && ParticleEngine.IsDraw(m.rotation)
  }

  const Pi := ParticleEngine.Pi

  /** Confetti is thrown upwards within half a turn; the others fly in any direction. */
  function Angle(t: ParticleType, m: MotionDraws): (a: real)
    requires MotionDrawsOk(m)
    ensures t == ParticleEngine.Confetti ==> Pi <= a < 2.0 * Pi
    ensures t != ParticleEngine.Confetti ==> 0.0 <= a < 2.0 * Pi
  {
    var offset := Pi * (m.offset - 0.5) * (if t == ParticleEngine.Explosion then 2.0 else 1.0);
    if t == ParticleEngine.Confetti then Pi * 1.5 + offset else m.angle * Pi * 2.0
  }

  function Speed(t: ParticleType, m: MotionDraws): (s: real)
    requires MotionDrawsOk(m)
    ensures t == ParticleEngine.Confetti ==> 200.0 <= s < 400.0
    ensures t != ParticleEngine.Confetti ==> 100.0 <= s < 400.0
  {
    if t == ParticleEngine.Confetti then 200.0 + m.speed * 200.0 else 100.0 + m.speed * 300.0
  }

  /** A distance factor in [0.5, 1.0). */
  function Spread(r: real): (f: real)
    requires ParticleEngine.IsDraw(r)
    ensures 0.5 <= f < 1.0
  {
    r * 0.5 + 0.5
  }

  /** The per-particle composite: position, rotation, fade and scale, all run in parallel. */
  function ParticleAnimation(t: ParticleType, gravity: real, d: real, id: nat, m: MotionDraws,
                             cos: real -> real, sin: real -> real): (r: Anim)
    requires MotionDrawsOk(m)
    ensures r.Parallel? && |r.members| == 5
  {
    var a := Angle(t, m);
    var speed := Speed(t, m);
    var dx := cos(a) * speed * Spread(m.spreadX);
    var dy := sin(a) * speed * Spread(m.spreadY);
    var explosion := t == ParticleEngine.Explosion;
    Parallel([
      Timing(Target(id, PosX), dx, d, 0.0, Out(Quad), true),
      Timing(Target(id, PosY), if explosion then dy else dy + gravity, d, 0.0,
             if explosion then Out(Quad) else Bezier(0.17, 0.67, 0.83, 0.67), true),
      Timing(Target(id, Rotation), (m.rotation - 0.5) * 10.0, d, 0.0, Linear, true),
      Timing(Target(id, Opacity), 0.0, d * 0.8, d * 0.2, Linear, true),
      if t == ParticleEngine.Sparkle then
        Sequence([Timing(Target(id, Scale), 1.5, d * 0.3, 0.0, Out(Cubic), true),
                  Timing(Target(id, Scale), 0.0, d * 0.7, 0.0, In(Cubic), true)])
      else
        Timing(Target(id, Scale), if explosion then 0.0 else 0.5, d, 0.0, Out(Cubic), true)])
  }

  /** The vertical travel without gravity. */
  function Rise(t: ParticleType, m: MotionDraws, sin: real -> real): real
    requires MotionDrawsOk(m)
  {
    sin(Angle(t, m)) * Speed(t, m) * Spread(m.spreadY)
  }

  /**
   * The targets: gravity pulls every type but explosions down by `gravity`;
   * the fade ends exactly at the duration; explosions shrink to nothing,
   * confetti to half size, and sparkles flare to 1.5 and then vanish.
   */
  lemma Targets(t: ParticleType, gravity: real, d: real, id: nat, m: MotionDraws, cos: real -> real, sin: real -> real)
    requires MotionDrawsOk(m)
    ensures var ms := ParticleAnimation(t, gravity, d, id, m, cos, sin).members;
      && ms[1].toValue == (if t == ParticleEngine.Explosion then Rise(t, m, sin) else Rise(t, m, sin) + gravity)
      && ms[3].target.prop == Opacity && ms[3].toValue == 0.0 && ms[3].delay + ms[3].duration == d
      && (t == ParticleEngine.Sparkle ==>
            ms[4].Sequence? && ms[4].members[0].toValue == 1.5 && ms[4].members[1].toValue == 0.0
            && ms[4].members[0].duration == 0.3 * d && ms[4].members[1].duration == 0.7 * d)
      && (t == ParticleEngine.Explosion ==> ms[4].Timing? && ms[4].toValue == 0.0)
      && (t == ParticleEngine.Confetti ==> ms[4].Timing? && ms[4].toValue == 0.5)
  {
  }

  /** A particle's composite settles exactly when the duration is over, whatever its type. */
  lemma {:induction false} ParticleEndsWithDuration(t: ParticleType, gravity: real, d: real, id: nat, m: MotionDraws,
                                                    cos: real -> real, sin: real -> real)
    requires MotionDrawsOk(m) && d >= 0.0
    ensures EndTime(ParticleAnimation(t, gravity, d, id, m, cos, sin)) == Some(d)
  {
    var r := ParticleAnimation(t, gravity, d, id, m, cos, sin);
    var ms := r.members;
    if t == ParticleEngine.Sparkle {
      var s := ms[4];
      var sm := s.members;
      assert sm[1..][1..] == [];
      assert EndTime(sm[0]) == Some(0.0 + d * 0.3) && EndTime(sm[1]) == Some(0.0 + d * 0.7);
      assert SumEnd(sm[1..][1..], s) == Some(0.0);
      assert SumEnd(sm[1..], s) == Some(0.0 + d * 0.7 + 0.0);
      assert SumEnd(sm, s) == Some(0.0 + d * 0.3 + (0.0 + d * 0.7 + 0.0));
    }
    var ends := [d, d, d, d, d];
    assert ends[0] == d;
    ParticleEngine.EndOfParallel(r, ends, d);
  }

  // ---------------------------------------------------------------------------
  // The component
  // ---------------------------------------------------------------------------

  /**
   * The component: the run flag (`isAnimating`), the current particles, the
   * composite held for teardown (`animationRef`), and the runs started,
   * finished and onComplete calls made.
   */
  datatype System = System(
    animating: bool,
    particles: seq<Particle>,
    current: Option<Anim>,
    runs: nat,
    finished: nat,
    completions: nat)

  const Mounted := System(false, [], None, 0, 0, 0)

  predicate OneRunAtATime(s: System)
  {
    s.runs == s.finished + (if s.animating then 1 else 0)
  }

  datatype RunInputs = RunInputs(
    t: ParticleType, palette: seq<string>, count: int, gravity: real, duration: real,
    looks: seq<LookDraws>, motions: seq<MotionDraws>)

  predicate RunInputsOk(x: RunInputs)
  {
    && x.count <= |x.looks| && x.count <= |x.motions|
    && (forall i :: 0 <= i < |x.looks| ==> LookDrawsOk(x.looks[i]))
    && (forall i :: 0 <= i < |x.motions| ==> MotionDrawsOk(x.motions[i]))
  }

  /** The component's optional props; None is a prop the caller left out. */
  datatype ComponentProps = ComponentProps(
    count: Option<int>, duration: Option<real>, spread: Option<real>, gravity: Option<real>,
    t: Option<ParticleType>, colors: Option<seq<string>>)

  const DefaultCount := 20
  const DefaultDuration := 1000.0
  const DefaultSpread := 100.0
  const DefaultGravity := 800.0

  /**
   * The run inputs the props resolve to: 20 particles of confetti over
   * 1000 ms under a gravity of 800 when left out, and the palette the type
   * and the colours choose. The `spread` prop (100 when left out) is
   * accepted but no motion reads it.
   */
  function InputsFor(props: ComponentProps, theme: ThemeColors, looks: seq<LookDraws>, motions: seq<MotionDraws>): (x: RunInputs)
    ensures x.count == props.count.GetOr(DefaultCount) && x.duration == props.duration.GetOr(DefaultDuration)
    ensures x.gravity == props.gravity.GetOr(DefaultGravity) && x.t == props.t.GetOr(ParticleEngine.Confetti)
    ensures x.palette == Palette(props.colors, x.t, theme)
    ensures x.looks == looks && x.motions == motions
  {
    var t := props.t.GetOr(ParticleEngine.Confetti);
    RunInputs(t, Palette(props.colors, t, theme), props.count.GetOr(DefaultCount),
              props.gravity.GetOr(DefaultGravity), props.duration.GetOr(DefaultDuration), looks, motions)
  }

  /** With every prop left out, a run throws 20 confetti particles in the theme's four colours for 1000 ms. */
  lemma DefaultProps(theme: ThemeColors, looks: seq<LookDraws>, motions: seq<MotionDraws>)
    ensures var x := InputsFor(ComponentProps(None, None, None, None, None, None), theme, looks, motions);
      && x.count == 20 && x.duration == 1000.0 && x.gravity == 800.0 && x.t == ParticleEngine.Confetti
      && x.palette == [theme.primary, theme.secondary, theme.success, theme.warning]
  {
  }

  /** The spread prop changes nothing about a run. */
  lemma SpreadIsIgnored(props: ComponentProps, spread: Option<real>, theme: ThemeColors, looks: seq<LookDraws>, motions: seq<MotionDraws>)
    ensures InputsFor(props.(spread := spread), theme, looks, motions) == InputsFor(props, theme, looks, motions)
  {
  }

  /** The composite `runAnimation` builds for a batch: one animation per particle, all in parallel. */
  function Composite(x: RunInputs, ps: seq<Particle>, cos: real -> real, sin: real -> real): (r: Anim)
    requires RunInputsOk(x) && |ps| <= Max(x.count, 0)
    ensures r.Parallel? && |r.members| == |ps|
    ensures forall i :: 0 <= i < |ps| ==>
      r.members[i] == ParticleAnimation(x.t, x.gravity, x.duration, ps[i].id, x.motions[i], cos, sin)
  {
    Parallel(seq(|ps|, i requires 0 <= i < |ps| => ParticleAnimation(x.t, x.gravity, x.duration, ps[i].id, x.motions[i], cos, sin)))
  }

  /**
   * The trigger effect with `runAnimation`: a set trigger while no run is in
   * progress generates fresh particles, marks the run and starts their
   * composite; otherwise nothing happens.
   */
  function OnTrigger(s: System, trigger: bool, x: RunInputs, cos: real -> real, sin: real -> real): (r: System)
    requires RunInputsOk(x)
    ensures !trigger || s.animating ==> r == s
    ensures trigger && !s.animating ==>
      && r.animating && r.runs == s.runs + 1 && r.finished == s.finished && r.completions == s.completions
      && r.particles == Generate(x.t, x.palette, x.count, x.looks)
      && r.current == Some(Composite(x, r.particles, cos, sin))
  {
    if trigger && !s.animating then
      var ps := Generate(x.t, x.palette, x.count, x.looks);
      s.(animating := true, particles := ps, current := Some(Composite(x, ps, cos, sin)), runs := s.runs + 1)
    else s
  }

  /** The composite's completion callback: the run is over and onComplete, if given, is called. */
  function Complete(s: System, hasOnComplete: bool): (r: System)
    requires s.animating
    ensures !r.animating && r.finished == s.finished + 1 && r.runs == s.runs && r.current == s.current
    ensures r.completions == s.completions + (if hasOnComplete then 1 else 0)
  {
    s.(animating := false, finished := s.finished + 1, completions := s.completions + if hasOnComplete then 1 else 0)
  }

  /** Teardown stops the composite of the last run, if there was one. */
  function Unmount(s: System): (stopped: Option<Anim>)
    ensures stopped.Some? <==> s.current.Some?
    ensures stopped.Some? ==> stopped.value == s.current.value
  {
    s.current
  }

  /** Unmounting after a started run stops exactly that run's composite, even after it completed. */
  lemma UnmountStopsLastRun(s: System, x: RunInputs, cos: real -> real, sin: real -> real, hasOnComplete: bool)
    requires RunInputsOk(x) && !s.animating
    ensures var started := OnTrigger(s, true, x, cos, sin);
      && Unmount(started) == Some(Composite(x, started.particles, cos, sin))
      && Unmount(Complete(started, hasOnComplete)) == Unmount(started)
  {
  }

  /** Every transition keeps at most one run in progress. */
  lemma OneRunAtATimeHolds(s: System, trigger: bool, x: RunInputs, cos: real -> real, sin: real -> real, hasOnComplete: bool)
    requires OneRunAtATime(s) && RunInputsOk(x)
    ensures OneRunAtATime(Mounted)
    ensures OneRunAtATime(OnTrigger(s, trigger, x, cos, sin))
    ensures s.animating ==> OneRunAtATime(Complete(s, hasOnComplete))
  {
  }
}
