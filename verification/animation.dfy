/**
 * The boundary to React Native's animation runtime. A library animation is an
 * opaque, immutable descriptor: what it animates, towards which value, for how
 * long and with which curve. Running it (interpolation, springs, the native
 * driver, real time) belongs to the runtime and is outside the model; the
 * descriptor is enough to state what the app asks the runtime to do.
 */
module Animation {

  import opened Common

  /** The host platform, as reported by Platform.OS. */
  datatype Platform = Ios | Android | Web | Windows | Macos

  /** Which property of an animated element a channel drives. */
  datatype Prop = PosX | PosY | Rotation | Scale | Opacity | Plain

  /** One Animated.Value: the element that owns it and the property it drives. */
  datatype Target = Target(owner: int, prop: Prop)

  /** Easing curves named by the app (Easing.linear, Easing.bezier, Easing.out(Easing.back(1.5)), ...). */
  datatype Easing =
    | LibraryDefault
    | Linear
    | Bezier(x1: real, y1: real, x2: real, y2: real)
    | Out(inner: Easing)
    | In(inner: Easing)
    | Back(overshoot: real)
    | Cubic
    | Quad
    | Exp

  datatype Anim =
    | Timing(target: Target, toValue: real, duration: real, delay: real, easing: Easing, nativeDriver: bool)
    | Spring(target: Target, toValue: real, tension: real, friction: real,
             restDisplacement: real, restSpeed: real, nativeDriver: bool)
    | Parallel(members: seq<Anim>)
    | Sequence(members: seq<Anim>)
    | Stagger(gap: real, members: seq<Anim>)
      /** The stand-in of a suppressed animation: its start calls back at once with finished = true. */
    | Immediate
  {
    predicate IsGroup() {
      Parallel? || Sequence? || Stagger?
    }
  }

  /** The properties an animation drives, through every level of grouping. */
  function Props(a: Anim): set<Prop>
    decreases a, 1
  {
    match a
    case Timing(t, _, _, _, _, _) => {t.prop}
    case Spring(t, _, _, _, _, _, _) => {t.prop}
    case Parallel(ms) => PropsOf(ms, a)
    case Sequence(ms) => PropsOf(ms, a)
    case Stagger(_, ms) => PropsOf(ms, a)
    case Immediate => {}
  }

  function PropsOf(ms: seq<Anim>, ghost parent: Anim): set<Prop>
    requires forall m :: m in ms ==> m < parent
    decreases parent, 0, |ms|
  {
    if |ms| == 0 then {}
    else
      assert ms[0] in ms;
      assert forall m :: m in ms[1..] ==> m in ms;
      Props(ms[0]) + PropsOf(ms[1..], parent)
  }

  /** The properties a batch of animations drives, member by member. */
  function BatchProps(ms: seq<Anim>): set<Prop>
  {
    if |ms| == 0 then {} else Props(ms[0]) + BatchProps(ms[1..])
  }

  /** A group drives exactly the properties its members drive. */
  lemma {:induction false} GroupProps(ms: seq<Anim>, parent: Anim)
    requires forall m :: m in ms ==> m < parent
    ensures PropsOf(ms, parent) == BatchProps(ms)
    ensures forall i :: 0 <= i < |ms| ==> Props(ms[i]) <= BatchProps(ms)
    decreases |ms|
  {
    if |ms| > 0 {
      assert forall m :: m in ms[1..] ==> m in ms;
      GroupProps(ms[1..], parent);
      assert forall i :: 1 <= i < |ms| ==> ms[i] == ms[1..][i - 1];
    }
  }

  /**
   * When an animation settles, measured from its start, if that is fixed by its
   * descriptor: a timing ends after its delay and duration, a sequence after the
   * sum of its steps, a parallel group with its last member, and a stagger group
   * with its last member started `gap` after the previous one. A spring settles
   * when its physics comes to rest, which the descriptor does not fix.
   */
  function EndTime(a: Anim): Option<real>
    decreases a, 1
  {
    match a
    case Timing(_, _, d, w, _, _) => Some(w + d)
    case Spring(_, _, _, _, _, _, _) => None
    case Parallel(ms) => LatestEnd(ms, 0.0, 0.0, a)
    case Sequence(ms) => SumEnd(ms, a)
    case Stagger(g, ms) => LatestEnd(ms, 0.0, g, a)
    case Immediate => Some(0.0)
  }

  function SumEnd(ms: seq<Anim>, ghost parent: Anim): Option<real>
    requires forall m :: m in ms ==> m < parent
    decreases parent, 0, |ms|
  {
    if |ms| == 0 then Some(0.0)
    else
      assert ms[0] in ms;
      assert forall m :: m in ms[1..] ==> m in ms;
      match (EndTime(ms[0]), SumEnd(ms[1..], parent))
      case (Some(x), Some(y)) => Some(x + y)
      case _ => None
  }

  /** The latest end among members started at offset, offset + gap, offset + 2 * gap, ... */
  function LatestEnd(ms: seq<Anim>, offset: real, gap: real, ghost parent: Anim): Option<real>
    requires forall m :: m in ms ==> m < parent
    decreases parent, 0, |ms|
  {
    if |ms| == 0 then Some(0.0)
    else
      assert ms[0] in ms;
      assert forall m :: m in ms[1..] ==> m in ms;
      match (EndTime(ms[0]), LatestEnd(ms[1..], offset + gap, gap, parent))
      case (Some(x), Some(y)) => Some(if offset + x >= y then offset + x else y)
      case _ => None
  }
}
