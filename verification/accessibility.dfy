/**
 * The accessibility gate of src/hooks/useAccessibleAnimations.ts. The hook
 * merges the app's "animations enabled" setting with the platform's
 * reduce-motion flag and then builds every animation through five factories
 * that either return a stand-in (animations off) or scale the requested
 * motion down (reduce motion on).
 */
module Accessibility {

  import opened Common
  import opened Animation

  datatype Options = Options(animationsEnabled: bool, reduceMotion: bool, durationScale: real)

  /** The options before any preference is known. */
  const DefaultOptions := Options(true, false, 1.0)

  /** The scale always agrees with the reduce-motion flag: half speed when on, full speed when off. */
  predicate WellFormed(o: Options)
  {
    o.durationScale == (if o.reduceMotion then 0.5 else 1.0)
  }

  /**
   * The settings effect. `setting` is the stored animationsEnabled value, None
   * when there are no settings or the key is absent; only an explicit false
   * turns animations off.
   */
  function ApplySettings(o: Options, setting: Option<bool>): (r: Options)
    ensures r.animationsEnabled <==> setting != Some(false)
    ensures r.reduceMotion == o.reduceMotion && r.durationScale == o.durationScale
  {
    o.(animationsEnabled := setting != Some(false))
  }

  /** The reduce-motion listener: the flag and the matching scale, nothing else. */
  function ApplyReduceMotion(o: Options, enabled: bool): (r: Options)
    ensures r.reduceMotion == enabled && WellFormed(r)
    ensures r.animationsEnabled == o.animationsEnabled
    ensures r.durationScale == 0.5 <==> enabled
  {
    o.(reduceMotion := enabled, durationScale := if enabled then 0.5 else 1.0)
  }

  /** Both updates keep the scale in step with the flag, starting from the defaults. */
  lemma UpdatesPreserveWellFormed(o: Options, setting: Option<bool>, flag: bool)
    requires WellFormed(o)
    ensures WellFormed(DefaultOptions)
    ensures WellFormed(ApplySettings(o, setting))
    ensures WellFormed(ApplyReduceMotion(o, flag))
  {
  }

  /** The platform subscription: whether the flag was queried and a listener is attached. */
  datatype Subscription = Subscription(queried: bool, listening: bool)

  function SubscribeOnMount(os: Platform): (s: Subscription)
    ensures s.queried <==> os == Ios || os == Android
    ensures s.listening <==> os == Ios || os == Android
  {
    var mobile := os == Ios || os == Android;
    Subscription(mobile, mobile)
  }

  /** Teardown removes the listener the mount attached; there is nothing else to undo. */
  function Teardown(s: Subscription): (r: Subscription)
    ensures !r.listening && r.queried == s.queried
  {
    s.(listening := false)
  }

  /** A reduce-motion report from the platform reaches the options only while the listener is attached. */
  function Deliver(sub: Subscription, o: Options, flag: bool): Options
  {
    if sub.listening then ApplyReduceMotion(o, flag) else o
  }

  /** The options after the platform's reports, in order: the query's answer first, then each change. */
  function DeliverAll(sub: Subscription, o: Options, flags: seq<bool>): Options
    decreases |flags|
  {
    if |flags| == 0 then o else DeliverAll(sub, Deliver(sub, o, flags[0]), flags[1..])
  }

  /**
   * While listening, the options follow the platform's latest report and
   * stay well formed; without a listener no report changes them. The app's
   * animationsEnabled setting is never touched by the platform.
   */
  lemma {:induction false} DeliveriesFollowLastReport(sub: Subscription, o: Options, flags: seq<bool>)
    requires WellFormed(o)
    ensures WellFormed(DeliverAll(sub, o, flags))
    ensures DeliverAll(sub, o, flags).animationsEnabled == o.animationsEnabled
    ensures !sub.listening ==> DeliverAll(sub, o, flags) == o
    ensures sub.listening && |flags| > 0 ==> DeliverAll(sub, o, flags).reduceMotion == flags[|flags| - 1]
    decreases |flags|
  {
    if |flags| > 0 {
      DeliveriesFollowLastReport(sub, Deliver(sub, o, flags[0]), flags[1..]);
      if |flags| > 1 {
        assert flags[1..][|flags[1..]| - 1] == flags[|flags| - 1];
      }
    }
  }

  /**
   * The subscription's lifecycle: on iOS and Android the options follow the
   * platform's reports from mount until teardown, after which no report
   * reaches them; on any other platform the flag stays as it was.
   */
  lemma SubscriptionLifecycle(os: Platform, o: Options, flags: seq<bool>)
    requires WellFormed(o)
    ensures (os == Ios || os == Android) && |flags| > 0 ==>
      DeliverAll(SubscribeOnMount(os), o, flags).reduceMotion == flags[|flags| - 1]
    ensures !(os == Ios || os == Android) ==> DeliverAll(SubscribeOnMount(os), o, flags) == o
    ensures DeliverAll(Teardown(SubscribeOnMount(os)), o, flags) == o
  {
    DeliveriesFollowLastReport(SubscribeOnMount(os), o, flags);
    DeliveriesFollowLastReport(Teardown(SubscribeOnMount(os)), o, flags);
  }

  /**
   * What a factory produces: the animation descriptor and, for timing and
   * spring when animations are off, the value written to the target at once.
   */
  datatype Created = Created(anim: Anim, setValue: Option<real>)

  const DefaultTimingEasing := Bezier(0.25, 0.1, 0.25, 1.0)
  const DefaultTension := 40.0
  const DefaultFriction := 7.0

  /** `createAccessibleTiming`; None for an argument means the caller left it out. */
  function AccessibleTiming(o: Options, value: Target, toValue: real, duration: real,
                            nativeDriver: Option<bool>, easing: Option<Easing>): (r: Created)
    ensures !o.animationsEnabled ==> r == Created(Immediate, Some(toValue))
    ensures o.animationsEnabled ==> r.setValue.None? && r.anim.Timing?
    ensures o.animationsEnabled ==>
      && r.anim.target == value && r.anim.toValue == toValue && r.anim.delay == 0.0
      && r.anim.nativeDriver == nativeDriver.GetOr(true)
      && r.anim.duration == (if o.reduceMotion then duration * o.durationScale else duration)
      && r.anim.easing == (if o.reduceMotion then Linear else easing.GetOr(DefaultTimingEasing))
  {
    if !o.animationsEnabled then Created(Immediate, Some(toValue))
    else
      var d := if o.reduceMotion then duration * o.durationScale else duration;
      var e := if o.reduceMotion then Linear else easing.GetOr(DefaultTimingEasing);
      Created(Timing(value, toValue, d, 0.0, e, nativeDriver.GetOr(true)), None)
  }

  /** `createAccessibleSpring`. */
  function AccessibleSpring(o: Options, value: Target, toValue: real, nativeDriver: Option<bool>,
                            tension: Option<real>, friction: Option<real>): (r: Created)
    ensures !o.animationsEnabled ==> r == Created(Immediate, Some(toValue))
    ensures o.animationsEnabled ==> r.setValue.None? && r.anim.Spring?
    ensures o.animationsEnabled ==>
      && r.anim.target == value && r.anim.toValue == toValue
      && r.anim.nativeDriver == nativeDriver.GetOr(true)
      && r.anim.tension == tension.GetOr(DefaultTension)
      && r.anim.friction == (if o.reduceMotion then 1.5 else 1.0) * friction.GetOr(DefaultFriction)
      && r.anim.restDisplacement == r.anim.restSpeed == (if o.reduceMotion then 0.1 else 0.01)
  {
    if !o.animationsEnabled then Created(Immediate, Some(toValue))
    else
      var f := friction.GetOr(DefaultFriction);
      var rest := if o.reduceMotion then 0.1 else 0.01;
      Created(Spring(value, toValue, tension.GetOr(DefaultTension),
                     if o.reduceMotion then f * 1.5 else f, rest, rest, nativeDriver.GetOr(true)), None)
  }

  /** `createAccessibleSequence`. */
  function AccessibleSequence(o: Options, anims: seq<Anim>): (r: Created)
    ensures r.setValue.None?
    ensures !o.animationsEnabled ==> r.anim == Immediate
    ensures o.animationsEnabled ==> r.anim.Sequence? && r.anim.members == anims
  {
    Created(if o.animationsEnabled then Sequence(anims) else Immediate, None)
  }

  /** `createAccessibleParallel`. */
  function AccessibleParallel(o: Options, anims: seq<Anim>): (r: Created)
    ensures r.setValue.None?
    ensures !o.animationsEnabled ==> r.anim == Immediate
    ensures o.animationsEnabled ==> r.anim.Parallel? && r.anim.members == anims
  {
    Created(if o.animationsEnabled then Parallel(anims) else Immediate, None)
  }

  /** `createAccessibleStagger`. */
  function AccessibleStagger(o: Options, staggerMs: real, anims: seq<Anim>): (r: Created)
    ensures r.setValue.None?
    ensures !o.animationsEnabled ==> r.anim == Immediate
    ensures o.animationsEnabled ==>
      && r.anim.Stagger? && r.anim.members == anims
      && r.anim.gap == (if o.reduceMotion then staggerMs * o.durationScale else staggerMs)
  {
    if !o.animationsEnabled then Created(Immediate, None)
    else Created(Stagger(if o.reduceMotion then staggerMs * o.durationScale else staggerMs, anims), None)
  }

  /**
   * Starting an animation `calls` times with a completion callback. The
   * stand-in reports each start at once with finished = true; for a real
   * animation the runtime decides, so the model says nothing about it.
   */
  function StandInCompletions(calls: nat, hasCallback: bool): (r: seq<bool>)
    ensures |r| == (if hasCallback then calls else 0)
    ensures forall i :: 0 <= i < |r| ==> r[i]
  {
    if calls == 0 || !hasCallback then [] else StandInCompletions(calls - 1, hasCallback) + [true]
  }

  /**
   * What a stand-in amounts to: a timing or spring built with animations off
   * has already written its target value, every factory's stand-in ends at
   * once, and starting it any number of times reports each start as finished.
   */
  lemma StandInFinishesAtOnce(o: Options, value: Target, toValue: real, duration: real, staggerMs: real,
                              anims: seq<Anim>, calls: nat)
    requires !o.animationsEnabled
    ensures AccessibleTiming(o, value, toValue, duration, None, None).setValue == Some(toValue)
    ensures AccessibleSpring(o, value, toValue, None, None, None).setValue == Some(toValue)
    ensures var made := [AccessibleTiming(o, value, toValue, duration, None, None).anim,
                         AccessibleSpring(o, value, toValue, None, None, None).anim,
                         AccessibleSequence(o, anims).anim, AccessibleParallel(o, anims).anim,
                         AccessibleStagger(o, staggerMs, anims).anim];
      forall i :: 0 <= i < |made| ==> made[i] == Immediate && EndTime(made[i]) == Some(0.0)
    ensures StandInCompletions(calls, true) == seq(calls, _ => true)
  {
    var r := StandInCompletions(calls, true);
    assert forall i :: 0 <= i < calls ==> r[i] == seq(calls, _ => true)[i];
  }

  /** With reduce motion on, a well-formed gate halves every timing and stagger delay and never lengthens one. */
  lemma ReduceMotionHalvesTime(o: Options, value: Target, toValue: real, duration: real, staggerMs: real, anims: seq<Anim>)
    requires WellFormed(o) && o.animationsEnabled && o.reduceMotion
    ensures AccessibleTiming(o, value, toValue, duration, None, None).anim.duration == duration / 2.0
    ensures AccessibleStagger(o, staggerMs, anims).anim.gap == staggerMs / 2.0
    ensures AccessibleTiming(o, value, toValue, duration, None, None).anim.easing == Linear
  {
  }

  /**
   * The end-to-end effect on run time: disabled, every factory's animation
   * ends at once; enabled, a timing built through the gate ends when its scaled
   * duration is over, which for a well-formed gate is never later than asked.
   */
  lemma GateEndTimes(o: Options, value: Target, toValue: real, duration: real, anims: seq<Anim>)
    requires WellFormed(o) && duration >= 0.0
    ensures !o.animationsEnabled ==>
      && EndTime(AccessibleTiming(o, value, toValue, duration, None, None).anim) == Some(0.0)
      && EndTime(AccessibleSequence(o, anims).anim) == Some(0.0)
    ensures o.animationsEnabled ==>
      var e := EndTime(AccessibleTiming(o, value, toValue, duration, None, None).anim);
      e.Some? && e.value <= duration && (e.value == duration <==> !o.reduceMotion || duration == 0.0)
  {
  }
}
