/**
 * The number pickers of src/components/NumberSelection.tsx: the animated
 * circle of faces shown around a held die, which "eats" the chosen face
 * before reporting it, and the grid picker with its disabled faces, colour
 * rules and threshold stepper. Styles, positions and animation curves are
 * left to the renderer; an animation is reduced to its start and its end.
 */
module NumberSelection {

  import opened Common
  import opened Dice

  datatype Event =
    | Tap(light: bool)
    | Swallow
    | NumberSelected(number: DiceFace)
    | ThresholdChanged(threshold: DiceFace)

  predicate IsSelection(e: Event)
  {
    e.NumberSelected?
  }

  // ---------------------------------------------------------------------------
  // Plain circle
  // ---------------------------------------------------------------------------

  /** `CircleNumberSelection`: a shown circle reports every tap after a light tap; a hidden one renders nothing to tap. */
  function CircleSelect(visible: bool, n: DiceFace): (events: seq<Event>)
    ensures events != [] <==> visible
    ensures visible ==> events == [Tap(true), NumberSelected(n)]
  {
    if visible then [Tap(true), NumberSelected(n)] else []
  }

  /** Unlike the animated circle, the plain one has no guard: two taps on a shown circle report two faces. */
  lemma PlainCircleReportsEveryTap(n: DiceFace, m: DiceFace)
    ensures CountWhere(CircleSelect(true, n) + CircleSelect(true, m), IsSelection) == 2
  {
    var a := CircleSelect(true, n);
    var b := CircleSelect(true, m);
    CountWhereAppend(a, b, IsSelection);
    assert a[1..][1..] == [] && b[1..][1..] == [];
  }

  // ---------------------------------------------------------------------------
  // Animated circle
  // ---------------------------------------------------------------------------

  /**
   * The circle's state: whether it is shown, the face being eaten, the
   * eating animations still running (oldest first) and the animation value.
   */
  datatype Circle = Circle(visible: bool, eatingNumber: Option<DiceFace>, running: seq<DiceFace>, progress: real)

  /** The circle animates unless the setting is explicitly off; a missing settings object counts as on. */
  function AnimationsEnabled(setting: Option<Option<bool>>): (enabled: bool)
    ensures !enabled <==> setting == Some(Some(false))
  {
    match setting
    case Some(Some(b)) => b
    case _ => true
  }

  function Mounted(visible: bool): Circle
  {
    Circle(visible, None, [], 0.0)
  }

  datatype Input = Pick(number: DiceFace) | AnimationEnd | SetVisible(visible: bool)

  /**
   * One input. A pick on a hidden circle or during an eating animation is
   * ignored; otherwise the face is marked as eaten and, with animations
   * disabled, the swallow feedback and the callback follow at once, while
   * with animations enabled they follow when the animation ends. Hiding
   * clears the eaten face and the animation value.
   */
  function Step(c: Circle, input: Input, animationsEnabled: bool): (r: (Circle, seq<Event>))
    ensures input.Pick? && (!c.visible || c.eatingNumber.Some?) ==> r == (c, [])
    ensures input.Pick? && c.visible && c.eatingNumber.None? ==>
      && r.0.eatingNumber == Some(input.number)
      && (!animationsEnabled ==> r.1 == [Swallow, NumberSelected(input.number)] && r.0.running == c.running)
      && (animationsEnabled ==> r.1 == [] && r.0.running == c.running + [input.number])
    ensures input.AnimationEnd? && |c.running| > 0 ==>
      r.1 == [Swallow, NumberSelected(c.running[0])] && r.0.running == c.running[1..] && r.0.progress == 0.0
    ensures input == SetVisible(false) ==> r.0 == c.(visible := false, eatingNumber := None, progress := 0.0) && r.1 == []
    ensures !input.AnimationEnd? ==> |r.1| <= 2
  {
    match input
    case Pick(n) =>
      if !c.visible || c.eatingNumber.Some? then (c, [])
      else if animationsEnabled then (c.(eatingNumber := Some(n), running := c.running + [n]), [])
      else (c.(eatingNumber := Some(n)), [Swallow, NumberSelected(n)])
    case AnimationEnd =>
      if |c.running| == 0 then (c, [])
      else (c.(running := c.running[1..], progress := 0.0), [Swallow, NumberSelected(c.running[0])])
    case SetVisible(v) =>
      if v then (c.(visible := true), [])
      else (c.(visible := false, eatingNumber := None, progress := 0.0), [])
  }

  /** The events of a run of inputs, in order, and the final state. */
  function Run(c: Circle, inputs: seq<Input>, animationsEnabled: bool): (Circle, seq<Event>)
    decreases |inputs|
  {
    if |inputs| == 0 then (c, [])
    else
      var (c', events) := Step(c, inputs[0], animationsEnabled);
      var (last, rest) := Run(c', inputs[1..], animationsEnabled);
      (last, events + rest)
  }

  /** A fresh pick: the face is reported once, immediately when animations are off, at the animation's end otherwise. */
  lemma PickReportsOnce(visible: bool, n: DiceFace, animationsEnabled: bool)
    requires visible
    ensures var c := Mounted(visible);
      var inputs := if animationsEnabled then [Pick(n), AnimationEnd] else [Pick(n)];
      Run(c, inputs, animationsEnabled).1 == [Swallow, NumberSelected(n)]
      && Run(c, [Pick(n)], animationsEnabled).1 == (if animationsEnabled then [] else [Swallow, NumberSelected(n)])
  {
    var c := Mounted(visible);
    var (c1, e1) := Step(c, Pick(n), animationsEnabled);
    assert [Pick(n)][1..] == [];
    assert Run(c, [Pick(n)], animationsEnabled).1 == e1 + [];
    if animationsEnabled {
      assert [Pick(n), AnimationEnd][1..] == [AnimationEnd];
      assert [AnimationEnd][1..] == [];
      var (c2, e2) := Step(c1, AnimationEnd, animationsEnabled);
      assert Run(c1, [AnimationEnd], animationsEnabled).1 == e2 + [];
    }
  }

  /** Selections the circle can still report: one while nothing is eaten, else one per running animation. */
  function Budget(c: Circle): nat
  {
    if c.eatingNumber.None? then 1 else |c.running|
  }

  predicate Settled(c: Circle)
  {
    (c.eatingNumber.None? ==> c.running == []) && |c.running| <= 1
  }

  lemma StepWithinBudget(c: Circle, input: Input, animationsEnabled: bool)
    requires Settled(c) && input != SetVisible(false)
    ensures var (c', events) := Step(c, input, animationsEnabled);
      Settled(c') && CountWhere(events, IsSelection) + Budget(c') <= Budget(c)
  {
  }

  /**
   * While the circle stays shown, a settled state reports at most as many
   * faces as its budget: one pick per showing, however often it is tapped.
   */
  lemma {:induction false} RunWithinBudget(c: Circle, inputs: seq<Input>, animationsEnabled: bool)
    requires Settled(c)
    requires forall i :: 0 <= i < |inputs| ==> inputs[i] != SetVisible(false)
    ensures CountWhere(Run(c, inputs, animationsEnabled).1, IsSelection) <= Budget(c)
    decreases |inputs|
  {
    if |inputs| > 0 {
      var (c', events) := Step(c, inputs[0], animationsEnabled);
      StepWithinBudget(c, inputs[0], animationsEnabled);
      RunWithinBudget(c', inputs[1..], animationsEnabled);
      var rest := Run(c', inputs[1..], animationsEnabled).1;
      CountWhereAppend(events, rest, IsSelection);
    }
  }

  /** From a freshly shown circle, no sequence of taps and animation ends reports more than one face. */
  lemma OneSelectionPerShowing(visible: bool, inputs: seq<Input>, animationsEnabled: bool)
    requires forall i :: 0 <= i < |inputs| ==> inputs[i] != SetVisible(false)
    ensures CountWhere(Run(Mounted(visible), inputs, animationsEnabled).1, IsSelection) <= 1
  {
    RunWithinBudget(Mounted(visible), inputs, animationsEnabled);
  }

  /** Hiding the circle makes it pickable again once it is shown. */
  lemma HidingRearms(c: Circle, n: DiceFace, animationsEnabled: bool)
    ensures var hidden := Step(c, SetVisible(false), animationsEnabled).0;
      var shown := Step(hidden, SetVisible(true), animationsEnabled).0;
      hidden.eatingNumber.None? && hidden.progress == 0.0
      && Step(shown, Pick(n), animationsEnabled).0.eatingNumber == Some(n)
  {
  }

  // ---------------------------------------------------------------------------
  // Grid picker
  // ---------------------------------------------------------------------------

  /** `handleSelectNumber` of the grid: a disabled face does nothing; any other taps and reports itself. */
  function GridSelect(disabledNumbers: seq<DiceFace>, n: DiceFace): (events: seq<Event>)
    ensures events == [] <==> n in disabledNumbers
    ensures events != [] ==> events == [Tap(false), NumberSelected(n)]
  {
    if !Includes(disabledNumbers, n) then [Tap(false), NumberSelected(n)] else []
  }

  /** `handleThresholdChange` of the grid: forwarded only when the parent passed a handler. */
  function ThresholdChange(hasHandler: bool, t: DiceFace): (events: seq<Event>)
    ensures events != [] <==> hasHandler
    ensures hasHandler ==> events == [Tap(true), ThresholdChanged(t)]
  {
    if hasHandler then [Tap(true), ThresholdChanged(t)] else []
  }

  /** The value the minus button proposes. */
  function StepDown(t: DiceFace): (r: DiceFace)
    ensures t > 1 ==> r == t - 1
    ensures t == 1 ==> r == 1
  {
    Max(1, t - 1)
  }

  /** The value the plus button proposes. */
  function StepUp(t: DiceFace): (r: DiceFace)
    ensures t < 6 ==> r == t + 1
    ensures t == 6 ==> r == 6
  {
    Min(6, t + 1)
  }

  predicate DownDisabled(t: DiceFace)
  {
    t <= 1
  }

  predicate UpDisabled(t: DiceFace)
  {
    t >= 6
  }

  /**
   * The stepper's buttons are disabled exactly where they would propose
   * the current threshold, and otherwise the two steps undo each other.
   */
  lemma StepperDisabledExactlyAtEnds(t: DiceFace)
    ensures DownDisabled(t) <==> StepDown(t) == t
    ensures UpDisabled(t) <==> StepUp(t) == t
    ensures !DownDisabled(t) ==> StepUp(StepDown(t)) == t
    ensures !UpDisabled(t) ==> StepDown(StepUp(t)) == t
  {
  }

  /** The stepper row exists only with a handler; a press on an enabled button forwards a neighbouring face. */
  function StepperPress(showThreshold: bool, hasHandler: bool, t: DiceFace, up: bool): (events: seq<Event>)
    ensures events != [] ==> showThreshold && hasHandler
    ensures events != [] ==> |events| == 2 && events[1].ThresholdChanged? && (events[1].threshold - t == 1 || t - events[1].threshold == 1)
  {
    if !(showThreshold && hasHandler) then []
    else if up then (if UpDisabled(t) then [] else ThresholdChange(hasHandler, StepUp(t)))
    else (if DownDisabled(t) then [] else ThresholdChange(hasHandler, StepDown(t)))
  }

  datatype Colour = SelectedColour | DisabledColour | FaceColour(face: DiceFace)

  /** `getColorStyle`: the selected face first, then a disabled face, then the face's own colour. */
  function ColourFor(selectedNumber: Option<DiceFace>, disabledNumbers: seq<DiceFace>, n: DiceFace): (c: Colour)
    ensures c == SelectedColour <==> selectedNumber == Some(n)
    ensures c == DisabledColour <==> selectedNumber != Some(n) && n in disabledNumbers
    ensures c.FaceColour? ==> c.face == n
  {
    if selectedNumber == Some(n) then SelectedColour
    else if Includes(disabledNumbers, n) then DisabledColour
    else FaceColour(n)
  }

  /**
   * A face drawn greyed out ignores taps, and a face that ignores taps is
   * drawn greyed out unless it is the selected one.
   */
  lemma GreyedExactlyWhenIgnored(selectedNumber: Option<DiceFace>, disabledNumbers: seq<DiceFace>, n: DiceFace)
    ensures ColourFor(selectedNumber, disabledNumbers, n) == DisabledColour ==> GridSelect(disabledNumbers, n) == []
    ensures GridSelect(disabledNumbers, n) == [] && selectedNumber != Some(n) ==>
      ColourFor(selectedNumber, disabledNumbers, n) == DisabledColour
    ensures ColourFor(selectedNumber, disabledNumbers, n).FaceColour? ==> GridSelect(disabledNumbers, n) != []
  {
  }
}
