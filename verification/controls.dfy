/**
 * The roll-parameter controls of src/components/Calculator.tsx and
 * src/components/DiceControls.tsx. Both components carry the same dice-count
 * handler; the calculator adds the threshold row (2+ … 6+) and the
 * reroll-ones toggle. A handler's effect is the sequence of things it does:
 * haptic feedback and the parent callbacks, in order.
 */
module Controls {

  import opened Common

  const MinDice := 1
  const MaxDice := 10

  /** The threshold buttons the calculator renders, in order. */
  const OfferedThresholds: seq<int> := [2, 3, 4, 5, 6]

  datatype Event =
    | LightTap
    | DiceCountChanged(count: int)
    | ThresholdChanged(threshold: int)
    | RerollOnesChanged(rerollOnes: bool)

  /** The parameters the parent owns and the callbacks update. */
  datatype Params = Params(diceCount: int, threshold: int, rerollOnes: bool)

  /** Parameters the controls can display: 1..10 dice, a 2+ … 6+ threshold. */
  predicate InRange(p: Params)
  {
    MinDice <= p.diceCount <= MaxDice && 2 <= p.threshold <= 6
  }

  /** The count a press proposes: `count + delta` clamped to 1..10. */
  function ProposedCount(count: int, delta: int): (n: int)
    ensures MinDice <= n <= MaxDice
    ensures MinDice <= count + delta <= MaxDice ==> n == count + delta
    ensures count + delta < MinDice ==> n == MinDice
    ensures count + delta > MaxDice ==> n == MaxDice
  {
    Max(MinDice, Min(MaxDice, count + delta))
  }

  /**
   * `handleDiceCountChange` (identical in both components): when the
   * proposed count differs from the current one, a light tap and then
   * exactly one callback with it; otherwise nothing.
   */
  function CountChange(count: int, delta: int): (events: seq<Event>)
    ensures events == [] <==> ProposedCount(count, delta) == count
    ensures events != [] ==> events == [LightTap, DiceCountChanged(ProposedCount(count, delta))]
  {
    var n := ProposedCount(count, delta);
    if n != count then [LightTap, DiceCountChanged(n)] else []
  }

  /** `handleThresholdChange`: only a value in 2..6 that differs from the current threshold is forwarded. */
  function ThresholdChange(value: int, threshold: int): (events: seq<Event>)
    ensures events != [] ==> 2 <= value <= 6 && value != threshold && events == [LightTap, ThresholdChanged(value)]
    ensures value in OfferedThresholds && value != threshold ==> events != []
    ensures value == threshold ==> events == []
  {
    if value != threshold && value >= 2 && value <= 6 then [LightTap, ThresholdChanged(value)] else []
  }

  /** `toggleRerollOnes`: always a light tap and the negated flag. */
  function RerollToggle(rerollOnes: bool): (events: seq<Event>)
    ensures |events| == 2 && events[0] == LightTap
    ensures events[1].RerollOnesChanged? && events[1].rerollOnes != rerollOnes
  {
    [LightTap, RerollOnesChanged(!rerollOnes)]
  }

  /** The offered thresholds are exactly 2..6. */
  lemma OfferedThresholdsAreTwoToSix(v: int)
    ensures v in OfferedThresholds <==> 2 <= v <= 6
  {
  }

  predicate DecrementDisabled(count: int)
  {
    count <= MinDice
  }

  predicate IncrementDisabled(count: int)
  {
    count >= MaxDice
  }

  /** How the parent applies one callback; feedback changes no parameter. */
  function ApplyEvent(p: Params, e: Event): Params
  {
    match e
    case LightTap => p
    case DiceCountChanged(c) => p.(diceCount := c)
    case ThresholdChanged(t) => p.(threshold := t)
    case RerollOnesChanged(r) => p.(rerollOnes := r)
  }

  function Apply(p: Params, events: seq<Event>): Params
    decreases |events|
  {
    if |events| == 0 then p else Apply(ApplyEvent(p, events[0]), events[1..])
  }

  lemma ApplyPair(p: Params, a: Event, b: Event)
    ensures Apply(p, [a, b]) == ApplyEvent(ApplyEvent(p, a), b)
  {
    assert [a, b][1..] == [b];
    assert [b][1..] == [];
    calc {
      Apply(p, [a, b]);
      Apply(ApplyEvent(p, a), [b]);
      Apply(ApplyEvent(ApplyEvent(p, a), b), []);
    }
  }

  /** After a count press the parent holds exactly the clamped count and nothing else changed. */
  lemma CountPressLandsOnClamp(p: Params, delta: int)
    ensures Apply(p, CountChange(p.diceCount, delta)) == p.(diceCount := ProposedCount(p.diceCount, delta))
  {
    var events := CountChange(p.diceCount, delta);
    if events != [] {
      ApplyPair(p, events[0], events[1]);
    }
  }

  /** A threshold press sets the threshold exactly when it is in 2..6; pressing the current one changes nothing. */
  lemma ThresholdPressSets(p: Params, v: int)
    ensures Apply(p, ThresholdChange(v, p.threshold)) == if 2 <= v <= 6 then p.(threshold := v) else p
  {
    var events := ThresholdChange(v, p.threshold);
    if events != [] {
      ApplyPair(p, events[0], events[1]);
    }
  }

  /** Toggling flips the flag, and toggling twice restores the parameters. */
  lemma RerollToggleTwiceRestores(p: Params)
    ensures var q := Apply(p, RerollToggle(p.rerollOnes));
      q == p.(rerollOnes := !p.rerollOnes) && Apply(q, RerollToggle(q.rerollOnes)) == p
  {
    var q := Apply(p, RerollToggle(p.rerollOnes));
    ApplyPair(p, LightTap, RerollOnesChanged(!p.rerollOnes));
    ApplyPair(q, LightTap, RerollOnesChanged(!q.rerollOnes));
  }

  /**
   * For a count in 1..10 the minus button is disabled exactly when pressing
   * it would do nothing, and so is the plus button: at 1 the decrement and
   * at 10 the increment fire nothing.
   */
  lemma DisabledExactlyWhenInert(count: int)
    requires MinDice <= count <= MaxDice
    ensures DecrementDisabled(count) <==> CountChange(count, -1) == []
    ensures IncrementDisabled(count) <==> CountChange(count, 1) == []
  {
  }

  /** A press on one of the calculator's controls. */
  datatype Press = Decrement | Increment | PickThreshold(value: int) | ToggleRerollOnes

  /** What a press does; a disabled button cannot be pressed. */
  function PressEvents(p: Params, b: Press): (events: seq<Event>)
  {
    match b
    case Decrement => if DecrementDisabled(p.diceCount) then [] else CountChange(p.diceCount, -1)
    case Increment => if IncrementDisabled(p.diceCount) then [] else CountChange(p.diceCount, 1)
    case PickThreshold(v) => if v in OfferedThresholds then ThresholdChange(v, p.threshold) else []
    case ToggleRerollOnes => RerollToggle(p.rerollOnes)
  }

  /** The parameters after a session of presses, each applied by the parent before the next. */
  function Session(p: Params, presses: seq<Press>): Params
    decreases |presses|
  {
    if |presses| == 0 then p else Session(Apply(p, PressEvents(p, presses[0])), presses[1..])
  }

  lemma PressKeepsInRange(p: Params, b: Press)
    requires InRange(p)
    ensures InRange(Apply(p, PressEvents(p, b)))
  {
    match b
    case Decrement =>
      if !DecrementDisabled(p.diceCount) {
        CountPressLandsOnClamp(p, -1);
      }
    case Increment =>
      if !IncrementDisabled(p.diceCount) {
        CountPressLandsOnClamp(p, 1);
      }
    case PickThreshold(v) =>
      if v in OfferedThresholds {
        ThresholdPressSets(p, v);
      }
    case ToggleRerollOnes =>
      RerollToggleTwiceRestores(p);
  }

  /** However the controls are pressed, the parameters stay in 1..10 dice and a 2..6 threshold. */
  lemma {:induction false} SessionStaysInRange(p: Params, presses: seq<Press>)
    requires InRange(p)
    ensures InRange(Session(p, presses))
    decreases |presses|
  {
    if |presses| > 0 {
      PressKeepsInRange(p, presses[0]);
      SessionStaysInRange(Apply(p, PressEvents(p, presses[0])), presses[1..]);
    }
  }
}
