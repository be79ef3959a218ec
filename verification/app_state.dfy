/**
 * The application state of src/context/AppContext.tsx: the reducer, the
 * effect that keeps the success probability in step with the dice
 * parameters, and the `rollDice` and `recordOutcome` actions with the
 * statistics attempts they record. React's scheduling is replaced by
 * explicit functions; `Date.now()` and the dice draws are inputs.
 */
module AppState {

  import opened Common
  import opened Dice
  import Statistics

  datatype State = State(
    diceCount: nat,
    threshold: DiceFace,
    rerollOnes: bool,
    rollResults: seq<DiceFace>,
    isRolling: bool,
    lastRollSuccess: Option<bool>,
    successProbability: Option<real>)

  const Initial := State(1, 4, false, [], false, None, None)

  datatype Action =
    | SetDiceCount(count: nat)
    | SetThreshold(face: DiceFace)
    | SetRerollOnes(reroll: bool)
    | StartRolling
    | FinishRolling(rolls: seq<DiceFace>, success: bool)
    | UpdateProbability(probability: real)
    | RecordOutcome(isSuccess: bool)
    | ResetResults
    | Unknown

  /** The fields of the state, to say which ones an action may touch. */
  datatype Field = DiceCountField | ThresholdField | RerollField | ResultsField | RollingField | LastSuccessField | ProbabilityField

  predicate Agrees(s: State, t: State, f: Field)
  {
    match f
    case DiceCountField => s.diceCount == t.diceCount
    case ThresholdField => s.threshold == t.threshold
    case RerollField => s.rerollOnes == t.rerollOnes
    case ResultsField => s.rollResults == t.rollResults
    case RollingField => s.isRolling == t.isRolling
    case LastSuccessField => s.lastRollSuccess == t.lastRollSuccess
    case ProbabilityField => s.successProbability == t.successProbability
  }

  /** The fields each action is allowed to write. */
  function Writes(a: Action): set<Field>
  {
    match a
    case SetDiceCount(_) => {DiceCountField}
    case SetThreshold(_) => {ThresholdField}
    case SetRerollOnes(_) => {RerollField}
    case StartRolling => {RollingField}
    case FinishRolling(_, _) => {RollingField, ResultsField, LastSuccessField}
    case UpdateProbability(_) => {ProbabilityField}
    case RecordOutcome(_) => {LastSuccessField}
    case ResetResults => {ResultsField, LastSuccessField}
    case Unknown => {}
  }

  /** `appReducer`. */
  function Reduce(s: State, a: Action): (r: State)
    ensures forall f: Field :: f !in Writes(a) ==> Agrees(s, r, f)
    ensures a.Unknown? ==> r == s
    ensures a.SetDiceCount? ==> r.diceCount == a.count
    ensures a.SetThreshold? ==> r.threshold == a.face
    ensures a.SetRerollOnes? ==> r.rerollOnes == a.reroll
    ensures a.StartRolling? ==> r.isRolling
    ensures a.FinishRolling? ==> !r.isRolling && r.rollResults == a.rolls && r.lastRollSuccess == Some(a.success)
    ensures a.UpdateProbability? ==> r.successProbability == Some(a.probability)
    ensures a.RecordOutcome? ==> r.lastRollSuccess == Some(a.isSuccess)
    ensures a.ResetResults? ==> r.rollResults == [] && r.lastRollSuccess.None?
  {
    match a
    case SetDiceCount(n) => s.(diceCount := n)
    case SetThreshold(t) => s.(threshold := t)
    case SetRerollOnes(b) => s.(rerollOnes := b)
    case StartRolling => s.(isRolling := true)
    case FinishRolling(rolls, success) => s.(isRolling := false, rollResults := rolls, lastRollSuccess := Some(success))
    case UpdateProbability(p) => s.(successProbability := Some(p))
    case RecordOutcome(b) => s.(lastRollSuccess := Some(b))
    case ResetResults => s.(rollResults := [], lastRollSuccess := None)
    case Unknown => s
  }

  /** Every action is idempotent: dispatching it twice is dispatching it once. */
  lemma ReduceIdempotent(s: State, a: Action)
    ensures Reduce(Reduce(s, a), a) == Reduce(s, a)
  {
  }

  // ---------------------------------------------------------------------------
  // The probability effect
  // ---------------------------------------------------------------------------

  /** The probability the effect computes for the current parameters. */
  function ProbabilityFor(s: State): real
  {
    AtLeastOneSuccess(s.diceCount, s.threshold, s.rerollOnes)
  }

  predicate ProbabilityCurrent(s: State)
  {
    s.successProbability == Some(ProbabilityFor(s))
  }

  predicate SameParameters(s: State, t: State)
  {
    s.diceCount == t.diceCount && s.threshold == t.threshold && s.rerollOnes == t.rerollOnes
  }

  /** The effect: when the parameters differ from those of the last render, the probability is recomputed. */
  function Settle(before: State, after: State): (r: State)
    ensures SameParameters(before, after) ==> r == after
    ensures !SameParameters(before, after) ==> ProbabilityCurrent(r)
    ensures SameParameters(r, after) && r.rollResults == after.rollResults && r.isRolling == after.isRolling
  {
    if SameParameters(before, after) then after
    else Reduce(after, UpdateProbability(ProbabilityFor(after)))
  }

  /** Mounting the provider runs the effect once on the initial state. */
  function Mount(): (r: State)
    ensures ProbabilityCurrent(r) && r.diceCount == 1 && r.threshold == 4 && !r.rerollOnes
    ensures r.rollResults == [] && !r.isRolling && r.lastRollSuccess.None?
  {
    Reduce(Initial, UpdateProbability(ProbabilityFor(Initial)))
  }

  /** A dispatched action followed by the effect. */
  function Dispatch(s: State, a: Action): State
  {
    Settle(s, Reduce(s, a))
  }

  /**
   * The displayed probability stays that of the current parameters through
   * every action except an explicit UPDATE_PROBABILITY with another value.
   */
  lemma ProbabilityStaysCurrent(s: State, a: Action)
    requires ProbabilityCurrent(s)
    requires !a.UpdateProbability?
    ensures ProbabilityCurrent(Dispatch(s, a))
    ensures 0.0 <= SingleDieProbability(s.threshold, s.rerollOnes) <= 1.0 ==> 0.0 <= ProbabilityFor(s) <= 1.0
  {
    if 0.0 <= SingleDieProbability(s.threshold, s.rerollOnes) <= 1.0 {
      AtLeastOneBounds(0, s.diceCount, s.threshold, s.rerollOnes);
    }
  }

  /** RESET_RESULTS keeps the dice parameters and the probability, and leaves nothing to show. */
  lemma ResetKeepsParameters(s: State)
    ensures var r := Dispatch(s, ResetResults);
      SameParameters(r, s) && r.successProbability == s.successProbability
      && r.isRolling == s.isRolling && r.rollResults == [] && r.lastRollSuccess.None?
  {
  }

  // ---------------------------------------------------------------------------
  // Actions with effects on the statistics service
  // ---------------------------------------------------------------------------

  /**
   * `rollDice`: ignored while rolling; otherwise START_ROLLING, the dice
   * service's roll and FINISH_ROLLING with the rolls and success, then the
   * statistics attempt. `draws` is None when the roll throws, which finishes
   * with no results and success false and records nothing.
   */
  method RollDice(s: State, stats: Statistics.Service, draws: Option<seq<DieDraws>>, now: int)
    returns (r: State, stats': Statistics.Service)
    requires draws.Some? ==> s.diceCount <= |draws.value| && forall i :: 0 <= i < |draws.value| ==> DieDrawsOk(draws.value[i])
    ensures s.isRolling ==> r == s && stats' == stats
    ensures !s.isRolling ==> !r.isRolling && SameParameters(r, s) && r.successProbability == s.successProbability
    ensures !s.isRolling && draws.None? ==> r.rollResults == [] && r.lastRollSuccess == Some(false) && stats' == stats
    ensures !s.isRolling && draws.Some? ==>
      && |r.rollResults| == s.diceCount
      && (forall i :: 0 <= i < s.diceCount ==> r.rollResults[i] == FinalFace(draws.value[i], s.rerollOnes))
      && (r.lastRollSuccess == Some(true) <==> exists i :: 0 <= i < |r.rollResults| && r.rollResults[i] >= s.threshold)
      && r.lastRollSuccess.Some?
      && stats'.statistics.totalRolls == stats.statistics.totalRolls + 1
      && |stats'.history| > 0 && stats'.history[0] == RollAttempt(r.rollResults, s.threshold, Some(if r.lastRollSuccess == Some(true) then Success else Failure), None, now)
    ensures ProbabilityCurrent(s) ==> ProbabilityCurrent(r)
    ensures Statistics.Consistent(stats) ==> Statistics.Consistent(stats')
  {
    if s.isRolling {
      return s, stats;
    }
    var rolling := Dispatch(s, StartRolling);
    if ProbabilityCurrent(s) {
      ProbabilityStaysCurrent(s, StartRolling);
    }
    match draws
    case None =>
      r := Dispatch(rolling, FinishRolling([], false));
      stats' := stats;
    case Some(ds) =>
      var rolls, outcome := Dice.RollDice(s.diceCount, s.threshold, s.rerollOnes, ds);
      r := Dispatch(rolling, FinishRolling(rolls, outcome == Success));
      var attempt := RollAttempt(rolls, s.threshold, Some(outcome), None, now);
      stats' := Statistics.AddRollAttempt(stats, attempt);
      if Statistics.Consistent(stats) {
        Statistics.AddKeepsConsistent(stats, attempt);
      }
    if ProbabilityCurrent(rolling) {
      ProbabilityStaysCurrent(rolling, FinishRolling(r.rollResults, r.lastRollSuccess == Some(true)));
    }
  }

  /**
   * `recordOutcome`: the outcome becomes lastRollSuccess, and an attempt
   * with the current results is recorded only when there are results.
   */
  function RecordOutcomeAction(s: State, stats: Statistics.Service, outcome: RollOutcome, now: int): (r: (State, Statistics.Service))
    ensures r.0.lastRollSuccess == Some(outcome == Success)
    ensures forall f: Field :: f != LastSuccessField ==> Agrees(s, r.0, f)
    ensures |s.rollResults| == 0 ==> r.1 == stats
    ensures |s.rollResults| > 0 ==>
      r.1.statistics.totalRolls == stats.statistics.totalRolls + 1
      && |r.1.history| > 0 && r.1.history[0] == RollAttempt(s.rollResults, s.threshold, Some(outcome), None, now)
    ensures ProbabilityCurrent(s) ==> ProbabilityCurrent(r.0)
    ensures Statistics.Consistent(stats) ==> Statistics.Consistent(r.1)
  {
    var state := Dispatch(s, RecordOutcome(outcome == Success));
    if |s.rollResults| > 0 then
      var attempt := RollAttempt(s.rollResults, s.threshold, Some(outcome), None, now);
      if Statistics.Consistent(stats) then
        Statistics.AddKeepsConsistent(stats, attempt);
        (state, Statistics.AddRollAttempt(stats, attempt))
      else
        (state, Statistics.AddRollAttempt(stats, attempt))
    else
      (state, stats)
  }
}
