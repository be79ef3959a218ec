/**
 * The roll service of src/services/diceRollService.ts: a roll with optional
 * parameters, the success and failure counts, the statistics attempt it
 * records (outcome and first failing die), the success probability and the
 * expected number of successes.
 */
module DiceRoll {

  import opened Common
  import opened Dice

  /** DEFAULT_THRESHOLD of src/constants.ts. */
  const DefaultThreshold: DiceFace := 4

  /** The options of a roll; None is an option the caller left out. */
  datatype RollOptions = RollOptions(numDice: Option<int>, threshold: Option<DiceFace>, rerollOnes: Option<bool>)

  datatype DiceRollResult = DiceRollResult(
    values: seq<DiceFace>, successes: nat, failures: int, threshold: DiceFace, timestamp: int)

  /** The attempt recorded for a roll: success iff some die met the threshold, and the first die that did not. */
  function AttemptFor(values: seq<DiceFace>, threshold: DiceFace, timestamp: int): (a: RollAttempt)
    ensures a.sequence == values && a.threshold == threshold && a.timestamp == timestamp
    ensures a.outcome == Some(Success) <==> exists i :: 0 <= i < |values| && values[i] >= threshold
    ensures a.outcome == Some(Failure) <==> forall i :: 0 <= i < |values| ==> values[i] < threshold
    ensures a.failedAt.Some? <==> exists i :: 0 <= i < |values| && values[i] < threshold
    ensures a.failedAt.Some? ==>
      var k := a.failedAt.value;
      0 <= k < |values| && values[k] < threshold && forall j :: 0 <= j < k ==> values[j] >= threshold
  {
    var successes := Successes(values, threshold);
    var failures := |values| - successes;
    CountWhereComplement(values, (v: DiceFace) => v >= threshold, (v: DiceFace) => v < threshold);
    CountWherePositive(values, (v: DiceFace) => v < threshold);
    RollAttempt(values, threshold,
                Some(if successes > 0 then Success else Failure),
                if failures > 0 then Some(FindIndex(values, (v: DiceFace) => v < threshold)) else None,
                timestamp)
  }

  /**
   * `diceRollService.rollDice`: one die by default, threshold 4 and no
   * re-rolls unless asked; returns the result and the attempt it hands to
   * the statistics service. `now` is the Date.now() of the roll.
   */
  method RollDice(options: RollOptions, draws: seq<DieDraws>, now: int) returns (result: DiceRollResult, attempt: RollAttempt)
    requires options.numDice.GetOr(1) <= |draws|
    requires forall i :: 0 <= i < |draws| ==> DieDrawsOk(draws[i])
    ensures |result.values| == Max(options.numDice.GetOr(1), 0)
    ensures result.threshold == options.threshold.GetOr(DefaultThreshold)
    ensures forall i :: 0 <= i < |result.values| ==> result.values[i] == FinalFace(draws[i], options.rerollOnes.GetOr(false))
    ensures result.successes + result.failures == |result.values|
    ensures result.successes > 0 <==> exists i :: 0 <= i < |result.values| && result.values[i] >= result.threshold
    ensures attempt == AttemptFor(result.values, result.threshold, now) && result.timestamp == now
  {
    var numDice := options.numDice.GetOr(1);
    var threshold := options.threshold.GetOr(DefaultThreshold);
    var rerollOnes := options.rerollOnes.GetOr(false);
    var values := RollFaces(numDice, rerollOnes, draws);
    var successes := Successes(values, threshold);
    result := DiceRollResult(values, successes, |values| - successes, threshold, now);
    attempt := AttemptFor(values, threshold, now);
  }

  /** `calculateSuccessProbability`; re-rolling defaults to off. */
  function SuccessProbability(threshold: DiceFace, rerollOnes: Option<bool>): (p: real)
    ensures 0.0 <= p <= 1.0
    ensures !rerollOnes.GetOr(false) || threshold == 1 ==> p == (7 - threshold) as real / 6.0
  {
    var successValues := (7 - threshold) as real;
    if !rerollOnes.GetOr(false) then successValues / 6.0
    else if threshold <= 1 then successValues / 6.0
    else successValues / 6.0 + (1.0 / 6.0) * (successValues / 6.0)
  }

  /**
   * On real die faces both services agree: the `threshold <= 1` branch of
   * this one keeps (7 - t) / 6, which for t = 1 is the 1 the other returns.
   */
  lemma AgreesWithDiceService(threshold: DiceFace, rerollOnes: bool)
    ensures SuccessProbability(threshold, Some(rerollOnes)) == SingleDieProbability(threshold, rerollOnes)
  {
  }

  /** `calculateExpectedSuccesses`. */
  function ExpectedSuccesses(numDice: real, threshold: DiceFace, rerollOnes: Option<bool>): (e: real)
    ensures numDice >= 0.0 ==> 0.0 <= e <= numDice
  {
    ProductBounded(numDice, SuccessProbability(threshold, rerollOnes));
    numDice * SuccessProbability(threshold, rerollOnes)
  }

  lemma ProductBounded(n: real, p: real)
    requires 0.0 <= p <= 1.0
    ensures n >= 0.0 ==> 0.0 <= n * p <= n
  {
    if n >= 0.0 {
      assert n * p <= n * 1.0;
    }
  }

  /** Expectation is additive: splitting the dice into two pools splits the expected successes. */
  lemma ExpectedSuccessesAdditive(a: real, b: real, threshold: DiceFace, rerollOnes: Option<bool>)
    ensures ExpectedSuccesses(a + b, threshold, rerollOnes)
      == ExpectedSuccesses(a, threshold, rerollOnes) + ExpectedSuccesses(b, threshold, rerollOnes)
  {
  }
}
