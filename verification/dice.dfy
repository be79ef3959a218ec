/**
 * The dice vocabulary of src/types/index.ts and the dice service of
 * src/services/diceService.ts: rolling d6s with an optional single re-roll of
 * ones, the outcome rule, and the single-die and at-least-one-success
 * probabilities. The artificial 500 ms delay before a roll is not modelled.
 */
module Dice {

  import opened Common

  /** A face of a six-sided die. */
  type DiceFace = f: int | 1 <= f <= 6 witness 1

  datatype RollOutcome = Success | Failure

  /** One recorded attempt: the dice, the threshold, and, once known, its outcome and first failing die. */
  datatype RollAttempt = RollAttempt(
    sequence: seq<DiceFace>,
    threshold: int,
    outcome: Option<RollOutcome>,
    failedAt: Option<int>,
    timestamp: int)

  /** A value of Math.random(). */
  predicate IsDraw(r: real)
  {
    0.0 <= r < 1.0
  }

  /** `Math.floor(Math.random() * 6) + 1`. */
  function FaceOf(r: real): (f: DiceFace)
    requires IsDraw(r)
    ensures (f - 1) as real <= r * 6.0 < f as real
  {
    (r * 6.0).Floor + 1
  }

  /** The draws for one die: the first roll, and the one used only if a 1 is re-rolled. */
  datatype DieDraws = DieDraws(first: real, second: real)

  predicate DieDrawsOk(d: DieDraws)
  {
    IsDraw(d.first) && IsDraw(d.second)
  }

  /** The face that stays: a 1 is rolled again, once, when re-rolling ones. */
  function Kept(first: DiceFace, second: DiceFace, rerollOnes: bool): (f: DiceFace)
    ensures f == first || (rerollOnes && first == 1 && f == second)
    ensures !rerollOnes ==> f == first
  {
    if rerollOnes && first == 1 then second else first
  }

  function FinalFace(d: DieDraws, rerollOnes: bool): DiceFace
    requires DieDrawsOk(d)
  {
    Kept(FaceOf(d.first), FaceOf(d.second), rerollOnes)
  }

  /**
   * The rolling loop shared by both roll services: one face per die, none
   * for a non-positive count.
   */
  method RollFaces(diceCount: int, rerollOnes: bool, draws: seq<DieDraws>) returns (rolls: seq<DiceFace>)
    requires diceCount <= |draws|
    requires forall i :: 0 <= i < |draws| ==> DieDrawsOk(draws[i])
    ensures |rolls| == Max(diceCount, 0)
    ensures forall i :: 0 <= i < |rolls| ==> rolls[i] == FinalFace(draws[i], rerollOnes)
  {
    rolls := [];
    var i := 0;
    while i < diceCount
      invariant 0 <= i == |rolls| <= Max(diceCount, 0)
      invariant forall k :: 0 <= k < i ==> rolls[k] == FinalFace(draws[k], rerollOnes)
    {
      var roll := FaceOf(draws[i].first);
      if rerollOnes && roll == 1 {
        roll := FaceOf(draws[i].second);
      }
      rolls := rolls + [roll];
      i := i + 1;
    }
  }

  /** The number of rolls meeting the threshold: `rolls.filter(r => r >= threshold).length`. */
  function Successes(rolls: seq<DiceFace>, threshold: int): (n: nat)
    ensures n <= |rolls|
    ensures n > 0 <==> exists i :: 0 <= i < |rolls| && rolls[i] >= threshold
  {
    CountWherePositive(rolls, (r: DiceFace) => r >= threshold);
    CountWhere(rolls, (r: DiceFace) => r >= threshold)
  }

  /** `diceService.rollDice`: the faces, and success iff at least one die meets the threshold. */
  method RollDice(diceCount: int, threshold: int, rerollOnes: bool, draws: seq<DieDraws>)
    returns (rolls: seq<DiceFace>, outcome: RollOutcome)
    requires diceCount <= |draws|
    requires forall i :: 0 <= i < |draws| ==> DieDrawsOk(draws[i])
    ensures |rolls| == Max(diceCount, 0)
    ensures forall i :: 0 <= i < |rolls| ==> rolls[i] == FinalFace(draws[i], rerollOnes)
    ensures outcome == Success <==> exists i :: 0 <= i < |rolls| && rolls[i] >= threshold
  {
    rolls := RollFaces(diceCount, rerollOnes, draws);
    outcome := if Successes(rolls, threshold) > 0 then Success else Failure;
  }

  // ---------------------------------------------------------------------------
  // Probabilities
  // ---------------------------------------------------------------------------

  /** `calculateSingleDieProbability`. */
  function SingleDieProbability(threshold: int, rerollOnes: bool): (p: real)
    ensures !rerollOnes ==> p == (7 - threshold) as real / 6.0
    ensures rerollOnes && threshold <= 1 ==> p == 1.0
    ensures rerollOnes && threshold > 1 ==> p == 7.0 * (7 - threshold) as real / 36.0
  {
    var successValues := (7 - threshold) as real;
    if !rerollOnes then successValues / 6.0
    else if threshold <= 1 then 1.0
    else successValues / 6.0 + (1.0 / 6.0) * (successValues / 6.0)
  }

  /** The number of second faces 1..hi that, after `first`, leave a face meeting the threshold. */
  function SecondsMeeting(threshold: int, rerollOnes: bool, first: DiceFace, hi: nat): nat
    requires hi <= 6
  {
    if hi == 0 then 0
    else SecondsMeeting(threshold, rerollOnes, first, hi - 1) + (if Kept(first, hi, rerollOnes) >= threshold then 1 else 0)
  }

  /** The number of equally likely (first, second) pairs with first in 1..hi whose kept face meets the threshold. */
  function PairsMeeting(threshold: int, rerollOnes: bool, hi: nat): nat
    requires hi <= 6
  {
    if hi == 0 then 0
    else PairsMeeting(threshold, rerollOnes, hi - 1) + SecondsMeeting(threshold, rerollOnes, hi, 6)
  }

  lemma {:induction false} SecondsCount(threshold: int, rerollOnes: bool, first: DiceFace, hi: nat)
    requires hi <= 6
    ensures rerollOnes && first == 1 ==> SecondsMeeting(threshold, rerollOnes, first, hi) == Clamp(hi - threshold + 1, 0, hi)
    ensures !(rerollOnes && first == 1) ==> SecondsMeeting(threshold, rerollOnes, first, hi) == if first >= threshold then hi else 0
  {
    if hi > 0 {
      SecondsCount(threshold, rerollOnes, first, hi - 1);
    }
  }

  function Clamp(x: int, lo: int, hi: int): (r: int)
    requires lo <= hi
    ensures lo <= r <= hi
    ensures lo <= x <= hi ==> r == x
  {
    if x < lo then lo else if x > hi then hi else x
  }

  lemma {:induction false} PairsCount(threshold: int, rerollOnes: bool, hi: nat)
    requires 1 <= hi <= 6
    ensures PairsMeeting(threshold, rerollOnes, hi) ==
      (if rerollOnes then Clamp(7 - threshold, 0, 6) else 6 * Clamp(2 - threshold, 0, 1))
      + 6 * Clamp(hi - Max(threshold, 2) + 1, 0, hi - 1)
  {
    SecondsCount(threshold, rerollOnes, hi, 6);
    if hi > 1 {
      PairsCount(threshold, rerollOnes, hi - 1);
    } else {
      SecondsCount(threshold, rerollOnes, 1, 6);
    }
  }

  /**
   * The closed forms agree with counting: for every threshold up to 7 (and,
   * without re-rolls, at least 1), the probability equals the share of the 36
   * equally likely (first roll, re-roll) pairs whose kept face meets the
   * threshold.
   */
  lemma SingleDieMatchesCount(threshold: int, rerollOnes: bool)
    requires threshold <= 7 && (rerollOnes || threshold >= 1)
    ensures SingleDieProbability(threshold, rerollOnes) == PairsMeeting(threshold, rerollOnes, 6) as real / 36.0
  {
    PairsCount(threshold, rerollOnes, 6);
  }

  /** For thresholds 2..6 the probability is a proper probability, and re-rolling ones never lowers it. */
  lemma RerollNeverLowers(threshold: int)
    requires 2 <= threshold <= 6
    ensures 0.0 <= SingleDieProbability(threshold, false) <= SingleDieProbability(threshold, true) <= 1.0
  {
  }

  /** `calculateProbability`: one minus the chance that every die fails. */
  function AtLeastOneSuccess(diceCount: nat, threshold: int, rerollOnes: bool): real
  {
    1.0 - Pow(1.0 - SingleDieProbability(threshold, rerollOnes), diceCount)
  }

  /**
   * The recurrence that justifies the formula: with one die more, either
   * that die succeeds or it fails and the others produce a success.
   */
  lemma AtLeastOneRecurrence(diceCount: nat, threshold: int, rerollOnes: bool)
    ensures AtLeastOneSuccess(0, threshold, rerollOnes) == 0.0
    ensures var p := SingleDieProbability(threshold, rerollOnes);
      AtLeastOneSuccess(diceCount + 1, threshold, rerollOnes)
        == p + (1.0 - p) * AtLeastOneSuccess(diceCount, threshold, rerollOnes)
  {
  }

  /** For a proper single-die probability the result is a probability, and more dice never lower it. */
  lemma AtLeastOneBounds(m: nat, n: nat, threshold: int, rerollOnes: bool)
    requires 0.0 <= SingleDieProbability(threshold, rerollOnes) <= 1.0
    requires m <= n
    ensures 0.0 <= AtLeastOneSuccess(n, threshold, rerollOnes) <= 1.0
    ensures AtLeastOneSuccess(m, threshold, rerollOnes) <= AtLeastOneSuccess(n, threshold, rerollOnes)
  {
    var q := 1.0 - SingleDieProbability(threshold, rerollOnes);
    PowUnitInterval(q, n);
    PowAntitone(q, m, n);
  }
}
