/**
 * The probability service of src/services/probability.ts: single-die and
 * whole-sequence probabilities and the three ways of rendering a probability
 * as text (percentage, fraction of sixths, odds).
 */
module Probability {

  import opened Common
  import Dice

  const MaxDiceValue := 6

  /** `calculateSingleDieProbability`: the share of faces at or above the threshold. */
  function SingleDieProbability(threshold: int): (p: real)
    ensures 1 <= threshold <= 7 ==> 0.0 <= p <= 1.0
    ensures threshold == 7 <==> p == 0.0
    ensures threshold == 1 <==> p == 1.0
  {
    (MaxDiceValue - threshold + 1) as real / MaxDiceValue as real
  }

  /** The same rule as the dice service without re-rolls, for every threshold. */
  lemma AgreesWithDiceService(threshold: int)
    ensures SingleDieProbability(threshold) == Dice.SingleDieProbability(threshold, false)
  {
  }

  /** `calculateSequenceProbability`: every die of the sequence must succeed. */
  function SequenceProbability(sequence: seq<Dice.DiceFace>, threshold: int): real
  {
    Pow(SingleDieProbability(threshold), |sequence|)
  }

  /** An empty sequence is certain, the result is a probability, and a longer sequence is never likelier. */
  lemma SequenceProbabilityShrinks(sequence: seq<Dice.DiceFace>, more: seq<Dice.DiceFace>, threshold: int)
    requires 1 <= threshold <= 7
    ensures SequenceProbability([], threshold) == 1.0
    ensures 0.0 <= SequenceProbability(sequence, threshold) <= 1.0
    ensures SequenceProbability(sequence + more, threshold) <= SequenceProbability(sequence, threshold)
  {
    var p := SingleDieProbability(threshold);
    PowUnitInterval(p, |sequence|);
    PowAntitone(p, |sequence|, |sequence + more|);
  }

  /** `formatAsPercentage`: the rounded percentage followed by '%'. */
  function FormatAsPercentage(probability: real): (s: string)
    ensures |s| >= 2 && s[|s| - 1] == '%'
  {
    IntToString(Round(probability * 100.0)) + "%"
  }

  /** Reading a formatted percentage back gives the rounded percentage, within half a point of the truth. */
  lemma PercentageRoundTrip(probability: real)
    ensures var s := FormatAsPercentage(probability);
      var digits := s[..|s| - 1];
      && (forall k :: 1 <= k < |digits| ==> IsDigit(digits[k]))
      && (digits[0] == '-' || IsDigit(digits[0]))
      && ParseInt(digits) == Round(probability * 100.0)
      && probability * 100.0 - 0.5 < ParseInt(digits) as real <= probability * 100.0 + 0.5
    ensures 0.0 <= probability <= 1.0 ==> 0 <= Round(probability * 100.0) <= 100
  {
    var s := FormatAsPercentage(probability);
    assert s[..|s| - 1] == IntToString(Round(probability * 100.0));
    IntToStringRoundTrip(Round(probability * 100.0));
  }

  // ---------------------------------------------------------------------------
  // Fractions of sixths
  // ---------------------------------------------------------------------------

  /** The numerator the approximation branch prints, exactly as written: 6 - ceil(6p) + 1. */
  function ApproxFacesAsWritten(probability: real): int
  {
    MaxDiceValue - Ceil(probability * MaxDiceValue as real) + 1
  }

  /** The numerator the approximation is meant to print: the number of sixths, rounded up, that p amounts to. */
  function ApproxFaces(probability: real): (k: int)
    ensures (k - 1) as real < probability * 6.0 <= k as real
    ensures 1.0 / 6.0 < probability < 1.0 ==> 2 <= k <= 6
  {
    Ceil(probability * MaxDiceValue as real)
  }

  /** The named fractions, or the approximation with the given numerator. */
  function FractionText(probability: real, approxFaces: int): string
  {
    if probability == 0.0 then "0/6"
    else if probability == 1.0 then "6/6"
    else if probability <= 1.0 / 6.0 then "≤ 1/6^n"
    else if probability == 1.0 / 6.0 then "1/6"
    else if probability == 2.0 / 6.0 then "1/3"
    else if probability == 3.0 / 6.0 then "1/2"
    else if probability == 4.0 / 6.0 then "2/3"
    else if probability == 5.0 / 6.0 then "5/6"
    else "~" + IntToString(approxFaces) + "/6^n"
  }

  /** `formatAsFraction` as written. */
  function FormatAsFractionAsWritten(probability: real): (s: string)
    ensures s != "1/6"
  {
    FractionText(probability, ApproxFacesAsWritten(probability))
  }

  /** `formatAsFraction` with the approximation numerator counting success faces. */
  function FormatAsFraction(probability: real): (s: string)
    ensures s != "1/6"
    ensures probability == 0.0 ==> s == "0/6"
    ensures probability == 1.0 ==> s == "6/6"
    ensures probability != 0.0 && probability <= 1.0 / 6.0 ==> s == "≤ 1/6^n"
  {
    FractionText(probability, ApproxFaces(probability))
  }

  /** The value a named fraction stands for. */
  function NamedFractionValue(s: string): Option<real>
  {
    if s == "0/6" then Some(0.0)
    else if s == "6/6" then Some(1.0)
    else if s == "1/3" then Some(2.0 / 6.0)
    else if s == "1/2" then Some(3.0 / 6.0)
    else if s == "2/3" then Some(4.0 / 6.0)
    else if s == "5/6" then Some(5.0 / 6.0)
    else None
  }

  /**
   * Named fractions are exact: every whole number of sixths other than one
   * is printed as a fraction that reads back as that probability, while 1/6
   * itself falls into the "≤ 1/6^n" branch first.
   */
  lemma NamedFractionsExact(k: int)
    requires 0 <= k <= 6
    ensures k != 1 ==> NamedFractionValue(FormatAsFraction(k as real / 6.0)) == Some(k as real / 6.0)
    ensures k == 1 ==> FormatAsFraction(k as real / 6.0) == "≤ 1/6^n"
  {
  }

  /**
   * The approximation as written counts the wrong way: a probability of
   * 0.9, above five sixths, is printed as about one sixth.
   */
  lemma ApproximationAsWrittenIsInverted()
    ensures FormatAsFractionAsWritten(0.9) == "~1/6^n"
    ensures ApproxFacesAsWritten(0.9) == 1 && 0.9 > 5.0 / 6.0
  {
    assert Ceil(0.9 * 6.0) == 6;
    assert IntToString(1) == "1";
  }

  /** The corrected approximation prints the smallest whole number of sixths not below the probability. */
  lemma ApproximationBracketsProbability(probability: real)
    requires 1.0 / 6.0 < probability < 1.0
    requires probability !in {2.0 / 6.0, 3.0 / 6.0, 4.0 / 6.0, 5.0 / 6.0}
    ensures var k := ApproxFaces(probability);
      && FormatAsFraction(probability) == "~" + IntToString(k) + "/6^n"
      && 2 <= k <= 6 && (k - 1) as real / 6.0 < probability <= k as real / 6.0
  {
  }

  // ---------------------------------------------------------------------------
  // Odds
  // ---------------------------------------------------------------------------

  /** How a number of tenths prints after `/ 10`: whole numbers without a decimal point. */
  function TenthsText(k: nat): (s: string)
    ensures |s| > 0
  {
    NatToString(k / 10) + (if k % 10 == 0 then "" else "." + [DigitChar(k % 10)])
  }

  predicate TenthsShape(s: string)
  {
    && |s| > 0
    && (forall i :: 0 <= i < |s| && i != |s| - 2 ==> IsDigit(s[i]))
    && (|s| >= 2 ==> IsDigit(s[|s| - 2]) || (s[|s| - 2] == '.' && |s| >= 3))
  }

  /** Reads a number printed by TenthsText back as a count of tenths. */
  function ParseTenths(s: string): nat
    requires TenthsShape(s)
  {
    if |s| >= 2 && s[|s| - 2] == '.' then ParseNat(s[..|s| - 2]) * 10 + DigitValue(s[|s| - 1])
    else ParseNat(s) * 10
  }

  lemma TenthsRoundTrip(k: nat)
    ensures TenthsShape(TenthsText(k)) && ParseTenths(TenthsText(k)) == k
  {
    var w := NatToString(k / 10);
    ParseNatToString(k / 10);
    var s := TenthsText(k);
    if k % 10 != 0 {
      assert s == w + ['.', DigitChar(k % 10)];
      assert s[..|s| - 2] == w;
    } else {
      assert s == w;
    }
  }

  /** The larger share over the smaller, rounded to tenths. */
  function OddsTenths(probability: real): (k: nat)
    requires 0.0 < probability < 1.0
    ensures var success := probability;
      var failure := 1.0 - probability;
      var ratio := if success > failure then success / failure else failure / success;
      ratio * 10.0 - 0.5 < k as real <= ratio * 10.0 + 0.5 && k >= 10
  {
    var success := probability;
    var failure := 1.0 - probability;
    var ratio := if success > failure then success / failure else failure / success;
    assert ratio >= 1.0 by {
      if success > failure {
        RatioAtLeastOne(success, failure);
      } else {
        RatioAtLeastOne(failure, success);
      }
    }
    Round(ratio * 10.0)
  }

  lemma RatioAtLeastOne(a: real, b: real)
    requires 0.0 < b <= a
    ensures a / b >= 1.0
  {
    assert a / b * b == a;
  }

  /** `calculateOdds`. */
  function CalculateOdds(probability: real): (s: string)
    ensures probability <= 0.0 ==> s == "0:1"
    ensures probability >= 1.0 ==> s == "1:0"
    ensures 0.0 < probability < 1.0 && probability > 1.0 - probability ==> s == TenthsText(OddsTenths(probability)) + ":1"
    ensures 0.0 < probability < 1.0 && probability <= 1.0 - probability ==> s == "1:" + TenthsText(OddsTenths(probability))
  {
    if probability <= 0.0 then "0:1"
    else if probability >= 1.0 then "1:0"
    else if probability > 1.0 - probability then TenthsText(OddsTenths(probability)) + ":1"
    else "1:" + TenthsText(OddsTenths(probability))
  }

  /** Splits printed odds at the colon and reads both sides as tenths. */
  function ReadOdds(s: string): Option<(nat, nat)>
  {
    var i := FindIndex(s, (c: char) => c == ':');
    if i < 0 then None
    else if TenthsShape(s[..i]) && TenthsShape(s[i + 1..]) then Some((ParseTenths(s[..i]), ParseTenths(s[i + 1..])))
    else None
  }

  lemma ReadOddsOf(t: string, u: string)
    requires TenthsShape(t) && TenthsShape(u)
    ensures ReadOdds(t + ":" + u) == Some((ParseTenths(t), ParseTenths(u)))
  {
    var s := t + ":" + u;
    assert forall j :: 0 <= j < |t| ==> s[j] == t[j] && s[j] != ':';
    assert s[|t|] == ':';
    var i := FindIndex(s, (c: char) => c == ':');
    assert i == |t|;
    assert s[..i] == t && s[i + 1..] == u;
  }

  /**
   * Odds read back: both sides parse as tenths; the favoured side carries
   * the ratio, never below 1:1, and the other side is exactly 1; the printed
   * ratio is the true success-to-failure ratio (or its inverse) to within
   * half a tenth.
   */
  lemma OddsReadBack(probability: real)
    requires 0.0 < probability < 1.0
    ensures var k := OddsTenths(probability);
      && (probability > 1.0 - probability ==> ReadOdds(CalculateOdds(probability)) == Some((k, 10)))
      && (probability <= 1.0 - probability ==> ReadOdds(CalculateOdds(probability)) == Some((10, k)))
      && k >= 10
  {
    var k := OddsTenths(probability);
    var t := TenthsText(k);
    TenthsRoundTrip(k);
    OneIsTen();
    if probability > 1.0 - probability {
      assert CalculateOdds(probability) == t + ":" + "1";
      ReadOddsOf(t, "1");
    } else {
      assert CalculateOdds(probability) == "1" + ":" + t;
      ReadOddsOf("1", t);
    }
  }

  lemma OneIsTen()
    ensures TenthsShape("1") && ParseTenths("1") == 10
    ensures TenthsShape("0") && ParseTenths("0") == 0
  {
    TenthsRoundTrip(10);
    TenthsRoundTrip(0);
    assert TenthsText(10) == "1" && TenthsText(0) == "0";
  }

  /** Certain failure prints as 0:1 and certain success as 1:0. */
  lemma OddsExtremes(probability: real)
    ensures probability <= 0.0 ==> ReadOdds(CalculateOdds(probability)) == Some((0, 10))
    ensures probability >= 1.0 ==> ReadOdds(CalculateOdds(probability)) == Some((10, 0))
  {
    OneIsTen();
    ReadOddsOf("0", "1");
    ReadOddsOf("1", "0");
    assert "0:1" == "0" + ":" + "1" && "1:0" == "1" + ":" + "0";
  }
}
