/**
 * The probability card of src/components/ProbabilityDisplay.tsx: which
 * probability it shows, the reduced fraction it offers as an alternative
 * to the percentage, and the sentence explaining the probability.
 */
module ProbabilityDisplay {

  import opened Common
  import AppState
  import Dice

  /**
   * The probability shown: the prop when given, else the app state's value
   * when the card reads the app state; None renders nothing.
   */
  function Shown(prop: Option<real>, app: Option<AppState.State>): (p: Option<real>)
    ensures prop.Some? ==> p == prop
    ensures prop.None? && app.Some? ==> p == app.value.successProbability
    ensures p.None? <==> prop.None? && (app.None? || app.value.successProbability.None?)
  {
    if prop.Some? then prop
    else if app.Some? then app.value.successProbability
    else None
  }

  datatype Fraction = Fraction(numerator: int, denominator: int)

  /** Whether `d` divides `x` (for a positive `d`). */
  predicate Divides(d: int, x: int)
    requires d > 0
  {
    x % d == 0
  }

  /**
   * `getFractionRepresentation`: 0 and 1 are 0/1 and 1/1; any other value
   * is rounded to hundredths and the fraction n/100 divided by
   * Euclid's gcd of n and 100.
   */
  function FractionFor(value: real): (f: Fraction)
    ensures value == 0.0 ==> f == Fraction(0, 1)
    ensures value == 1.0 ==> f == Fraction(1, 1)
    ensures value >= 0.0 ==>
      && f.denominator > 0 && Divides(f.denominator, 100)
      && f.numerator * 100 == Round(value * 100.0) * f.denominator
  {
    if value == 0.0 then Fraction(0, 1)
    else if value == 1.0 then Fraction(1, 1)
    else
      var n := Round(value * 100.0);
      var g := Gcd(n, 100);
      if n >= 0 then
        GcdDivides(n, 100);
        ReducedKeepsQuotient(n, 100, g);
        Fraction(n / g, 100 / g)
      else
        Fraction(n / g, 100 / g)
  }

  lemma ReducedKeepsQuotient(n: nat, m: nat, g: int)
    requires g > 0 && n % g == 0 && m % g == 0 && m > 0
    ensures m / g > 0 && Divides(m / g, m)
    ensures (n / g) * m == n * (m / g)
  {
    var a, b := n / g, m / g;
    assert n == g * a && m == g * b;
    assert b > 0;
    assert m == b * g;
    MultipleMod(b, g);
    MulAssoc(a, g, b);
    MulAssoc(n, 1, b);
    assert a * m == a * (g * b) == (a * g) * b == n * b;
  }

  lemma DividesBounded(x: int, y: int)
    requires x > 0 && y > 0 && x % y == 0
    ensures y <= x
  {
    var q := x / y;
    assert x == y * q;
    assert q >= 1;
    MulBounds(y, q);
  }

  lemma ScaledDivisor(g: int, a: int, d: int)
    requires g > 0 && d > 0 && a % d == 0
    ensures g * d > 0 && (g * a) % (g * d) == 0
  {
    var k := a / d;
    assert a == d * k;
    MulAssoc(g, d, k);
    MulBounds(g, d);
    MultipleMod(g * d, k);
  }

  lemma PositiveFactor(g: int, a: int)
    requires g > 0 && g * a > 0
    ensures a > 0
  {
    MulBounds(g, a);
  }

  lemma NoLargerFactor(g: int, d: int)
    requires g > 0 && d > 0 && g * d <= g
    ensures d == 1
  {
    if d > 1 {
      MulBounds(g, d - 1);
    }
  }

  /** Dividing two positive integers by their gcd leaves no common divisor but 1. */
  lemma {:induction false} ReducedIsCoprime(n: int, m: int)
    requires n > 0 && m > 0
    ensures Gcd(n, m) > 0 && n / Gcd(n, m) > 0 && Gcd(n / Gcd(n, m), m / Gcd(n, m)) == 1
  {
    var g := Gcd(n, m);
    GcdDivides(n, m);
    var a, b := n / g, m / g;
    assert n == g * a && m == g * b;
    PositiveFactor(g, a);
    PositiveFactor(g, b);
    GcdDivides(a, b);
    var d := Gcd(a, b);
    ScaledDivisor(g, a, d);
    ScaledDivisor(g, b, d);
    GcdGreatest(n, m, g * d);
    DividesBounded(g, g * d);
    NoLargerFactor(g, d);
  }

  /**
   * For every value in the display's range whose rounded numerator is
   * positive, the fraction is in lowest terms: numerator and denominator
   * have no common divisor but 1.
   */
  lemma LowestTerms(value: real)
    requires 0.0 <= value && Round(value * 100.0) > 0
    ensures var f := FractionFor(value);
      f.numerator > 0 && Gcd(f.numerator, f.denominator) == 1
  {
    if value != 1.0 {
      ReducedIsCoprime(Round(value * 100.0), 100);
    } else {
      assert Gcd(1, 1) == Gcd(1, 0) == 1;
    }
  }

  /** The sentence for a roll: the dice count, the threshold, and the reroll note exactly when ones are rerolled. */
  function RollSentence(diceCount: nat, threshold: nat, rerollOnes: bool): (text: string)
    ensures ShowsTwo(text, "Based on ", diceCount, " dice with a threshold of ", threshold)
    ensures EndsWith(text, "rolling ones.") <==> rerollOnes
  {
    var after := "+" + (if rerollOnes then " and rerolling ones" else "") + ".";
    ReadTwoBack("Based on ", diceCount, " dice with a threshold of ", threshold, after);
    RerollNote("Based on " + NatToString(diceCount) + " dice with a threshold of " + NatToString(threshold), rerollOnes);
    "Based on " + NatToString(diceCount) + " dice with a threshold of " + NatToString(threshold) + after
  }

  /** The sentence ends in "rolling ones." exactly when the reroll note is appended. */
  lemma RerollNote(front: string, rerollOnes: bool)
    ensures var text := front + ("+" + (if rerollOnes then " and rerolling ones" else "") + ".");
      EndsWith(text, "rolling ones.") <==> rerollOnes
  {
    var text := front + ("+" + (if rerollOnes then " and rerolling ones" else "") + ".");
    if rerollOnes {
      assert text[|text| - 13..] == "rolling ones.";
    } else {
      assert text[|text| - 2] == '+';
      assert "rolling ones."[11] == 's';
    }
  }

  /**
   * The sentence under the probability: when the app state has dice, it
   * names the dice count after "Based on " and the threshold after
   * " dice with a threshold of ", so a reader gets both numbers back;
   * otherwise a fixed sentence.
   */
  function Explanation(app: Option<AppState.State>): (text: string)
    ensures var mentionsRoll := app.Some? && app.value.diceCount > 0;
      && (mentionsRoll ==>
            ShowsTwo(text, "Based on ", app.value.diceCount, " dice with a threshold of ", app.value.threshold))
      && (!mentionsRoll ==> text == "Probability of a successful roll.")
      && (EndsWith(text, "rolling ones.") <==> mentionsRoll && app.value.rerollOnes)
  {
    if app.Some? && app.value.diceCount > 0 then
      RollSentence(app.value.diceCount, app.value.threshold, app.value.rerollOnes)
    else
      var generic := "Probability of a " + "successful roll.";
      assert generic[|generic| - 2] == 'l';
      assert "rolling ones."[11] == 's';
      generic
  }

  /**
   * Without a prop, the card shows the probability of the app state's
   * current parameters, a value in 0..1; right after mount that is the
   * probability of one die at threshold 4.
   */
  lemma ShownIsCurrent(s: AppState.State)
    requires AppState.ProbabilityCurrent(s)
    ensures Shown(None, Some(s)) == Some(AppState.ProbabilityFor(s))
    ensures 0.0 <= Shown(None, Some(s)).value <= 1.0
    ensures Shown(None, Some(AppState.Mount())) == Some(Dice.AtLeastOneSuccess(1, 4, false))
  {
    var p := Dice.SingleDieProbability(s.threshold, s.rerollOnes);
    assert 0.0 <= p <= 1.0;
    AppState.ProbabilityStaysCurrent(s, AppState.Unknown);
  }
}
