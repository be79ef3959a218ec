/**
 * The success-rate card of src/components/SuccessRateDisplay.tsx: the rate
 * in percent computed from the loaded counters, the colour band it is
 * shown in, and the "Based on N total roll(s)" line. Number formatting
 * (`toFixed`) is left to the renderer.
 */
module SuccessRate {

  import opened Common
  import Statistics

  datatype Card = Card(successRate: real, totalRolls: int, isLoading: bool)

  const InitialCard := Card(0.0, 0, true)

  /** What `getStatistics` gave: an exception, nothing, or counters (a missing counter is None). */
  datatype Loaded = LoadThrew | NothingLoaded | Counters(total: Option<int>, successful: Option<int>)

  /** `(successful / total) * 100` for a positive total, else 0. */
  function RatePercent(total: int, successful: int): (rate: real)
    ensures total <= 0 ==> rate == 0.0
    ensures total > 0 && 0 <= successful <= total ==> 0.0 <= rate <= 100.0
    ensures total > 0 ==> rate * total as real == successful as real * 100.0
  {
    if total > 0 then
      var fraction := successful as real / total as real;
      assert 0 <= successful <= total ==> fraction <= 1.0;
      fraction * 100.0
    else 0.0
  }

  /** `loadStatistics`: counters replace the rate and total (missing ones count as 0); loading ends in every case. */
  function Load(c: Card, loaded: Loaded): (r: Card)
    ensures !r.isLoading
    ensures !loaded.Counters? ==> r.successRate == c.successRate && r.totalRolls == c.totalRolls
    ensures loaded.Counters? ==>
      r.totalRolls == loaded.total.GetOr(0)
      && r.successRate == RatePercent(loaded.total.GetOr(0), loaded.successful.GetOr(0))
  {
    match loaded
    case Counters(total, successful) =>
      var t := total.GetOr(0);
      Card(RatePercent(t, successful.GetOr(0)), t, false)
    case _ => c.(isLoading := false)
  }

  /** Loading the service's consistent counters shows its success rate in percent. */
  lemma ShowsServiceRate(c: Card, s: Statistics.Service)
    requires Statistics.Consistent(s)
    ensures var st := s.statistics;
      Load(c, Counters(Some(st.totalRolls), Some(st.successfulRolls))).successRate == st.successRate * 100.0
  {
  }

  datatype Band = ErrorBand | PrimaryBand | SuccessBand

  /** `getColorForRate`. */
  function BandFor(rate: real): (b: Band)
    ensures b == SuccessBand <==> rate >= 70.0
    ensures b == PrimaryBand <==> 40.0 <= rate < 70.0
    ensures b == ErrorBand <==> rate < 40.0
  {
    if rate >= 70.0 then SuccessBand
    else if rate >= 40.0 then PrimaryBand
    else ErrorBand
  }

  function BandRank(b: Band): nat
  {
    match b
    case ErrorBand => 0
    case PrimaryBand => 1
    case SuccessBand => 2
  }

  /** A higher rate never shows in a worse band. */
  lemma BandMonotonic(x: real, y: real)
    requires x <= y
    ensures BandRank(BandFor(x)) <= BandRank(BandFor(y))
  {
  }

  /** The total line: the number of rolls after "Based on ", then "roll" exactly when there was one roll. */
  function TotalLine(totalRolls: int): (text: string)
    ensures ShowsInt(text, "Based on ", totalRolls)
    ensures EndsWith(text, " roll") <==> totalRolls == 1
    ensures EndsWith(text, " rolls") <==> totalRolls != 1
  {
    var tail := " total " + (if totalRolls == 1 then "roll" else "rolls");
    ReadIntAfter("Based on ", totalRolls, tail);
    RollWord("Based on " + IntToString(totalRolls), totalRolls);
    "Based on " + IntToString(totalRolls) + tail
  }

  /** The line ends in " roll" for one roll and in " rolls" otherwise. */
  lemma RollWord(front: string, totalRolls: int)
    ensures var text := front + (" total " + (if totalRolls == 1 then "roll" else "rolls"));
      && (EndsWith(text, " roll") <==> totalRolls == 1)
      && (EndsWith(text, " rolls") <==> totalRolls != 1)
  {
    var text := front + (" total " + (if totalRolls == 1 then "roll" else "rolls"));
    if totalRolls == 1 {
      assert text[|text| - 5..] == " roll";
      assert text[|text| - 1] == 'l';
    } else {
      assert text[|text| - 6..] == " rolls";
      assert text[|text| - 1] == 's';
      assert text[|text| - 5] == 'r';
    }
  }
}
