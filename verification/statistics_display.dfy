/**
 * The detailed statistics of src/components/StatisticsDisplay.tsx: the
 * history is grouped by threshold and by number of dice, each group
 * counting its rolls and successes, and the rows shown for the active
 * filter. A group list is kept in ascending key order, the order the rows
 * are sorted into before display. Number formatting (`toFixed`) is left
 * to the renderer; percentages are exact reals.
 */
module StatisticsDisplay {

  import opened Common
  import opened Dice
  import Statistics

  datatype GroupBy = ByThreshold | ByDiceCount

  /** The key a history entry is grouped under. */
  function KeyOf(a: RollAttempt, grouping: GroupBy): int
  {
    match grouping
    case ByThreshold => a.threshold
    case ByDiceCount => |a.sequence|
  }

  predicate IsSuccess(a: RollAttempt)
  {
    a.outcome == Some(Success)
  }

  datatype Group = Group(key: int, totalRolls: nat, successfulRolls: nat)

  /** Keys strictly ascending, and no group with more successes than rolls. */
  predicate WellFormed(gs: seq<Group>)
  {
    && (forall i, j :: 0 <= i < j < |gs| ==> gs[i].key < gs[j].key)
    && (forall i :: 0 <= i < |gs| ==> gs[i].successfulRolls <= gs[i].totalRolls)
  }

  /** The rolls counted under key `k` (0 when there is no such group). */
  function TotalAt(gs: seq<Group>, k: int): nat
  {
    if |gs| == 0 then 0 else (if gs[0].key == k then gs[0].totalRolls else 0) + TotalAt(gs[1..], k)
  }

  /** The successes counted under key `k`. */
  function SuccessesAt(gs: seq<Group>, k: int): nat
  {
    if |gs| == 0 then 0 else (if gs[0].key == k then gs[0].successfulRolls else 0) + SuccessesAt(gs[1..], k)
  }

  /** The rolls counted over all groups. */
  function TotalOf(gs: seq<Group>): nat
  {
    if |gs| == 0 then 0 else gs[0].totalRolls + TotalOf(gs[1..])
  }

  /** One roll under key `k`: its group is created if missing, then counted. */
  function Bump(gs: seq<Group>, k: int, success: bool): seq<Group>
  {
    var created := Group(k, 1, if success then 1 else 0);
    if |gs| == 0 then [created]
    else if gs[0].key == k then
      [gs[0].(totalRolls := gs[0].totalRolls + 1, successfulRolls := gs[0].successfulRolls + (if success then 1 else 0))] + gs[1..]
    else if k < gs[0].key then [created] + gs
    else [gs[0]] + Bump(gs[1..], k, success)
  }

  /** Counting one roll adds one roll (and its success) under its key and nowhere else. */
  lemma {:induction false} BumpCounts(gs: seq<Group>, k: int, success: bool, j: int)
    ensures TotalAt(Bump(gs, k, success), j) == TotalAt(gs, j) + (if j == k then 1 else 0)
    ensures SuccessesAt(Bump(gs, k, success), j) == SuccessesAt(gs, j) + (if j == k && success then 1 else 0)
    ensures TotalOf(Bump(gs, k, success)) == TotalOf(gs) + 1
  {
    var r := Bump(gs, k, success);
    if |gs| == 0 {
      assert r[1..] == [];
    } else if gs[0].key == k {
      assert r[1..] == gs[1..];
    } else if k < gs[0].key {
      assert r[1..] == gs;
    } else {
      BumpCounts(gs[1..], k, success, j);
      assert r[1..] == Bump(gs[1..], k, success);
    }
  }

  /** Some group of `gs` has key `key`. */
  predicate HasKey(gs: seq<Group>, key: int)
  {
    exists j :: 0 <= j < |gs| && gs[j].key == key
  }

  /** Counting one roll adds no key but its own. */
  lemma {:induction false} BumpKeysFrom(gs: seq<Group>, k: int, success: bool)
    ensures forall i :: 0 <= i < |Bump(gs, k, success)| ==>
      Bump(gs, k, success)[i].key == k || HasKey(gs, Bump(gs, k, success)[i].key)
  {
    var r := Bump(gs, k, success);
    if |gs| > 0 && gs[0].key != k && k >= gs[0].key {
      var rest := Bump(gs[1..], k, success);
      BumpKeysFrom(gs[1..], k, success);
      assert r == [gs[0]] + rest;
      forall i | 0 < i < |r| && r[i].key != k
        ensures HasKey(gs, r[i].key)
      {
        assert r[i] == rest[i - 1];
        assert HasKey(gs[1..], rest[i - 1].key);
        var j :| 0 <= j < |gs[1..]| && gs[1..][j].key == r[i].key;
        assert gs[j + 1].key == r[i].key;
      }
    } else if |gs| > 0 && gs[0].key == k {
      forall i | 0 < i < |r|
        ensures HasKey(gs, r[i].key)
      {
        assert r[i] == gs[i];
      }
    } else if |gs| > 0 {
      forall i | 0 < i < |r|
        ensures HasKey(gs, r[i].key)
      {
        assert r[i] == gs[i - 1];
      }
    }
  }

  /** Counting one roll keeps the groups well formed, and adds no key but its own. */
  lemma {:induction false} BumpWellFormed(gs: seq<Group>, k: int, success: bool)
    requires WellFormed(gs)
    ensures WellFormed(Bump(gs, k, success))
    ensures forall i :: 0 <= i < |Bump(gs, k, success)| ==>
      Bump(gs, k, success)[i].key == k || HasKey(gs, Bump(gs, k, success)[i].key)
  {
    BumpKeysFrom(gs, k, success);
    if |gs| > 0 && gs[0].key != k && k >= gs[0].key {
      var rest := Bump(gs[1..], k, success);
      BumpWellFormed(gs[1..], k, success);
      assert Bump(gs, k, success) == [gs[0]] + rest;
      forall i | 0 <= i < |rest|
        ensures gs[0].key < rest[i].key
      {
        if rest[i].key != k {
          assert HasKey(gs[1..], rest[i].key);
          var j :| 0 <= j < |gs[1..]| && gs[1..][j].key == rest[i].key;
          assert gs[j + 1].key == rest[i].key;
        }
      }
    }
  }

  /** A key below every key of a well-formed list has no rolls. */
  lemma {:induction false} AbsentBelow(gs: seq<Group>, k: int)
    requires WellFormed(gs) && (|gs| > 0 ==> k < gs[0].key)
    ensures TotalAt(gs, k) == 0 && SuccessesAt(gs, k) == 0
  {
    if |gs| > 0 {
      AbsentBelow(gs[1..], k);
    }
  }

  /** The number of history entries under key `k`. */
  function CountUnder(history: seq<RollAttempt>, grouping: GroupBy, k: int): nat
  {
    CountWhere(history, (a: RollAttempt) => KeyOf(a, grouping) == k)
  }

  /** The number of successful history entries under key `k`. */
  function SuccessesUnder(history: seq<RollAttempt>, grouping: GroupBy, k: int): nat
  {
    CountWhere(history, (a: RollAttempt) => KeyOf(a, grouping) == k && IsSuccess(a))
  }

  /**
   * The `forEach` over the history for one grouping: each entry is counted
   * once under its key, so every group holds exactly the entries with its
   * key, and the groups together hold the whole history.
   */
  method Aggregate(history: seq<RollAttempt>, grouping: GroupBy) returns (gs: seq<Group>)
    ensures WellFormed(gs)
    ensures forall k :: TotalAt(gs, k) == CountUnder(history, grouping, k)
    ensures forall k :: SuccessesAt(gs, k) == SuccessesUnder(history, grouping, k)
    ensures TotalOf(gs) == |history|
  {
    gs := [];
    var i := 0;
    while i < |history|
      invariant 0 <= i <= |history|
      invariant WellFormed(gs)
      invariant forall k :: TotalAt(gs, k) == CountUnder(history[..i], grouping, k)
      invariant forall k :: SuccessesAt(gs, k) == SuccessesUnder(history[..i], grouping, k)
      invariant TotalOf(gs) == i
    {
      var a := history[i];
      StepCounts(history, i, grouping);
      BumpWellFormed(gs, KeyOf(a, grouping), IsSuccess(a));
      forall k {
        BumpCounts(gs, KeyOf(a, grouping), IsSuccess(a), k);
      }
      gs := Bump(gs, KeyOf(a, grouping), IsSuccess(a));
      i := i + 1;
    }
    assert history[..i] == history;
  }

  /** Counting one more entry of the history. */
  lemma StepCounts(history: seq<RollAttempt>, i: int, grouping: GroupBy)
    requires 0 <= i < |history|
    ensures forall k :: CountUnder(history[..i + 1], grouping, k) == CountUnder(history[..i], grouping, k) + (if KeyOf(history[i], grouping) == k then 1 else 0)
    ensures forall k ::
      SuccessesUnder(history[..i + 1], grouping, k)
      == SuccessesUnder(history[..i], grouping, k) + (if KeyOf(history[i], grouping) == k && IsSuccess(history[i]) then 1 else 0)
  {
    var a := history[i];
    assert history[..i + 1] == history[..i] + [a];
    assert [a][1..] == [];
    forall k
      ensures CountUnder(history[..i + 1], grouping, k) == CountUnder(history[..i], grouping, k) + (if KeyOf(a, grouping) == k then 1 else 0)
      ensures SuccessesUnder(history[..i + 1], grouping, k)
        == SuccessesUnder(history[..i], grouping, k) + (if KeyOf(a, grouping) == k && IsSuccess(a) then 1 else 0)
    {
      CountWhereAppend(history[..i], [a], (x: RollAttempt) => KeyOf(x, grouping) == k);
      CountWhereAppend(history[..i], [a], (x: RollAttempt) => KeyOf(x, grouping) == k && IsSuccess(x));
    }
  }

  /** Both groupings, as the component stores them. */
  datatype Derived = Derived(byThreshold: seq<Group>, byDiceCount: seq<Group>)

  const NoGroups := Derived([], [])

  /** The effect on a new history: an empty one leaves the previous groups in place. */
  method Derive(previous: Derived, history: seq<RollAttempt>) returns (d: Derived)
    ensures |history| == 0 ==> d == previous
    ensures |history| > 0 ==>
      && WellFormed(d.byThreshold) && WellFormed(d.byDiceCount)
      && TotalOf(d.byThreshold) == |history| && TotalOf(d.byDiceCount) == |history|
      && (forall k :: TotalAt(d.byThreshold, k) == CountUnder(history, ByThreshold, k))
      && (forall k :: TotalAt(d.byDiceCount, k) == CountUnder(history, ByDiceCount, k))
      && (forall k :: SuccessesAt(d.byThreshold, k) == SuccessesUnder(history, ByThreshold, k))
      && (forall k :: SuccessesAt(d.byDiceCount, k) == SuccessesUnder(history, ByDiceCount, k))
  {
    if |history| == 0 {
      return previous;
    }
    var byThreshold := Aggregate(history, ByThreshold);
    var byDiceCount := Aggregate(history, ByDiceCount);
    d := Derived(byThreshold, byDiceCount);
  }

  // ---------------------------------------------------------------------------
  // Rows
  // ---------------------------------------------------------------------------

  datatype Filter = All | ThresholdFilter | DiceCountFilter

  /** A displayed row: a group's successes over rolls with its rate, or a line of the overall summary. */
  datatype Row = GroupRow(key: int, successfulRolls: nat, totalRolls: nat, rate: real)
               | SummaryRow(caption: string, value: int, share: Option<real>)

  datatype View = Loading | NoStatistics | Rows(rows: seq<Row>)

  /** A group's success rate in percent, 0 for an empty group. */
  function GroupRate(g: Group): (p: real)
    ensures g.successfulRolls <= g.totalRolls ==> 0.0 <= p <= 100.0
    ensures g.totalRolls == 0 ==> p == 0.0
  {
    if g.totalRolls > 0 then
      assert g.successfulRolls <= g.totalRolls ==> g.successfulRolls as real / g.totalRolls as real <= 1.0;
      (g.successfulRolls as real / g.totalRolls as real) * 100.0
    else 0.0
  }

  function GroupRows(gs: seq<Group>): (rows: seq<Row>)
    ensures |rows| == |gs|
    ensures forall i :: 0 <= i < |gs| ==> rows[i] == GroupRow(gs[i].key, gs[i].successfulRolls, gs[i].totalRolls, GroupRate(gs[i]))
  {
    seq(|gs|, i requires 0 <= i < |gs| => GroupRow(gs[i].key, gs[i].successfulRolls, gs[i].totalRolls, GroupRate(gs[i])))
  }

  /** `renderStatistics`: loading and missing data short-circuit; otherwise the rows of the active filter. */
  function Render(isLoading: bool, statistics: Option<Statistics.RollStatistics>, historyLength: nat, filter: Filter, d: Derived)
    : (v: View)
    ensures isLoading ==> v == Loading
    ensures !isLoading && (statistics.None? || historyLength == 0) ==> v == NoStatistics
    ensures !isLoading && statistics.Some? && historyLength > 0 ==> v.Rows?
    ensures v.Rows? && filter == ThresholdFilter ==> v.rows == GroupRows(d.byThreshold)
    ensures v.Rows? && filter == DiceCountFilter ==> v.rows == GroupRows(d.byDiceCount)
    ensures v.Rows? && filter == All ==>
      var st := statistics.value;
      v.rows == [SummaryRow("Total Rolls", st.totalRolls, None),
                 SummaryRow("Successful Rolls", st.successfulRolls, Some(st.successRate * 100.0)),
                 SummaryRow("Failed Rolls", st.failedRolls, Some((1.0 - st.successRate) * 100.0))]
    ensures v.Rows? && filter != All && WellFormed(if filter == ThresholdFilter then d.byThreshold else d.byDiceCount) ==>
      forall i, j :: 0 <= i < j < |v.rows| ==> v.rows[i].GroupRow? && v.rows[j].GroupRow? && v.rows[i].key < v.rows[j].key
  {
    if isLoading then Loading
    else if statistics.None? || historyLength == 0 then NoStatistics
    else
      match filter
      case ThresholdFilter => Rows(GroupRows(d.byThreshold))
      case DiceCountFilter => Rows(GroupRows(d.byDiceCount))
      case All =>
        var st := statistics.value;
        Rows([
          SummaryRow("Total Rolls", st.totalRolls, None),
          SummaryRow("Successful Rolls", st.successfulRolls, Some(st.successRate * 100.0)),
          SummaryRow("Failed Rolls", st.failedRolls, Some((1.0 - st.successRate) * 100.0))])
  }

  /** In a well-formed list a group's counts are the counts at its key. */
  lemma {:induction false} GroupAtItsKey(gs: seq<Group>, i: int)
    requires WellFormed(gs) && 0 <= i < |gs|
    ensures TotalAt(gs, gs[i].key) == gs[i].totalRolls
    ensures SuccessesAt(gs, gs[i].key) == gs[i].successfulRolls
    decreases |gs|
  {
    if i == 0 {
      if |gs| > 1 {
        AbsentBelow(gs[1..], gs[0].key);
      } else {
        assert gs[1..] == [];
      }
    } else {
      GroupAtItsKey(gs[1..], i - 1);
    }
  }

  /**
   * The statistics screen end to end: for a non-empty history, each row of a
   * grouped view shows exactly the history's rolls and successes under its
   * key, with their rate, and the rows come in ascending key order.
   */
  method ShowGrouped(previous: Derived, history: seq<RollAttempt>, statistics: Statistics.RollStatistics, byThreshold: bool)
    returns (v: View)
    requires |history| > 0
    ensures v.Rows?
    ensures var grouping := if byThreshold then ByThreshold else ByDiceCount;
      forall i :: 0 <= i < |v.rows| ==>
        && v.rows[i].GroupRow?
        && v.rows[i].totalRolls == CountUnder(history, grouping, v.rows[i].key)
        && v.rows[i].successfulRolls == SuccessesUnder(history, grouping, v.rows[i].key)
        && v.rows[i].rate == GroupRate(Group(v.rows[i].key, v.rows[i].totalRolls, v.rows[i].successfulRolls))
    ensures forall i, j :: 0 <= i < j < |v.rows| ==> v.rows[i].GroupRow? && v.rows[j].GroupRow? && v.rows[i].key < v.rows[j].key
  {
    var d := Derive(previous, history);
    var gs := if byThreshold then d.byThreshold else d.byDiceCount;
    v := Render(false, Some(statistics), |history|, if byThreshold then ThresholdFilter else DiceCountFilter, d);
    assert v.rows == GroupRows(gs);
    forall i | 0 <= i < |gs|
      ensures TotalAt(gs, gs[i].key) == gs[i].totalRolls && SuccessesAt(gs, gs[i].key) == gs[i].successfulRolls
    {
      GroupAtItsKey(gs, i);
    }
  }

  /** The summary's two percentages always add up to 100. */
  lemma SummaryPercentagesComplement(statistics: Statistics.RollStatistics, historyLength: nat, d: Derived)
    requires historyLength > 0
    ensures var v := Render(false, Some(statistics), historyLength, All, d);
      v.Rows? && v.rows[1].share.Some? && v.rows[2].share.Some?
      && v.rows[1].share.value + v.rows[2].share.value == 100.0
  {
  }
}
