/**
 * The statistics service of src/services/statistics.ts: running totals and
 * success rate, a newest-first history capped at 100 attempts, the success
 * rate for one threshold, and reset. Saving to storage never changes the
 * in-memory state and is not modelled; loading is an input.
 */
module Statistics {

  import opened Common
  import opened Dice

  const HistoryLimit := 100

  datatype RollStatistics = RollStatistics(totalRolls: nat, successfulRolls: nat, failedRolls: nat, successRate: real)

  const ZeroStatistics := RollStatistics(0, 0, 0, 0.0)

  datatype Service = Service(statistics: RollStatistics, history: seq<RollAttempt>)

  const Fresh := Service(ZeroStatistics, [])

  /** The counters add up, the rate is successes over total (0 before any roll), and the history is capped. */
  predicate Consistent(s: Service)
  {
    var st := s.statistics;
    && st.totalRolls == st.successfulRolls + st.failedRolls
    && st.successRate == (if st.totalRolls == 0 then 0.0 else st.successfulRolls as real / st.totalRolls as real)
    && |s.history| <= HistoryLimit
  }

  /**
   * `initialize`: the stored counters and then the stored history replace the
   * service's. Storage answers zero counters and an empty history when
   * nothing is stored (None) or the read fails, so nothing held before
   * survives an initialisation.
   */
  function Initialize(s: Service, storedStatistics: Option<RollStatistics>, storedHistory: Option<seq<RollAttempt>>): (r: Service)
    ensures storedStatistics.Some? ==> r.statistics == storedStatistics.value
    ensures storedStatistics.None? ==> r.statistics == ZeroStatistics
    ensures storedHistory.Some? ==> r.history == storedHistory.value
    ensures storedHistory.None? ==> r.history == []
  {
    Service(storedStatistics.GetOr(ZeroStatistics), storedHistory.GetOr([]))
  }

  /** With nothing stored, initialising is resetting, whatever the service held. */
  lemma InitializeNothingStoredIsReset(s: Service)
    ensures Initialize(s, None, None) == ResetStatistics(s)
    ensures Consistent(Initialize(s, None, None))
  {
  }

  /** What the service saves is what a later initialisation loads back: the round trip through storage. */
  lemma SaveThenInitializeRestores(s: Service, t: Service)
    ensures Initialize(t, Some(s.statistics), Some(s.history)) == s
    ensures Consistent(s) ==> Consistent(Initialize(t, Some(s.statistics), Some(s.history)))
  {
  }

  /** `addRollAttempt`. */
  function AddRollAttempt(s: Service, a: RollAttempt): (r: Service)
    ensures a.outcome.None? ==> r == s
    ensures a.outcome.Some? ==>
      && |r.history| == Min(|s.history| + 1, HistoryLimit) && r.history[0] == a
      && (forall i :: 1 <= i < |r.history| ==> r.history[i] == s.history[i - 1])
      && r.statistics.totalRolls == s.statistics.totalRolls + 1
      && (a.outcome == Some(Success) ==>
            r.statistics.successfulRolls == s.statistics.successfulRolls + 1
            && r.statistics.failedRolls == s.statistics.failedRolls)
      && (a.outcome == Some(Failure) ==>
            r.statistics.failedRolls == s.statistics.failedRolls + 1
            && r.statistics.successfulRolls == s.statistics.successfulRolls)
  {
    if a.outcome.None? then s
    else
      var history := ([a] + s.history)[..Min(|s.history| + 1, HistoryLimit)];
      var st := s.statistics;
      var succ := st.successfulRolls + (if a.outcome == Some(Success) then 1 else 0);
      var failed := st.failedRolls + (if a.outcome == Some(Success) then 0 else 1);
      var total := st.totalRolls + 1;
      Service(RollStatistics(total, succ, failed, succ as real / total as real), history)
  }

  /** Adding an attempt keeps the counters consistent, and the rate stays a proportion. */
  lemma AddKeepsConsistent(s: Service, a: RollAttempt)
    requires Consistent(s)
    ensures Consistent(AddRollAttempt(s, a))
    ensures 0.0 <= AddRollAttempt(s, a).statistics.successRate <= 1.0
  {
  }

  /** The service after a run of attempts, added in order. */
  function AddAll(s: Service, attempts: seq<RollAttempt>): Service
    decreases |attempts|
  {
    if |attempts| == 0 then s else AddAll(AddRollAttempt(s, attempts[0]), attempts[1..])
  }

  function Reverse<T>(xs: seq<T>): (r: seq<T>)
    ensures |r| == |xs| && forall i :: 0 <= i < |xs| ==> r[i] == xs[|xs| - 1 - i]
  {
    if |xs| == 0 then [] else Reverse(xs[1..]) + [xs[0]]
  }

  predicate AllDecided(attempts: seq<RollAttempt>)
  {
    forall i :: 0 <= i < |attempts| ==> attempts[i].outcome.Some?
  }

  /**
   * Newest first, oldest dropped: from a fresh service, decided attempts
   * leave the history holding the last (at most) 100 of them in reverse
   * order, and the total counts every one of them.
   */
  lemma {:induction false} HistoryIsNewestFirst(s: Service, attempts: seq<RollAttempt>)
    requires AllDecided(attempts)
    requires |s.history| <= HistoryLimit
    ensures var r := AddAll(s, attempts);
      && r.history == (Reverse(attempts) + s.history)[..Min(|attempts| + |s.history|, HistoryLimit)]
      && r.statistics.totalRolls == s.statistics.totalRolls + |attempts|
    decreases |attempts|
  {
    if |attempts| > 0 {
      var a := attempts[0];
      var next := AddRollAttempt(s, a);
      HistoryIsNewestFirst(next, attempts[1..]);
      var rest := Reverse(attempts[1..]);
      assert Reverse(attempts) == rest + [a];
      var n := Min(|attempts| + |s.history|, HistoryLimit);
      var m := Min(|s.history| + 1, HistoryLimit);
      assert next.history == ([a] + s.history)[..m];
      var lhs := (rest + next.history)[..Min(|attempts| - 1 + |next.history|, HistoryLimit)];
      var rhs := (rest + [a] + s.history)[..n];
      assert |lhs| == |rhs| == n;
      forall i | 0 <= i < n
        ensures lhs[i] == rhs[i]
      {
        if i < |rest| {
        } else {
          assert lhs[i] == next.history[i - |rest|];
        }
      }
      assert lhs == rhs;
      assert rest + [a] + s.history == Reverse(attempts) + s.history;
    }
  }

  /** `resetStatistics`: zero counters, empty history. */
  function ResetStatistics(s: Service): (r: Service)
    ensures Consistent(r) && r.history == [] && r.statistics.totalRolls == 0
  {
    Fresh
  }

  /** Whether an attempt counts towards a threshold's rate: that threshold, and an outcome. */
  predicate CountsFor(a: RollAttempt, threshold: int)
  {
    a.threshold == threshold && a.outcome.Some?
  }

  /** The attempts that count towards a threshold's rate. */
  function DecidedAt(history: seq<RollAttempt>, threshold: int): nat
  {
    CountWhere(history, (a: RollAttempt) => CountsFor(a, threshold))
  }

  /** Those of them that succeeded. */
  function SucceededAt(history: seq<RollAttempt>, threshold: int): nat
  {
    CountWhere(history, (a: RollAttempt) => CountsFor(a, threshold) && a.outcome == Some(Success))
  }

  lemma DecidedAtCounts(history: seq<RollAttempt>, threshold: int)
    ensures SucceededAt(history, threshold) <= DecidedAt(history, threshold)
    ensures DecidedAt(history, threshold) > 0 <==> exists i :: 0 <= i < |history| && CountsFor(history[i], threshold)
    ensures SucceededAt(history, threshold) == DecidedAt(history, threshold) <==>
      forall i :: 0 <= i < |history| && CountsFor(history[i], threshold) ==> history[i].outcome == Some(Success)
  {
    var p := (a: RollAttempt) => CountsFor(a, threshold) && a.outcome == Some(Success);
    var q := (a: RollAttempt) => CountsFor(a, threshold);
    CountWherePositive(history, q);
    SubsetCount(history, p, q);
    assert DecidedAt(history, threshold) == CountWhere(history, q);
    assert SucceededAt(history, threshold) == CountWhere(history, p);
  }

  /** A part of a positive whole is a share in 0..1, and the share is 1 exactly when the part is the whole. */
  lemma ShareBounded(part: nat, whole: nat)
    requires 0 < whole && part <= whole
    ensures var share := part as real / whole as real;
      && 0.0 <= share <= 1.0
      && share * whole as real == part as real
      && (share == 1.0 <==> part == whole)
  {
    var share := part as real / whole as real;
    assert share * whole as real == part as real;
    var gap := (whole - part) as real / whole as real;
    assert gap * whole as real == (whole - part) as real;
    assert share + gap == 1.0;
  }

  /** `getSuccessRateForThreshold`: the share of that threshold's decided attempts that succeeded. */
  function SuccessRateForThreshold(s: Service, threshold: int): (rate: real)
    ensures 0.0 <= rate <= 1.0
    ensures (forall i :: 0 <= i < |s.history| ==> !CountsFor(s.history[i], threshold)) ==> rate == 0.0
    ensures rate * DecidedAt(s.history, threshold) as real == SucceededAt(s.history, threshold) as real
  {
    var decided := DecidedAt(s.history, threshold);
    var succeeded := SucceededAt(s.history, threshold);
    DecidedAtCounts(s.history, threshold);
    if decided == 0 then 0.0
    else
      var rate := succeeded as real / decided as real;
      ShareBounded(succeeded, decided);
      rate
  }

  lemma {:induction false} SubsetCount<T>(s: seq<T>, p: T -> bool, q: T -> bool)
    requires forall x :: p(x) ==> q(x)
    ensures CountWhere(s, p) <= CountWhere(s, q)
    ensures CountWhere(s, p) == CountWhere(s, q) <==> forall i :: 0 <= i < |s| && q(s[i]) ==> p(s[i])
  {
    if |s| > 0 {
      SubsetCount(s[1..], p, q);
      assert forall i :: 1 <= i < |s| ==> s[i] == s[1..][i - 1];
    }
  }

  /** A threshold's rate is 1 exactly when it has decided attempts and every one of them succeeded. */
  lemma RateOneIffAllSucceeded(s: Service, threshold: int)
    ensures SuccessRateForThreshold(s, threshold) == 1.0 <==>
      (exists i :: 0 <= i < |s.history| && CountsFor(s.history[i], threshold))
      && forall i :: 0 <= i < |s.history| && CountsFor(s.history[i], threshold) ==> s.history[i].outcome == Some(Success)
  {
    DecidedAtCounts(s.history, threshold);
    var decided := DecidedAt(s.history, threshold);
    var succeeded := SucceededAt(s.history, threshold);
    if decided > 0 {
      ShareBounded(succeeded, decided);
    }
  }
}
