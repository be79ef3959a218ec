/**
 * The frame-rate measurement of src/animations/AnimationTestingUtils.ts: the
 * statistics `monitorFrameRate` derives from the recorded frame deltas, the
 * rating `logAnimationPerformance` prints, and the `isNativeDriverCompatible`
 * check. The recorded deltas (differences of Date.now() between two frames)
 * are the input; the timers that produce them are not modelled.
 */
module FrameStats {

  import opened Common
  import Performance

  /** A frame rate as JavaScript computes it: `1000 / 0` is Infinity, and Math.round keeps it. */
  datatype Fps = Finite(value: int) | Infinite

  /** Math.round(1000 / ms). */
  function FpsOf(ms: real): (f: Fps)
    ensures f.Infinite? <==> ms == 0.0
  {
    if ms == 0.0 then Infinite else Finite(Round(1000.0 / ms))
  }

  datatype FrameRateResult = FrameRateResult(
    averageFps: Fps, minFps: Fps, maxFps: Fps, droppedFrames: nat, duration: int)

  /** The result before any frame is recorded. */
  const Empty := FrameRateResult(Finite(0), Finite(0), Finite(0), 0, 0)

  /** The sum of the deltas, folded left to right. */
  function Sum(s: seq<int>): int
  {
    if |s| == 0 then 0 else Sum(s[..|s| - 1]) + s[|s| - 1]
  }

  /** Math.max(...s) for a non-empty list. */
  function Largest(s: seq<int>): (m: int)
    requires |s| > 0
    ensures forall i :: 0 <= i < |s| ==> s[i] <= m
    ensures exists i :: 0 <= i < |s| && s[i] == m
  {
    if |s| == 1 then s[0]
    else
      var rest := Largest(s[..|s| - 1]);
      assert forall i :: 0 <= i < |s| - 1 ==> s[..|s| - 1][i] == s[i];
      Max(rest, s[|s| - 1])
  }

  /** Math.min(...s) for a non-empty list. */
  function Smallest(s: seq<int>): (m: int)
    requires |s| > 0
    ensures forall i :: 0 <= i < |s| ==> m <= s[i]
    ensures exists i :: 0 <= i < |s| && s[i] == m
  {
    if |s| == 1 then s[0]
    else
      var rest := Smallest(s[..|s| - 1]);
      assert forall i :: 0 <= i < |s| - 1 ==> s[..|s| - 1][i] == s[i];
      Min(rest, s[|s| - 1])
  }

  /** What the statistics are meant to be, stated directly on the whole list of deltas. */
  function Expected(deltas: seq<int>): FrameRateResult
  {
    if |deltas| == 0 then Empty.(droppedFrames := CountWhere(deltas, Performance.IsDrop))
    else
      FrameRateResult(
        averageFps := FpsOf(Sum(deltas) as real / |deltas| as real),
        minFps := FpsOf(Largest(deltas) as real),
        maxFps := FpsOf(Smallest(deltas) as real),
        droppedFrames := CountWhere(deltas, Performance.IsDrop),
        duration := Sum(deltas))
  }

  /**
   * One pass over the recorded deltas, as the frame callback and the final
   * timeout together compute it: drops are counted frame by frame, and once
   * monitoring stops the totals and extremes give the rates.
   */
  method Measure(deltas: seq<int>) returns (r: FrameRateResult)
    ensures r == Expected(deltas)
    ensures |deltas| == 0 ==> r == Empty
  {
    var drops := 0;
    var total := 0;
    var longest := 0;
    var shortest := 0;
    var i := 0;
    while i < |deltas|
      invariant 0 <= i <= |deltas|
      invariant drops == CountWhere(deltas[..i], Performance.IsDrop)
      invariant total == Sum(deltas[..i])
      invariant i > 0 ==> longest == Largest(deltas[..i]) && shortest == Smallest(deltas[..i])
    {
      var d := deltas[i];
      assert deltas[..i + 1] == deltas[..i] + [d];
      assert deltas[..i + 1][..i] == deltas[..i];
      CountWhereAppend(deltas[..i], [d], Performance.IsDrop);
      assert CountWhere([d], Performance.IsDrop) == if d > 20 then 1 else 0 by {
        assert [d][1..] == [];
      }
      if d > 20 {
        drops := drops + 1;
      }
      total := total + d;
      if i == 0 {
        longest, shortest := d, d;
      } else {
        longest, shortest := Max(longest, d), Min(shortest, d);
      }
      i := i + 1;
    }
    assert deltas[..i] == deltas;
    if i == 0 {
      r := Empty;
    } else {
      r := FrameRateResult(FpsOf(total as real / i as real), FpsOf(longest as real), FpsOf(shortest as real), drops, total);
    }
  }

  lemma {:induction false} SumBetween(s: seq<int>)
    requires |s| > 0
    ensures |s| * Smallest(s) <= Sum(s) <= |s| * Largest(s)
    decreases |s|
  {
    if |s| > 1 {
      var init := s[..|s| - 1];
      var last := s[|s| - 1];
      SumBetween(init);
      assert Smallest(s) == Min(Smallest(init), last);
      assert Largest(s) == Max(Largest(init), last);
      assert Sum(s) == Sum(init) + last;
      StepBounds(|init|, Sum(init), last, Smallest(init), Smallest(s), Largest(init), Largest(s));
    }
  }

  /** One more element between the bounds keeps the sum between the scaled bounds. */
  lemma StepBounds(k: nat, sum: int, last: int, lo: int, lo': int, hi: int, hi': int)
    requires k * lo <= sum <= k * hi
    requires lo' <= lo && lo' <= last && hi <= hi' && last <= hi'
    ensures (k + 1) * lo' <= sum + last <= (k + 1) * hi'
  {
    ScaleLe(k, lo', lo);
    ScaleLe(k, hi, hi');
    assert (k + 1) * lo' == k * lo' + lo';
    assert (k + 1) * hi' == k * hi' + hi';
  }

  lemma ScaleLe(k: nat, a: int, b: int)
    requires a <= b
    ensures k * a <= k * b
  {
    assert k * b - k * a == k * (b - a);
  }

  /**
   * For frames that all took time, every rate is finite and the slowest frame
   * gives the lowest rate: minFps <= averageFps <= maxFps.
   */
  lemma RatesOrdered(deltas: seq<int>)
    requires |deltas| > 0 && forall i :: 0 <= i < |deltas| ==> deltas[i] > 0
    ensures var r := Expected(deltas);
      && r.minFps.Finite? && r.averageFps.Finite? && r.maxFps.Finite?
      && r.minFps.value <= r.averageFps.value <= r.maxFps.value
  {
    var lo := Smallest(deltas);
    var hi := Largest(deltas);
    assert lo == deltas[0] || lo > 0;
    SumBetween(deltas);
    MeanBetween(|deltas|, Sum(deltas), lo, hi);
    var mean := Sum(deltas) as real / |deltas| as real;
    FpsAntitone(lo as real, mean);
    FpsAntitone(mean, hi as real);
  }

  lemma MeanBetween(n: nat, sum: int, lo: int, hi: int)
    requires n > 0 && n * lo <= sum <= n * hi
    ensures lo as real <= sum as real / n as real <= hi as real
  {
    var m := sum as real / n as real;
    assert m * n as real == sum as real;
    assert (n * lo) as real == n as real * lo as real;
    assert (n * hi) as real == n as real * hi as real;
  }

  /** A longer frame never yields a higher rate. */
  lemma FpsAntitone(x: real, y: real)
    requires 0.0 < x <= y
    ensures FpsOf(x).Finite? && FpsOf(y).Finite? && FpsOf(y).value <= FpsOf(x).value
  {
    ReciprocalAntitone(x, y);
    RoundMonotonic(1000.0 / y, 1000.0 / x);
  }

  lemma ReciprocalAntitone(x: real, y: real)
    requires 0.0 < x <= y
    ensures 1000.0 / y <= 1000.0 / x
  {
    assert 1000.0 / y * y == 1000.0;
    assert 1000.0 / x * x == 1000.0;
    assert (1000.0 / y) * x <= (1000.0 / y) * y;
  }

  /** Some frame was dropped exactly when some recorded delta exceeds 20 ms. */
  lemma DropCountMatchesThreshold(deltas: seq<int>)
    ensures Expected(deltas).droppedFrames <= |deltas|
    ensures Expected(deltas).droppedFrames > 0 <==> exists i :: 0 <= i < |deltas| && deltas[i] > 20
  {
    CountWherePositive(deltas, Performance.IsDrop);
  }

  // ---------------------------------------------------------------------------
  // Rating
  // ---------------------------------------------------------------------------

  datatype Rating = Poor | Fair | Good | Excellent

  predicate Below(f: Fps, bound: int)
  {
    f.Finite? && f.value < bound
  }

  /** The rating `logAnimationPerformance` prints for an average frame rate. */
  function RatingFor(avg: Fps): (r: Rating)
    ensures r == Poor <==> Below(avg, 30)
    ensures r == Fair <==> !Below(avg, 30) && Below(avg, 45)
    ensures r == Good <==> !Below(avg, 45) && Below(avg, 55)
    ensures r == Excellent <==> !Below(avg, 55)
  {
    if Below(avg, 30) then Poor
    else if Below(avg, 45) then Fair
    else if Below(avg, 55) then Good
    else Excellent
  }

  /** Whether the optimisation suggestions are printed. */
  function SuggestsOptimisations(avg: Fps): (b: bool)
    ensures b <==> RatingFor(avg) != Excellent
  {
    Below(avg, 55)
  }

  function RatingRank(r: Rating): nat
  {
    match r
    case Poor => 0
    case Fair => 1
    case Good => 2
    case Excellent => 3
  }

  /** A higher frame rate never earns a worse rating. */
  lemma RatingMonotonic(a: int, b: int)
    requires a <= b
    ensures RatingRank(RatingFor(Finite(a))) <= RatingRank(RatingFor(Finite(b)))
    ensures RatingRank(RatingFor(Finite(b))) <= RatingRank(RatingFor(Infinite))
  {
  }

  // ---------------------------------------------------------------------------
  // Native driver compatibility
  // ---------------------------------------------------------------------------

  /** The parts of an animation's private `_config` the check reads. */
  datatype AnimConfig = AnimConfig(useNativeDriver: Option<bool>, animatedProps: Option<set<string>>)

  /** An animation object, with or without a `_config`. */
  datatype AnimObject = AnimObject(config: Option<AnimConfig>)

  /** Layout properties the native driver cannot animate. */
  const NativeIncompatibleProps: seq<string> := [
    "width", "height", "top", "left", "bottom", "right",
    "margin", "marginTop", "marginBottom", "marginLeft", "marginRight",
    "padding", "paddingTop", "paddingBottom", "paddingLeft", "paddingRight",
    "position"]

  /** When an animation is native-driver compatible, stated on the whole object. */
  predicate CompatibleSpec(a: AnimObject)
  {
    a.config.None?
    || (a.config.value.useNativeDriver != Some(false)
        && (a.config.value.animatedProps.None?
            || forall p :: p in NativeIncompatibleProps ==> p !in a.config.value.animatedProps.value))
  }

  /** `isNativeDriverCompatible`, with its early returns and its scan of the layout keys. */
  method IsNativeDriverCompatible(a: AnimObject) returns (ok: bool)
    ensures ok <==> CompatibleSpec(a)
    ensures a.config.None? ==> ok
  {
    if a.config.None? {
      return true;
    }
    var config := a.config.value;
    if config.useNativeDriver == Some(false) {
      return false;
    }
    if config.animatedProps.Some? {
      var props := config.animatedProps.value;
      var i := 0;
      while i < |NativeIncompatibleProps|
        invariant 0 <= i <= |NativeIncompatibleProps|
        invariant forall k :: 0 <= k < i ==> NativeIncompatibleProps[k] !in props
      {
        if NativeIncompatibleProps[i] in props {
          return false;
        }
        i := i + 1;
      }
    }
    return true;
  }
}
