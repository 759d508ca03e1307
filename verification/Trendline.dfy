/** The trendline detector (src/bwe/googcc/trendline.rs): a least-squares slope
    over the accumulated delay of the last twenty packet pairs. */
module Trendline {
  import opened Basics

  const WINDOW: nat := 20
  const OVERUSE_THRESHOLD := 12.5

  datatype BandwidthState = Underuse | Normal | Overuse

  datatype Pair = Pair(arrivalDeltaMs: real, sendDeltaMs: real)

  datatype TrendState = TrendState(deltas: seq<Pair>, state: BandwidthState)

  const FRESH_TREND := TrendState([], Normal)

  /** How much later a packet arrived than it was sent, relative to the previous
      one. */
  function Increase(p: Pair): real {
    p.arrivalDeltaMs - p.sendDeltaMs
  }

  // ------------------------------------------------------------ the regression

  /** Delay accumulated over the first `k` pairs. */
  function Accumulated(ps: seq<Pair>, k: nat): real
    requires k <= |ps|
  {
    if k == 0 then 0.0 else Accumulated(ps, k - 1) + Increase(ps[k - 1])
  }

  /** Sum of the first `k` points of the delay curve. */
  function SumY(ps: seq<Pair>, k: nat): real
    requires k <= |ps|
  {
    if k == 0 then 0.0 else SumY(ps, k - 1) + Accumulated(ps, k)
  }

  /** `x - x_bar` for the point with index `i` out of `n`. */
  function Centered(n: nat, i: nat): real {
    i as real - (n as real - 1.0) / 2.0
  }

  function Num(ps: seq<Pair>, yBar: real, k: nat): real
    requires k <= |ps|
  {
    if k == 0 then 0.0
    else Num(ps, yBar, k - 1) + Centered(|ps|, k - 1) * (Accumulated(ps, k) - yBar)
  }

  function Den(n: nat, k: nat): real {
    if k == 0 then 0.0 else Den(n, k - 1) + Centered(n, k - 1) * Centered(n, k - 1)
  }

  /** Ordinary least squares of accumulated delay against packet index. */
  function Slope(ps: seq<Pair>): real
    requires |ps| >= 2
  {
    DenClosed(|ps|, |ps|);
    DenPositive(|ps|);
    Num(ps, SumY(ps, |ps|) / |ps| as real, |ps|) / Den(|ps|, |ps|)
  }

  // ------------------------------------------------- the slope as an average

  /** Weight of the k-th delay increase: largest mid-window, zero for the oldest. */
  function Weight(n: nat, k: nat): real {
    k as real * (n as real - k as real)
  }

  function WeightedSum(ps: seq<Pair>, n: nat, k: nat): real
    requires k <= |ps|
  {
    if k == 0 then 0.0 else WeightedSum(ps, n, k - 1) + Weight(n, k - 1) * Increase(ps[k - 1])
  }

  function SumWeights(n: nat, k: nat): real {
    if k == 0 then 0.0 else SumWeights(n, k - 1) + Weight(n, k - 1)
  }

  lemma {:induction false} SumWeightsClosed(n: nat, k: nat)
    ensures SumWeights(n, k) ==
            n as real * k as real * (k as real - 1.0) / 2.0
            - k as real * (k as real - 1.0) * (2.0 * k as real - 1.0) / 6.0
  {
    if k > 0 {
      SumWeightsClosed(n, k - 1);
    }
  }

  lemma TotalWeightClosed(n: nat)
    ensures SumWeights(n, n) == n as real * (n as real * n as real - 1.0) / 6.0
  {
    SumWeightsClosed(n, n);
  }

  lemma {:induction false} DenClosed(n: nat, k: nat)
    ensures var x, m := k as real, (n as real - 1.0) / 2.0;
            Den(n, k) == x * (x - 1.0) * (2.0 * x - 1.0) / 6.0 - m * x * (x - 1.0) + x * m * m
  {
    if k > 0 {
      DenClosed(n, k - 1);
    }
  }

  lemma DenIsHalfTotal(n: nat)
    ensures Den(n, n) == SumWeights(n, n) / 2.0
  {
    DenClosed(n, n);
    TotalWeightClosed(n);
  }

  /** The guard against a vanishing denominator is for a window of one. */
  lemma DenPositive(n: nat)
    ensures n >= 2 ==> Den(n, n) >= 0.5
    ensures n < 2 ==> Den(n, n) == 0.0
  {
    DenIsHalfTotal(n);
    TotalWeightClosed(n);
    if n >= 2 {
      var x := n as real;
      MulNonNeg(x - 2.0, x - 2.0);
      MulNonNeg(x - 2.0, x * x - 4.0);
      assert SumWeights(n, n) >= 1.0;
    }
  }

  /** Sum of the first `k` centered indices. */
  function CenterSum(n: nat, k: nat): real {
    if k == 0 then 0.0 else CenterSum(n, k - 1) + Centered(n, k - 1)
  }

  lemma {:induction false} CenterSumClosed(n: nat, k: nat)
    ensures CenterSum(n, k) == -Weight(n, k) / 2.0
  {
    if k > 0 {
      CenterSumClosed(n, k - 1);
    }
  }

  /** Increase number j counts once for every later point of the curve. */
  function TailWeighted(ps: seq<Pair>, c: real, k: nat): real
    requires k <= |ps|
  {
    if k == 0 then 0.0
    else TailWeighted(ps, c, k - 1) + Increase(ps[k - 1]) * (c - CenterSum(|ps|, k - 1))
  }

  lemma {:induction false} TailWeightedShift(ps: seq<Pair>, c: real, x: real, k: nat)
    requires k <= |ps|
    ensures TailWeighted(ps, c + x, k) == TailWeighted(ps, c, k) + x * Accumulated(ps, k)
  {
    if k > 0 {
      TailWeightedShift(ps, c, x, k - 1);
      ShiftStep(Accumulated(ps, k - 1), Increase(ps[k - 1]), c, CenterSum(|ps|, k - 1), x);
    }
  }

  lemma ShiftStep(a: real, d: real, c: real, b: real, x: real)
    ensures x * a + d * (c + x - b) == x * (a + d) + d * (c - b)
  {
  }

  lemma TailStep(ps: seq<Pair>, x: real, k: nat)
    requires 0 < k <= |ps|
    ensures var c := CenterSum(|ps|, k - 1);
            TailWeighted(ps, c + x, k) ==
            (TailWeighted(ps, c, k - 1) + x * Accumulated(ps, k - 1)) + Increase(ps[k - 1]) * x
  {
    TailWeightedShift(ps, CenterSum(|ps|, k - 1), x, k - 1);
  }

  /** Subtracting the mean takes the sum of the centered indices with it. */
  lemma {:induction false} NumWithoutMean(ps: seq<Pair>, yBar: real, k: nat)
    requires k <= |ps|
    ensures Num(ps, yBar, k) == Num(ps, 0.0, k) - yBar * CenterSum(|ps|, k)
  {
    if k > 0 {
      NumWithoutMean(ps, yBar, k - 1);
      MeanStep(Centered(|ps|, k - 1), Accumulated(ps, k), yBar, CenterSum(|ps|, k - 1));
    }
  }

  lemma MeanStep(x: real, y: real, yBar: real, c: real)
    ensures x * (y - yBar) - yBar * c == x * (y - 0.0) - yBar * (c + x)
  {
  }

  /** Summation by parts. */
  lemma {:induction false} NumByParts(ps: seq<Pair>, k: nat)
    requires k <= |ps|
    ensures Num(ps, 0.0, k) == TailWeighted(ps, CenterSum(|ps|, k), k)
  {
    if k > 0 {
      NumByParts(ps, k - 1);
      var x, a, d := Centered(|ps|, k - 1), Accumulated(ps, k - 1), Increase(ps[k - 1]);
      TailStep(ps, x, k);
      assert x * (a + d - 0.0) == x * a + d * x;
    }
  }

  lemma {:induction false} TailWeightedIsWeightedSum(ps: seq<Pair>, k: nat)
    requires k <= |ps|
    ensures TailWeighted(ps, 0.0, k) == WeightedSum(ps, |ps|, k) / 2.0
  {
    if k > 0 {
      TailWeightedIsWeightedSum(ps, k - 1);
      var d := Increase(ps[k - 1]);
      var w := Weight(|ps|, k - 1);
      CenterSumClosed(|ps|, k - 1);
      assert d * (w / 2.0) == (w * d) / 2.0;
    }
  }

  /** For every window the fitted slope is the weighted average of the delay
      increases with weights k(n-k): the oldest pair has no say. */
  lemma SlopeIsWeightedAverage(ps: seq<Pair>)
    requires |ps| >= 2
    ensures SumWeights(|ps|, |ps|) > 0.0
    ensures Slope(ps) == WeightedSum(ps, |ps|, |ps|) / SumWeights(|ps|, |ps|)
  {
    var n := |ps|;
    var yBar := SumY(ps, n) / n as real;
    DenPositive(n);
    DenIsHalfTotal(n);
    NumWithoutMean(ps, yBar, n);
    NumByParts(ps, n);
    CenterSumClosed(n, n);
    TailWeightedIsWeightedSum(ps, n);
    HalvesCancel(WeightedSum(ps, n, n), SumWeights(n, n));
  }

  lemma HalvesCancel(a: real, b: real)
    requires b > 0.0
    ensures (a / 2.0) / (b / 2.0) == a / b
  {
  }

  // ----------------------------------------------------------- when it fires

  /** Every increase but the oldest is at most `t`. */
  predicate RecentAtMost(ps: seq<Pair>, t: real) {
    forall i | 0 < i < |ps| :: Increase(ps[i]) <= t
  }

  predicate RecentAbove(ps: seq<Pair>, t: real) {
    forall i | 0 < i < |ps| :: Increase(ps[i]) > t
  }

  lemma WeightPositive(n: nat, k: nat)
    requires 0 < k < n
    ensures Weight(n, k) >= 1.0
  {
    MulNonNeg(k as real - 1.0, (n - k) as real - 1.0);
    assert (n - k) as real == n as real - k as real;
  }

  /** Adding a term on one side of `t` keeps the sum on that side. */
  lemma AverageStep(sum: real, s: real, w: real, d: real, t: real)
    requires w >= 1.0
    ensures sum <= t * s && d <= t ==> sum + w * d <= t * (s + w)
    ensures sum >= t * s && d > t ==> sum + w * d > t * (s + w)
  {
    assert t * (s + w) == t * s + w * t;
    if d <= t {
      MulNonNeg(w, t - d);
    } else {
      MulNonNeg(w - 1.0, d - t);
    }
  }

  lemma {:induction false} WeightedSumAtMost(ps: seq<Pair>, t: real, k: nat)
    requires k <= |ps| && RecentAtMost(ps, t)
    ensures WeightedSum(ps, |ps|, k) <= t * SumWeights(|ps|, k)
  {
    if k > 0 {
      WeightedSumAtMost(ps, t, k - 1);
      var w := Weight(|ps|, k - 1);
      var s := SumWeights(|ps|, k - 1);
      if k > 1 {
        WeightPositive(|ps|, k - 1);
        AverageStep(WeightedSum(ps, |ps|, k - 1), s, w, Increase(ps[k - 1]), t);
      }
    }
  }

  lemma {:induction false} WeightedSumAbove(ps: seq<Pair>, t: real, k: nat)
    requires 1 <= k <= |ps| && RecentAbove(ps, t)
    ensures WeightedSum(ps, |ps|, k) >= t * SumWeights(|ps|, k)
    ensures k >= 2 ==> WeightedSum(ps, |ps|, k) > t * SumWeights(|ps|, k)
  {
    if k == 1 {
      assert WeightedSum(ps, |ps|, 1) == WeightedSum(ps, |ps|, 0) + Weight(|ps|, 0) * Increase(ps[0]);
      assert SumWeights(|ps|, 1) == SumWeights(|ps|, 0) + Weight(|ps|, 0);
    } else {
      WeightedSumAbove(ps, t, k - 1);
      var w := Weight(|ps|, k - 1);
      var s := SumWeights(|ps|, k - 1);
      WeightPositive(|ps|, k - 1);
      AverageStep(WeightedSum(ps, |ps|, k - 1), s, w, Increase(ps[k - 1]), t);
    }
  }

  lemma AverageAtMost(a: real, b: real, t: real)
    requires b > 0.0 && a <= t * b
    ensures a / b <= t
  {
    assert (a / b) * b == a;
  }

  lemma AverageAbove(a: real, b: real, t: real)
    requires b > 0.0 && a > t * b
    ensures a / b > t
  {
    assert (a / b) * b == a;
  }

  lemma TotalAtMost(ps: seq<Pair>, t: real)
    requires RecentAtMost(ps, t)
    ensures WeightedSum(ps, |ps|, |ps|) <= t * SumWeights(|ps|, |ps|)
  {
    WeightedSumAtMost(ps, t, |ps|);
  }

  lemma TotalAbove(ps: seq<Pair>, t: real)
    requires |ps| >= 2 && RecentAbove(ps, t)
    ensures WeightedSum(ps, |ps|, |ps|) > t * SumWeights(|ps|, |ps|)
  {
    WeightedSumAbove(ps, t, |ps|);
  }

  /** No recent increase above `t`, no slope above `t`. */
  lemma SlopeAtMost(ps: seq<Pair>, t: real)
    requires |ps| >= 2 && RecentAtMost(ps, t)
    ensures Slope(ps) <= t
  {
    SlopeIsWeightedAverage(ps);
    TotalAtMost(ps, t);
    AverageAtMost(WeightedSum(ps, |ps|, |ps|), SumWeights(|ps|, |ps|), t);
  }

  /** All recent increases above `t`, slope above `t`. */
  lemma SlopeAbove(ps: seq<Pair>, t: real)
    requires |ps| >= 2 && RecentAbove(ps, t)
    ensures Slope(ps) > t
  {
    SlopeIsWeightedAverage(ps);
    TotalAbove(ps, t);
    AverageAbove(WeightedSum(ps, |ps|, |ps|), SumWeights(|ps|, |ps|), t);
  }

  // ---------------------------------------------------------------- the detector

  function Classify(slope: real): BandwidthState {
    if slope > OVERUSE_THRESHOLD then Overuse
    else if slope < -OVERUSE_THRESHOLD then Underuse
    else Normal
  }

  function WindowVerdict(w: seq<Pair>): BandwidthState {
    if |w| < 3 then Normal else Classify(Slope(w))
  }

  function Observe(t: TrendState, p: Pair): (r: TrendState)
    requires |t.deltas| <= WINDOW
    ensures |r.deltas| <= WINDOW
  {
    var deltas := PushBounded(t.deltas, p, WINDOW);
    TrendState(deltas, if |deltas| < 3 then t.state else WindowVerdict(deltas))
  }

  ghost function RunTrend(ps: seq<Pair>): (t: TrendState)
    ensures |t.deltas| <= WINDOW
  {
    if ps == [] then FRESH_TREND else Observe(RunTrend(ps[..|ps| - 1]), ps[|ps| - 1])
  }

  /** The detector has no memory beyond its window. */
  lemma {:induction false} TrendIsWindowFunction(ps: seq<Pair>)
    ensures RunTrend(ps) == TrendState(LastN(ps, WINDOW), WindowVerdict(LastN(ps, WINDOW)))
  {
    if ps != [] {
      var f, x := ps[..|ps| - 1], ps[|ps| - 1];
      TrendIsWindowFunction(f);
      PushKeepsLastN(f, x, WINDOW);
      assert f + [x] == ps;
    }
  }

  lemma CalmWindow(w: seq<Pair>)
    requires |w| >= 3 && RecentAtMost(w, OVERUSE_THRESHOLD)
    ensures Classify(Slope(w)) != Overuse
  {
    SlopeAtMost(w, OVERUSE_THRESHOLD);
  }

  lemma SteepWindow(w: seq<Pair>)
    requires |w| >= 3 && RecentAbove(w, OVERUSE_THRESHOLD)
    ensures Classify(Slope(w)) == Overuse
  {
    SlopeAbove(w, OVERUSE_THRESHOLD);
  }

  /** Overuse is never reported without a recent increase above the threshold. */
  lemma NoOveruseWhenCalm(ps: seq<Pair>)
    requires RecentAtMost(LastN(ps, WINDOW), OVERUSE_THRESHOLD)
    ensures RunTrend(ps).state != Overuse
  {
    TrendIsWindowFunction(ps);
    if |ps| >= 3 {
      CalmWindow(LastN(ps, WINDOW));
    }
  }

  /** And always when every recent increase is above it. */
  lemma OveruseWhenSteep(ps: seq<Pair>)
    requires |ps| >= 3 && RecentAbove(LastN(ps, WINDOW), OVERUSE_THRESHOLD)
    ensures RunTrend(ps).state == Overuse
  {
    TrendIsWindowFunction(ps);
    SteepWindow(LastN(ps, WINDOW));
  }

  // ------------------------------------------------------------- the other direction

  /** The same window with the two clocks exchanged: every increase changes sign. */
  ghost function Mirrored(ps: seq<Pair>): (r: seq<Pair>)
    ensures |r| == |ps| && forall i | 0 <= i < |ps| :: r[i] == Pair(ps[i].sendDeltaMs, ps[i].arrivalDeltaMs)
  {
    seq(|ps|, i requires 0 <= i < |ps| => Pair(ps[i].sendDeltaMs, ps[i].arrivalDeltaMs))
  }

  lemma {:induction false} MirroredSum(ps: seq<Pair>, n: nat, k: nat)
    requires k <= |ps|
    ensures WeightedSum(Mirrored(ps), n, k) == -WeightedSum(ps, n, k)
  {
    if k > 0 {
      MirroredSum(ps, n, k - 1);
      var w, d := Weight(n, k - 1), Increase(ps[k - 1]);
      assert Increase(Mirrored(ps)[k - 1]) == -d;
      Negated(w, d);
    }
  }

  lemma Negated(w: real, d: real)
    ensures w * (-d) == -(w * d)
  {
  }

  lemma NegatedQuotient(a: real, b: real)
    requires b > 0.0
    ensures (-a) / b == -(a / b)
  {
  }

  lemma MirroredSlope(ps: seq<Pair>)
    requires |ps| >= 2
    ensures Slope(Mirrored(ps)) == -Slope(ps)
  {
    SlopeIsWeightedAverage(ps);
    SlopeIsWeightedAverage(Mirrored(ps));
    MirroredSum(ps, |ps|, |ps|);
    NegatedQuotient(WeightedSum(ps, |ps|, |ps|), SumWeights(|ps|, |ps|));
  }

  /** The pair's packet was on its way more than 12.5 ms less than the one before. */
  ghost predicate Faster(p: Pair) {
    p.sendDeltaMs - p.arrivalDeltaMs > 12.5
  }

  /** Underuse is reported when every recent packet was faster, and never when none
      was. */
  lemma UnderuseMirrorsOveruse(ps: seq<Pair>)
    requires |ps| >= 3
    ensures var w := LastN(ps, 20);
            && ((forall i | 0 < i < |w| :: Faster(w[i])) ==> RunTrend(ps).state == Underuse)
            && ((forall i | 0 < i < |w| :: !Faster(w[i])) ==> RunTrend(ps).state != Underuse)
  {
    var w := LastN(ps, 20);
    TrendIsWindowFunction(ps);
    MirroredSlope(w);
    if forall i | 0 < i < |w| :: Faster(w[i]) {
      SlopeAbove(Mirrored(w), 12.5);
    }
    if forall i | 0 < i < |w| :: !Faster(w[i]) {
      SlopeAtMost(Mirrored(w), 12.5);
    }
  }

  class TrendlineDetector {
    var deltas: seq<Pair>
    var state: BandwidthState

    ghost function View(): TrendState
      reads this
    {
      TrendState(deltas, state)
    }

    ghost predicate Valid()
      reads this
    {
      |deltas| <= WINDOW
    }

    constructor ()
      ensures Valid() && View() == FRESH_TREND
    {
      deltas, state := [], Normal;
    }

    /** The running delay after each pair, and the sum of those. */
    method Accumulate() returns (accumulated: seq<real>, sum: real)
      requires Valid()
      ensures |accumulated| == |deltas| && sum == SumY(deltas, |deltas|)
      ensures forall j | 0 <= j < |deltas| :: accumulated[j] == Accumulated(deltas, j + 1)
    {
      accumulated, sum := [], 0.0;
      var acc := 0.0;
      for i := 0 to |deltas|
        invariant |accumulated| == i && acc == Accumulated(deltas, i) && sum == SumY(deltas, i)
        invariant forall j | 0 <= j < i :: accumulated[j] == Accumulated(deltas, j + 1)
      {
        acc := acc + (deltas[i].arrivalDeltaMs - deltas[i].sendDeltaMs);
        accumulated := accumulated + [acc];
        sum := sum + acc;
      }
    }

    method Fit(accumulated: seq<real>, yBar: real) returns (num: real, den: real)
      requires |accumulated| == |deltas|
      requires forall j | 0 <= j < |deltas| :: accumulated[j] == Accumulated(deltas, j + 1)
      ensures num == Num(deltas, yBar, |deltas|) && den == Den(|deltas|, |deltas|)
    {
      var xBar := (|accumulated| as real - 1.0) / 2.0;
      num, den := 0.0, 0.0;
      for i := 0 to |accumulated|
        invariant num == Num(deltas, yBar, i) && den == Den(|deltas|, i)
      {
        var dx := i as real - xBar;
        assert dx == Centered(|deltas|, i) && accumulated[i] == Accumulated(deltas, i + 1);
        assert Num(deltas, yBar, i + 1) == Num(deltas, yBar, i) + dx * (accumulated[i] - yBar);
        num := num + dx * (accumulated[i] - yBar);
        den := den + dx * dx;
      }
    }

    /** Least squares in the source's two passes. A window of one takes the
        guard; the detector only asks from three pairs up. */
    method TrendlineSlope() returns (slope: real)
      requires Valid() && |deltas| >= 1
      ensures slope == if |deltas| == 1 then 0.0 else Slope(deltas)
    {
      var accumulated, sum := Accumulate();
      var num, den := Fit(accumulated, sum / |deltas| as real);
      DenPositive(|deltas|);
      if Abs(den) < 0.0000000001 {
        slope := 0.0;
      } else {
        slope := num / den;
      }
    }

    method Update(arrivalDeltaMs: real, sendDeltaMs: real)
      requires Valid()
      modifies this
      ensures Valid() && View() == Observe(old(View()), Pair(arrivalDeltaMs, sendDeltaMs))
    {
      if |deltas| >= WINDOW {
        deltas := deltas[1..];
      }
      deltas := deltas + [Pair(arrivalDeltaMs, sendDeltaMs)];
      if |deltas| < 3 {
        return;
      }
      var slope := TrendlineSlope();
      state := if slope > OVERUSE_THRESHOLD then Overuse
               else if slope < -OVERUSE_THRESHOLD then Underuse
               else Normal;
    }
  }
}
