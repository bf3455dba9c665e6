/** The population statistics of Flock::statistics (src/flock.cpp) over the
    prey: mean and deviation of the distances between prey, and of their
    speeds. Distances here are plain Euclidean ones (Point::distance), not
    wrap-around ones. */
module FlockStatistics {
  import opened CMath
  import opened Points
  import opened Boids

  /** The four figures of a statistics report: the mean and standard
      deviation of the prey's pairwise distances, and of their speeds. */
  datatype Statistics = Statistics(meanDistance: real, devDistance: real, meanVelocity: real, devVelocity: real)

  /** What the inner accumulate adds for agent `it` = ps[i]: the distance from
      each of ps[i], ..., ps[j - 1] to ps[i] (ps[i] itself included). */
  function RowSum(m: MathLib, ps: seq<BoidState>, i: nat, j: nat): real
    requires i <= j <= |ps|
    decreases j
  {
    if j == i then 0.0
    else RowSum(m, ps, i, j - 1) + DistanceTo(m, ps[j - 1].position, ps[i].position)
  }

  /** The same row, summing squared distances. */
  function RowSqSum(m: MathLib, ps: seq<BoidState>, i: nat, j: nat): real
    requires i <= j <= |ps|
    decreases j
  {
    if j == i then 0.0
    else
      var d := DistanceTo(m, ps[j - 1].position, ps[i].position);
      RowSqSum(m, ps, i, j - 1) + d * d
  }

  /** The rows of agents r, ..., |ps| - 1, added up. */
  function DistanceSum(m: MathLib, ps: seq<BoidState>, r: nat): real
    requires r <= |ps|
    decreases |ps| - r
  {
    if r == |ps| then 0.0 else RowSum(m, ps, r, |ps|) + DistanceSum(m, ps, r + 1)
  }

  function DistanceSqSum(m: MathLib, ps: seq<BoidState>, r: nat): real
    requires r <= |ps|
    decreases |ps| - r
  {
    if r == |ps| then 0.0 else RowSqSum(m, ps, r, |ps|) + DistanceSqSum(m, ps, r + 1)
  }

  function SpeedSum(m: MathLib, ps: seq<BoidState>, j: nat): real
    requires j <= |ps|
  {
    if j == 0 then 0.0 else SpeedSum(m, ps, j - 1) + Magnitude(m, ps[j - 1].velocity)
  }

  function SpeedSqSum(m: MathLib, ps: seq<BoidState>, j: nat): real
    requires j <= |ps|
  {
    if j == 0 then 0.0
    else
      var s := Magnitude(m, ps[j - 1].velocity);
      SpeedSqSum(m, ps, j - 1) + s * s
  }

  /** n (n - 1) / 2, the number of unordered pairs among n agents. */
  function PairCount(n: nat): (r: real)
    ensures 2 <= n ==> 0.0 < r
  {
    var k := n as real;
    assert 2 <= n ==> k * 1.0 <= k * (k - 1.0) by {
      if 2 <= n { MulMonotone(k, 1.0, k - 1.0); }
    }
    k * (k - 1.0) / 2.0
  }

  /** The mean of the row sums over the n (n - 1) / 2 pairs, or 0 below two
      prey. */
  function MeanDistance(m: MathLib, ps: seq<BoidState>): real {
    if |ps| > 1 then DistanceSum(m, ps, 0) / PairCount(|ps|) else 0.0
  }

  function MeanSqDistance(m: MathLib, ps: seq<BoidState>): real {
    if |ps| > 1 then DistanceSqSum(m, ps, 0) / PairCount(|ps|) else 0.0
  }

  function MeanSpeed(m: MathLib, ps: seq<BoidState>): real
    requires |ps| > 0
  {
    SpeedSum(m, ps, |ps|) / (|ps| as real)
  }

  function MeanSqSpeed(m: MathLib, ps: seq<BoidState>): real
    requires |ps| > 0
  {
    SpeedSqSum(m, ps, |ps|) / (|ps| as real)
  }

  /** The deviation from a mean and a mean square. */
  function Deviation(m: MathLib, mean: real, meanSq: real): real {
    m.sqrt(meanSq - mean * mean)
  }

  /** The value Flock::statistics returns for the prey ps. The speed part
      asserts at least one prey; the distance part is zero below two. */
  function StatisticsOf(m: MathLib, ps: seq<BoidState>): Statistics
    requires |ps| > 0
  {
    var meanDist := MeanDistance(m, ps);
    var devDist := if |ps| > 1 then Deviation(m, meanDist, MeanSqDistance(m, ps)) else 0.0;
    Statistics(meanDist, devDist, MeanSpeed(m, ps), Deviation(m, MeanSpeed(m, ps), MeanSqSpeed(m, ps)))
  }

  // ---------------------------------------------------------------------
  // The distance part is an average over unordered pairs

  /** Distances from ps[i + 1], ..., ps[j - 1] to ps[i]: the row without the
      agent's distance to itself. */
  function PairRowSum(m: MathLib, ps: seq<BoidState>, i: nat, j: nat): real
    requires i < j <= |ps|
    decreases j
  {
    if j == i + 1 then 0.0
    else PairRowSum(m, ps, i, j - 1) + DistanceTo(m, ps[j - 1].position, ps[i].position)
  }

  /** The sum over the unordered pairs {i, j}, r <= i < j, of their distance. */
  function PairSum(m: MathLib, ps: seq<BoidState>, r: nat): real
    requires r <= |ps|
    decreases |ps| - r
  {
    if r == |ps| then 0.0 else PairRowSum(m, ps, r, |ps|) + PairSum(m, ps, r + 1)
  }

  /** An agent's distance to itself adds nothing to its row. */
  lemma {:induction false} RowSumSkipsSelf(m: MathLib, ps: seq<BoidState>, i: nat, j: nat)
    requires m.Valid() && i < j <= |ps|
    ensures RowSum(m, ps, i, j) == PairRowSum(m, ps, i, j)
    decreases j
  {
    if j == i + 1 {
      var p := ps[i].position;
      assert Sub(p, p) == Zero;
      SqrtZero(m);
      assert DistanceTo(m, p, p) == 0.0;
      assert RowSum(m, ps, i, i) == 0.0;
    } else {
      RowSumSkipsSelf(m, ps, i, j - 1);
    }
  }

  lemma {:induction false} DistanceSumIsPairSum(m: MathLib, ps: seq<BoidState>, r: nat)
    requires m.Valid() && r <= |ps|
    ensures DistanceSum(m, ps, r) == PairSum(m, ps, r)
    decreases |ps| - r
  {
    if r < |ps| {
      DistanceSumIsPairSum(m, ps, r + 1);
      RowSumSkipsSelf(m, ps, r, |ps|);
    }
  }

  /** With two or more prey the mean distance is the sum over unordered pairs
      divided by the number of pairs; with fewer, both distance figures are 0. */
  lemma MeanDistanceOverPairs(m: MathLib, ps: seq<BoidState>)
    requires m.Valid() && |ps| > 0
    ensures |ps| < 2 ==> StatisticsOf(m, ps).meanDistance == 0.0 && StatisticsOf(m, ps).devDistance == 0.0
    ensures |ps| >= 2 ==> PairCount(|ps|) > 0.0 && StatisticsOf(m, ps).meanDistance == PairSum(m, ps, 0) / PairCount(|ps|)
  {
    if |ps| >= 2 {
      DistanceSumIsPairSum(m, ps, 0);
    }
  }

  // ---------------------------------------------------------------------
  // Bounds

  lemma {:induction false} SpeedSumBounded(m: MathLib, ps: seq<BoidState>, j: nat, bound: real)
    requires m.Valid() && j <= |ps|
    requires forall k :: 0 <= k < |ps| ==> Magnitude(m, ps[k].velocity) <= bound
    ensures 0.0 <= SpeedSum(m, ps, j) <= (j as real) * bound
  {
    if j > 0 {
      SpeedSumBounded(m, ps, j - 1, bound);
      NormSqNonnegative(ps[j - 1].velocity);
    }
  }

  /** The mean speed is non-negative and never exceeds a bound that every
      prey's speed respects. */
  lemma MeanSpeedBounded(m: MathLib, ps: seq<BoidState>, bound: real)
    requires m.Valid() && |ps| > 0
    requires forall k :: 0 <= k < |ps| ==> Magnitude(m, ps[k].velocity) <= bound
    ensures 0.0 <= StatisticsOf(m, ps).meanVelocity <= bound
  {
    var n := |ps| as real;
    SpeedSumBounded(m, ps, |ps|, bound);
    var s := SpeedSum(m, ps, |ps|);
    assert n * bound == (|ps| as real) * bound;
    QuotientBounds(s, n, 0.0, bound);
  }

  /** The mean distance between prey is never negative. */
  lemma {:induction false} MeanDistanceNonnegative(m: MathLib, ps: seq<BoidState>)
    requires m.Valid() && |ps| > 0
    ensures 0.0 <= StatisticsOf(m, ps).meanDistance
  {
    if |ps| >= 2 {
      DistanceSumNonnegative(m, ps, 0);
      var s, c := DistanceSum(m, ps, 0), PairCount(|ps|);
      QuotientNonnegative(s, c);
    }
  }

  lemma {:induction false} RowSumNonnegative(m: MathLib, ps: seq<BoidState>, i: nat, j: nat)
    requires m.Valid() && i <= j <= |ps|
    ensures 0.0 <= RowSum(m, ps, i, j)
    decreases j
  {
    if j > i {
      RowSumNonnegative(m, ps, i, j - 1);
      NormSqNonnegative(Sub(ps[j - 1].position, ps[i].position));
    }
  }

  lemma {:induction false} DistanceSumNonnegative(m: MathLib, ps: seq<BoidState>, r: nat)
    requires m.Valid() && r <= |ps|
    ensures 0.0 <= DistanceSum(m, ps, r)
    decreases |ps| - r
  {
    if r < |ps| {
      DistanceSumNonnegative(m, ps, r + 1);
      RowSumNonnegative(m, ps, r, |ps|);
    }
  }
}
