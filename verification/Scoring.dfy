/** Performance metrics and ranking: the one-pass loops and what they refine. */
module Scoring {
  import opened Arithmetic

  const RETURN_SCALE: int := 1_000_000

  // ---------------------------------------------------------------- integer square root

  predicate IsRoot(root: int, value: int) {
    0 <= root && root * root <= value < (root + 1) * (root + 1)
  }

  lemma RootUnique(a: int, b: int, value: int)
    requires IsRoot(a, value) && IsRoot(b, value)
    ensures a == b
  {
    if a < b {
      SquareMono(a + 1, b);
    } else if b < a {
      SquareMono(b + 1, a);
    }
  }

  lemma SquareMono(a: int, b: int)
    requires 0 <= a <= b
    ensures a * a <= b * b
  {
    MulMono(a, b, a);
    MulMono(a, b, b);
  }

  /** Bisection for the floor of the square root of a 128-bit value. */
  method IntegerSqrt(value: int) returns (root: int)
    requires 0 <= value <= U128_MAX
    ensures IsRoot(root, value) && root <= U64_MAX
  {
    if value < 2 {
      return value;
    }
    var left, right := 1, Min(value, U64_MAX);
    assert value < (right + 1) * (right + 1) by {
      if value <= U64_MAX {
        MulMono(1, value + 1, value + 1);
      }
    }
    while left <= right
      invariant 1 <= left <= right + 1 <= U64_MAX + 1
      invariant (left - 1) * (left - 1) <= value < (right + 1) * (right + 1)
      decreases right - left
    {
      var middle := left + (right - left) / 2;
      assert left <= middle <= right;
      var square := middle * middle;
      SquareMono(middle, U64_MAX);
      assert square <= U128_MAX;
      if square == value {
        assert (middle + 1) * (middle + 1) == square + 2 * middle + 1;
        return middle;
      } else if square < value {
        left := middle + 1;
      } else {
        right := middle - 1;
      }
    }
    assert left == right + 1;
    return right;
  }

  // ---------------------------------------------------------------- performance metrics

  datatype PerformanceMetrics = PerformanceMetrics(
    netReturnMicros: i64,
    sortinoMicros: i64,
    maxDrawdownMicros: i64)

  /** Loss from `high` to `low` in millionths of `high`, rounded down; zero when there is none. */
  function Drop(high: int, low: int): int
    requires high > 0
  {
    if low < high then (high - low) * RETURN_SCALE / high else 0
  }

  ghost predicate AllPositive(equity: seq<i64>) {
    forall i :: 0 <= i < |equity| ==> equity[i] > 0
  }

  /** `m` is the greatest drop from any point to any later one, and zero when the curve never
      falls. */
  ghost predicate IsMaxDrawdown(equity: seq<i64>, m: int)
    requires AllPositive(equity)
  {
    && (forall i, j :: 0 <= i < j < |equity| ==> Drop(equity[i], equity[j]) <= m)
    && (m == 0 || exists i, j :: 0 <= i < j < |equity| && Drop(equity[i], equity[j]) == m)
  }

  lemma MaxDrawdownUnique(equity: seq<i64>, a: int, b: int)
    requires AllPositive(equity) && |equity| >= 2
    requires IsMaxDrawdown(equity, a) && IsMaxDrawdown(equity, b)
    ensures a == b && 0 <= a < RETURN_SCALE
  {
    hide Drop;
    DropBounds(equity[0], equity[1]);
    assert Drop(equity[0], equity[1]) <= a && Drop(equity[0], equity[1]) <= b;
    if a != 0 {
      var i, j :| 0 <= i < j < |equity| && Drop(equity[i], equity[j]) == a;
      DropBounds(equity[i], equity[j]);
    }
    if b != 0 {
      var i, j :| 0 <= i < j < |equity| && Drop(equity[i], equity[j]) == b;
      DropBounds(equity[i], equity[j]);
    }
  }

  lemma DropBounds(high: int, low: int)
    requires high > 0 && low > 0
    ensures 0 <= Drop(high, low) < RETURN_SCALE
  {
    if low < high {
      DivBounds((high - low) * RETURN_SCALE, high);
      DivNat((high - low) * RETURN_SCALE, high);
      if Drop(high, low) >= RETURN_SCALE {
        MulMono(RETURN_SCALE, Drop(high, low), high);
      }
    }
  }

  /** A higher starting point makes the drop to the same point at least as large. */
  lemma DropMono(lower: int, higher: int, low: int)
    requires 0 < lower <= higher && low > 0
    ensures Drop(lower, low) <= Drop(higher, low)
  {
    if low < lower {
      var a := (lower - low) * RETURN_SCALE;
      var b := (higher - low) * RETURN_SCALE;
      DivBounds(a, lower);
      AtMostFloor(a / lower, b, higher);
      CrossRatio(a / lower, lower, higher, low);
    } else {
      DropBounds(higher, low);
    }
  }

  lemma CrossRatio(q: int, lower: int, higher: int, low: int)
    requires 0 < lower <= higher && 0 < low < lower
    requires q * lower <= (lower - low) * RETURN_SCALE
    ensures q * higher <= (higher - low) * RETURN_SCALE
  {
    // q < RETURN_SCALE, so each further unit of height adds more than it costs
    if q >= RETURN_SCALE {
      MulMono(RETURN_SCALE, q, lower);
    }
    MulMono(q, RETURN_SCALE, higher - lower);
    assert q * higher == q * lower + q * (higher - lower);
  }

  function PeriodReturn(from: int, to: int): int
    requires from > 0
  {
    TruncDiv((to - from) * RETURN_SCALE, from)
  }

  function Returns(equity: seq<i64>): (changes: seq<int>)
    requires |equity| > 0
    requires forall i :: 0 <= i < |equity| ==> equity[i] > 0
    ensures |changes| == |equity| - 1
  {
    seq(|equity| - 1, i requires 0 <= i < |equity| - 1 => PeriodReturn(equity[i], equity[i + 1]))
  }

  function Sum(values: seq<int>): int {
    if values == [] then 0 else Sum(values[..|values| - 1]) + values[|values| - 1]
  }

  /** Sum of squares of the negative values. */
  function DownsideSum(values: seq<int>): nat {
    if values == [] then 0
    else
      var last := values[|values| - 1];
      SquareIsNat(last);
      DownsideSum(values[..|values| - 1]) + (if last < 0 then last * last else 0)
  }

  lemma SquareIsNat(x: int)
    ensures x * x >= 0
  {
  }

  /** `q` is `n / d` with the fraction cut off. */
  predicate IsQuotient(q: int, n: int, d: int) {
    && Abs(q) * d <= Abs(n) < (Abs(q) + 1) * d
    && (q > 0 ==> n > 0) && (q < 0 ==> n < 0)
  }

  lemma QuotientUnique(a: int, b: int, n: int, d: int)
    requires 0 < d && IsQuotient(a, n, d) && IsQuotient(b, n, d)
    ensures a == b
  {
    DivUnique(Abs(n), d, Abs(a));
    DivUnique(Abs(n), d, Abs(b));
  }

  lemma TruncIsQuotient(n: int, d: int)
    requires 0 < d
    ensures IsQuotient(TruncDiv(n, d), n, d)
  {
    DivBounds(Abs(n), d);
    DivNat(Abs(n), d);
    assert TruncDiv(Abs(n), d) == Abs(n) / d;
  }

  /** `ratio` is the mean change over the downside deviation: both quotients cut off, the deviation
      the floor of the square root of the mean square. Without any downside it is the largest number
      for a gain and zero otherwise. */
  ghost predicate IsDownsideRatio(changes: seq<int>, ratio: int)
    requires changes != []
  {
    exists mean: int, square: int, deviation: int ::
      && IsQuotient(mean, Sum(changes), |changes|)
      && IsQuotient(square, DownsideSum(changes), |changes|)
      && IsRoot(deviation, square)
      && RatioOf(ratio, mean, deviation)
  }

  predicate RatioOf(ratio: int, mean: int, deviation: int) {
    if deviation == 0 then ratio == if mean > 0 then I64_MAX else 0
    else deviation > 0 && IsQuotient(ratio, mean * RETURN_SCALE, deviation)
  }

  lemma RatioUnique(changes: seq<int>, a: int, b: int)
    requires changes != [] && IsDownsideRatio(changes, a) && IsDownsideRatio(changes, b)
    ensures a == b
  {
    hide IsQuotient, IsRoot;
    var mean, square, deviation :|
      && IsQuotient(mean, Sum(changes), |changes|)
      && IsQuotient(square, DownsideSum(changes), |changes|)
      && IsRoot(deviation, square) && RatioOf(a, mean, deviation);
    var mean', square', deviation' :|
      && IsQuotient(mean', Sum(changes), |changes|)
      && IsQuotient(square', DownsideSum(changes), |changes|)
      && IsRoot(deviation', square') && RatioOf(b, mean', deviation');
    QuotientUnique(mean, mean', Sum(changes), |changes|);
    QuotientUnique(square, square', DownsideSum(changes), |changes|);
    RootUnique(deviation, deviation', square);
    if deviation != 0 {
      QuotientUnique(a, b, mean * RETURN_SCALE, deviation);
    }
  }

  /** What the metrics of an equity curve are. */
  ghost predicate AreMetrics(equity: seq<i64>, metrics: PerformanceMetrics) {
    && |equity| >= 2 && AllPositive(equity)
    && IsQuotient(metrics.netReturnMicros, (equity[|equity| - 1] - equity[0]) * RETURN_SCALE, equity[0])
    && IsMaxDrawdown(equity, metrics.maxDrawdownMicros)
    && DownsideSum(Returns(equity)) <= U128_MAX
    && IsDownsideRatio(Returns(equity), metrics.sortinoMicros)
  }

  /** The numbers the metrics are made of: a change is the difference in millionths of the equity before
      it, a drop the loss in millionths of the higher equity, each with the fraction cut off. */
  lemma ChangesAreQuotients(equity: seq<i64>, i: nat, j: nat)
    requires AllPositive(equity) && i < j < |equity|
    ensures var from: int, to: int := equity[i], equity[j];
            && (i + 1 == j ==> IsQuotient(Returns(equity)[i], (to - from) * 1_000_000, from))
            && (if to < from then IsQuotient(Drop(from, to), (from - to) * 1_000_000, from)
                else Drop(from, to) == 0)
  {
    var from: int, to: int := equity[i], equity[j];
    TruncIsQuotient((to - from) * RETURN_SCALE, from);
    TruncIsQuotient((from - to) * RETURN_SCALE, from);
  }

  /** The sums are taken change by change, the second one of the squares of the losses only. */
  lemma {:induction false} SumsOfParts(first: seq<int>, second: seq<int>)
    ensures Sum(first + second) == Sum(first) + Sum(second)
    ensures DownsideSum(first + second) == DownsideSum(first) + DownsideSum(second)
    ensures |first| == 1 ==>
              && Sum(first) == first[0]
              && DownsideSum(first) == if first[0] < 0 then first[0] * first[0] else 0
  {
    if second == [] {
      assert first + second == first;
    } else {
      var n := |second| - 1;
      SumsOfParts(first, second[..n]);
      assert (first + second)[..|first + second| - 1] == first + second[..n];
    }
  }

  // ---------------------------------------------------------------- no overflow in the sums

  /** No change is beyond a million times the largest amount. */
  lemma ReturnBounded(from: i64, to: i64)
    requires from > 0 && to > 0
    ensures Abs(PeriodReturn(from, to)) <= I64_MAX * RETURN_SCALE
  {
    TruncIsQuotient((to - from) * RETURN_SCALE, from);
    var q := Abs(PeriodReturn(from, to));
    MulMono(1, from, q);
  }

  /** The 128-bit sum of the changes cannot overflow for a curve of at most eighteen million million
      points. */
  lemma {:induction false} SumFits(equity: seq<i64>, count: nat)
    requires AllPositive(equity) && 0 < |equity| <= 18_000_000_000_000 && count < |equity|
    ensures Abs(Sum(Returns(equity)[..count])) <= count * (I64_MAX * RETURN_SCALE) <= I128_MAX
  {
    hide PeriodReturn;
    var changes := Returns(equity);
    if count > 0 {
      SumFits(equity, count - 1);
      assert changes[..count][..count - 1] == changes[..count - 1];
      ReturnBounded(equity[count - 1], equity[count]);
    }
  }

  /** Running peak and maximum drawdown in one pass, changes collected along the way. */
  method Drawdown(equity: seq<i64>) returns (changes: seq<int>, maximum: int)
    requires |equity| >= 2 && AllPositive(equity)
    ensures changes == Returns(equity)
    ensures IsMaxDrawdown(equity, maximum) && 0 <= maximum < RETURN_SCALE
  {
    hide Drop, PeriodReturn, IsMaxDrawdown;
    changes := [];
    maximum := 0;
    var peak := equity[0];
    ghost var top := 0;
    SinglePoint(equity[..1]);
    for n := 1 to |equity|
      invariant 0 <= top < n && peak == equity[top]
      invariant forall i :: 0 <= i < n ==> equity[i] <= peak
      invariant changes == Returns(equity)[..n - 1]
      invariant IsMaxDrawdown(equity[..n], maximum) && 0 <= maximum < RETURN_SCALE
    {
      changes := changes + [PeriodReturn(equity[n - 1], equity[n])];
      ExtendDrawdown(equity, n, top, maximum);
      DropBounds(peak, equity[n]);
      if equity[n] > peak {
        NoDrop(peak, equity[n]);
        peak := equity[n];
        top := n;
      }
      if equity[n] < peak {
        maximum := Max(maximum, Drop(peak, equity[n]));
      } else {
        NoDrop(peak, equity[n]);
      }
    }
    assert equity[..|equity|] == equity;
    assert Returns(equity)[..|equity| - 1] == Returns(equity);
  }

  lemma SinglePoint(equity: seq<i64>)
    requires AllPositive(equity) && |equity| == 1
    ensures IsMaxDrawdown(equity, 0)
  {
  }

  /** The greatest drop so far and the drop from the running peak give the greatest drop. */
  lemma ExtendDrawdown(equity: seq<i64>, n: nat, top: nat, maximum: int)
    requires AllPositive(equity) && top < n < |equity|
    requires forall i :: 0 <= i < n ==> equity[i] <= equity[top]
    requires IsMaxDrawdown(equity[..n], maximum) && 0 <= maximum
    ensures IsMaxDrawdown(equity[..n + 1], Max(maximum, Drop(equity[top], equity[n])))
  {
    hide Drop;
    var before, after := equity[..n], equity[..n + 1];
    var best := Drop(equity[top], equity[n]);
    forall i, j | 0 <= i < j < n + 1
      ensures Drop(after[i], after[j]) <= Max(maximum, best)
    {
      if j < n {
        assert Drop(before[i], before[j]) <= maximum;
      } else {
        DropMono(equity[i], equity[top], equity[n]);
      }
    }
    if best > maximum {
      assert 0 <= top < n < |after| && Drop(after[top], after[n]) == best;
    } else if maximum != 0 {
      var i, j :| 0 <= i < j < n && Drop(before[i], before[j]) == maximum;
      assert 0 <= i < j < |after| && Drop(after[i], after[j]) == maximum;
    }
  }

  lemma NoDrop(high: int, low: int)
    requires 0 < high <= low
    ensures Drop(high, low) == 0
  {
  }

  /** The metrics of a curve, exactly when it has some: none for fewer than two points or a point that
      is not positive, and none when a number does not fit. */
  method ComputePerformanceMetrics(equity: seq<i64>) returns (metrics: Option<PerformanceMetrics>)
    ensures metrics.Some? ==> AreMetrics(equity, metrics.value)
    ensures metrics.None? ==> forall m :: !AreMetrics(equity, m)
  {
    hide Drop, PeriodReturn, IsRoot, IsMaxDrawdown, IsQuotient, IsDownsideRatio;
    if |equity| < 2 || exists i :: 0 <= i < |equity| && equity[i] <= 0 {
      return None;
    }
    var net := TruncDiv((equity[|equity| - 1] - equity[0]) * RETURN_SCALE, equity[0]);
    TruncIsQuotient((equity[|equity| - 1] - equity[0]) * RETURN_SCALE, equity[0]);
    if !FitsI64(net) {
      forall m ensures !AreMetrics(equity, m) {
        if AreMetrics(equity, m) {
          QuotientUnique(net, m.netReturnMicros, (equity[|equity| - 1] - equity[0]) * RETURN_SCALE,
                         equity[0]);
        }
      }
      return None;
    }
    var changes, maximum := Drawdown(equity);
    if DownsideSum(changes) > U128_MAX {
      return None;
    }
    var ratio := DownsideRatio(changes);
    if !FitsI64(ratio) {
      forall m ensures !AreMetrics(equity, m) {
        if AreMetrics(equity, m) {
          RatioUnique(changes, ratio, m.sortinoMicros);
        }
      }
      return None;
    }
    return Some(PerformanceMetrics(net, ratio, maximum));
  }

  method DownsideRatio(changes: seq<int>) returns (ratio: int)
    requires changes != [] && DownsideSum(changes) <= U128_MAX
    ensures IsDownsideRatio(changes, ratio)
  {
    hide IsQuotient, IsRoot;
    var mean := TruncDiv(Sum(changes), |changes|);
    TruncIsQuotient(Sum(changes), |changes|);
    var square := DownsideSum(changes) / |changes|;
    TruncIsQuotient(DownsideSum(changes), |changes|);
    assert square == TruncDiv(DownsideSum(changes), |changes|);
    MeanFits(DownsideSum(changes), |changes|);
    var deviation := IntegerSqrt(square);
    RootIsNat(deviation, square);
    if deviation == 0 {
      ratio := if mean > 0 then I64_MAX else 0;
    } else {
      ratio := TruncDiv(mean * RETURN_SCALE, deviation);
      TruncIsQuotient(mean * RETURN_SCALE, deviation);
    }
    assert RatioOf(ratio, mean, deviation);
  }

  lemma MeanFits(sum: nat, count: int)
    requires 0 < count && sum <= U128_MAX
    ensures 0 <= sum / count <= U128_MAX
  {
    DivNat(sum, count);
    DivBounds(sum, count);
    MulMono(1, count, sum / count);
  }

  lemma RootIsNat(root: int, value: int)
    requires IsRoot(root, value)
    ensures root >= 0
  {
  }
}
