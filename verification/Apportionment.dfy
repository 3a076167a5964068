/**
 Integer apportionment of a development budget over weighted axes: the largest-remainder
 method of experiments/budget_effect_v2/build_campaign.py and its equal-weight fast form.
 The original has four axes; everything here holds for any number of axes, any integer
 weights with a positive total, and any integer budget.
 */
module Apportionment {
  import opened Results
  import opened Sums
  import opened Counting
  import opened Integers
  import opened Ordering

  /** Whole part of every axis's exact share. */
  function Floors(weights: seq<int>, budget: int): seq<int>
    requires Sum(weights) > 0
  {
    seq(|weights|, i requires 0 <= i < |weights| => budget * weights[i] / Sum(weights))
  }

  /** What the whole part leaves over on every axis, in units of 1/total. */
  function Remainders(weights: seq<int>, budget: int): seq<int>
    requires Sum(weights) > 0
  {
    seq(|weights|, i requires 0 <= i < |weights| => (budget * weights[i]) % Sum(weights))
  }

  function Leftover(weights: seq<int>, budget: int): int
    requires Sum(weights) > 0
  {
    budget - Sum(Floors(weights, budget))
  }

  /** Priority for a leftover point: larger remainder first, then the earlier axis. */
  predicate Precedes(rems: seq<int>, i: nat, j: nat)
    requires i < |rems| && j < |rems|
  {
    rems[i] > rems[j] || (rems[i] == rems[j] && i < j)
  }

  /**
   The largest-remainder allocation, stated without any algorithm: it spends the budget, gives
   every axis its whole share or one point more, and rounds up no axis before a prior one.
   */
  ghost predicate Hamilton(weights: seq<int>, budget: int, points: seq<int>)
    requires Sum(weights) > 0
  {
    var floors, rems := Floors(weights, budget), Remainders(weights, budget);
    && |points| == |weights|
    && Sum(points) == budget
    && (forall i :: 0 <= i < |weights| ==> floors[i] <= points[i] <= floors[i] + 1)
    && (forall i, j :: 0 <= i < |weights| && 0 <= j < |weights| && points[i] > floors[i] && points[j] == floors[j]
          ==> Precedes(rems, i, j))
  }

  // ----- Quota and conservation -----

  lemma {:induction false} PrefixBalance(weights: seq<int>, budget: int, n: nat)
    requires Sum(weights) > 0 && n <= |weights|
    ensures budget * SumTo(weights, n)
         == Sum(weights) * SumTo(Floors(weights, budget), n) + SumTo(Remainders(weights, budget), n)
  {
    if n > 0 {
      PrefixBalance(weights, budget, n - 1);
      DivMod(budget * weights[n - 1], Sum(weights));
      Distribute(Sum(weights), SumTo(Floors(weights, budget), n - 1), Floors(weights, budget)[n - 1]);
      Distribute(budget, SumTo(weights, n - 1), weights[n - 1]);
    }
  }

  /** The leftover points are exactly what the remainders add up to. */
  lemma LeftoverBalance(weights: seq<int>, budget: int)
    requires Sum(weights) > 0
    ensures Sum(weights) * Leftover(weights, budget) == Sum(Remainders(weights, budget))
  {
    PrefixBalance(weights, budget, |weights|);
    Distribute(Sum(weights), Leftover(weights, budget), Sum(Floors(weights, budget)));
  }

  function NonzeroTo(s: seq<int>, n: nat): nat
    requires n <= |s|
  {
    if n == 0 then 0 else NonzeroTo(s, n - 1) + (if s[n - 1] != 0 then 1 else 0)
  }

  lemma {:induction false} RemainderBound(rems: seq<int>, t: int, n: nat)
    requires t > 0 && n <= |rems|
    requires forall i :: 0 <= i < |rems| ==> 0 <= rems[i] < t
    ensures 0 <= SumTo(rems, n) <= (t - 1) * NonzeroTo(rems, n)
    ensures NonzeroTo(rems, n) <= n
    ensures SumTo(rems, n) == 0 <==> NonzeroTo(rems, n) == 0
  {
    if n > 0 {
      RemainderBound(rems, t, n - 1);
      var c := NonzeroTo(rems, n - 1);
      assert (t - 1) * (c + 1) == (t - 1) * c + (t - 1);
    }
  }

  lemma LeftoverBelow(t: int, left: int, count: nat)
    requires t > 0 && 0 <= t * left <= (t - 1) * count
    requires t * left == 0 <==> count == 0
    ensures 0 <= left
    ensures if left > 0 then left < count else count == 0
  {
    assert t * count == (t - 1) * count + count;
    assert left >= count ==> t * (left - count) >= 0;
    assert t * (left - count) == t * left - t * count;
  }

  /** The slice of the sorted order always suffices: fewer points are left than axes can use. */
  lemma LeftoverFits(weights: seq<int>, budget: int)
    requires Sum(weights) > 0
    ensures 0 <= Leftover(weights, budget) < |weights|
    ensures var usable := NonzeroTo(Remainders(weights, budget), |weights|);
            if Leftover(weights, budget) > 0 then Leftover(weights, budget) < usable else usable == 0
  {
    var t, rems, left := Sum(weights), Remainders(weights, budget), Leftover(weights, budget);
    LeftoverBalance(weights, budget);
    RemainderBound(rems, t, |weights|);
    LeftoverBelow(t, left, NonzeroTo(rems, |weights|));
  }

  /** Quota: an axis with an exact integer share, such as a zero-weight axis, gets exactly that share. */
  lemma ExactShareKept(weights: seq<int>, budget: int, points: seq<int>, i: nat)
    requires Sum(weights) > 0 && Hamilton(weights, budget, points) && i < |weights|
    requires Remainders(weights, budget)[i] == 0
    ensures Sum(weights) * points[i] == budget * weights[i]
    ensures weights[i] == 0 ==> points[i] == 0
  {
    var t, floors, rems := Sum(weights), Floors(weights, budget), Remainders(weights, budget);
    if points[i] != floors[i] {
      var gains := seq(|weights|, k requires 0 <= k < |weights| => t * (points[k] - floors[k]));
      forall k | 0 <= k < |weights| ensures rems[k] <= gains[k] {
        GainCovers(weights, budget, points, i, k);
      }
      GainsSum(t, points, floors, gains, |weights|);
      LeftoverBalance(weights, budget);
      GainCovers(weights, budget, points, i, i);
      SumToMonotone(rems, gains, |weights|);
      assert false;
    }
    DivMod(budget * weights[i], t);
    if weights[i] == 0 {
      assert budget * 0 == 0;
      MulSteps(t, points[i]);
    }
  }

  /** If an exact share were rounded up, every axis would gain at least its remainder. */
  lemma GainCovers(weights: seq<int>, budget: int, points: seq<int>, i: nat, k: nat)
    requires Sum(weights) > 0 && Hamilton(weights, budget, points) && i < |weights| && k < |weights|
    requires Remainders(weights, budget)[i] == 0 && points[i] > Floors(weights, budget)[i]
    ensures Remainders(weights, budget)[k] <= Sum(weights) * (points[k] - Floors(weights, budget)[k])
    ensures k == i ==> Remainders(weights, budget)[k] < Sum(weights) * (points[k] - Floors(weights, budget)[k])
  {
    var t, gain := Sum(weights), points[k] - Floors(weights, budget)[k];
    DivMod(budget * weights[k], t);
    MulSteps(t, gain);
    assert gain == 0 ==> Precedes(Remainders(weights, budget), i, k);
  }

  lemma {:induction false} GainsSum(t: int, points: seq<int>, floors: seq<int>, gains: seq<int>, n: nat)
    requires n <= |points| == |floors| == |gains|
    requires forall k :: 0 <= k < |gains| ==> gains[k] == t * (points[k] - floors[k])
    ensures SumTo(gains, n) == t * (SumTo(points, n) - SumTo(floors, n))
  {
    if n > 0 {
      GainsSum(t, points, floors, gains, n - 1);
      assert t * (SumTo(points, n) - SumTo(floors, n))
          == t * (SumTo(points, n - 1) - SumTo(floors, n - 1)) + t * (points[n - 1] - floors[n - 1]);
    }
  }

  // ----- The algorithm -----

  /** Tuple order of the sort key (-remainder, index). */
  function KeyLe(): ((int, int), (int, int)) -> bool {
    (x: (int, int), y: (int, int)) => x.0 < y.0 || (x.0 == y.0 && x.1 <= y.1)
  }

  function Keys(rems: seq<int>): seq<(int, int)> {
    seq(|rems|, i requires 0 <= i < |rems| => (-rems[i], i))
  }

  lemma {:induction false} KeysOnce(rems: seq<int>, n: nat, k: (int, int))
    requires n <= |rems|
    ensures multiset(Keys(rems)[..n])[k] <= 1
    ensures k in multiset(Keys(rems)[..n]) ==> 0 <= k.1 < n
  {
    if n > 0 {
      KeysOnce(rems, n - 1, k);
      assert Keys(rems)[..n] == Keys(rems)[..n - 1] + [(-rems[n - 1], n - 1)];
    }
  }

  /** Every axis once, in priority order. */
  ghost predicate PriorityOrder(rems: seq<int>, order: seq<nat>) {
    && |order| == |rems|
    && (forall k :: 0 <= k < |order| ==> order[k] < |rems|)
    && (forall j, k :: 0 <= j < k < |order| ==> Precedes(rems, order[j], order[k]))
    && (forall i :: 0 <= i < |rems| ==> i in order)
  }

  lemma KeysDistinct(rems: seq<int>, keys: seq<(int, int)>, j: nat, k: nat)
    requires multiset(keys) == multiset(Keys(rems)) && j < k < |keys|
    ensures keys[j] != keys[k]
  {
    KeysOnce(rems, |rems|, keys[k]);
    assert Keys(rems)[..|rems|] == Keys(rems);
    if keys[j] == keys[k] {
      RepeatCounted(keys, j, k);
    }
  }

  lemma SortedKeys(rems: seq<int>, keys: seq<(int, int)>)
    requires keys == Sort(Keys(rems), KeyLe())
    ensures |keys| == |rems|
    ensures forall k :: 0 <= k < |keys| ==> 0 <= keys[k].1 < |rems| && keys[k].0 == -rems[keys[k].1]
    ensures forall j, k :: 0 <= j < k < |keys| ==> Precedes(rems, keys[j].1, keys[k].1)
    ensures forall i :: 0 <= i < |rems| ==> (-rems[i], i) in keys
  {
    SortCorrect(Keys(rems), KeyLe());
    forall k | 0 <= k < |keys|
      ensures 0 <= keys[k].1 < |rems| && keys[k].0 == -rems[keys[k].1]
    {
      assert keys[k] in multiset(Keys(rems));
    }
    forall j, k | 0 <= j < k < |keys|
      ensures Precedes(rems, keys[j].1, keys[k].1)
    {
      assert KeyLe()(keys[j], keys[k]);
      KeysDistinct(rems, keys, j, k);
    }
    forall i | 0 <= i < |rems| ensures (-rems[i], i) in keys {
      assert Keys(rems)[i] in multiset(Keys(rems));
      assert (-rems[i], i) in multiset(keys);
    }
  }

  function PriorityIndices(rems: seq<int>): (order: seq<nat>)
    ensures PriorityOrder(rems, order)
  {
    var keys := Sort(Keys(rems), KeyLe());
    SortedKeys(rems, keys);
    var order := seq(|keys|, k requires 0 <= k < |keys| => keys[k].1 as nat);
    assert forall i :: 0 <= i < |rems| ==> i in order by {
      forall i | 0 <= i < |rems| ensures i in order {
        var k :| 0 <= k < |keys| && keys[k] == (-rems[i], i);
        assert order[k] == i;
      }
    }
    order
  }

  /** Rounding up a prefix of the priority order rounds up no axis before a prior one. */
  lemma PrefixFirst(rems: seq<int>, order: seq<nat>, n: nat, i: nat, j: nat)
    requires PriorityOrder(rems, order) && n <= |order|
    requires i < |rems| && j < |rems| && i in order[..n] && j !in order[..n]
    ensures Precedes(rems, i, j)
  {
    var a :| 0 <= a < n && order[a] == i;
    assert j in order;
    var b :| 0 <= b < |order| && order[b] == j;
  }

  method ProportionalPoints(weights: seq<int>, budget: int) returns (r: Result<seq<int>>)
    ensures r.Ok? <==> Sum(weights) > 0
    ensures r.Ok? ==> Hamilton(weights, budget, r.value)
  {
    var total := Sum(weights);
    if total <= 0 {
      return Err("source opponent allocation is empty");
    }
    var floors, rems := Floors(weights, budget), Remainders(weights, budget);
    var points := floors;
    var leftover := budget - Sum(points);
    var order := PriorityIndices(rems);
    LeftoverFits(weights, budget);
    for k := 0 to leftover
      invariant |points| == |floors|
      invariant Sum(points) == Sum(floors) + k
      invariant forall i :: 0 <= i < |points| ==> points[i] == floors[i] + (if i in order[..k] then 1 else 0)
    {
      var index := order[k];
      assert order[..k + 1] == order[..k] + [index];
      assert index !in order[..k];
      SumToIncrement(points, index, |points|);
      points := points[index := points[index] + 1];
    }
    forall i, j | 0 <= i < |weights| && 0 <= j < |weights| && points[i] > floors[i] && points[j] == floors[j]
      ensures Precedes(rems, i, j)
    {
      PrefixFirst(rems, order, leftover, i, j);
    }
    r := Ok(points);
  }

  /** The specification has one solution, so the method's result is determined. */
  lemma HamiltonUnique(weights: seq<int>, budget: int, p: seq<int>, q: seq<int>)
    requires Sum(weights) > 0 && Hamilton(weights, budget, p) && Hamilton(weights, budget, q)
    ensures p == q
  {
    if p != q {
      var up, down := SumsCross(p, q);
      assert false;
    }
  }

  // ----- Optimality -----

  function Abs(x: int): nat { if x < 0 then -x else x }

  /** Total absolute deviation from the exact proportional shares, in units of 1/total. */
  function DeviationTo(weights: seq<int>, budget: int, points: seq<int>, n: nat): nat
    requires n <= |weights| == |points|
  {
    if n == 0 then 0
    else DeviationTo(weights, budget, points, n - 1)
         + Abs(Sum(weights) * points[n - 1] - budget * weights[n - 1])
  }

  function Deviation(weights: seq<int>, budget: int, points: seq<int>): nat
    requires |weights| == |points|
  {
    DeviationTo(weights, budget, points, |weights|)
  }

  /** One axis: moving d points away from a floor costs at least the slope t - 2 * threshold per point. */
  lemma AxisSubgradient(t: int, rem: int, up: int, d: int, threshold: int)
    requires 0 <= rem < t && 0 <= threshold < t
    requires (up == 0 && rem <= threshold) || (up == 1 && threshold <= rem)
    ensures Abs(t * d - rem) >= Abs(t * up - rem) + (t - 2 * threshold) * (d - up)
  {
    AxisProducts(t, threshold, d);
    if up == 1 {
      AxisExpand(t, threshold, d - 1);
      assert t * (d - 1) == t * d - t && threshold * (d - 1) == threshold * d - threshold;
    } else {
      AxisExpand(t, threshold, d);
    }
  }

  lemma AxisProducts(t: int, threshold: int, d: int)
    requires 0 <= threshold < t
    ensures d <= 0 ==> t * d <= 0 && t * d <= threshold * d
    ensures d >= 1 ==> t * d >= t && threshold * d >= threshold
  {
    MulSteps(t, d);
    if d <= 0 {
      MulSteps(t - threshold, d);
      assert (t - threshold) * d == t * d - threshold * d;
    } else if threshold > 0 {
      MulSteps(threshold, d);
    }
  }

  lemma AxisExpand(t: int, threshold: int, e: int)
    ensures (t - 2 * threshold) * e == t * e - 2 * (threshold * e)
  {
  }

  /** The same inequality for the absolute deviations of one axis with share n / t. */
  lemma AxisStep(t: int, n: int, p: int, q: int, threshold: int)
    requires 0 <= threshold < t
    requires (p == n / t && n % t <= threshold) || (p == n / t + 1 && threshold <= n % t)
    ensures Abs(t * q - n) >= Abs(t * p - n) + (t - 2 * threshold) * (q - p)
  {
    DivMod(n, t);
    AxisSubgradient(t, n % t, p - n / t, q - n / t, threshold);
    assert t * (q - n / t) == t * q - t * (n / t) && t * (p - n / t) == t * p - t * (n / t);
  }

  lemma {:induction false} DeviationSubgradient(
    weights: seq<int>, budget: int, p: seq<int>, q: seq<int>, threshold: int, n: nat)
    requires Sum(weights) > 0 && n <= |weights| == |p| == |q|
    requires 0 <= threshold < Sum(weights)
    requires var floors, rems := Floors(weights, budget), Remainders(weights, budget);
      forall i :: 0 <= i < |weights| ==>
        (p[i] == floors[i] && rems[i] <= threshold) || (p[i] == floors[i] + 1 && threshold <= rems[i])
    ensures DeviationTo(weights, budget, q, n) >=
            DeviationTo(weights, budget, p, n) + (Sum(weights) - 2 * threshold) * (SumTo(q, n) - SumTo(p, n))
  {
    if n > 0 {
      DeviationSubgradient(weights, budget, p, q, threshold, n - 1);
      var i, slope := n - 1, Sum(weights) - 2 * threshold;
      AxisStep(Sum(weights), budget * weights[i], p[i], q[i], threshold);
      Distribute(slope, SumTo(q, i) - SumTo(p, i), q[i] - p[i]);
    }
  }

  /** The largest remainder left unrounded separates the axes rounded down from those rounded up. */
  lemma {:induction false} Separator(t: int, floors: seq<int>, rems: seq<int>, p: seq<int>, n: nat) returns (threshold: int)
    requires n <= |floors| == |rems| == |p| && t > 0
    requires forall i :: 0 <= i < |rems| ==> 0 <= rems[i] < t
    requires forall i, j :: 0 <= i < |rems| && 0 <= j < |rems| && p[i] > floors[i] && p[j] == floors[j] ==> rems[j] <= rems[i]
    ensures 0 <= threshold < t
    ensures forall i :: 0 <= i < n && p[i] == floors[i] ==> rems[i] <= threshold
    ensures forall i :: 0 <= i < |rems| && p[i] > floors[i] ==> threshold <= rems[i]
  {
    if n == 0 {
      threshold := 0;
    } else {
      threshold := Separator(t, floors, rems, p, n - 1);
      if p[n - 1] == floors[n - 1] && rems[n - 1] > threshold {
        threshold := rems[n - 1];
      }
    }
  }

  lemma Threshold(weights: seq<int>, budget: int, p: seq<int>) returns (threshold: int)
    requires Sum(weights) > 0 && Hamilton(weights, budget, p)
    ensures 0 <= threshold < Sum(weights)
    ensures forall i :: 0 <= i < |weights| && p[i] == Floors(weights, budget)[i] ==> Remainders(weights, budget)[i] <= threshold
    ensures forall i :: 0 <= i < |weights| && p[i] > Floors(weights, budget)[i] ==> threshold <= Remainders(weights, budget)[i]
  {
    var floors, rems := Floors(weights, budget), Remainders(weights, budget);
    forall i | 0 <= i < |weights| ensures 0 <= rems[i] < Sum(weights) {
      DivMod(budget * weights[i], Sum(weights));
    }
    threshold := Separator(Sum(weights), floors, rems, p, |weights|);
  }

  /** No other integer split of the budget lies closer to the exact proportional shares. */
  lemma HamiltonOptimal(weights: seq<int>, budget: int, p: seq<int>, q: seq<int>)
    requires Sum(weights) > 0 && Hamilton(weights, budget, p)
    requires |q| == |weights| && Sum(q) == budget
    ensures Deviation(weights, budget, p) <= Deviation(weights, budget, q)
  {
    var threshold := Threshold(weights, budget, p);
    DeviationSubgradient(weights, budget, p, q, threshold, |weights|);
    assert (Sum(weights) - 2 * threshold) * 0 == 0;
  }

  // ----- Closed form of the rounding -----

  ghost function Prior(rems: seq<int>, i: nat): set<int>
    requires i < |rems|
  {
    set j | 0 <= j < |rems| && Precedes(rems, j, i)
  }

  ghost function RoundedTo(floors: seq<int>, points: seq<int>, n: nat): set<int>
    requires n <= |floors| == |points|
  {
    set i | 0 <= i < n && points[i] > floors[i]
  }

  lemma {:induction false} RoundedCount(floors: seq<int>, points: seq<int>, n: nat)
    requires n <= |floors| == |points|
    requires forall i :: 0 <= i < |floors| ==> floors[i] <= points[i] <= floors[i] + 1
    ensures |RoundedTo(floors, points, n)| == SumTo(points, n) - SumTo(floors, n)
  {
    if n > 0 {
      RoundedCount(floors, points, n - 1);
      var before, now := RoundedTo(floors, points, n - 1), RoundedTo(floors, points, n);
      assert now == if points[n - 1] > floors[n - 1] then before + {n - 1} else before;
    }
  }

  /** An axis is rounded up exactly when fewer axes have priority than points are left over. */
  lemma RoundedUpIff(weights: seq<int>, budget: int, p: seq<int>, i: nat)
    requires Sum(weights) > 0 && Hamilton(weights, budget, p) && i < |weights|
    ensures p[i] > Floors(weights, budget)[i]
       <==> |Prior(Remainders(weights, budget), i)| < Leftover(weights, budget)
  {
    var floors, rems := Floors(weights, budget), Remainders(weights, budget);
    var rounded := RoundedTo(floors, p, |weights|);
    RoundedCount(floors, p, |weights|);
    if p[i] > floors[i] {
      assert Prior(rems, i) <= rounded - {i};
      SubsetSmaller(Prior(rems, i), rounded - {i});
    } else {
      assert rounded <= Prior(rems, i);
      SubsetSmaller(rounded, Prior(rems, i));
    }
  }

  /** When an axis stays within a cap: its share is at most the cap, or less than one above it and outranked. */
  lemma WithinCapIff(weights: seq<int>, budget: int, p: seq<int>, i: nat, cap: int)
    requires Sum(weights) > 0 && Hamilton(weights, budget, p) && i < |weights|
    ensures p[i] <= cap <==>
      var share, unit := budget * weights[i], Sum(weights);
      || share <= cap * unit
      || (share < (cap + 1) * unit && |Prior(Remainders(weights, budget), i)| >= Leftover(weights, budget))
  {
    var n, t, rem := budget * weights[i], Sum(weights), Remainders(weights, budget)[i];
    DivMod(n, t);
    CapArithmetic(n, t, cap);
    RoundedUpIff(weights, budget, p, i);
    if rem == 0 {
      ExactShareKept(weights, budget, p, i);
      assert p[i] == n / t by { assert t * p[i] == t * (n / t); }
    }
  }

  lemma CapArithmetic(n: int, t: int, cap: int)
    requires t > 0
    ensures n <= cap * t <==> n / t < cap || (n / t == cap && n % t == 0)
    ensures n < (cap + 1) * t <==> n / t <= cap
  {
    DivMod(n, t);
    var d := n / t - cap;
    assert t * d == t * (n / t) - cap * t;
    assert (cap + 1) * t == cap * t + t;
    MulSteps(t, d);
  }

  // ----- Laws -----

  lemma DivMonotone(m: int, n: int, t: int)
    requires t > 0 && m <= n
    ensures m / t < n / t || (m / t == n / t && m % t <= n % t && (m % t == n % t ==> m == n))
  {
    DivMod(m, t);
    DivMod(n, t);
    var d := m / t - n / t;
    assert t * d == t * (m / t) - t * (n / t);
    MulSteps(t, d);
  }

  /** A larger weight never gets fewer points. */
  lemma LargerWeightNoFewer(weights: seq<int>, budget: nat, p: seq<int>, i: nat, j: nat)
    requires Sum(weights) > 0 && Hamilton(weights, budget, p)
    requires i < |weights| && j < |weights| && weights[i] < weights[j]
    ensures p[i] <= p[j]
  {
    var t := Sum(weights);
    LargerShare(budget, weights[i], weights[j]);
    DivMonotone(budget * weights[i], budget * weights[j], t);
    if budget * weights[i] == budget * weights[j] {
      DivUnique(0, t, 0, 0);
      ExactShareKept(weights, budget, p, i);
      ExactShareKept(weights, budget, p, j);
      assert t * p[i] == t * p[j];
    }
  }

  lemma LargerShare(budget: nat, x: int, y: int)
    requires x < y
    ensures budget * x <= budget * y
    ensures budget * x == budget * y ==> budget == 0 && budget * x == 0
  {
    MulSteps(y - x, budget);
    assert budget * (y - x) == budget * y - budget * x;
  }

  /**
   A larger budget can take a point away, never more: exactly when the whole share stays the same, the axis
   was rounded up at the smaller budget, and is outranked at the larger one.
   */
  lemma MoreBudgetFewerIff(weights: seq<int>, budget: int, more: int, p: seq<int>, q: seq<int>, i: nat)
    requires Sum(weights) > 0 && Hamilton(weights, budget, p) && Hamilton(weights, more, q)
    requires budget <= more && i < |weights| && weights[i] >= 0
    ensures q[i] >= p[i] - 1
    ensures q[i] < p[i] <==>
      && Floors(weights, budget)[i] == Floors(weights, more)[i]
      && |Prior(Remainders(weights, budget), i)| < Leftover(weights, budget)
      && |Prior(Remainders(weights, more), i)| >= Leftover(weights, more)
  {
    hide Prior, Leftover;
    RoundedUpIff(weights, budget, p, i);
    RoundedUpIff(weights, more, q, i);
    LargerBudget(weights[i], budget, more);
    DivMonotone(budget * weights[i], more * weights[i], Sum(weights));
  }

  lemma LargerBudget(w: int, budget: int, more: int)
    requires w >= 0 && budget <= more
    ensures budget * w <= more * w
  {
    assert (more - budget) * w == more * w - budget * w;
    assert (more - budget) * w >= 0;
  }

  /** An input where one more point of budget costs the third axis a point. */
  lemma BudgetNotMonotone()
    ensures Sum([6, 6, 2, 0]) == 14
    ensures Hamilton([6, 6, 2, 0], 10, [4, 4, 2, 0]) && Hamilton([6, 6, 2, 0], 11, [5, 5, 1, 0])
  {
    hide Floors, Remainders, Hamilton, Sum;
    var w: seq<int> := [6, 6, 2, 0];
    SumOfFour(w);
    SharesAre(w, 10, [4, 4, 1, 0], [4, 4, 6, 0]);
    SharesAre(w, 11, [4, 4, 1, 0], [10, 10, 8, 0]);
    FourAxes(w, 10, [4, 4, 2, 0]);
    FourAxes(w, 11, [5, 5, 1, 0]);
  }

  lemma SharesAre(weights: seq<int>, budget: int, floors: seq<int>, rems: seq<int>)
    requires Sum(weights) > 0 && |floors| == |rems| == |weights|
    requires forall i :: 0 <= i < |weights| ==>
      budget * weights[i] == Sum(weights) * floors[i] + rems[i] && 0 <= rems[i] < Sum(weights)
    ensures Floors(weights, budget) == floors && Remainders(weights, budget) == rems
  {
    forall i | 0 <= i < |weights|
      ensures Floors(weights, budget)[i] == floors[i] && Remainders(weights, budget)[i] == rems[i]
    {
      DivUnique(budget * weights[i], Sum(weights), floors[i], rems[i]);
    }
  }

  lemma FourAxes(weights: seq<int>, budget: int, points: seq<int>)
    requires |weights| == 4 == |points| && Sum(weights) > 0
    requires points[0] + points[1] + points[2] + points[3] == budget
    requires var floors, rems := Floors(weights, budget), Remainders(weights, budget);
      && (forall i :: 0 <= i < 4 ==> floors[i] <= points[i] <= floors[i] + 1)
      && (forall i, j :: 0 <= i < 4 && 0 <= j < 4 && points[i] > floors[i] && points[j] == floors[j] ==> Precedes(rems, i, j))
    ensures Hamilton(weights, budget, points)
  {
    hide Floors, Remainders, Precedes;
    SumOfFour(points);
  }

  lemma SumOfFour(s: seq<int>)
    requires |s| == 4
    ensures Sum(s) == s[0] + s[1] + s[2] + s[3]
  {
    assert SumTo(s, 1) == SumTo(s, 0) + s[0];
    assert SumTo(s, 2) == SumTo(s, 1) + s[1];
    assert SumTo(s, 3) == SumTo(s, 2) + s[2];
  }

  /** Equal weights differ by at most one point, in favour of the earlier axis. */
  lemma EqualWeightsClose(weights: seq<int>, budget: int, p: seq<int>, i: nat, j: nat)
    requires Sum(weights) > 0 && Hamilton(weights, budget, p)
    requires i < j < |weights| && weights[i] == weights[j]
    ensures p[j] <= p[i] <= p[j] + 1
  {
    var floors, rems := Floors(weights, budget), Remainders(weights, budget);
    assert floors[i] == floors[j] && rems[i] == rems[j];
    assert p[j] > floors[j] && p[i] == floors[i] ==> Precedes(rems, j, i);
  }

  function Scaled(weights: seq<int>, c: int): seq<int> {
    seq(|weights|, i requires 0 <= i < |weights| => c * weights[i])
  }

  lemma {:induction false} ScaledSum(weights: seq<int>, c: int, n: nat)
    requires n <= |weights|
    ensures SumTo(Scaled(weights, c), n) == c * SumTo(weights, n)
  {
    if n > 0 {
      ScaledSum(weights, c, n - 1);
      Distribute(c, SumTo(weights, n - 1), weights[n - 1]);
    }
  }

  lemma ScaledDiv(n: int, t: int, c: int)
    requires t > 0 && c > 0
    ensures c * t > 0
    ensures (c * n) / (c * t) == n / t
    ensures (c * n) % (c * t) == c * (n % t)
  {
    DivMod(n, t);
    assert c * (t - n % t) > 0;
    assert c * n == c * (t * (n / t)) + c * (n % t);
    assert c * (t * (n / t)) == (c * t) * (n / t);
    DivUnique(c * n, c * t, n / t, c * (n % t));
  }

  /** Multiplying every weight by one positive constant changes nothing. */
  lemma ScaleInvariant(weights: seq<int>, budget: int, p: seq<int>, c: int)
    requires Sum(weights) > 0 && c > 0
    ensures Sum(Scaled(weights, c)) > 0
    ensures Hamilton(weights, budget, p) <==> Hamilton(Scaled(weights, c), budget, p)
  {
    var scaled, t := Scaled(weights, c), Sum(weights);
    ScaledSum(weights, c, |weights|);
    assert c * t > 0;
    var rems, rems' := Remainders(weights, budget), Remainders(scaled, budget);
    forall i | 0 <= i < |weights|
      ensures Floors(scaled, budget)[i] == Floors(weights, budget)[i] && rems'[i] == c * rems[i]
    {
      assert budget * (c * weights[i]) == c * (budget * weights[i]);
      ScaledDiv(budget * weights[i], t, c);
    }
    assert Floors(scaled, budget) == Floors(weights, budget);
    forall i, j | 0 <= i < |weights| && 0 <= j < |weights|
      ensures Precedes(rems', i, j) == Precedes(rems, i, j)
    {
      ScaledOrder(c, rems[i], rems[j]);
    }
  }

  lemma ScaledOrder(c: int, x: int, y: int)
    requires c > 0
    ensures x > y <==> c * x > c * y
    ensures x == y <==> c * x == c * y
  {
    assert c * (x - y) == c * x - c * y;
    if x > y {
      assert c * (x - y) > 0;
    } else if x < y {
      assert c * (y - x) > 0;
    }
  }

  /** Apportioning any allocation again at its own total returns it. */
  lemma ReapportionFixed(p: seq<int>)
    requires Sum(p) > 0
    ensures Hamilton(p, Sum(p), p)
  {
    var t := Sum(p);
    forall i | 0 <= i < |p| ensures Floors(p, t)[i] == p[i] {
      DivUnique(t * p[i], t, p[i], 0);
    }
  }

  /** The equal-split fast form. */
  function BalancedPoints(axes: nat, budget: int): seq<int>
    requires axes > 0
  {
    seq(axes, i => budget / axes + (if i < budget % axes then 1 else 0))
  }

  lemma {:induction false} BalancedSum(points: seq<int>, quotient: int, remainder: nat, n: nat)
    requires n <= |points|
    requires forall i :: 0 <= i < |points| ==> points[i] == quotient + (if i < remainder then 1 else 0)
    ensures SumTo(points, n) == quotient * n + (if n < remainder then n else remainder)
  {
    if n > 0 {
      BalancedSum(points, quotient, remainder, n - 1);
      Distribute(quotient, n - 1, 1);
    }
  }

  /** Equal positive weights give exactly the balanced split. */
  lemma EqualWeightsBalanced(axes: nat, weight: int, budget: int)
    requires axes > 0 && weight > 0
    ensures Sum(Scaled(seq(axes, _ => 1), weight)) > 0
    ensures Hamilton(Scaled(seq(axes, _ => 1), weight), budget, BalancedPoints(axes, budget))
  {
    OnesBalanced(axes, budget);
    ScaleInvariant(seq(axes, _ => 1), budget, BalancedPoints(axes, budget), weight);
  }

  lemma BalancedTotal(axes: nat, budget: int)
    requires axes > 0
    ensures Sum(BalancedPoints(axes, budget)) == budget
  {
    BalancedSum(BalancedPoints(axes, budget), budget / axes, budget % axes, axes);
    DivMod(budget, axes);
  }

  lemma OnesBalanced(axes: nat, budget: int)
    requires axes > 0
    ensures Sum(seq(axes, _ => 1)) == axes
    ensures Hamilton(seq(axes, _ => 1), budget, BalancedPoints(axes, budget))
  {
    var ones, points := seq(axes, _ => 1), BalancedPoints(axes, budget);
    OnesSum(axes, axes);
    BalancedTotal(axes, budget);
    var floors, rems := Floors(ones, budget), Remainders(ones, budget);
    forall i | 0 <= i < axes ensures floors[i] == budget / axes && rems[i] == budget % axes {
      assert budget * ones[i] == budget;
    }
  }

  lemma {:induction false} OnesSum(axes: nat, n: nat)
    requires n <= axes
    ensures SumTo(seq(axes, _ => 1), n) == n
  {
    if n > 0 {
      OnesSum(axes, n - 1);
    }
  }
}
