/**
 Stint strategies and per-stint pace (experiments/racing_v3_validation/validate_local.py).
 */
module Stints {
  import opened Ordering
  import opened Results

  datatype Stint = Stint(tire: string, laps: int)

  function LapsTo(stints: seq<Stint>, n: nat): int
    requires n <= |stints|
  {
    if n == 0 then 0 else LapsTo(stints, n - 1) + stints[n - 1].laps
  }

  function Stops(stints: seq<Stint>): nat { if stints == [] then 0 else |stints| - 1 }

  /** Pit laps are the cumulative lap counts before every stint but the first. */
  method ExplicitStintStrategy(stints: seq<Stint>) returns (pitLaps: seq<int>)
    ensures |pitLaps| == Stops(stints)
    ensures forall i :: 0 <= i < |pitLaps| ==> pitLaps[i] == LapsTo(stints, i + 1)
  {
    var cumulative := 0;
    pitLaps := [];
    for i := 0 to Stops(stints)
      invariant |pitLaps| == i
      invariant cumulative == LapsTo(stints, i)
      invariant forall k :: 0 <= k < i ==> pitLaps[k] == LapsTo(stints, k + 1)
    {
      cumulative := cumulative + stints[i].laps;
      pitLaps := pitLaps + [cumulative];
    }
  }

  ghost predicate Positive(stints: seq<Stint>) { forall i :: 0 <= i < |stints| ==> stints[i].laps > 0 }

  lemma {:induction false} LapsIncrease(stints: seq<Stint>, i: nat, j: nat)
    requires Positive(stints) && i < j <= |stints|
    ensures LapsTo(stints, i) < LapsTo(stints, j)
    decreases j
  {
    if i < j - 1 {
      LapsIncrease(stints, i, j - 1);
    }
  }

  /** Pit stops fall strictly inside the race, one after the other. */
  lemma PitLapsInside(stints: seq<Stint>, pitLaps: seq<int>)
    requires Positive(stints) && |pitLaps| == Stops(stints)
    requires forall i :: 0 <= i < |pitLaps| ==> pitLaps[i] == LapsTo(stints, i + 1)
    ensures forall i :: 0 <= i < |pitLaps| ==> 0 < pitLaps[i] < LapsTo(stints, |stints|)
    ensures forall i, j :: 0 <= i < j < |pitLaps| ==> pitLaps[i] < pitLaps[j]
  {
    forall i | 0 <= i < |pitLaps| ensures 0 < pitLaps[i] < LapsTo(stints, |stints|) {
      LapsIncrease(stints, 0, i + 1);
      LapsIncrease(stints, i + 1, |stints|);
    }
    forall i, j | 0 <= i < j < |pitLaps| ensures pitLaps[i] < pitLaps[j] {
      LapsIncrease(stints, i + 1, j + 1);
    }
  }

  // ----- Pace -----

  function Bound(i: int, n: nat): nat {
    if i < 0 then (if n + i < 0 then 0 else n + i) else if i > n then n else i
  }

  /** A slice with the original's clamping and negative indices. */
  function Slice<T>(s: seq<T>, start: int, end: int): seq<T> {
    var a, b := Bound(start, |s|), Bound(end, |s|);
    if a <= b then s[a..b] else []
  }

  lemma SliceInside<T>(s: seq<T>, a: int, b: int)
    requires 0 <= a <= b <= |s|
    ensures Slice(s, a, b) == s[a..b]
  {
  }

  function IntLe(): (int, int) -> bool { (x: int, y: int) => x <= y }

  function Median(s: seq<int>): real
    requires s != []
  {
    SortCorrect(s, IntLe());
    Middle(Sort(s, IntLe()))
  }

  function Middle(sorted: seq<int>): real
    requires sorted != []
  {
    var middle := |sorted| / 2;
    if |sorted| % 2 == 1 then sorted[middle] as real else (sorted[middle - 1] + sorted[middle]) as real / 2.0
  }

  datatype Drift = Drift(first: real, last: real, drift: real)
  datatype Pace = Pace(stint: nat, cleanLaps: nat, drift: Option<Drift>)

  function Boundaries(pitLaps: seq<int>, laps: nat): seq<int> { [0] + pitLaps + [laps] }

  /** The laps of one stint; the standing-start lap is not clean. */
  function Clean(lapTimes: seq<int>, start: int, end: int): seq<int> {
    var raw := Slice(lapTimes, start, end);
    if start == 0 && raw != [] then raw[1..] else raw
  }

  function PaceOf(clean: seq<int>, stint: nat, window: nat): Pace
    requires window > 0
  {
    if clean == [] then Pace(stint, 0, None) else
      var first := Median(Slice(clean, 0, window));
      var last := Median(Slice(clean, 0 - window, |clean|));
      Pace(stint, |clean|, Some(Drift(first, last, last - first)))
  }

  /** What the summary of a run with these pit laps holds. */
  ghost predicate Summarizes(summaries: seq<Pace>, lapTimes: seq<int>, pitLaps: seq<int>, window: nat)
    requires window > 0
  {
    var bounds := Boundaries(pitLaps, |lapTimes|);
    && |summaries| == |pitLaps| + 1
    && forall k :: 0 <= k < |summaries| ==>
         summaries[k] == PaceOf(Clean(lapTimes, bounds[k], bounds[k + 1]), k + 1, window)
  }

  method StintPaceSummary(lapTimes: seq<int>, pitLaps: seq<int>, window: nat) returns (summaries: seq<Pace>)
    requires window > 0
    ensures Summarizes(summaries, lapTimes, pitLaps, window)
  {
    hide Clean, PaceOf;
    var bounds := Boundaries(pitLaps, |lapTimes|);
    summaries := [];
    for k := 0 to |bounds| - 1
      invariant |summaries| == k
      invariant forall j :: 0 <= j < k ==>
        summaries[j] == PaceOf(Clean(lapTimes, bounds[j], bounds[j + 1]), j + 1, window)
    {
      var clean := Clean(lapTimes, bounds[k], bounds[k + 1]);
      summaries := summaries + [PaceOf(clean, k + 1, window)];
    }
  }

  // ----- Strategy and pace agree -----

  /** The boundaries recovered from a strategy are its cumulative lap counts. */
  lemma BoundariesAre(stints: seq<Stint>, pitLaps: seq<int>, laps: nat, k: nat)
    requires stints != [] && k <= |stints| && |pitLaps| == Stops(stints) && laps == LapsTo(stints, |stints|)
    requires forall i :: 0 <= i < |pitLaps| ==> pitLaps[i] == LapsTo(stints, i + 1)
    ensures |Boundaries(pitLaps, laps)| == |stints| + 1
    ensures Boundaries(pitLaps, laps)[k] == LapsTo(stints, k)
  {
  }

  /** The laps of the first n stints, joined again. */
  function JoinedTo(lapTimes: seq<int>, bounds: seq<int>, n: nat): seq<int>
    requires n < |bounds|
  {
    if n == 0 then [] else JoinedTo(lapTimes, bounds, n - 1) + Slice(lapTimes, bounds[n - 1], bounds[n])
  }

  /** Partition: the stint slices, joined in order, are the race's laps. */
  lemma {:induction false} SlicesPartition(stints: seq<Stint>, pitLaps: seq<int>, lapTimes: seq<int>, n: nat)
    requires stints != [] && Positive(stints) && n <= |stints| && |pitLaps| == Stops(stints)
    requires forall i :: 0 <= i < |pitLaps| ==> pitLaps[i] == LapsTo(stints, i + 1)
    requires |lapTimes| == LapsTo(stints, |stints|)
    ensures n < |Boundaries(pitLaps, |lapTimes|)|
    ensures 0 <= LapsTo(stints, n) <= |lapTimes|
    ensures JoinedTo(lapTimes, Boundaries(pitLaps, |lapTimes|), n) == lapTimes[..LapsTo(stints, n)]
  {
    hide Boundaries, Slice;
    BoundariesAre(stints, pitLaps, |lapTimes|, n);
    if n > 0 {
      SlicesPartition(stints, pitLaps, lapTimes, n - 1);
      BoundariesAre(stints, pitLaps, |lapTimes|, n - 1);
      LapsIncrease(stints, n - 1, n);
      if n < |stints| {
        LapsIncrease(stints, n, |stints|);
      }
      var a, b := LapsTo(stints, n - 1), LapsTo(stints, n);
      SliceInside(lapTimes, a, b);
      assert lapTimes[..b] == lapTimes[..a] + lapTimes[a..b];
    }
  }

  /** The laps a strategy declares for stint k, without the opening lap of the race. */
  function Declared(stints: seq<Stint>, lapTimes: seq<int>, k: nat): seq<int>
    requires k < |stints|
  {
    Slice(lapTimes, LapsTo(stints, k) + (if k == 0 then 1 else 0), LapsTo(stints, k + 1))
  }

  lemma CleanInside(lapTimes: seq<int>, a: int, b: int)
    requires 0 <= a < b <= |lapTimes|
    ensures var start := a + (if a == 0 then 1 else 0);
      Clean(lapTimes, a, b) == Slice(lapTimes, start, b) && |Clean(lapTimes, a, b)| == b - start
  {
    hide Slice;
    SliceInside(lapTimes, a, b);
    SliceInside(lapTimes, a + (if a == 0 then 1 else 0), b);
  }

  /** The clean laps are the declared ones, and their counts give back the stint lengths, less the opening lap. */
  lemma CleanCounts(stints: seq<Stint>, pitLaps: seq<int>, lapTimes: seq<int>, k: nat)
    requires stints != [] && Positive(stints) && k < |stints| && |pitLaps| == Stops(stints)
    requires forall i :: 0 <= i < |pitLaps| ==> pitLaps[i] == LapsTo(stints, i + 1)
    requires |lapTimes| == LapsTo(stints, |stints|)
    ensures |Boundaries(pitLaps, |lapTimes|)| == |stints| + 1
    ensures var bounds := Boundaries(pitLaps, |lapTimes|);
      && Clean(lapTimes, bounds[k], bounds[k + 1]) == Declared(stints, lapTimes, k)
      && |Clean(lapTimes, bounds[k], bounds[k + 1])| == stints[k].laps - (if k == 0 then 1 else 0)
  {
    hide Boundaries, Slice, Clean;
    BoundariesAre(stints, pitLaps, |lapTimes|, k);
    BoundariesAre(stints, pitLaps, |lapTimes|, k + 1);
    if k > 0 {
      LapsIncrease(stints, 0, k);
    }
    if k + 1 < |stints| {
      LapsIncrease(stints, k + 1, |stints|);
    }
    CleanInside(lapTimes, LapsTo(stints, k), LapsTo(stints, k + 1));
  }

  function CleanTotal(summaries: seq<Pace>, n: nat): nat
    requires n <= |summaries|
  {
    if n == 0 then 0 else CleanTotal(summaries, n - 1) + summaries[n - 1].cleanLaps
  }

  /** End to end: the run of a declared strategy is summarized stint by stint over exactly the declared laps. */
  lemma StrategyPace(
    stints: seq<Stint>, pitLaps: seq<int>, lapTimes: seq<int>, window: nat, summaries: seq<Pace>)
    requires stints != [] && Positive(stints) && |lapTimes| == LapsTo(stints, |stints|) && window > 0
    requires |pitLaps| == Stops(stints) && forall i :: 0 <= i < |pitLaps| ==> pitLaps[i] == LapsTo(stints, i + 1)
    requires Summarizes(summaries, lapTimes, pitLaps, window)
    ensures |summaries| == |stints|
    ensures forall k :: 0 <= k < |stints| ==> summaries[k] == PaceOf(Declared(stints, lapTimes, k), k + 1, window)
    ensures forall k :: 0 <= k < |stints| ==> summaries[k].cleanLaps == stints[k].laps - (if k == 0 then 1 else 0)
    ensures CleanTotal(summaries, |summaries|) == |lapTimes| - 1
  {
    hide Clean, Boundaries, Declared;
    forall k | 0 <= k < |stints|
      ensures summaries[k] == PaceOf(Declared(stints, lapTimes, k), k + 1, window)
      ensures summaries[k].cleanLaps == stints[k].laps - (if k == 0 then 1 else 0)
    {
      CleanCounts(stints, pitLaps, lapTimes, k);
    }
    CleanTotals(stints, summaries, |stints|);
  }

  lemma {:induction false} CleanTotals(stints: seq<Stint>, summaries: seq<Pace>, n: nat)
    requires n <= |stints| == |summaries|
    requires forall k :: 0 <= k < |stints| ==> summaries[k].cleanLaps == stints[k].laps - (if k == 0 then 1 else 0)
    ensures CleanTotal(summaries, n) == LapsTo(stints, n) - (if n == 0 then 0 else 1)
  {
    if n > 0 {
      CleanTotals(stints, summaries, n - 1);
    }
  }

  // ----- Drift does not see a constant offset -----

  function Raised(s: seq<int>, c: int): seq<int> { seq(|s|, i requires 0 <= i < |s| => s[i] + c) }

  lemma {:induction false} InsertRaised(x: int, s: seq<int>, c: int)
    ensures Insert(x + c, Raised(s, c), IntLe()) == Raised(Insert(x, s, IntLe()), c)
  {
    if s != [] && x > s[0] {
      InsertRaised(x, s[1..], c);
      assert Raised(s, c)[1..] == Raised(s[1..], c);
    }
  }

  lemma {:induction false} SortRaised(s: seq<int>, c: int)
    ensures Sort(Raised(s, c), IntLe()) == Raised(Sort(s, IntLe()), c)
  {
    if s != [] {
      assert Raised(s, c)[1..] == Raised(s[1..], c);
      SortRaised(s[1..], c);
      InsertRaised(s[0], Sort(s[1..], IntLe()), c);
    }
  }

  lemma MedianRaised(s: seq<int>, c: int)
    requires s != []
    ensures Median(Raised(s, c)) == Median(s) + c as real
  {
    hide Middle, Sort;
    SortCorrect(s, IntLe());
    SortRaised(s, c);
    MiddleRaised(Sort(s, IntLe()), c);
  }

  lemma MiddleRaised(s: seq<int>, c: int)
    requires s != []
    ensures Middle(Raised(s, c)) == Middle(s) + c as real
  {
    var k := |s| / 2;
    assert Raised(s, c)[k] == s[k] + c;
    if |s| % 2 == 0 {
      assert Raised(s, c)[k - 1] == s[k - 1] + c;
      HalfSum(s[k - 1], s[k], c);
    }
  }

  lemma HalfSum(x: int, y: int, c: int)
    ensures (x + c + (y + c)) as real / 2.0 == (x + y) as real / 2.0 + c as real
  {
  }

  /** Slower or faster laps throughout move both medians and leave the drift alone. */
  lemma DriftOffsetFree(clean: seq<int>, stint: nat, window: nat, c: int)
    requires window > 0
    ensures var before, after := PaceOf(clean, stint, window), PaceOf(Raised(clean, c), stint, window);
      && after.stint == before.stint && after.cleanLaps == before.cleanLaps
      && (after.drift.Some? <==> before.drift.Some?)
      && (before.drift.Some? ==>
            after.drift.value == Drift(before.drift.value.first + c as real, before.drift.value.last + c as real,
                                       before.drift.value.drift))
  {
    hide Median;
    if clean != [] {
      var head, tail := Slice(clean, 0, window), Slice(clean, 0 - window, |clean|);
      assert Slice(Raised(clean, c), 0, window) == Raised(head, c);
      assert Slice(Raised(clean, c), 0 - window, |clean|) == Raised(tail, c);
      MedianRaised(head, c);
      MedianRaised(tail, c);
    }
  }

  // ----- Drift of steadily slower laps -----

  ghost predicate Steady(s: seq<int>, first: int, wear: int) {
    forall i :: 0 <= i < |s| ==> s[i] == first + wear * i
  }

  lemma IntsNoTies(s: seq<int>)
    ensures TotalPreorder(IntLe()) && NoTies(IntLe(), multiset(s))
  {
  }

  /** The median does not see the order of the laps. */
  lemma MedianOrderFree(s: seq<int>, t: seq<int>)
    requires s != [] && t != [] && multiset(s) == multiset(t)
    ensures Median(s) == Median(t)
  {
    hide Middle, Sort;
    SortCorrect(s, IntLe());
    SortCorrect(t, IntLe());
    IntsNoTies(s);
    SortConfluent(s, t, IntLe());
  }

  lemma SortedStays(s: seq<int>)
    requires Sorted(IntLe(), s)
    ensures Sort(s, IntLe()) == s
  {
    hide Sort;
    IntsNoTies(Sort(s, IntLe()));
    SortCorrect(s, IntLe());
    SortedUnique(Sort(s, IntLe()), s, IntLe());
  }

  lemma SteadyMiddle(s: seq<int>, first: int, wear: int)
    requires s != [] && Steady(s, first, wear)
    ensures 2.0 * Middle(s) == (2 * first + wear * (|s| - 1)) as real
  {
    var m := |s| / 2;
    if |s| % 2 == 1 {
      assert s[m] == first + wear * m;
      assert 2 * (wear * m) == wear * (2 * m) && 2 * m == |s| - 1;
    } else {
      assert s[m] == first + wear * m && s[m - 1] == first + wear * (m - 1);
      assert wear * m + wear * (m - 1) == wear * (2 * m - 1) && 2 * m == |s|;
    }
  }

  lemma SteadyMedian(s: seq<int>, first: int, wear: nat)
    requires s != [] && Steady(s, first, wear)
    ensures 2.0 * Median(s) == (2 * first + wear * (|s| - 1)) as real
  {
    hide Middle, Sort;
    forall i, j | 0 <= i < j < |s| ensures IntLe()(s[i], s[j]) {
      SteadyOrder(first, wear, i, j);
    }
    SortedStays(s);
    SteadyMiddle(s, first, wear);
  }

  lemma SteadyOrder(first: int, wear: nat, i: int, j: int)
    requires i <= j
    ensures first + wear * i <= first + wear * j
  {
    assert wear * j - wear * i == wear * (j - i);
  }

  lemma SteadyPart(s: seq<int>, first: int, wear: int, a: nat, b: nat)
    requires Steady(s, first, wear) && a <= b <= |s|
    ensures Steady(s[a..b], first + wear * a, wear)
  {
    forall i | 0 <= i < b - a ensures s[a..b][i] == first + wear * a + wear * i {
      assert s[a..b][i] == s[a + i];
      assert wear * (a + i) == wear * a + wear * i;
    }
  }

  /** Laps that each lose the same time drift by that time for every lap between the two windows. */
  lemma SteadyDrift(clean: seq<int>, first: int, wear: nat, stint: nat, window: nat)
    requires window > 0 && clean != [] && Steady(clean, first, wear)
    ensures var size := if window < |clean| then window else |clean|;
      var p := PaceOf(clean, stint, window);
      && p.stint == stint && p.cleanLaps == |clean| && p.drift.Some?
      && p.drift.value.drift == (wear * (|clean| - size)) as real
      && 2.0 * p.drift.value.first == (2 * first + wear * (size - 1)) as real
  {
    hide Median;
    var n, size := |clean|, if window < |clean| then window else |clean|;
    var head, tail := Slice(clean, 0, window), Slice(clean, 0 - window, n);
    assert head == clean[0..size] && tail == clean[n - size..n];
    SteadyPart(clean, first, wear, 0, size);
    SteadyPart(clean, first, wear, n - size, n);
    assert wear * 0 == 0;
    SteadyMedian(head, first, wear);
    SteadyMedian(tail, first + wear * (n - size), wear);
    HalfDifference(first, wear * (n - size), wear * (size - 1), Median(head), Median(tail));
  }

  lemma HalfDifference(first: int, gap: int, rest: int, x: real, y: real)
    requires 2.0 * x == (2 * first + rest) as real && 2.0 * y == (2 * (first + gap) + rest) as real
    ensures y - x == gap as real
  {
  }
}
