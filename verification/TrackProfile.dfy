/**
 Circular smoothing of a closed elevation loop and the profile built from it
 (experiments/racing_tracks/build_spa_elevation_prototype.py), over exact reals.
 */
module TrackProfile {
  import opened Reals
  import opened Results
  import opened Sums

  function Abs(x: real): real { if x < 0.0 then -x else x }

  function Positive(x: real): real { if x > 0.0 then x else 0.0 }

  /** Sample i of the endlessly repeated lap. */
  function At(core: seq<real>, i: int): real
    requires core != []
  {
    core[i % |core|]
  }

  /** Sum of n consecutive samples of the repeated lap. */
  function Window(core: seq<real>, start: int, n: nat): real
    requires core != []
  {
    if n == 0 then 0.0 else Window(core, start, n - 1) + At(core, start + n - 1)
  }

  function Smooth(core: seq<real>, radius: nat): seq<real>
    requires core != []
  {
    seq(|core|, i => Window(core, i - radius, 2 * radius + 1) / (2 * radius + 1) as real)
  }

  /** The last sample repeats the first: it is dropped, the lap is smoothed, and the loop is closed again. */
  function CircularMean(values: seq<real>, radius: nat): (r: Result<seq<real>>)
    ensures r.Ok? <==> |values| >= 2
    ensures r.Ok? ==> |r.value| == |values| && r.value[|values| - 1] == r.value[0]
    ensures r.Ok? ==> forall i :: 0 <= i < |values| - 1 ==>
      (2 * radius + 1) as real * r.value[i] == Window(values[..|values| - 1], i - radius, 2 * radius + 1)
  {
    if |values| < 2 then Err("list index out of range") else
      var result := Smooth(values[..|values| - 1], radius);
      SmoothTimes(values[..|values| - 1], radius);
      Ok(result + [result[0]])
  }

  lemma SmoothTimes(core: seq<real>, radius: nat)
    requires core != []
    ensures |Smooth(core, radius)| == |core|
    ensures forall i :: 0 <= i < |core| ==>
      (2 * radius + 1) as real * Smooth(core, radius)[i] == Window(core, i - radius, 2 * radius + 1)
  {
    hide Window;
    forall i | 0 <= i < |core|
      ensures (2 * radius + 1) as real * Smooth(core, radius)[i] == Window(core, i - radius, 2 * radius + 1)
    {
      DivBack(Window(core, i - radius, 2 * radius + 1), (2 * radius + 1) as real);
    }
  }

  lemma MeanIsSmooth(values: seq<real>, radius: nat)
    requires |values| >= 2
    ensures var core, m := values[..|values| - 1], CircularMean(values, radius).value;
      |Smooth(core, radius)| == |core| && m == Smooth(core, radius) + [Smooth(core, radius)[0]]
  {
    hide Smooth;
    SmoothTimes(values[..|values| - 1], radius);
  }

  // ----- The repeated lap -----

  lemma Periodic(core: seq<real>, i: int)
    requires core != []
    ensures At(core, i + |core|) == At(core, i)
    ensures 0 <= i < |core| ==> At(core, i) == core[i]
    ensures At(core, |core|) == core[0]
  {
    var n := |core|;
    ModShift(i, n);
    ModShift(0, n);
    assert 0 <= i < n ==> i % n == i;
  }

  lemma ModShift(i: int, n: int)
    requires n > 0
    ensures (i + n) % n == i % n
  {
    var q, q' := i / n, (i + n) / n;
    assert i == n * q + i % n && i + n == n * q' + (i + n) % n;
    var d := q' - q - 1;
    assert n * d == n * q' - n * q - n;
    assert d >= 1 ==> n * (d - 1) >= 0;
    assert d <= -1 ==> n * (-d - 1) >= 0;
  }

  lemma {:induction false} WindowFront(core: seq<real>, start: int, n: nat)
    requires core != []
    ensures Window(core, start, n + 1) == At(core, start) + Window(core, start + 1, n)
  {
    hide At;
    if n > 0 {
      WindowFront(core, start, n - 1);
      assert start + 1 + (n - 1) - 1 == start + n - 1;
    }
  }

  lemma {:induction false} WindowPrefix(core: seq<real>, n: nat)
    requires core != [] && n <= |core|
    ensures Window(core, 0, n) == TotalTo(core, n)
  {
    if n > 0 {
      WindowPrefix(core, n - 1);
      Periodic(core, n - 1);
    }
  }

  /** One whole lap has the same sum wherever it starts. */
  lemma {:induction false} WholeLap(core: seq<real>, start: int)
    requires core != []
    ensures Window(core, start, |core|) == Total(core)
    decreases if start < 0 then -start else start
  {
    hide At;
    if start == 0 {
      WindowPrefix(core, |core|);
    } else if start > 0 {
      WholeLap(core, start - 1);
      WindowFront(core, start - 1, |core|);
      Periodic(core, start - 1);
    } else {
      WholeLap(core, start + 1);
      WindowFront(core, start, |core|);
      Periodic(core, start);
    }
  }

  /** The windows of m consecutive starts, added up. */
  function Windows(core: seq<real>, start: int, n: nat, m: nat): real
    requires core != []
  {
    if m == 0 then 0.0 else Windows(core, start, n, m - 1) + Window(core, start + m - 1, n)
  }

  lemma {:induction false} WindowsSplit(core: seq<real>, start: int, n: nat, m: nat)
    requires core != []
    ensures Windows(core, start, n + 1, m) == Windows(core, start, n, m) + Window(core, start + n, m)
  {
    hide At;
    if m > 0 {
      WindowsSplit(core, start, n, m - 1);
      assert start + m - 1 + n == start + n + m - 1;
    }
  }

  lemma {:induction false} WindowsLap(core: seq<real>, start: int, n: nat)
    requires core != []
    ensures Windows(core, start, n, |core|) == n as real * Total(core)
  {
    hide At, Window;
    if n == 0 {
      WindowsEmpty(core, start, |core|);
    } else {
      WindowsLap(core, start, n - 1);
      WindowsSplit(core, start, n - 1, |core|);
      WholeLap(core, start + n - 1);
      OneMore((n - 1) as real, n as real, Total(core));
    }
  }

  lemma {:induction false} WindowsEmpty(core: seq<real>, start: int, m: nat)
    requires core != []
    ensures Windows(core, start, 0, m) == 0.0
  {
    if m > 0 {
      WindowsEmpty(core, start, m - 1);
    }
  }

  lemma DivSum(a: real, b: real, w: real)
    requires w > 0.0
    ensures a / w + b / w == (a + b) / w
  {
    assert a / w * w == a && b / w * w == b && (a + b) / w * w == a + b;
    var d := a / w + b / w - (a + b) / w;
    assert d * w == 0.0;
  }

  lemma {:induction false} SmoothTotal(core: seq<real>, radius: nat, m: nat)
    requires core != [] && m <= |core|
    ensures TotalTo(Smooth(core, radius), m) == Windows(core, 0 - radius, 2 * radius + 1, m) / (2 * radius + 1) as real
  {
    hide At, Window;
    if m > 0 {
      SmoothTotal(core, radius, m - 1);
      DivSum(Windows(core, 0 - radius, 2 * radius + 1, m - 1), Window(core, m - 1 - radius, 2 * radius + 1),
             (2 * radius + 1) as real);
      assert 0 - radius + m - 1 == m - 1 - radius;
    }
  }

  /** Conservation: smoothing preserves the sum over one lap, for every radius and every lap. */
  lemma SmoothConserves(core: seq<real>, radius: nat)
    requires core != []
    ensures Total(Smooth(core, radius)) == Total(core)
  {
    hide At, Window, Windows, TotalTo;
    SmoothTotal(core, radius, |core|);
    WindowsLap(core, 0 - radius, 2 * radius + 1);
    CancelFactor((2 * radius + 1) as real, Total(core));
  }

  lemma CancelFactor(w: real, x: real)
    requires w > 0.0
    ensures (w * x) / w == x
  {
  }

  lemma AtSample(core: seq<real>, i: int)
    requires core != []
    ensures exists k :: 0 <= k < |core| && core[k] == At(core, i)
  {
    var k := i % |core|;
    assert core[k] == At(core, i);
  }

  lemma {:induction false} WindowBounds(core: seq<real>, start: int, n: nat, low: real, high: real)
    requires core != [] && forall i :: 0 <= i < |core| ==> low <= core[i] <= high
    ensures n as real * low <= Window(core, start, n) <= n as real * high
  {
    hide At;
    if n > 0 {
      WindowBounds(core, start, n - 1, low, high);
      AtSample(core, start + n - 1);
      OneMore((n - 1) as real, n as real, low);
      OneMore((n - 1) as real, n as real, high);
    }
  }

  /** Smoothing stays within any bounds of the input. */
  lemma SmoothWithin(core: seq<real>, radius: nat, low: real, high: real, i: nat)
    requires i < |core| && forall k :: 0 <= k < |core| ==> low <= core[k] <= high
    ensures low <= Smooth(core, radius)[i] <= high
  {
    WindowBounds(core, i - radius, 2 * radius + 1, low, high);
    DivBounds(Window(core, i - radius, 2 * radius + 1), (2 * radius + 1) as real, low, high);
  }

  lemma DivBounds(x: real, w: real, low: real, high: real)
    requires w > 0.0 && w * low <= x <= w * high
    ensures low <= x / w <= high
  {
    var q := x / w;
    assert q * w == x;
    assert q < low ==> (low - q) * w > 0.0;
    assert q > high ==> (q - high) * w > 0.0;
  }

  // ----- Steps -----

  /** Absolute cyclic steps of a lap, the closing step included. */
  function Steps(core: seq<real>): seq<real>
    requires core != []
  {
    seq(|core|, i => Abs(At(core, i + 1) - At(core, i)))
  }

  lemma AtReduced(core: seq<real>, i: int)
    requires core != []
    ensures 0 <= i % |core| < |core| && At(core, i) == core[i % |core|]
    ensures At(core, i % |core|) == At(core, i) && At(core, i % |core| + 1) == At(core, i + 1)
  {
    ModNext(i, |core|);
  }

  lemma StepAt(core: seq<real>, i: int)
    requires core != []
    ensures At(Steps(core), i) == Abs(At(core, i + 1) - At(core, i))
  {
    hide Abs, At;
    AtReduced(core, i);
    AtReduced(Steps(core), i);
  }

  lemma ModNext(i: int, n: int)
    requires n > 0
    ensures (i % n + 1) % n == (i + 1) % n && i % n % n == i % n
  {
    DivModSplit(i, n);
    ModMultiple(i % n + 1, n, i / n);
    ModMultiple(i % n, n, i / n);
  }

  lemma DivModSplit(i: int, n: int)
    requires n > 0
    ensures i % n + n * (i / n) == i && i % n + 1 + n * (i / n) == i + 1
  {
  }

  lemma {:induction false} ModMultiple(i: int, n: int, q: int)
    requires n > 0
    ensures (i + n * q) % n == i % n
    decreases if q < 0 then -q else q
  {
    if q > 0 {
      ModMultiple(i, n, q - 1);
      ModShift(i + n * (q - 1), n);
      assert n * (q - 1) + n == n * q;
    } else if q < 0 {
      ModMultiple(i, n, q + 1);
      ModShift(i + n * q, n);
      assert n * (q + 1) == n * q + n;
    }
  }

  lemma {:induction false} WindowStep(core: seq<real>, start: int, n: nat)
    requires core != []
    ensures Abs(Window(core, start + 1, n) - Window(core, start, n)) <= Window(Steps(core), start, n)
  {
    hide At, Steps;
    if n > 0 {
      WindowStep(core, start, n - 1);
      StepAt(core, start + n - 1);
      assert start + 1 + n - 1 == start + n - 1 + 1;
    }
  }

  /** Every step of the smoothed lap is an average of steps of the lap. */
  lemma SmoothStep(core: seq<real>, radius: nat, i: nat)
    requires i < |core|
    ensures Steps(Smooth(core, radius))[i] <= Smooth(Steps(core), radius)[i]
  {
    hide Window, At, Abs;
    var s, w := Smooth(core, radius), (2 * radius + 1) as real;
    Periodic(s, i);
    SmoothNext(core, radius, i);
    WindowStep(core, i - radius, 2 * radius + 1);
    DivStep(Window(core, i - radius + 1, 2 * radius + 1), Window(core, i - radius, 2 * radius + 1), w,
            Window(Steps(core), i - radius, 2 * radius + 1));
  }

  lemma SmoothNext(core: seq<real>, radius: nat, i: nat)
    requires i < |core|
    ensures At(Smooth(core, radius), i + 1) == Window(core, i - radius + 1, 2 * radius + 1) / (2 * radius + 1) as real
  {
    hide Window, At;
    var s := Smooth(core, radius);
    Periodic(s, i + 1);
    if i + 1 < |core| {
      assert i + 1 - radius == i - radius + 1;
    } else {
      WindowPeriodic(core, 0 - radius, 2 * radius + 1);
      assert 0 - radius + |core| == i - radius + 1;
    }
  }

  lemma {:induction false} WindowPeriodic(core: seq<real>, start: int, n: nat)
    requires core != []
    ensures Window(core, start + |core|, n) == Window(core, start, n)
  {
    hide At;
    if n > 0 {
      WindowPeriodic(core, start, n - 1);
      Periodic(core, start + n - 1);
      assert start + |core| + n - 1 == start + n - 1 + |core|;
    }
  }

  lemma DivStep(a: real, b: real, w: real, bound: real)
    requires w > 0.0 && Abs(a - b) <= bound
    ensures Abs(a / w - b / w) <= bound / w
  {
    assert a / w * w == a && b / w * w == b && bound / w * w == bound;
    DivBounds(a - b, w, -(bound / w), bound / w);
    DivBounds(b - a, w, -(bound / w), bound / w);
    DivSum(a - b, b, w);
  }

  /** Contraction: the largest cyclic step never grows. */
  lemma SmoothContracts(core: seq<real>, radius: nat, limit: real, i: nat)
    requires i < |core| && forall k :: 0 <= k < |core| ==> Steps(core)[k] <= limit
    ensures Steps(Smooth(core, radius))[i] <= limit
  {
    hide Smooth, At, Window, Steps;
    LapLengths(core, radius);
    SmoothStep(core, radius, i);
    forall k | 0 <= k < |core| ensures 0.0 <= Steps(core)[k] <= limit {
      ClosedStep(core, k);
    }
    SmoothWithin(Steps(core), radius, 0.0, limit, i);
  }

  lemma {:induction false} TotalToMonotone(s: seq<real>, t: seq<real>, n: nat)
    requires n <= |s| && n <= |t| && forall i :: 0 <= i < n ==> s[i] <= t[i]
    ensures TotalTo(s, n) <= TotalTo(t, n)
  {
    if n > 0 {
      TotalToMonotone(s, t, n - 1);
    }
  }

  /** The whole up-and-down travel of the lap never grows either. */
  lemma SmoothTravel(core: seq<real>, radius: nat)
    requires core != []
    ensures Total(Steps(Smooth(core, radius))) <= Total(Steps(core))
  {
    hide Steps, Smooth;
    LapLengths(core, radius);
    forall i | 0 <= i < |core| ensures Steps(Smooth(core, radius))[i] <= Smooth(Steps(core), radius)[i] {
      SmoothStep(core, radius, i);
    }
    TotalToMonotone(Steps(Smooth(core, radius)), Smooth(Steps(core), radius), |core|);
    SmoothConserves(Steps(core), radius);
  }

  lemma LapLengths(core: seq<real>, radius: nat)
    requires core != []
    ensures |Steps(core)| == |Smooth(core, radius)| == |core|
    ensures |Steps(Smooth(core, radius))| == |Smooth(Steps(core), radius)| == |core|
  {
  }

  // ----- Gain, loss and slopes -----

  function GainTo(z: seq<real>, n: nat): real
    requires n < |z|
  {
    if n == 0 then 0.0 else GainTo(z, n - 1) + Positive(z[n] - z[n - 1])
  }

  function LossTo(z: seq<real>, n: nat): real
    requires n < |z|
  {
    if n == 0 then 0.0 else LossTo(z, n - 1) + Positive(z[n - 1] - z[n])
  }

  function Gain(z: seq<real>): real requires z != [] { GainTo(z, |z| - 1) }

  function Loss(z: seq<real>): real requires z != [] { LossTo(z, |z| - 1) }

  lemma {:induction false} NetClimb(z: seq<real>, n: nat)
    requires n < |z|
    ensures GainTo(z, n) - LossTo(z, n) == z[n] - z[0]
  {
    if n > 0 {
      NetClimb(z, n - 1);
    }
  }

  lemma {:induction false} ClimbTravel(core: seq<real>, n: nat)
    requires n <= |core| && core != []
    ensures var z := core + [core[0]]; GainTo(z, n) + LossTo(z, n) == TotalTo(Steps(core), n)
  {
    hide At, Steps;
    if n > 0 {
      ClimbTravel(core, n - 1);
      ClosedStep(core, n - 1);
    }
  }

  lemma ClosedStep(core: seq<real>, i: nat)
    requires i < |core|
    ensures |Steps(core)| == |core|
    ensures var z := core + [core[0]]; Steps(core)[i] == Abs(z[i + 1] - z[i])
  {
    hide At, Abs;
    var z := core + [core[0]];
    Periodic(core, i);
    Periodic(core, i + 1);
    assert z[i] == At(core, i) && z[i + 1] == At(core, i + 1);
    assert Steps(core)[i] == Abs(At(core, i + 1) - At(core, i));
  }

  /** On the closed smoothed loop total gain equals total loss, and neither exceeds the raw loop's. */
  lemma SmoothGain(core: seq<real>, radius: nat)
    requires core != []
    ensures var s := Smooth(core, radius);
      && Gain(s + [s[0]]) == Loss(s + [s[0]])
      && Gain(s + [s[0]]) <= Gain(core + [core[0]])
  {
    hide At, Steps, Smooth;
    LapLengths(core, radius);
    var s := Smooth(core, radius);
    NetClimb(s + [s[0]], |s|);
    NetClimb(core + [core[0]], |core|);
    ClimbTravel(s, |s|);
    ClimbTravel(core, |core|);
    SmoothTravel(core, radius);
  }

  /**
   What smoothing a closed loop keeps and never enlarges: sum of a lap, bounds, every cyclic step, total
   travel and total gain.
   */
  lemma CircularMeanLaws(values: seq<real>, radius: nat, low: real, high: real, limit: real)
    requires |values| >= 2
    ensures var core, m := values[..|values| - 1], CircularMean(values, radius).value;
      && Total(m[..|core|]) == Total(core)
      && ((forall k :: 0 <= k < |core| ==> low <= core[k] <= high) ==> forall k :: 0 <= k < |m| ==> low <= m[k] <= high)
      && ((forall k :: 0 <= k < |core| ==> Steps(core)[k] <= limit) ==>
            forall k :: 0 <= k < |core| ==> Steps(m[..|core|])[k] <= limit)
      && Total(Steps(m[..|core|])) <= Total(Steps(core))
      && Gain(m) == Loss(m) && Gain(m) <= Gain(core + [core[0]])
  {
    hide Window, At, Smooth, GainTo, LossTo, CircularMean;
    var core, m := values[..|values| - 1], CircularMean(values, radius).value;
    var s := Smooth(core, radius);
    MeanIsSmooth(values, radius);
    assert m[..|core|] == s;
    SmoothConserves(core, radius);
    SmoothTravel(core, radius);
    SmoothGain(core, radius);
    LapLengths(core, radius);
    if forall k :: 0 <= k < |core| ==> low <= core[k] <= high {
      forall k | 0 <= k < |core| ensures low <= s[k] <= high {
        SmoothWithin(core, radius, low, high, k);
      }
    }
    if forall k :: 0 <= k < |core| ==> Steps(core)[k] <= limit {
      forall k | 0 <= k < |core| ensures Steps(s)[k] <= limit {
        SmoothContracts(core, radius, limit, k);
      }
    }
  }

  /** With radius one every sample is averaged with its two cyclic neighbours. */
  lemma NeighbourMean(values: seq<real>, i: nat)
    requires i < |values| - 1
    ensures var n, m := |values| - 1, CircularMean(values, 1).value;
      3.0 * m[i] == values[(i - 1) % n] + values[i] + values[(i + 1) % n]
  {
    var core := values[..|values| - 1];
    assert Window(core, i - 1, 1) == Window(core, i - 1, 0) + At(core, i - 1);
    assert Window(core, i - 1, 2) == Window(core, i - 1, 1) + At(core, i);
    assert Window(core, i - 1, 3) == Window(core, i - 1, 2) + At(core, i + 1);
    assert 3.0 * CircularMean(values, 1).value[i] == Window(core, i - 1, 3);
    Periodic(core, i);
  }

  datatype Point = Point(distance: real, elevation: real)

  datatype Profile = Profile(
    smoothed: seq<real>, relative: seq<real>, slope: seq<real>, gain: real, loss: real, closureError: real)

  /** Slope times spacing, added up over the loop. */
  function RiseTo(points: seq<Point>, slope: seq<real>, n: nat): real
    requires n < |points| && n <= |slope|
  {
    if n == 0 then 0.0 else RiseTo(points, slope, n - 1) + slope[n - 1] * (points[n].distance - points[n - 1].distance)
  }

  /** Each slope spans the height difference of its segment. */
  ghost predicate Spans(points: seq<Point>, slope: seq<real>, z: seq<real>, n: nat) {
    && n < |points| == |z| && n <= |slope|
    && forall i :: 0 <= i < n ==> slope[i] * (points[i + 1].distance - points[i].distance) == z[i + 1] - z[i]
  }

  lemma SpansNone(points: seq<Point>, z: seq<real>)
    requires 0 < |points| == |z|
    ensures Spans(points, [], z, 0)
  {
  }

  lemma DivBack(x: real, d: real)
    requires d != 0.0
    ensures x / d * d == x
  {
  }

  /** Appending the next quotient extends the spanned part; a longer tail does not matter. */
  lemma SpansNext(points: seq<Point>, slope: seq<real>, z: seq<real>, n: nat, rise: real)
    requires Spans(points, slope, z, n) && |slope| == n && n + 1 < |points|
    requires points[n + 1].distance - points[n].distance != 0.0 && rise == z[n + 1] - z[n]
    ensures Spans(points, slope + [rise / (points[n + 1].distance - points[n].distance)], z, n + 1)
  {
    DivBack(rise, points[n + 1].distance - points[n].distance);
  }

  lemma SpansMore(points: seq<Point>, slope: seq<real>, z: seq<real>, n: nat, extra: real)
    requires Spans(points, slope, z, n) && |slope| == n
    ensures Spans(points, slope + [extra], z, n)
  {
  }

  lemma {:induction false} RiseTelescopes(points: seq<Point>, slope: seq<real>, z: seq<real>, n: nat)
    requires n < |points| == |z| && n <= |slope|
    requires Spans(points, slope, z, n)
    ensures RiseTo(points, slope, n) == z[n] - z[0]
  {
    if n > 0 {
      RiseTelescopes(points, slope, z, n - 1);
    }
  }

  function Elevations(points: seq<Point>): seq<real> {
    seq(|points|, i requires 0 <= i < |points| => points[i].elevation)
  }

  function Shifted(z: seq<real>, c: real): seq<real> { seq(|z|, i requires 0 <= i < |z| => z[i] + c) }

  /** Each height is the mean of three samples; the travel is that of the heights, and no more than the samples'. */
  ghost predicate Averaged(points: seq<Point>, z: seq<real>, travel: real) {
    var n := |points| - 1;
    && |z| == |points| >= 2
    && (forall i :: 0 <= i < n ==>
          3.0 * z[i] == points[(i - 1) % n].elevation + points[i].elevation + points[(i + 1) % n].elevation)
    && travel == Total(Steps(z[..n]))
    && travel <= Total(Steps(Elevations(points)[..n]))
  }

  lemma ProfileMeans(points: seq<Point>, z: seq<real>)
    requires |points| >= 2 && CircularMean(Elevations(points), 1) == Ok(z)
    ensures Averaged(points, z, Gain(z) + Loss(z))
  {
    hide Window, At, Smooth, GainTo, LossTo, CircularMean;
    var values, n := Elevations(points), |points| - 1;
    forall i | 0 <= i < n
      ensures 3.0 * z[i] == points[(i - 1) % n].elevation + points[i].elevation + points[(i + 1) % n].elevation
    {
      NeighbourMean(values, i);
    }
    MeanIsSmooth(values, 1);
    CircularMeanLaws(values, 1, 0.0, 0.0, 0.0);
    ClimbTravel(z[..n], n);
    assert z[..n] + [z[0]] == z;
    LapLengths(z[..n], 0);
  }

  method BuildProfile(points: seq<Point>) returns (r: Result<Profile>)
    ensures r.Ok? <==> |points| >= 2 &&
                       forall i :: 0 <= i < |points| - 1 ==> points[i].distance != points[i + 1].distance
    ensures r.Ok? ==>
      var p := r.value;
      && CircularMean(Elevations(points), 1) == Ok(p.smoothed)
      && p.relative == Shifted(p.smoothed, -p.smoothed[0])
      && |p.slope| == |points| && p.slope[|points| - 1] == p.slope[0]
      && Spans(points, p.slope, p.smoothed, |points| - 1)
      && RiseTo(points, p.slope, |points| - 1) == 0.0
      && p.gain == Gain(p.smoothed) && p.loss == Loss(p.smoothed) && p.gain == p.loss
      && p.closureError == 0.0
    ensures r.Ok? ==> Averaged(points, r.value.smoothed, r.value.gain + r.value.loss)
  {
    hide Smooth, At, Window, GainTo, LossTo, RiseTo, Spans, Averaged;
    var mean := CircularMean(Elevations(points), 1);
    if mean.Err? {
      return Err(mean.error);
    }
    var smoothed := mean.value;
    var relative := Shifted(smoothed, -smoothed[0]);
    var slope: seq<real> := [];
    SpansNone(points, smoothed);
    for index := 0 to |points| - 1
      invariant |slope| == index
      invariant forall i :: 0 <= i < index ==> points[i].distance != points[i + 1].distance
      invariant Spans(points, slope, smoothed, index)
    {
      var delta := points[index + 1].distance - points[index].distance;
      if delta == 0.0 {
        return Err("float division by zero");
      }
      SpansNext(points, slope, smoothed, index, relative[index + 1] - relative[index]);
      slope := slope + [(relative[index + 1] - relative[index]) / delta];
    }
    SpansMore(points, slope, smoothed, |points| - 1, slope[0]);
    slope := slope + [slope[0]];
    RiseTelescopes(points, slope, smoothed, |points| - 1);
    NetClimb(smoothed, |smoothed| - 1);
    ProfileMeans(points, smoothed);
    r := Ok(Profile(smoothed, relative, slope, Gain(smoothed), Loss(smoothed),
                    Abs(relative[|relative| - 1] - relative[0])));
  }
}
