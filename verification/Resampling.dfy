/**
 Piecewise-linear resampling of a track on a regular grid
 (experiments/racing_tracks/build_spa_elevation_prototype.py), over exact reals.
 */
module Resampling {
  import opened Reals
  import opened Results
  import opened Sums
  import TrackProfile

  ghost predicate Increasing(x: seq<real>) { forall i, j :: 0 <= i < j < |x| ==> x[i] < x[j] }

  /** First index at or after `from` whose sample reaches the target. */
  function Upper(target: real, x: seq<real>, from: nat): (u: nat)
    ensures from <= u
    ensures u < |x| ==> x[u] >= target
    ensures forall i :: from <= i < u && i < |x| ==> x[i] < target
    ensures u > from ==> u <= |x|
    decreases |x| - from
  {
    if from < |x| && x[from] < target then Upper(target, x, from + 1) else from
  }

  function Line(a: real, b: real, ya: real, yb: real, t: real): real
    requires a != b
  {
    ya + (t - a) / (b - a) * (yb - ya)
  }

  function Interpolated(target: real, x: seq<real>, y: seq<real>): real
    requires 0 < |x| == |y| && Increasing(x)
  {
    var u := Upper(target, x, 1);
    if u >= |x| then y[|y| - 1] else Line(x[u - 1], x[u], y[u - 1], y[u], target)
  }

  /** The interpolation on any two lists: a short list is an index error, a zero first step a division by zero. */
  function Curve(target: real, x: seq<real>, y: seq<real>): Result<real> {
    var u := Upper(target, x, 1);
    if u >= |x| then (if y == [] then Err("list index out of range") else Ok(y[|y| - 1]))
    else if x[u] == x[u - 1] then Err("division by zero")
    else if u >= |y| then Err("list index out of range")
    else Ok(Line(x[u - 1], x[u], y[u - 1], y[u], target))
  }

  lemma LineAt(a: real, b: real, ya: real, yb: real, t: real, fraction: real)
    requires a != b && fraction == (t - a) / (b - a)
    ensures Line(a, b, ya, yb, t) == ya + fraction * (yb - ya)
  {
  }

  method Interpolate(target: real, x: seq<real>, y: seq<real>) returns (r: Result<real>)
    ensures r == Curve(target, x, y)
    ensures 0 < |x| == |y| && Increasing(x) ==> r == Ok(Interpolated(target, x, y))
  {
    hide Line;
    var upper := 1;
    while upper < |x| && x[upper] < target
      invariant 1 <= upper && (upper == 1 || upper <= |x|)
      invariant Upper(target, x, upper) == Upper(target, x, 1)
    {
      upper := upper + 1;
    }
    assert Upper(target, x, 1) == upper;
    if upper >= |x| {
      return if y == [] then Err("list index out of range") else Ok(y[|y| - 1]);
    }
    var lower := upper - 1;
    if x[upper] - x[lower] == 0.0 {
      return Err("division by zero");
    }
    var fraction := (target - x[lower]) / (x[upper] - x[lower]);
    if upper >= |y| {
      return Err("list index out of range");
    }
    r := Ok(y[lower] + fraction * (y[upper] - y[lower]));
    LineAt(x[lower], x[upper], y[lower], y[upper], target, fraction);
    assert r.value == Line(x[lower], x[upper], y[lower], y[upper], target);
    assert Curve(target, x, y) == Ok(Line(x[lower], x[upper], y[lower], y[upper], target));
  }

  /** Whatever the distances, the only division by zero is a first step of zero with the target not beyond it. */
  lemma InterpolationFailsIff(target: real, x: seq<real>, y: seq<real>)
    requires 0 < |x| == |y|
    ensures Curve(target, x, y).Err? <==> |x| >= 2 && x[0] == x[1] && target <= x[1]
  {
    var u := Upper(target, x, 1);
    if 1 < u < |x| {
      assert x[u - 1] < target <= x[u];
    }
  }

  // ----- One segment -----

  lemma LineEnds(a: real, b: real, ya: real, yb: real)
    requires a < b
    ensures Line(a, b, ya, yb, a) == ya && Line(a, b, ya, yb, b) == yb
  {
    assert (b - a) / (b - a) == 1.0;
  }

  /** The change of a line of slope m. */
  function Rise(m: real, a: real, b: real): real { m * (b - a) }

  lemma RisesAdd(m: real, a: real, b: real, c: real)
    ensures Rise(m, a, c) == Rise(m, a, b) + Rise(m, b, c)
  {
  }

  lemma SlopeAtLeast(rise: real, run: real, m: real)
    requires run > 0.0 && rise >= m * run
    ensures rise / run >= m
  {
    var q := rise / run;
    assert q * run == rise;
    assert q < m ==> (m - q) * run > 0.0;
  }

  lemma LineFloor(a: real, b: real, ya: real, yb: real, t: real, t': real, m: real)
    requires a < b && yb - ya >= Rise(m, a, b) && t <= t'
    ensures Line(a, b, ya, yb, t') - Line(a, b, ya, yb, t) >= Rise(m, t, t')
  {
    hide Line;
    var s := (yb - ya) / (b - a);
    SlopeAtLeast(yb - ya, b - a, m);
    LineSlope(a, b, ya, yb, t);
    LineSlope(a, b, ya, yb, t');
    RisesAdd(s, a, t, t');
    SteeperRise(m, s, t, t');
  }

  lemma SteeperRise(m: real, s: real, t: real, t': real)
    requires m <= s && t <= t'
    ensures Rise(m, t, t') <= Rise(s, t, t')
  {
    Product(s - m, t' - t);
    assert (s - m) * (t' - t) == s * (t' - t) - m * (t' - t);
  }

  lemma LineSlope(a: real, b: real, ya: real, yb: real, t: real)
    requires a < b
    ensures Line(a, b, ya, yb, t) == ya + Rise((yb - ya) / (b - a), a, t)
  {
    var run, rise, d := b - a, yb - ya, t - a;
    assert d / run * rise * run == d * rise by { assert d / run * run == d; }
    assert rise / run * d * run == d * rise by { assert rise / run * run == rise; }
    CancelRun(d / run * rise, rise / run * d, run);
  }

  lemma CancelRun(p: real, q: real, run: real)
    requires run > 0.0 && p * run == q * run
    ensures p == q
  {
    assert (p - q) * run == 0.0;
  }

  // ----- All segments -----

  ghost predicate SegmentFloor(x: seq<real>, y: seq<real>, m: real, i: nat)
    requires i + 1 < |x| == |y|
  {
    y[i + 1] - y[i] >= Rise(m, x[i], x[i + 1])
  }

  /** No segment falls faster than m. */
  ghost predicate SlopeFloor(x: seq<real>, y: seq<real>, m: real)
    requires |x| == |y|
  {
    forall i :: 0 <= i < |x| - 1 ==> SegmentFloor(x, y, m, i)
  }

  lemma {:induction false} KnotRise(x: seq<real>, y: seq<real>, m: real, i: nat, j: nat)
    requires |x| == |y| && SlopeFloor(x, y, m) && i <= j < |x|
    ensures y[j] - y[i] >= Rise(m, x[i], x[j])
    decreases j - i
  {
    hide Rise, SlopeFloor;
    if i == j {
      RiseNothing(m, x[i]);
    } else {
      KnotRise(x, y, m, i, j - 1);
      SegmentRise(x, y, m, j - 1, j);
      RisesAdd(m, x[i], x[j - 1], x[j]);
    }
  }

  lemma RiseNothing(m: real, a: real)
    ensures Rise(m, a, a) == 0.0
  {
  }

  lemma SegmentRise(x: seq<real>, y: seq<real>, m: real, i: nat, j: nat)
    requires j == i + 1 < |x| == |y| && SlopeFloor(x, y, m)
    ensures y[j] - y[i] >= Rise(m, x[i], x[j])
  {
    hide Rise;
    assert SegmentFloor(x, y, m, i);
  }

  /** The curve against the next knot above the target. */
  lemma ToKnotAbove(x: seq<real>, y: seq<real>, m: real, t: real, u: nat)
    requires 0 < |x| == |y| && Increasing(x) && SlopeFloor(x, y, m)
    requires u == Upper(t, x, 1) && u < |x|
    ensures y[u] - Interpolated(t, x, y) >= Rise(m, t, x[u])
  {
    hide Rise, SlopeFloor, Line;
    SegmentRise(x, y, m, u - 1, u);
    LineFloor(x[u - 1], x[u], y[u - 1], y[u], t, x[u], m);
    LineEnds(x[u - 1], x[u], y[u - 1], y[u]);
  }

  /** The curve against the last knot below the target. */
  lemma FromKnotBelow(x: seq<real>, y: seq<real>, m: real, t: real, u: nat)
    requires 0 < |x| == |y| && Increasing(x) && SlopeFloor(x, y, m) && m <= 0.0
    requires u == Upper(t, x, 1) && x[u - 1] <= t && u <= |x|
    ensures Interpolated(t, x, y) - y[u - 1] >= Rise(m, x[u - 1], t)
  {
    hide Rise, SlopeFloor, Line;
    if u == |x| {
      RiseFalls(m, x[u - 1], t);
    } else {
      SegmentRise(x, y, m, u - 1, u);
      LineFloor(x[u - 1], x[u], y[u - 1], y[u], x[u - 1], t, m);
      LineEnds(x[u - 1], x[u], y[u - 1], y[u]);
    }
  }

  lemma UpperMonotone(t: real, t': real, x: seq<real>)
    requires t <= t' && x != []
    ensures Upper(t, x, 1) <= Upper(t', x, 1) <= |x|
    ensures Upper(t, x, 1) < Upper(t', x, 1) ==> x[Upper(t', x, 1) - 1] < t'
  {
    var u, u' := Upper(t, x, 1), Upper(t', x, 1);
  }

  /** A lower bound on the slope of every segment is one on the whole curve, extrapolated ends included. */
  lemma InterpolationFloor(x: seq<real>, y: seq<real>, m: real, t: real, t': real)
    requires 0 < |x| == |y| && Increasing(x) && SlopeFloor(x, y, m) && m <= 0.0 && t <= t'
    ensures Interpolated(t', x, y) - Interpolated(t, x, y) >= Rise(m, t, t')
  {
    hide Line, Rise, SlopeFloor, SegmentFloor, Upper;
    var u, u' := Upper(t, x, 1), Upper(t', x, 1);
    UpperMonotone(t, t', x);
    if u == |x| {
      assert Interpolated(t, x, y) == Interpolated(t', x, y) == y[|y| - 1];
      RiseFalls(m, t, t');
    } else if u == u' {
      SegmentRise(x, y, m, u - 1, u);
      assert Interpolated(t, x, y) == Line(x[u - 1], x[u], y[u - 1], y[u], t);
      assert Interpolated(t', x, y) == Line(x[u - 1], x[u], y[u - 1], y[u], t');
      LineFloor(x[u - 1], x[u], y[u - 1], y[u], t, t', m);
    } else {
      ToKnotAbove(x, y, m, t, u);
      KnotRise(x, y, m, u, u' - 1);
      FromKnotBelow(x, y, m, t', u');
      RisesAdd(m, t, x[u], x[u' - 1]);
      RisesAdd(m, t, x[u' - 1], t');
    }
  }

  lemma RiseFalls(m: real, a: real, b: real)
    requires m <= 0.0 && a <= b
    ensures Rise(m, a, b) <= 0.0
  {
    Product(m, b - a);
  }

  /** Monotone data give a monotone curve. */
  lemma InterpolationMonotone(x: seq<real>, y: seq<real>, t: real, t': real)
    requires 0 < |x| == |y| && Increasing(x) && t <= t'
    requires forall i :: 0 <= i < |y| - 1 ==> y[i] <= y[i + 1]
    ensures Interpolated(t, x, y) <= Interpolated(t', x, y)
  {
    hide Interpolated;
    assert SlopeFloor(x, y, 0.0);
    InterpolationFloor(x, y, 0.0, t, t');
  }

  lemma InterpolationNegated(t: real, x: seq<real>, y: seq<real>)
    requires 0 < |x| == |y| && Increasing(x)
    ensures Interpolated(t, x, Negated(y)) == -Interpolated(t, x, y)
  {
    var u := Upper(t, x, 1);
    if u < |x| {
      var f := (t - x[u - 1]) / (x[u] - x[u - 1]);
      assert f * (-y[u] - -y[u - 1]) == -(f * (y[u] - y[u - 1]));
    }
  }

  /** Any Lipschitz bound of the samples holds for the whole curve, across segments. */
  lemma InterpolationLipschitz(x: seq<real>, y: seq<real>, k: real, t: real, t': real)
    requires 0 < |x| == |y| && Increasing(x) && t <= t' && k >= 0.0
    requires forall i :: 0 <= i < |x| - 1 ==> TrackProfile.Abs(y[i + 1] - y[i]) <= k * (x[i + 1] - x[i])
    ensures TrackProfile.Abs(Interpolated(t', x, y) - Interpolated(t, x, y)) <= k * (t' - t)
  {
    hide Interpolated;
    LipschitzFloors(x, y, k);
    InterpolationFloor(x, y, -k, t, t');
    InterpolationFloor(x, Negated(y), -k, t, t');
    InterpolationNegated(t, x, y);
    InterpolationNegated(t', x, y);
    assert Rise(-k, t, t') == -(k * (t' - t));
  }

  lemma LipschitzFloors(x: seq<real>, y: seq<real>, k: real)
    requires |x| == |y|
    requires forall i :: 0 <= i < |x| - 1 ==> TrackProfile.Abs(y[i + 1] - y[i]) <= k * (x[i + 1] - x[i])
    ensures SlopeFloor(x, y, -k) && SlopeFloor(x, Negated(y), -k)
  {
    var m, z := -k, Negated(y);
    forall i | 0 <= i < |x| - 1
      ensures SegmentFloor(x, y, m, i) && SegmentFloor(x, z, m, i)
    {
      var run := x[i + 1] - x[i];
      assert TrackProfile.Abs(y[i + 1] - y[i]) <= k * run;
      assert m * run == -(k * run);
    }
  }

  /** The curve passes through every sample. */
  lemma InterpolationKnot(x: seq<real>, y: seq<real>, k: nat)
    requires k < |x| == |y| && Increasing(x)
    ensures Interpolated(x[k], x, y) == y[k]
  {
    var u := Upper(x[k], x, 1);
    if |x| > 1 {
      LineEnds(x[u - 1], x[u], y[u - 1], y[u]);
    }
  }

  /** Inside the sampled range the value lies between the two bracketing samples. */
  lemma InterpolationBetween(x: seq<real>, y: seq<real>, t: real)
    requires 0 < |x| == |y| && Increasing(x) && x[0] <= t <= x[|x| - 1]
    ensures exists i, j :: 0 <= i < |x| && 0 <= j < |x| && j <= i + 1 && x[i] <= t <= x[j] &&
                           (y[i] <= Interpolated(t, x, y) <= y[j] || y[j] <= Interpolated(t, x, y) <= y[i])
  {
    var u := Upper(t, x, 1);
    if u >= |x| {
      assert t <= x[|x| - 1] && x[0] <= t;
      assert |x| == 1;
      assert y[0] <= Interpolated(t, x, y) <= y[0];
    } else {
      var i := u - 1;
      assert x[i] <= t <= x[u];
      LineBetween(x[i], x[u], y[i], y[u], t);
    }
  }

  lemma LineBetween(a: real, b: real, ya: real, yb: real, t: real)
    requires a < b && a <= t <= b
    ensures ya <= Line(a, b, ya, yb, t) <= yb || yb <= Line(a, b, ya, yb, t) <= ya
  {
    var f, rise := (t - a) / (b - a), yb - ya;
    SlopeAtLeast(t - a, b - a, 0.0);
    SlopeAtLeast(-(t - a), b - a, -1.0);
    assert -(t - a) / (b - a) == -f;
    assert (1.0 - f) * rise == rise - f * rise;
    if rise >= 0.0 {
      Product(f, rise);
      Product(1.0 - f, rise);
    } else {
      Product(f, -rise);
      Product(1.0 - f, -rise);
    }
  }

  // ----- The request grid -----

  const SPACING := 25.0

  /** Multiples of the spacing, and the track length itself. */
  function RequestGrid(length: real): Result<seq<real>> {
    var count := (length / SPACING).Floor + 1;
    if count <= 0 then Err("list index out of range") else
      var grid := seq(count, i => i as real * SPACING);
      Ok(if grid[count - 1] != length then grid + [length] else grid)
  }

  /** The grid runs from zero to the track length in strictly increasing steps of at most 25 m. */
  lemma GridCovers(length: real)
    ensures RequestGrid(length).Ok? <==> length >= 0.0
    ensures RequestGrid(length).Ok? ==>
      var grid := RequestGrid(length).value;
      && |grid| > 0 && grid[0] == 0.0 && grid[|grid| - 1] == length
      && Increasing(grid)
      && (forall i :: 0 <= i < |grid| - 1 ==> grid[i + 1] - grid[i] <= SPACING)
      && forall i :: 0 <= i < |grid| - 1 ==> grid[i] == i as real * 25.0
  {
    var n := (length / SPACING).Floor;
    assert n as real <= length / SPACING < (n + 1) as real;
    if length >= 0.0 {
      assert n >= 0;
      var grid := RequestGrid(length).value;
      var multiples := seq(n + 1, i => i as real * SPACING);
      assert forall i, j :: 0 <= i < j < |multiples| ==> multiples[i] < multiples[j];
      assert multiples[n] <= length < multiples[n] + SPACING;
    }
  }

  datatype Request = Request(distance: real, position: (real, real))

  ghost predicate Samplable(grid: seq<real>, s: seq<real>, x: seq<real>, y: seq<real>) {
    forall i :: 0 <= i < |grid| ==> Curve(grid[i], s, x).Ok? && Curve(grid[i], s, y).Ok?
  }

  /** Sample positions at every grid distance; the last position is replaced by the first, closing the loop. */
  method RequestedPoints(s: seq<real>, x: seq<real>, y: seq<real>, project: (real, real) -> (real, real))
    returns (r: Result<seq<Request>>)
    ensures r.Ok? <==> s != [] && s[|s| - 1] >= 0.0 && Samplable(RequestGrid(s[|s| - 1]).value, s, x, y)
    ensures r.Ok? ==>
      var grid := RequestGrid(s[|s| - 1]).value;
      && |r.value| == |grid| > 0
      && (forall i :: 0 <= i < |grid| ==> r.value[i].distance == grid[i])
      && (forall i :: 0 <= i < |grid| - 1 ==>
            r.value[i].position == project(Curve(grid[i], s, x).value, Curve(grid[i], s, y).value))
      && r.value[|grid| - 1].position == r.value[0].position
  {
    hide Upper, Curve, RequestGrid;
    if s == [] {
      return Err("list index out of range");
    }
    GridCovers(s[|s| - 1]);
    var requested := RequestGrid(s[|s| - 1]);
    if requested.Err? {
      return Err(requested.error);
    }
    var grid := requested.value;
    var points: seq<Request> := [];
    for i := 0 to |grid|
      invariant |points| == i
      invariant forall k :: 0 <= k < i ==> Curve(grid[k], s, x).Ok? && Curve(grid[k], s, y).Ok?
      invariant forall k :: 0 <= k < i ==>
        points[k] == Request(grid[k], project(Curve(grid[k], s, x).value, Curve(grid[k], s, y).value))
    {
      var east := Interpolate(grid[i], s, x);
      if east.Err? {
        return Err(east.error);
      }
      var north := Interpolate(grid[i], s, y);
      if north.Err? {
        return Err(north.error);
      }
      points := points + [Request(grid[i], project(east.value, north.value))];
    }
    var last := |points| - 1;
    points := points[last := points[last].(position := points[0].position)];
    r := Ok(points);
  }

  /** On channels of one length the request fails exactly for a first step of zero at or beyond the origin. */
  lemma SamplableIff(s: seq<real>, x: seq<real>, y: seq<real>)
    requires 0 < |s| == |x| == |y| && s[|s| - 1] >= 0.0
    ensures RequestGrid(s[|s| - 1]).Ok?
    ensures Samplable(RequestGrid(s[|s| - 1]).value, s, x, y) <==> !(|s| >= 2 && s[0] == s[1] && s[1] >= 0.0)
  {
    hide Upper, Curve, RequestGrid;
    GridCovers(s[|s| - 1]);
    var grid := RequestGrid(s[|s| - 1]).value;
    forall i | 0 <= i < |grid| ensures grid[i] >= 0.0 {
      assert i == 0 || grid[0] < grid[i];
    }
    forall i | 0 <= i < |grid|
      ensures Curve(grid[i], s, x).Ok? && Curve(grid[i], s, y).Ok? <==> !(|s| >= 2 && s[0] == s[1] && grid[i] <= s[1])
    {
      InterpolationFailsIff(grid[i], s, x);
      InterpolationFailsIff(grid[i], s, y);
    }
  }
}
