/**
 Sampling, refinement and interpolation of engine-thermal parameter sets
 (experiments/racing_v3_thermal/screen_local.py, experiments/databricks/build_v3_thermal_manifest.py).
 */
module ThermalSearch {
  import opened Reals
  import opened Results
  import Anchors
  import Halton
  import HaltonBoxes
  import Pareto

  /** Parameter names. */
  datatype Key =
    | ThermalCapacity | HeatGeneration | StaticCooling | SpeedCooling
    | SoftLimitOffset | DerateSlope | MinimumPower | CoolingDrag | DeratingShape

  datatype Axis = Axis(name: Key, low: real, high: real)

  const AXES := [
    Axis(ThermalCapacity, 0.50, 1.75),
    Axis(HeatGeneration, 0.50, 1.75),
    Axis(StaticCooling, 0.25, 2.00),
    Axis(SpeedCooling, 0.25, 2.00),
    Axis(SoftLimitOffset, -15.0, 15.0),
    Axis(DerateSlope, 0.50, 2.00),
    Axis(MinimumPower, 0.10, 0.50),
    Axis(CoolingDrag, 0.00, 0.15)]

  const PRIMES: seq<nat> := [2, 3, 5, 7, 11, 13, 17, 19, 23, 29]

  datatype Shape = LinearThreshold | SmoothKnee | OtherShape(name: string)

  /** The thermal part of a profile. */
  datatype Thermal = Thermal(numeric: map<Key, real>, shape: Shape, kneeWidth: real)

  /** The parameters a sample touched. */
  datatype Parameters = Parameters(numeric: map<Key, real>, shape: Option<Shape>, kneeWidth: Option<real>)

  lemma AxesDistinct()
    ensures forall i, j :: 0 <= i < j < |AXES| ==> AXES[i].name != AXES[j].name
    ensures forall i :: 0 <= i < |AXES| ==> AXES[i].low < AXES[i].high
  {
  }

  /** How many active axes come before axis k: the dimension of its Halton sequence. */
  function Dimension(active: set<Key>, k: nat): (d: nat)
    requires k <= |AXES|
    ensures d <= k
  {
    if k == 0 then 0 else Dimension(active, k - 1) + (if AXES[k - 1].name in active then 1 else 0)
  }

  /** The radical inverse that drives dimension d of a sample. */
  function Draw(index: nat, d: nat): (x: real)
    requires d < |PRIMES|
    ensures 0.0 <= x < 1.0
  {
    Halton.InverseInUnit(index, PRIMES[d]);
    Halton.RadicalInverse(index, PRIMES[d])
  }

  function Between(low: real, high: real, x: real): real { low + (high - low) * x }

  lemma ScaledDraw(low: real, high: real, x: real)
    requires low < high && 0.0 <= x < 1.0
    ensures low <= Between(low, high, x) < high
  {
    Product(high - low, x);
    Product(high - low, 1.0 - x);
    assert (high - low) * (1.0 - x) == (high - low) - (high - low) * x;
  }

  function AdaptiveValue(active: set<Key>, index: nat, k: nat): (v: real)
    requires k < |AXES|
    ensures AXES[k].low <= v < AXES[k].high
  {
    AxesDistinct();
    ScaledDraw(AXES[k].low, AXES[k].high, Draw(index, Dimension(active, k)));
    Between(AXES[k].low, AXES[k].high, Draw(index, Dimension(active, k)))
  }

  /** Knee width is zero exactly for the shapes without a knee. */
  predicate KneeSampled(shape: Shape, width: real) {
    if shape.SmoothKnee? then 2.0 <= width <= 20.0 else width == 0.0
  }

  /** Every active axis holds its sample, every other entry its old value. */
  ghost predicate Adapted(base: map<Key, real>, numeric: map<Key, real>, touched: map<Key, real>,
                          active: set<Key>, index: nat, n: nat)
    requires n <= |AXES|
  {
    && (forall k :: 0 <= k < n && AXES[k].name in active ==>
          && AXES[k].name in numeric && numeric[AXES[k].name] == AdaptiveValue(active, index, k)
          && AXES[k].name in touched && touched[AXES[k].name] == AdaptiveValue(active, index, k))
    && (forall name :: name in touched ==> exists k :: 0 <= k < n && AXES[k].name == name && name in active)
    && (forall name :: name !in touched ==> (name in numeric <==> name in base) && (name in base ==> numeric[name] == base[name]))
  }

  lemma AdaptedStart(base: map<Key, real>, active: set<Key>, index: nat)
    ensures Adapted(base, base, map[], active, index, 0)
  {
  }

  /** Draws every active axis in turn, one prime per axis. */
  method SampleAxes(base: map<Key, real>, active: set<Key>, index: nat)
    returns (numeric: map<Key, real>, touched: map<Key, real>, dimension: nat)
    requires index >= 1
    ensures dimension == Dimension(active, |AXES|)
    ensures Adapted(base, numeric, touched, active, index, |AXES|)
  {
    hide Halton.RadicalInverse, AdaptiveValue, Adapted, Between;
    numeric, touched, dimension := base, map[], 0;
    AdaptedStart(base, active, index);
    for k := 0 to |AXES|
      invariant dimension == Dimension(active, k)
      invariant Adapted(base, numeric, touched, active, index, k)
    {
      var axis := AXES[k];
      if axis.name in active {
        var x := Halton.Sample(index, PRIMES[dimension]);
        var value := Between(axis.low, axis.high, x);
        AdaptiveIs(active, index, k);
        AdaptedNext(base, numeric, touched, active, index, k, value);
        numeric, touched := numeric[axis.name := value], touched[axis.name := value];
        dimension := dimension + 1;
      } else {
        AdaptedSkip(base, numeric, touched, active, index, k);
      }
    }
  }

  /** Draws the derating shape and, for a smooth knee, its width. */
  method SampleShape(index: nat, dimension: nat) returns (shape: Shape, width: real)
    requires index >= 1 && dimension + 1 < |PRIMES|
    ensures shape == if Draw(index, dimension) >= 0.5 then SmoothKnee else LinearThreshold
    ensures KneeSampled(shape, width)
    ensures shape.SmoothKnee? ==> width == 2.0 + 18.0 * Draw(index, dimension + 1)
  {
    hide Halton.RadicalInverse, Draw;
    var shapeSample := Halton.Sample(index, PRIMES[dimension]);
    DrawIs(index, dimension);
    if shapeSample >= 0.5 {
      var x := Halton.Sample(index, PRIMES[dimension + 1]);
      DrawIs(index, dimension + 1);
      shape, width := SmoothKnee, 2.0 + 18.0 * x;
    } else {
      shape, width := LinearThreshold, 0.0;
    }
  }

  method AdaptiveProfile(base: Thermal, active: set<Key>, index: nat) returns (profile: Thermal, sampled: Parameters)
    requires index >= 1
    ensures Adapted(base.numeric, profile.numeric, sampled.numeric, active, index, |AXES|)
    ensures DeratingShape in active ==>
      && profile.shape == (if Draw(index, Dimension(active, |AXES|)) >= 0.5 then SmoothKnee else LinearThreshold)
      && KneeSampled(profile.shape, profile.kneeWidth)
      && (profile.shape.SmoothKnee? ==> profile.kneeWidth == 2.0 + 18.0 * Draw(index, Dimension(active, |AXES|) + 1))
      && sampled.shape == Some(profile.shape) && sampled.kneeWidth == Some(profile.kneeWidth)
    ensures DeratingShape !in active ==>
      profile.shape == base.shape && profile.kneeWidth == base.kneeWidth && sampled.shape.None? && sampled.kneeWidth.None?
  {
    hide Adapted, KneeSampled, Draw;
    var numeric, touched, dimension := SampleAxes(base.numeric, active, index);
    profile, sampled := base.(numeric := numeric), Parameters(touched, None, None);
    if DeratingShape in active {
      var shape, width := SampleShape(index, dimension);
      profile := profile.(shape := shape, kneeWidth := width);
      sampled := sampled.(shape := Some(shape), kneeWidth := Some(width));
    }
  }

  lemma DrawIs(index: nat, d: nat)
    requires d < |PRIMES|
    ensures Draw(index, d) == Halton.RadicalInverse(index, PRIMES[d])
  {
  }

  lemma AdaptiveIs(active: set<Key>, index: nat, k: nat)
    requires k < |AXES|
    ensures Dimension(active, k) < |PRIMES|
    ensures AdaptiveValue(active, index, k)
         == Between(AXES[k].low, AXES[k].high, Halton.RadicalInverse(index, PRIMES[Dimension(active, k)]))
  {
    hide Halton.RadicalInverse, Between;
    DrawIs(index, Dimension(active, k));
  }

  lemma AdaptedNext(base: map<Key, real>, numeric: map<Key, real>, touched: map<Key, real>,
                    active: set<Key>, index: nat, k: nat, value: real)
    requires k < |AXES| && Adapted(base, numeric, touched, active, index, k)
    requires AXES[k].name in active && value == AdaptiveValue(active, index, k)
    ensures Adapted(base, numeric[AXES[k].name := value], touched[AXES[k].name := value], active, index, k + 1)
  {
    hide AdaptiveValue;
    AxesDistinct();
  }

  lemma AdaptedSkip(base: map<Key, real>, numeric: map<Key, real>, touched: map<Key, real>,
                    active: set<Key>, index: nat, k: nat)
    requires k < |AXES| && Adapted(base, numeric, touched, active, index, k) && AXES[k].name !in active
    ensures Adapted(base, numeric, touched, active, index, k + 1)
  {
    hide AdaptiveValue;
  }

  lemma TableGcds()
    ensures HaltonBoxes.Gcd(2, 3) == 1
    ensures HaltonBoxes.Gcd(2, 5) == 1 && HaltonBoxes.Gcd(3, 5) == 1
    ensures HaltonBoxes.Gcd(2, 7) == 1 && HaltonBoxes.Gcd(3, 7) == 1 && HaltonBoxes.Gcd(5, 7) == 1
    ensures HaltonBoxes.Gcd(2, 11) == 1 && HaltonBoxes.Gcd(3, 11) == 1 && HaltonBoxes.Gcd(5, 11) == 1
    ensures HaltonBoxes.Gcd(7, 11) == 1
    ensures HaltonBoxes.Gcd(2, 13) == 1 && HaltonBoxes.Gcd(3, 13) == 1 && HaltonBoxes.Gcd(5, 13) == 1
    ensures HaltonBoxes.Gcd(7, 13) == 1 && HaltonBoxes.Gcd(11, 13) == 1
    ensures HaltonBoxes.Gcd(2, 17) == 1 && HaltonBoxes.Gcd(3, 17) == 1 && HaltonBoxes.Gcd(5, 17) == 1
    ensures HaltonBoxes.Gcd(7, 17) == 1 && HaltonBoxes.Gcd(11, 17) == 1 && HaltonBoxes.Gcd(13, 17) == 1
    ensures HaltonBoxes.Gcd(2, 19) == 1 && HaltonBoxes.Gcd(3, 19) == 1 && HaltonBoxes.Gcd(5, 19) == 1
    ensures HaltonBoxes.Gcd(7, 19) == 1 && HaltonBoxes.Gcd(11, 19) == 1 && HaltonBoxes.Gcd(13, 19) == 1
    ensures HaltonBoxes.Gcd(17, 19) == 1
    ensures HaltonBoxes.Gcd(2, 23) == 1 && HaltonBoxes.Gcd(3, 23) == 1 && HaltonBoxes.Gcd(5, 23) == 1
    ensures HaltonBoxes.Gcd(7, 23) == 1 && HaltonBoxes.Gcd(11, 23) == 1 && HaltonBoxes.Gcd(13, 23) == 1
    ensures HaltonBoxes.Gcd(17, 23) == 1 && HaltonBoxes.Gcd(19, 23) == 1
    ensures HaltonBoxes.Gcd(2, 29) == 1 && HaltonBoxes.Gcd(3, 29) == 1 && HaltonBoxes.Gcd(5, 29) == 1
    ensures HaltonBoxes.Gcd(7, 29) == 1 && HaltonBoxes.Gcd(11, 29) == 1 && HaltonBoxes.Gcd(13, 29) == 1
    ensures HaltonBoxes.Gcd(17, 29) == 1 && HaltonBoxes.Gcd(19, 29) == 1 && HaltonBoxes.Gcd(23, 29) == 1
  {
  }

  lemma PrimesCoprime(i: nat, j: nat)
    requires i < j < |PRIMES|
    ensures HaltonBoxes.Gcd(PRIMES[i], PRIMES[j]) == 1
  {
    hide HaltonBoxes.Gcd;
    TableGcds();
  }

  /** A box of the unit cube of the first draws: in dimension d, one of prime^k equal intervals. */
  function SearchBox(resolution: seq<nat>, cells: seq<nat>): seq<HaltonBoxes.Side>
    requires |resolution| == |cells| <= |PRIMES|
  {
    seq(|cells|, d requires 0 <= d < |cells| => HaltonBoxes.Side(PRIMES[d], resolution[d], cells[d]))
  }

  ghost predicate InGrid(resolution: seq<nat>, cells: seq<nat>) {
    && |resolution| == |cells| <= |PRIMES|
    && forall d :: 0 <= d < |cells| ==> cells[d] < Halton.Pow(PRIMES[d], resolution[d])
  }

  ghost predicate DrawsLand(index: nat, resolution: seq<nat>, cells: seq<nat>)
    requires InGrid(resolution, cells)
  {
    forall d :: 0 <= d < |cells| ==>
      Halton.InCell(Draw(index, d), cells[d], Halton.Pow(PRIMES[d], resolution[d]))
  }

  lemma SearchBoxValid(resolution: seq<nat>, cells: seq<nat>)
    requires InGrid(resolution, cells)
    ensures HaltonBoxes.ValidBox(SearchBox(resolution, cells))
  {
    hide Halton.Pow, HaltonBoxes.Gcd;
    var box := SearchBox(resolution, cells);
    forall i, j | 0 <= i < j < |box| ensures HaltonBoxes.Gcd(box[i].base, box[j].base) == 1 {
      PrimesCoprime(i, j);
    }
  }

  lemma DrawsLandIff(index: nat, resolution: seq<nat>, cells: seq<nat>)
    requires InGrid(resolution, cells)
    ensures HaltonBoxes.ValidBox(SearchBox(resolution, cells))
    ensures HaltonBoxes.Lands(index, SearchBox(resolution, cells)) <==> DrawsLand(index, resolution, cells)
  {
    hide Halton.Pow, Halton.InCell, HaltonBoxes.ValidBox, Halton.RadicalInverse;
    SearchBoxValid(resolution, cells);
    var box := SearchBox(resolution, cells);
    forall d | 0 <= d < |cells|
      ensures box[d] == HaltonBoxes.Side(PRIMES[d], resolution[d], cells[d])
      ensures Draw(index, d) == Halton.RadicalInverse(index, box[d].base)
    {
      DrawIs(index, d);
    }
  }

  /**
   The search fills its space evenly: among as many consecutive samples as the grid has boxes, exactly
   one draws a point in each box, in all dimensions together.
   */
  lemma SearchFillsSpace(start: nat, resolution: seq<nat>, cells: seq<nat>) returns (hit: nat)
    requires InGrid(resolution, cells)
    ensures start <= hit < start + HaltonBoxes.Volume(SearchBox(resolution, cells), |cells|)
    ensures DrawsLand(hit, resolution, cells)
    ensures forall n: nat
      | start <= n < start + HaltonBoxes.Volume(SearchBox(resolution, cells), |cells|) && DrawsLand(n, resolution, cells)
      :: n == hit
  {
    hide HaltonBoxes.Lands, DrawsLand, HaltonBoxes.ValidBox, HaltonBoxes.Volume;
    var box := SearchBox(resolution, cells);
    SearchBoxValid(resolution, cells);
    hit := HaltonBoxes.BoxesStratified(start, box);
    DrawsLandIff(hit, resolution, cells);
    forall n: nat | start <= n < start + HaltonBoxes.Volume(box, |box|) && DrawsLand(n, resolution, cells) ensures n == hit {
      DrawsLandIff(n, resolution, cells);
    }
  }

  // ----- The searched region itself is filled evenly -----

  /** The value lies in the j-th of c equal parts of the axis. */
  ghost predicate InPart(axis: Axis, v: real, j: nat, c: nat) {
    (axis.high - axis.low) * j as real <= c as real * (v - axis.low) < (axis.high - axis.low) * (j + 1) as real
  }

  lemma PartScaled(low: real, high: real, x: real, j: real, c: real)
    requires low < high
    ensures (high - low) * j <= c * (Between(low, high, x) - low) <==> j <= x * c
    ensures c * (Between(low, high, x) - low) < (high - low) * j <==> x * c < j
  {
    var h := high - low;
    assert c * (Between(low, high, x) - low) == (x * c) * h;
    assert h * j == j * h;
    Halton.Rescale(j, x * c, h);
    Halton.Rescale(x * c, j, h);
  }

  lemma PartIffCell(axis: Axis, x: real, j: nat, c: nat)
    requires axis.low < axis.high && c > 0
    ensures InPart(axis, Between(axis.low, axis.high, x), j, c) <==> Halton.InCell(x, j, c)
  {
    hide Between;
    PartScaled(axis.low, axis.high, x, j as real, c as real);
    PartScaled(axis.low, axis.high, x, (j + 1) as real, c as real);
    Halton.BracketIsCell(x, j as real, (j + 1) as real, c as real);
  }

  lemma {:induction false} DimensionOf(active: set<Key>, d: nat, n: nat) returns (k: nat)
    requires n <= |AXES| && d < Dimension(active, n)
    ensures k < n && AXES[k].name in active && Dimension(active, k) == d
  {
    if d < Dimension(active, n - 1) {
      k := DimensionOf(active, d, n - 1);
    } else {
      k := n - 1;
    }
  }

  lemma {:induction false} DimensionsRise(active: set<Key>, k: nat, n: nat)
    requires k < n <= |AXES| && AXES[k].name in active
    ensures Dimension(active, k) < Dimension(active, n)
  {
    if k < n - 1 {
      DimensionsRise(active, k, n - 1);
    }
  }

  /** The box of parts, one for every active axis in turn. */
  ghost predicate OnAxes(active: set<Key>, resolution: seq<nat>, cells: seq<nat>) {
    InGrid(resolution, cells) && |cells| == Dimension(active, |AXES|)
  }

  /** Every active axis of the sample lies in its part. */
  ghost predicate SampleLands(active: set<Key>, index: nat, resolution: seq<nat>, cells: seq<nat>)
    requires OnAxes(active, resolution, cells)
  {
    forall k :: 0 <= k < |AXES| && AXES[k].name in active ==>
      (DimensionsRise(active, k, |AXES|);
       var d := Dimension(active, k);
       InPart(AXES[k], AdaptiveValue(active, index, k), cells[d], Halton.Pow(PRIMES[d], resolution[d])))
  }

  lemma AxisLands(active: set<Key>, index: nat, k: nat, j: nat, c: nat)
    requires k < |AXES| && c > 0
    ensures Dimension(active, k) < |PRIMES|
    ensures InPart(AXES[k], AdaptiveValue(active, index, k), j, c) <==> Halton.InCell(Draw(index, Dimension(active, k)), j, c)
  {
    hide InPart, Halton.InCell, Between, Halton.RadicalInverse;
    AxesDistinct();
    AdaptiveIs(active, index, k);
    DrawIs(index, Dimension(active, k));
    PartIffCell(AXES[k], Draw(index, Dimension(active, k)), j, c);
  }

  lemma SampleLandsIff(active: set<Key>, index: nat, resolution: seq<nat>, cells: seq<nat>)
    requires OnAxes(active, resolution, cells)
    ensures SampleLands(active, index, resolution, cells) <==> DrawsLand(index, resolution, cells)
  {
    hide InPart, Halton.InCell, Halton.Pow, AdaptiveValue, Draw;
    forall k | 0 <= k < |AXES| && AXES[k].name in active
      ensures Dimension(active, k) < |cells|
      ensures var d := Dimension(active, k);
        var c := Halton.Pow(PRIMES[d], resolution[d]);
        && c > 0
        && (InPart(AXES[k], AdaptiveValue(active, index, k), cells[d], c) <==> Halton.InCell(Draw(index, d), cells[d], c))
    {
      DimensionsRise(active, k, |AXES|);
      var d := Dimension(active, k);
      Halton.PowPositive(PRIMES[d], resolution[d]);
      AxisLands(active, index, k, cells[d], Halton.Pow(PRIMES[d], resolution[d]));
    }
    if SampleLands(active, index, resolution, cells) {
      forall d | 0 <= d < |cells| ensures Halton.InCell(Draw(index, d), cells[d], Halton.Pow(PRIMES[d], resolution[d])) {
        var k := DimensionOf(active, d, |AXES|);
      }
    }
  }

  /**
   The adaptive search fills the declared ranges evenly: cut every active axis into equal parts, a power of
   its prime many; among as many consecutive samples as there are boxes, exactly one lies in each box.
   */
  lemma AdaptiveFillsRanges(start: nat, active: set<Key>, resolution: seq<nat>, cells: seq<nat>) returns (hit: nat)
    requires OnAxes(active, resolution, cells)
    ensures start <= hit < start + HaltonBoxes.Volume(SearchBox(resolution, cells), |cells|)
    ensures SampleLands(active, hit, resolution, cells)
    ensures forall n: nat
      | start <= n < start + HaltonBoxes.Volume(SearchBox(resolution, cells), |cells|) && SampleLands(active, n, resolution, cells)
      :: n == hit
  {
    hide DrawsLand, SampleLands, HaltonBoxes.Volume;
    hit := SearchFillsSpace(start, resolution, cells);
    SampleLandsIff(active, hit, resolution, cells);
    forall n: nat
      | start <= n < start + HaltonBoxes.Volume(SearchBox(resolution, cells), |cells|) && SampleLands(active, n, resolution, cells)
      ensures n == hit
    {
      SampleLandsIff(active, n, resolution, cells);
    }
  }

  /** Two samples never agree on any active axis. */
  lemma AdaptiveDistinct(active: set<Key>, i: nat, j: nat, k: nat)
    requires k < |AXES| && i != j
    ensures AdaptiveValue(active, i, k) != AdaptiveValue(active, j, k)
  {
    hide Halton.RadicalInverse, AdaptiveValue;
    var b := PRIMES[Dimension(active, k)];
    AdaptiveIs(active, i, k);
    AdaptiveIs(active, j, k);
    AxesDistinct();
    if Halton.RadicalInverse(i, b) == Halton.RadicalInverse(j, b) {
      Halton.SamplesDistinct(i, j, b);
    }
    SameScaled(AXES[k].high - AXES[k].low, Halton.RadicalInverse(i, b), Halton.RadicalInverse(j, b));
  }

  lemma SameScaled(c: real, x: real, y: real)
    requires c > 0.0 && x != y
    ensures c * x != c * y
  {
    assert c * (x - y) == c * x - c * y;
    Product(c, x - y);
    Product(c, y - x);
  }

  // ----- Refinement around an anchor -----

  /** The nearest number of the interval. */
  function Clamp(low: real, high: real, x: real): (r: real)
    ensures low <= high ==> low <= r <= high
    ensures low <= x <= high ==> r == x
    ensures low <= high && x > high ==> r == high
    ensures low <= high && x < low ==> r == low
  {
    var raised := if x < low then low else x;
    if raised > high then high else raised
  }

  /** A local step of at most 12 percent of the range, clamped to it. */
  function RefinedValue(active: set<Key>, index: nat, k: nat, center: real): (v: real)
    requires k < |AXES|
  {
    var axis := AXES[k];
    Clamp(axis.low, axis.high, center + (2.0 * Draw(index, Dimension(active, k)) - 1.0) * ((axis.high - axis.low) * 0.12))
  }

  lemma RefinedInRange(active: set<Key>, index: nat, k: nat, center: real)
    requires k < |AXES|
    ensures AXES[k].low <= RefinedValue(active, index, k, center) <= AXES[k].high
    ensures AXES[k].low <= center <= AXES[k].high ==>
      var step := (AXES[k].high - AXES[k].low) * 0.12;
      center - step <= RefinedValue(active, index, k, center) <= center + step
  {
    AxesDistinct();
    var step, offset := (AXES[k].high - AXES[k].low) * 0.12, 2.0 * Draw(index, Dimension(active, k)) - 1.0;
    StepBounded(offset, step);
  }

  lemma StepBounded(offset: real, step: real)
    requires -1.0 <= offset < 1.0 && step > 0.0
    ensures -step <= offset * step <= step
  {
    Product(offset + 1.0, step);
    Product(1.0 - offset, step);
  }

  ghost predicate Refined(anchor: map<Key, real>, numeric: map<Key, real>, touched: map<Key, real>,
                          active: set<Key>, index: nat, n: nat)
    requires n <= |AXES|
  {
    && (forall k :: 0 <= k < n && AXES[k].name in active ==>
          && AXES[k].name in anchor
          && AXES[k].name in numeric && numeric[AXES[k].name] == RefinedValue(active, index, k, anchor[AXES[k].name])
          && AXES[k].name in touched && touched[AXES[k].name] == RefinedValue(active, index, k, anchor[AXES[k].name]))
    && (forall name :: name in touched ==> exists k :: 0 <= k < n && AXES[k].name == name && name in active)
    && (forall name :: name !in touched ==> (name in numeric <==> name in anchor) && (name in anchor ==> numeric[name] == anchor[name]))
  }

  lemma RefinedNext(anchor: map<Key, real>, numeric: map<Key, real>, touched: map<Key, real>,
                    active: set<Key>, index: nat, k: nat, value: real)
    requires k < |AXES| && Refined(anchor, numeric, touched, active, index, k)
    requires AXES[k].name in active && AXES[k].name in anchor
    requires value == RefinedValue(active, index, k, anchor[AXES[k].name])
    ensures Refined(anchor, numeric[AXES[k].name := value], touched[AXES[k].name := value], active, index, k + 1)
  {
    hide RefinedValue;
    AxesDistinct();
  }

  lemma RefinedSkip(anchor: map<Key, real>, numeric: map<Key, real>, touched: map<Key, real>,
                    active: set<Key>, index: nat, k: nat)
    requires k < |AXES| && Refined(anchor, numeric, touched, active, index, k) && AXES[k].name !in active
    ensures Refined(anchor, numeric, touched, active, index, k + 1)
  {
    hide RefinedValue;
  }

  /** The current value of the next axis is still the anchor's. */
  lemma CenterIsAnchor(anchor: map<Key, real>, numeric: map<Key, real>, touched: map<Key, real>,
                       active: set<Key>, index: nat, k: nat)
    requires k < |AXES| && Refined(anchor, numeric, touched, active, index, k)
    ensures AXES[k].name in numeric <==> AXES[k].name in anchor
    ensures AXES[k].name in anchor ==> numeric[AXES[k].name] == anchor[AXES[k].name]
  {
    hide RefinedValue;
    AxesDistinct();
  }

  /** The shape a toggle leads to. */
  function Toggled(shape: Shape, toggle: bool): Shape {
    if shape.LinearThreshold? && toggle then SmoothKnee
    else if shape.SmoothKnee? && toggle then LinearThreshold
    else shape
  }

  /** A knee moved by at most three degrees, from ten when there was none, clamped to [2, 20]. */
  function RefinedKnee(anchor: Thermal, x: real): real {
    Clamp(2.0, 20.0, (if anchor.shape.SmoothKnee? then anchor.kneeWidth else 10.0) + (2.0 * x - 1.0) * 3.0)
  }

  method RefineShape(anchor: Thermal, index: nat, dimension: nat) returns (shape: Shape, width: real)
    requires index >= 1 && dimension + 1 < |PRIMES|
    ensures shape == Toggled(anchor.shape, Draw(index, dimension) >= 0.75)
    ensures KneeSampled(shape, width)
    ensures shape.SmoothKnee? ==> width == RefinedKnee(anchor, Draw(index, dimension + 1))
  {
    hide Halton.RadicalInverse, Draw;
    var toggleSample := Halton.Sample(index, PRIMES[dimension]);
    DrawIs(index, dimension);
    shape, width := anchor.shape, 0.0;
    if anchor.shape == LinearThreshold && toggleSample >= 0.75 {
      shape := SmoothKnee;
    } else if anchor.shape == SmoothKnee && toggleSample >= 0.75 {
      shape := LinearThreshold;
    }
    if shape == SmoothKnee {
      var current := if anchor.shape == SmoothKnee then anchor.kneeWidth else 10.0;
      var x := Halton.Sample(index, PRIMES[dimension + 1]);
      DrawIs(index, dimension + 1);
      var moved := current + (2.0 * x - 1.0) * 3.0;
      width := if moved < 2.0 then 2.0 else if moved > 20.0 then 20.0 else moved;
    }
  }

  lemma RefinedStart(anchor: map<Key, real>, active: set<Key>, index: nat)
    ensures Refined(anchor, anchor, map[], active, index, 0)
  {
  }

  /** Moves every active axis in turn; None when the anchor lacks one. */
  method RefineAxes(anchor: map<Key, real>, active: set<Key>, index: nat)
    returns (r: Option<(map<Key, real>, map<Key, real>)>, dimension: nat)
    requires index >= 1
    ensures r.Some? <==> forall k :: 0 <= k < |AXES| && AXES[k].name in active ==> AXES[k].name in anchor
    ensures r.Some? ==> dimension == Dimension(active, |AXES|)
    ensures r.Some? ==> Refined(anchor, r.value.0, r.value.1, active, index, |AXES|)
  {
    hide Halton.RadicalInverse, RefinedValue, Draw, Refined, Clamp;
    var numeric, touched := anchor, map[];
    dimension := 0;
    RefinedStart(anchor, active, index);
    for k := 0 to |AXES|
      invariant dimension == Dimension(active, k)
      invariant Refined(anchor, numeric, touched, active, index, k)
      invariant forall j :: 0 <= j < k && AXES[j].name in active ==> AXES[j].name in anchor
    {
      var axis := AXES[k];
      CenterIsAnchor(anchor, numeric, touched, active, index, k);
      if axis.name in active {
        if axis.name !in numeric {
          return None, dimension;
        }
        var center := numeric[axis.name];
        var halfWidth := (axis.high - axis.low) * 0.12;
        var x := Halton.Sample(index, PRIMES[dimension]);
        var value := Clamp(axis.low, axis.high, center + (2.0 * x - 1.0) * halfWidth);
        DrawIs(index, dimension);
        RefinedIs(active, index, k, center);
        RefinedNext(anchor, numeric, touched, active, index, k, value);
        numeric, touched := numeric[axis.name := value], touched[axis.name := value];
        dimension := dimension + 1;
      } else {
        RefinedSkip(anchor, numeric, touched, active, index, k);
      }
    }
    r := Some((numeric, touched));
  }

  method RefineProfile(anchor: Thermal, active: set<Key>, index: nat) returns (r: Result<(Thermal, Parameters)>)
    requires index >= 1
    ensures r.Ok? <==> forall k :: 0 <= k < |AXES| && AXES[k].name in active ==> AXES[k].name in anchor.numeric
    ensures r.Ok? ==>
      var (profile, sampled) := r.value;
      && Refined(anchor.numeric, profile.numeric, sampled.numeric, active, index, |AXES|)
      && (DeratingShape in active ==>
            && profile.shape == Toggled(anchor.shape, Draw(index, Dimension(active, |AXES|)) >= 0.75)
            && KneeSampled(profile.shape, profile.kneeWidth)
            && (profile.shape.SmoothKnee? ==>
                  profile.kneeWidth == RefinedKnee(anchor, Draw(index, Dimension(active, |AXES|) + 1)))
            && sampled.shape == Some(profile.shape) && sampled.kneeWidth == Some(profile.kneeWidth))
      && (DeratingShape !in active ==>
            && profile.shape == anchor.shape && profile.kneeWidth == anchor.kneeWidth
            && sampled.shape.None? && sampled.kneeWidth.None?)
  {
    hide Refined, RefinedKnee, KneeSampled, Toggled, Draw;
    var axes, dimension := RefineAxes(anchor.numeric, active, index);
    if axes.None? {
      return Err("missing axis");
    }
    var profile, sampled := anchor.(numeric := axes.value.0), Parameters(axes.value.1, None, None);
    if DeratingShape in active {
      var shape, width := RefineShape(anchor, index, dimension);
      profile := profile.(shape := shape, kneeWidth := width);
      sampled := sampled.(shape := Some(shape), kneeWidth := Some(width));
    }
    r := Ok((profile, sampled));
  }

  lemma RefinedIs(active: set<Key>, index: nat, k: nat, center: real)
    requires k < |AXES|
    ensures RefinedValue(active, index, k, center) ==
      Clamp(AXES[k].low, AXES[k].high,
            center + (2.0 * Draw(index, Dimension(active, k)) - 1.0) * ((AXES[k].high - AXES[k].low) * 0.12))
  {
  }

  // ----- Interpolation between a healthy and a hot set -----

  /** Present axes in their declared range, and a knee exactly when the shape has one. */
  ghost predicate InRange(p: Parameters) {
    && (forall k :: 0 <= k < |AXES| && AXES[k].name in p.numeric ==>
          AXES[k].low <= p.numeric[AXES[k].name] <= AXES[k].high)
    && (p.shape.Some? <==> p.kneeWidth.Some?)
    && (p.shape.Some? ==> KneeSampled(p.shape.value, p.kneeWidth.value))
  }

  function ValueOr(p: Parameters, name: Key): Option<real> {
    if name in p.numeric then Some(p.numeric[name])
    else if name == StaticCooling then Some(1.0)
    else None
  }

  function Blend(fraction: real, left: real, right: real): real { (1.0 - fraction) * left + fraction * right }

  ghost predicate Blended(healthy: Parameters, hot: Parameters, fraction: real, numeric: map<Key, real>, n: nat)
    requires n <= |AXES|
  {
    forall k :: 0 <= k < n ==>
      && AXES[k].name in numeric && ValueOr(healthy, AXES[k].name).Some? && ValueOr(hot, AXES[k].name).Some?
      && numeric[AXES[k].name] ==
         Blend(fraction, ValueOr(healthy, AXES[k].name).value, ValueOr(hot, AXES[k].name).value)
  }

  /** A convex mix of two parameter sets; the shape is the nearer one's, and a knee survives only with it. */
  ghost predicate IsInterpolation(healthy: Parameters, hot: Parameters, fraction: real, p: Parameters) {
    && Blended(healthy, hot, fraction, p.numeric, |AXES|)
    && p.shape == (if fraction < 0.5 then healthy.shape else hot.shape)
    && p.kneeWidth.Some?
    && (if p.shape == Some(SmoothKnee)
        then healthy.kneeWidth.Some? && hot.kneeWidth.Some? &&
             p.kneeWidth.value == Blend(fraction, healthy.kneeWidth.value, hot.kneeWidth.value)
        else p.kneeWidth.value == 0.0)
  }

  /** Both sets have the values a mix needs. */
  ghost predicate Interpolable(healthy: Parameters, hot: Parameters, fraction: real) {
    && (forall k :: 0 <= k < |AXES| ==> ValueOr(healthy, AXES[k].name).Some? && ValueOr(hot, AXES[k].name).Some?)
    && ((if fraction < 0.5 then healthy.shape else hot.shape) == Some(SmoothKnee) ==>
          healthy.kneeWidth.Some? && hot.kneeWidth.Some?)
  }

  method Mix(fraction: real, left: real, right: real) returns (m: real)
    ensures m == Blend(fraction, left, right)
    ensures fraction == 0.0 ==> m == left
    ensures fraction == 1.0 ==> m == right
  {
    m := (1.0 - fraction) * left + fraction * right;
  }

  method InterpolateParameters(healthy: Parameters, hot: Parameters, fraction: real) returns (r: Result<Parameters>)
    ensures r.Ok? <==> Interpolable(healthy, hot, fraction)
    ensures r.Ok? ==> IsInterpolation(healthy, hot, fraction, r.value)
  {
    AxesDistinct();
    hide Blend, ValueOr;
    var numeric: map<Key, real> := map[];
    for k := 0 to |AXES|
      invariant Blended(healthy, hot, fraction, numeric, k)
    {
      var left, right := ValueOr(healthy, AXES[k].name), ValueOr(hot, AXES[k].name);
      if left.None? || right.None? {
        return Err("float() argument must be a real number");
      }
      var mixed := Mix(fraction, left.value, right.value);
      numeric := numeric[AXES[k].name := mixed];
    }
    var shape := if fraction < 0.5 then healthy.shape else hot.shape;
    var width := 0.0;
    if shape == Some(SmoothKnee) {
      if healthy.kneeWidth.None? || hot.kneeWidth.None? {
        return Err("float() argument must be a real number");
      }
      width := Mix(fraction, healthy.kneeWidth.value, hot.kneeWidth.value);
    }
    r := Ok(Parameters(numeric, shape, Some(width)));
  }

  /** The steps of the follow-up campaign: two parts of the nearer set and one of the other. */
  lemma BlendThirds(left: real, right: real)
    ensures 3.0 * Blend(1.0 / 3.0, left, right) == 2.0 * left + right
    ensures 3.0 * Blend(2.0 / 3.0, left, right) == left + 2.0 * right
  {
    ThreeParts(1.0 / 3.0, left, right);
    ThreeParts(2.0 / 3.0, left, right);
  }

  lemma ThreeParts(f: real, left: real, right: real)
    ensures 3.0 * Blend(f, left, right) == (3.0 - 3.0 * f) * left + 3.0 * f * right
  {
  }

  lemma BlendWithin(fraction: real, left: real, right: real, low: real, high: real)
    requires 0.0 <= fraction <= 1.0 && low <= left <= high && low <= right <= high
    ensures low <= Blend(fraction, left, right) <= high
  {
    var g := 1.0 - fraction;
    Product(g, left - low);
    Product(fraction, right - low);
    Product(g, high - left);
    Product(fraction, high - right);
    assert g * (left - low) == g * left - g * low && fraction * (right - low) == fraction * right - fraction * low;
    assert g * (high - left) == g * high - g * left && fraction * (high - right) == fraction * high - fraction * right;
    assert g * low + fraction * low == low && g * high + fraction * high == high;
  }

  /** Interpolated sets stay in every declared range. */
  lemma InterpolationInRange(healthy: Parameters, hot: Parameters, fraction: real, numeric: map<Key, real>)
    requires 0.0 <= fraction <= 1.0 && InRange(healthy) && InRange(hot)
    requires Blended(healthy, hot, fraction, numeric, |AXES|)
    ensures forall k :: 0 <= k < |AXES| ==> AXES[k].low <= numeric[AXES[k].name] <= AXES[k].high
  {
    hide Blend;
    forall k | 0 <= k < |AXES| ensures AXES[k].low <= numeric[AXES[k].name] <= AXES[k].high {
      var name := AXES[k].name;
      DefaultInRange(k);
      BlendWithin(fraction, ValueOr(healthy, name).value, ValueOr(hot, name).value, AXES[k].low, AXES[k].high);
    }
  }

  lemma DefaultInRange(k: nat)
    requires k < |AXES|
    ensures AXES[k].name == StaticCooling ==> AXES[k].low <= 1.0 <= AXES[k].high
  {
    AxesDistinct();
    assert AXES[2].name == StaticCooling;
  }

  /** The two interpolation steps of the follow-up campaign. */
  lemma TransitionKnee(healthy: Parameters, hot: Parameters, nearHealthy: bool)
    requires InRange(healthy) && InRange(hot) && healthy.shape.Some? && hot.shape.Some?
    ensures var fraction := if nearHealthy then 1.0 / 3.0 else 2.0 / 3.0;
      var shape := if fraction < 0.5 then healthy.shape else hot.shape;
      shape == Some(SmoothKnee) ==>
        var width := Blend(fraction, healthy.kneeWidth.value, hot.kneeWidth.value);
        && 4.0 / 3.0 <= width <= 20.0
        && (width < 2.0 <==>
              var (own, other) := if nearHealthy then (healthy, hot) else (hot, healthy);
              other.shape != Some(SmoothKnee) && own.kneeWidth.value < 3.0)
  {
  }

  // ----- Whole stages -----

  ghost predicate ActiveInRange(numeric: map<Key, real>, active: set<Key>) {
    forall k :: 0 <= k < |AXES| && AXES[k].name in active ==>
      AXES[k].name in numeric && AXES[k].low <= numeric[AXES[k].name] <= AXES[k].high
  }

  lemma AdaptedInRange(base: map<Key, real>, numeric: map<Key, real>, touched: map<Key, real>, active: set<Key>, index: nat)
    requires Adapted(base, numeric, touched, active, index, |AXES|)
    ensures ActiveInRange(numeric, active)
    ensures forall k :: 0 <= k < |AXES| && AXES[k].name in touched ==>
      AXES[k].low <= touched[AXES[k].name] <= AXES[k].high
  {
    hide AdaptiveValue;
    AxesDistinct();
  }

  lemma RefinedStaysInRange(
    anchor: map<Key, real>, numeric: map<Key, real>, touched: map<Key, real>, active: set<Key>, index: nat)
    requires Refined(anchor, numeric, touched, active, index, |AXES|)
    ensures ActiveInRange(numeric, active)
    ensures forall k :: 0 <= k < |AXES| && AXES[k].name in touched ==>
      AXES[k].low <= touched[AXES[k].name] <= AXES[k].high
  {
    hide RefinedValue;
    AxesDistinct();
    forall k, center | 0 <= k < |AXES|
      ensures AXES[k].low <= RefinedValue(active, index, k, center) <= AXES[k].high
    {
      RefinedInRange(active, index, k, center);
    }
  }

  ghost predicate HasActive(anchor: Thermal, active: set<Key>) {
    forall k :: 0 <= k < |AXES| && AXES[k].name in active ==> AXES[k].name in anchor.numeric
  }

  ghost predicate Complete(p: Parameters) {
    InRange(p) && p.shape.Some? && forall k :: 0 <= k < |AXES| ==> ValueOr(p, AXES[k].name).Some?
  }

  /** Every axis is searched, save perhaps the one that has a default. */
  ghost predicate Exhaustive(active: set<Key>) {
    DeratingShape in active && forall k :: 0 <= k < |AXES| && AXES[k].name != StaticCooling ==> AXES[k].name in active
  }

  lemma AdaptedComplete(
    base: map<Key, real>, numeric: map<Key, real>, p: Parameters, active: set<Key>, index: nat)
    requires Adapted(base, numeric, p.numeric, active, index, |AXES|) && InRange(p)
    requires p.shape.Some? <==> DeratingShape in active
    ensures Complete(p) <==> Exhaustive(active)
  {
    hide AdaptiveValue, InRange;
    forall k | 0 <= k < |AXES|
      ensures ValueOr(p, AXES[k].name).Some? <==> AXES[k].name in active || AXES[k].name == StaticCooling
    {
      assert AXES[k].name in p.numeric <==> AXES[k].name in active;
    }
  }

  /** The broad stage: every set is in range, refinable, and complete exactly when the search is exhaustive. */
  method AdaptiveProfiles(base: Thermal, active: set<Key>, count: nat) returns (profiles: seq<(Thermal, Parameters)>)
    ensures |profiles| == count
    ensures forall i :: 0 <= i < count ==> ActiveInRange(profiles[i].0.numeric, active) && InRange(profiles[i].1)
    ensures forall i :: 0 <= i < count ==> HasActive(profiles[i].0, active)
    ensures forall i :: 0 <= i < count ==> (Complete(profiles[i].1) <==> Exhaustive(active))
    ensures forall i :: 0 <= i < count ==>
      Adapted(base.numeric, profiles[i].0.numeric, profiles[i].1.numeric, active, i + 1, |AXES|)
  {
    hide Adapted, KneeSampled, Draw, Dimension, Complete, Exhaustive;
    profiles := [];
    for i := 0 to count
      invariant |profiles| == i
      invariant forall j :: 0 <= j < i ==> ActiveInRange(profiles[j].0.numeric, active) && InRange(profiles[j].1)
      invariant forall j :: 0 <= j < i ==> (Complete(profiles[j].1) <==> Exhaustive(active))
      invariant forall j :: 0 <= j < i ==>
        Adapted(base.numeric, profiles[j].0.numeric, profiles[j].1.numeric, active, j + 1, |AXES|)
    {
      var profile, sampled := AdaptiveProfile(base, active, i + 1);
      AdaptedInRange(base.numeric, profile.numeric, sampled.numeric, active, i + 1);
      AdaptedComplete(base.numeric, profile.numeric, sampled, active, i + 1);
      profiles := profiles + [(profile, sampled)];
    }
  }

  lemma AdaptiveSetsDistinct(
    base: map<Key, real>, active: set<Key>, i: nat, j: nat, k: nat,
    numeric: map<Key, real>, touched: map<Key, real>, numeric': map<Key, real>, touched': map<Key, real>)
    requires k < |AXES| && AXES[k].name in active && i != j
    requires Adapted(base, numeric, touched, active, i, |AXES|) && Adapted(base, numeric', touched', active, j, |AXES|)
    ensures touched != touched' && numeric != numeric'
  {
    hide AdaptiveValue;
    AdaptiveDistinct(active, i, j, k);
  }

  /** The profile refined at step i: anchors are visited in turn. */
  ghost predicate AnchorAt(
    aggregates: seq<Pareto.Aggregate>, profiles: map<string, Thermal>, i: nat, anchor: Thermal)
  {
    var chosen := Anchors.Chosen(aggregates);
    chosen != [] && chosen[i % |chosen|].id in profiles && profiles[chosen[i % |chosen|].id] == anchor
  }

  ghost predicate Refinable(
    aggregates: seq<Pareto.Aggregate>, profiles: map<string, Thermal>, active: set<Key>, i: nat)
  {
    exists anchor :: AnchorAt(aggregates, profiles, i, anchor) && HasActive(anchor, active)
  }

  ghost predicate RefinedFrom(
    aggregates: seq<Pareto.Aggregate>, profiles: map<string, Thermal>, active: set<Key>, i: nat, p: (Thermal, Parameters))
  {
    exists anchor :: AnchorAt(aggregates, profiles, i, anchor)
      && Refined(anchor.numeric, p.0.numeric, p.1.numeric, active, i + 1, |AXES|)
  }

  /** The local stage: the chosen anchors are visited in turn, and every refined set is in range again. */
  method RefinementProfiles(
    aggregates: seq<Pareto.Aggregate>, profiles: map<string, Thermal>, active: set<Key>, count: nat)
    returns (r: Result<seq<(Thermal, Parameters)>>)
    ensures r.Ok? <==> aggregates != [] && forall i :: 0 <= i < count ==> Refinable(aggregates, profiles, active, i)
    ensures r.Ok? ==> |r.value| == count
    ensures r.Ok? ==> forall i :: 0 <= i < count ==>
      && ActiveInRange(r.value[i].0.numeric, active) && InRange(r.value[i].1)
      && RefinedFrom(aggregates, profiles, active, i, r.value[i])
  {
    hide Refined, KneeSampled, Draw, Dimension, Anchors.Chosen;
    var anchors := Anchors.Chosen(aggregates);
    Anchors.AnchorsClosest(aggregates);
    if anchors == [] {
      return Err("adaptive stage produced no refinement anchors");
    }
    var refined: seq<(Thermal, Parameters)> := [];
    for i := 0 to count
      invariant |refined| == i
      invariant forall j :: 0 <= j < i ==> Refinable(aggregates, profiles, active, j)
      invariant forall j :: 0 <= j < i ==> ActiveInRange(refined[j].0.numeric, active) && InRange(refined[j].1)
      invariant forall j :: 0 <= j < i ==> RefinedFrom(aggregates, profiles, active, j, refined[j])
    {
      ghost var possible := Refinable(aggregates, profiles, active, i);
      var id := anchors[i % |anchors|].id;
      if id !in profiles {
        return Err("unknown anchor");
      }
      var anchor := profiles[id];
      assert AnchorAt(aggregates, profiles, i, anchor);
      var move := RefineProfile(anchor, active, i + 1);
      if move.Err? {
        return Err(move.error);
      }
      var (profile, sampled) := move.value;
      RefinedStaysInRange(anchor.numeric, profile.numeric, sampled.numeric, active, i + 1);
      refined := refined + [(profile, sampled)];
    }
    r := Ok(refined);
  }

  /** Refinement never fails on the profiles of the broad stage. */
  lemma AdaptiveAnchorsRefine(aggregates: seq<Pareto.Aggregate>, profiles: map<string, Thermal>, active: set<Key>, i: nat)
    requires aggregates != [] && forall a :: a in aggregates ==> a.id in profiles && HasActive(profiles[a.id], active)
    ensures Refinable(aggregates, profiles, active, i)
  {
    hide Anchors.Chosen, HasActive;
    Anchors.AnchorsClosest(aggregates);
    var chosen := Anchors.Chosen(aggregates);
    AnchorsAreAggregates(aggregates, i % |chosen|);
    assert AnchorAt(aggregates, profiles, i, profiles[chosen[i % |chosen|].id]);
  }

  lemma AnchorsAreAggregates(aggregates: seq<Pareto.Aggregate>, k: nat)
    requires k < |Anchors.Chosen(aggregates)|
    ensures Anchors.Chosen(aggregates)[k] in aggregates
  {
    hide Anchors.HealthyAnchors, Anchors.HotAnchors;
    Anchors.AnchorsClosest(aggregates);
    var healthy, hot := Anchors.HealthyAnchors(aggregates), Anchors.HotAnchors(aggregates);
    assert Anchors.Chosen(aggregates)[k] in healthy || Anchors.Chosen(aggregates)[k] in hot;
  }

  /** Complete, in every declared range, and with a knee of 4/3 to 20 degrees exactly for the smooth shape. */
  ghost predicate Transition(p: Parameters) {
    && (forall k :: 0 <= k < |AXES| ==>
          AXES[k].name in p.numeric && AXES[k].low <= p.numeric[AXES[k].name] <= AXES[k].high)
    && p.kneeWidth.Some?
    && (if p.shape == Some(SmoothKnee) then 4.0 / 3.0 <= p.kneeWidth.value <= 20.0 else p.kneeWidth.value == 0.0)
  }

  /** Step j of the four healthy-hot pairs: one third, then two thirds of the way. */
  function Fraction(j: nat): real { if j % 2 == 0 then 1.0 / 3.0 else 2.0 / 3.0 }

  ghost predicate StepFrom(source: map<string, Parameters>, anchors: seq<string>, j: nat, p: Parameters)
    requires |anchors| == 8 && j < 8
  {
    && anchors[j / 2] in source && anchors[4 + j / 2] in source
    && IsInterpolation(source[anchors[j / 2]], source[anchors[4 + j / 2]], Fraction(j), p)
  }

  ghost predicate StepPossible(source: map<string, Parameters>, anchors: seq<string>, j: nat)
    requires |anchors| == 8 && j < 8
  {
    && anchors[j / 2] in source && anchors[4 + j / 2] in source
    && Interpolable(source[anchors[j / 2]], source[anchors[4 + j / 2]], Fraction(j))
  }

  /** Four healthy-hot pairs, two steps each. */
  method TransitionSets(source: map<string, Parameters>, anchors: seq<string>) returns (r: Result<seq<Parameters>>)
    ensures r.Ok? <==> |anchors| == 8 && forall j :: 0 <= j < 8 ==> StepPossible(source, anchors, j)
    ensures r.Ok? ==> |r.value| == 8 && forall j :: 0 <= j < 8 ==> StepFrom(source, anchors, j, r.value[j])
  {
    hide Interpolable, IsInterpolation;
    if |anchors| != 8 {
      return Err("expected four healthy and four hot anchors");
    }
    var sets: seq<Parameters> := [];
    for j := 0 to 8
      invariant |sets| == j
      invariant forall i :: 0 <= i < j ==> StepPossible(source, anchors, i) && StepFrom(source, anchors, i, sets[i])
    {
      ghost var possible := StepPossible(source, anchors, j);
      if anchors[j / 2] !in source || anchors[4 + j / 2] !in source {
        return Err("unknown anchor");
      }
      var fraction := if j % 2 == 0 then 1.0 / 3.0 else 2.0 / 3.0;
      var p := InterpolateParameters(source[anchors[j / 2]], source[anchors[4 + j / 2]], fraction);
      if p.Err? {
        return Err(p.error);
      }
      sets := sets + [p.value];
    }
    r := Ok(sets);
  }

  /** In numbers: step j takes two parts of its nearer anchor and one of the other, and the nearer one's shape. */
  lemma TransitionThirds(source: map<string, Parameters>, anchors: seq<string>, j: nat, p: Parameters, k: nat)
    requires |anchors| == 8 && j < 8 && k < |AXES| && StepFrom(source, anchors, j, p)
    ensures var healthy, hot, name := source[anchors[j / 2]], source[anchors[4 + j / 2]], AXES[k].name;
      var left, right := if name in healthy.numeric then healthy.numeric[name] else 1.0, if name in hot.numeric then hot.numeric[name] else 1.0;
      && (name in healthy.numeric || name == StaticCooling) && (name in hot.numeric || name == StaticCooling)
      && name in p.numeric
      && (j % 2 == 0 ==> 3.0 * p.numeric[name] == 2.0 * left + right && p.shape == healthy.shape)
      && (j % 2 == 1 ==> 3.0 * p.numeric[name] == left + 2.0 * right && p.shape == hot.shape)
  {
    hide Blend;
    var healthy, hot, name := source[anchors[j / 2]], source[anchors[4 + j / 2]], AXES[k].name;
    assert ValueOr(healthy, name).Some? && ValueOr(hot, name).Some?;
    BlendThirds(ValueOr(healthy, name).value, ValueOr(hot, name).value);
  }

  /** Every step between complete in-range sets is complete and in range itself. */
  lemma TransitionInRange(source: map<string, Parameters>, anchors: seq<string>, j: nat, p: Parameters)
    requires |anchors| == 8 && j < 8 && forall id :: id in source ==> Complete(source[id])
    ensures StepPossible(source, anchors, j) <==> anchors[j / 2] in source && anchors[4 + j / 2] in source
    ensures StepFrom(source, anchors, j, p) ==> Transition(p)
  {
    hide Blended, KneeSampled, ValueOr, Transition;
    if StepFrom(source, anchors, j, p) {
      CompleteInterpolates(source[anchors[j / 2]], source[anchors[4 + j / 2]], j % 2 == 0, p);
    }
  }

  lemma CompleteInterpolates(healthy: Parameters, hot: Parameters, nearHealthy: bool, p: Parameters)
    requires Complete(healthy) && Complete(hot)
    requires IsInterpolation(healthy, hot, if nearHealthy then 1.0 / 3.0 else 2.0 / 3.0, p)
    ensures Transition(p)
  {
    hide Blend;
    InterpolationInRange(healthy, hot, if nearHealthy then 1.0 / 3.0 else 2.0 / 3.0, p.numeric);
    TransitionKnee(healthy, hot, nearHealthy);
  }
}
