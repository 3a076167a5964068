/**
 Comparison of two elevation sources on one centerline grid
 (experiments/racing_tracks/compare_spa_elevation_sources.py), over exact reals.
 Root-mean-square errors and the correlation are kept squared, so that no square root is needed.
 */
module ElevationComparison {
  import opened Reals
  import opened Results
  import opened Sums
  import opened TrackProfile

  function DotTo(a: seq<real>, b: seq<real>, n: nat): real
    requires n <= |a| && n <= |b|
  {
    if n == 0 then 0.0 else DotTo(a, b, n - 1) + a[n - 1] * b[n - 1]
  }

  function Dot(a: seq<real>, b: seq<real>): real requires |a| == |b| { DotTo(a, b, |a|) }

  function Mean(s: seq<real>): real requires s != [] { Total(s) / |s| as real }

  function Centered(s: seq<real>): seq<real> requires s != [] { Shifted(s, -Mean(s)) }

  /** Squared root mean square. */
  function MeanSquare(s: seq<real>): real requires s != [] { Dot(s, s) / |s| as real }

  function Diff(a: seq<real>, b: seq<real>): seq<real>
    requires |a| == |b|
  {
    seq(|a|, i requires 0 <= i < |a| => a[i] - b[i])
  }

  function MaxTo(s: seq<real>, n: nat): (m: real)
    requires 0 < n <= |s|
    ensures m in s[..n] && forall i :: 0 <= i < n ==> s[i] <= m
  {
    if n == 1 then s[0] else if MaxTo(s, n - 1) >= s[n - 1] then MaxTo(s, n - 1) else s[n - 1]
  }

  function Max(s: seq<real>): real requires s != [] { MaxTo(s, |s|) }

  function Min(s: seq<real>): real requires s != [] { -Max(Negated(s)) }

  function Range(s: seq<real>): real requires s != [] { Max(s) - Min(s) }

  function Magnitudes(s: seq<real>): seq<real> { seq(|s|, i requires 0 <= i < |s| => Abs(s[i])) }

  /** Two neighbouring samples at one distance. */
  predicate Stalls(distance: seq<real>, i: nat)
    requires i + 1 < |distance|
  {
    Change(distance, i) == 0.0
  }

  /** The difference to the next sample. */
  function Change(s: seq<real>, i: nat): real
    requires i + 1 < |s|
  {
    s[i + 1] - s[i]
  }

  /** Rise over run of every segment, the first repeated at the end; a zero run is a division by zero. */
  function Slopes(distance: seq<real>, z: seq<real>): Result<seq<real>>
    requires |distance| == |z| >= 2
  {
    if exists i :: 0 <= i < |z| - 1 && Stalls(distance, i) then Err("float division by zero") else
      var values := seq(|z| - 1, i requires 0 <= i < |z| - 1 =>
        assert !Stalls(distance, i); Quotient(Change(z, i), Change(distance, i)));
      Ok(values + [values[0]])
  }

  function Quotient(rise: real, run: real): (q: real)
    requires run != 0.0
    ensures IsSlope(q, rise, run)
  {
    DivBack(rise, run);
    rise / run
  }

  ghost predicate IsSlope(q: real, rise: real, run: real) { q * run == rise }

  datatype Relief = Relief(minimum: real, maximum: real, range: real, gain: real, loss: real, steepest: real)

  function Summarize(z: seq<real>, slope: seq<real>): Relief
    requires z != [] && slope != []
  {
    Relief(Min(z), Max(z), Range(z), Gain(z), Loss(z), Max(Magnitudes(slope)))
  }

  datatype Agreement = Agreement(
    meanBias: real,
    absoluteSquare: real,
    centeredSquare: real,
    largestCentered: real,
    covariance: real,
    variances: real,
    rangeDifference: real,
    slopeSquare: real,
    left: Relief,
    right: Relief)

  function Distances(points: seq<Point>): seq<real> {
    seq(|points|, i requires 0 <= i < |points| => points[i].distance)
  }

  function AgreementOf(a: seq<real>, b: seq<real>, slopeA: seq<real>, slopeB: seq<real>): Agreement
    requires 0 < |a| == |b| == |slopeA| == |slopeB|
  {
    var delta := Diff(a, b);
    Agreement(
      Mean(delta),
      MeanSquare(delta),
      MeanSquare(Centered(delta)),
      Max(Magnitudes(Centered(delta))),
      Dot(Centered(a), Centered(b)),
      Dot(Centered(a), Centered(a)) * Dot(Centered(b), Centered(b)),
      Range(a) - Range(b),
      MeanSquare(Diff(slopeA, slopeB)),
      Summarize(a, slopeA),
      Summarize(b, slopeB))
  }

  function Compare(distance: seq<real>, left: seq<real>, right: seq<real>): Result<Agreement>
    requires |distance| == |left| == |right|
  {
    var a :- CircularMean(left, 1);
    var b :- CircularMean(right, 1);
    var slopeA :- Slopes(distance, a);
    var slopeB :- Slopes(distance, b);
    var variances := Dot(Centered(a), Centered(a)) * Dot(Centered(b), Centered(b));
    if variances == 0.0 then Err("float division by zero") else Ok(AgreementOf(a, b, slopeA, slopeB))
  }

  function BuildComparison(spw: seq<Point>, eudem: seq<Point>): Result<Agreement> {
    if |spw| != |eudem| || Distances(spw) != Distances(eudem) then
      Err("SPW and EU-DEM samples do not share the same centerline grid")
    else
      Compare(Distances(spw), Elevations(spw), Elevations(eudem))
  }

  /** Correlation at least 0.98, centered error at most 5 m, range difference at most 10 m. */
  predicate Corroborated(a: Agreement) {
    && a.covariance >= 0.0
    && a.covariance * a.covariance >= 0.98 * 0.98 * a.variances
    && a.centeredSquare <= 5.0 * 5.0
    && Abs(a.rangeDifference) <= 10.0
  }

  // ----- A constant height offset, through every stage -----

  lemma {:induction false} TotalShifted(s: seq<real>, c: real, n: nat)
    requires n <= |s|
    ensures TotalTo(Shifted(s, c), n) == TotalTo(s, n) + n as real * c
  {
    if n > 0 {
      TotalShifted(s, c, n - 1);
      OneMore((n - 1) as real, n as real, c);
    }
  }

  lemma MeanShifted(s: seq<real>, c: real)
    requires s != []
    ensures Mean(Shifted(s, c)) == Mean(s) + c
  {
    hide TotalTo;
    TotalShifted(s, c, |s|);
    DivSum(Total(s), |s| as real * c, |s| as real);
    CancelFactor(|s| as real, c);
  }

  lemma CenteredShifted(s: seq<real>, c: real)
    requires s != []
    ensures Centered(Shifted(s, c)) == Centered(s)
  {
    hide Mean;
    MeanShifted(s, c);
  }

  lemma DiffShifted(a: seq<real>, b: seq<real>, c: real, d: real)
    requires |a| == |b|
    ensures Diff(Shifted(a, c), Shifted(b, d)) == Shifted(Diff(a, b), c - d)
  {
  }

  lemma {:induction false} WindowShifted(core: seq<real>, c: real, start: int, n: nat)
    requires core != []
    ensures Window(Shifted(core, c), start, n) == Window(core, start, n) + n as real * c
  {
    hide At;
    if n > 0 {
      WindowShifted(core, c, start, n - 1);
      AtShifted(core, c, start + n - 1);
      OneMore((n - 1) as real, n as real, c);
    }
  }

  lemma AtShifted(core: seq<real>, c: real, i: int)
    requires core != []
    ensures At(Shifted(core, c), i) == At(core, i) + c
  {
    var k := i % |core|;
    assert Shifted(core, c)[k] == core[k] + c;
  }

  lemma SmoothShifted(core: seq<real>, c: real, radius: nat)
    requires core != []
    ensures Smooth(Shifted(core, c), radius) == Shifted(Smooth(core, radius), c)
  {
    hide Window;
    var w := 2 * radius + 1;
    forall i | 0 <= i < |core|
      ensures Smooth(Shifted(core, c), radius)[i] == Shifted(Smooth(core, radius), c)[i]
    {
      WindowShifted(core, c, i - radius, w);
      DivSum(Window(core, i - radius, w), w as real * c, w as real);
      CancelFactor(w as real, c);
    }
  }

  lemma CircularMeanShifted(values: seq<real>, c: real, radius: nat)
    requires |values| >= 2
    ensures CircularMean(Shifted(values, c), radius) == Ok(Shifted(CircularMean(values, radius).value, c))
  {
    hide Smooth;
    var n := |values| - 1;
    assert Shifted(values, c)[..n] == Shifted(values[..n], c);
    SmoothShifted(values[..n], c, radius);
    SmoothLength(values[..n], radius);
    var s := Smooth(values[..n], radius);
    assert Shifted(s + [s[0]], c) == Shifted(s, c) + [s[0] + c];
  }

  lemma SmoothLength(core: seq<real>, radius: nat)
    requires core != []
    ensures |Smooth(core, radius)| == |core|
  {
  }

  lemma {:induction false} MaxShifted(s: seq<real>, c: real, n: nat)
    requires 0 < n <= |s|
    ensures MaxTo(Shifted(s, c), n) == MaxTo(s, n) + c
  {
    if n > 1 {
      MaxShifted(s, c, n - 1);
    }
  }

  lemma ExtremesShifted(s: seq<real>, c: real)
    requires s != []
    ensures Max(Shifted(s, c)) == Max(s) + c && Min(Shifted(s, c)) == Min(s) + c
    ensures Range(Shifted(s, c)) == Range(s)
  {
    hide MaxTo;
    MaxShifted(s, c, |s|);
    assert Negated(Shifted(s, c)) == Shifted(Negated(s), -c);
    MaxShifted(Negated(s), -c, |s|);
  }

  lemma {:induction false} ClimbShifted(z: seq<real>, c: real, n: nat)
    requires n < |z|
    ensures GainTo(Shifted(z, c), n) == GainTo(z, n) && LossTo(Shifted(z, c), n) == LossTo(z, n)
  {
    if n > 0 {
      ClimbShifted(z, c, n - 1);
    }
  }

  lemma SlopesShifted(distance: seq<real>, z: seq<real>, c: real)
    requires |distance| == |z| >= 2
    ensures Slopes(distance, Shifted(z, c)) == Slopes(distance, z)
  {
    hide Quotient, Change, Shifted;
    ShiftedLength(z, c);
    forall i | 0 <= i < |z| - 1 ensures Change(Shifted(z, c), i) == Change(z, i) {
      ChangeShifted(z, c, i);
    }
    if !exists i :: 0 <= i < |z| - 1 && Stalls(distance, i) {
      assert Slopes(distance, z).value == Slopes(distance, Shifted(z, c)).value;
    }
  }

  lemma ShiftedLength(z: seq<real>, c: real)
    ensures |Shifted(z, c)| == |z|
  {
  }

  lemma ChangeShifted(z: seq<real>, c: real, i: nat)
    requires i + 1 < |z|
    ensures |Shifted(z, c)| == |z| && Change(Shifted(z, c), i) == Change(z, i)
  {
  }

  function RaisedRelief(r: Relief, c: real): Relief { r.(minimum := r.minimum + c, maximum := r.maximum + c) }

  lemma SummaryShifted(z: seq<real>, slope: seq<real>, c: real)
    requires z != [] && slope != []
    ensures Summarize(Shifted(z, c), slope) == RaisedRelief(Summarize(z, slope), c)
  {
    hide Max, Min, GainTo, LossTo;
    ExtremesShifted(z, c);
    ClimbShifted(z, c, |z| - 1);
  }

  /** What a change of vertical datum does to every reported number. */
  function Raised(a: Agreement, c: real, d: real): Agreement {
    var bias := a.meanBias + c - d;
    a.(meanBias := bias,
       absoluteSquare := a.centeredSquare + bias * bias,
       left := RaisedRelief(a.left, c),
       right := RaisedRelief(a.right, d))
  }

  lemma CompareShifted(distance: seq<real>, left: seq<real>, right: seq<real>, c: real, d: real)
    requires |distance| == |left| == |right|
    ensures var before, after := Compare(distance, left, right), Compare(distance, Shifted(left, c), Shifted(right, d));
      if before.Err? then after == before else after == Ok(Raised(before.value, c, d))
  {
    hide CircularMean, Slopes, Dot, Centered, AgreementOf;
    SmoothedLengths(left);
    SmoothedLengths(right);
    SmoothedLengths(Shifted(left, c));
    if |left| >= 2 {
      CircularMeanShifted(left, c, 1);
      CircularMeanShifted(right, d, 1);
      var a, b := CircularMean(left, 1).value, CircularMean(right, 1).value;
      SlopesShifted(distance, a, c);
      SlopesShifted(distance, b, d);
      SlopesKeepLength(distance, a);
      SlopesKeepLength(distance, b);
      CenteredShifted(a, c);
      CenteredShifted(b, d);
      CenteredLength(a);
      CenteredLength(b);
      if Slopes(distance, a).Ok? && Slopes(distance, b).Ok? {
        AgreementShifted(a, b, Slopes(distance, a).value, Slopes(distance, b).value, c, d);
      }
    }
  }

  lemma CenteredLength(s: seq<real>)
    requires s != []
    ensures |Centered(s)| == |s|
  {
  }

  lemma SmoothedLengths(values: seq<real>)
    ensures CircularMean(values, 1).Ok? <==> |values| >= 2
    ensures |values| >= 2 ==> |CircularMean(values, 1).value| == |values|
    ensures |values| < 2 ==> CircularMean(values, 1) == Err("list index out of range")
  {
  }

  lemma SlopesKeepLength(distance: seq<real>, z: seq<real>)
    requires |distance| == |z| >= 2
    ensures Slopes(distance, z).Ok? ==> |Slopes(distance, z).value| == |z|
  {
  }

  lemma AgreementShifted(a: seq<real>, b: seq<real>, slopeA: seq<real>, slopeB: seq<real>, c: real, d: real)
    requires 0 < |a| == |b| == |slopeA| == |slopeB|
    ensures AgreementOf(Shifted(a, c), Shifted(b, d), slopeA, slopeB) == Raised(AgreementOf(a, b, slopeA, slopeB), c, d)
  {
    hide Mean, MeanSquare, Range, Dot, Max, Summarize;
    CenteredShifted(a, c);
    CenteredShifted(b, d);
    DiffShifted(a, b, c, d);
    MeanShifted(Diff(a, b), c - d);
    CenteredShifted(Diff(a, b), c - d);
    ErrorDecomposition(Diff(Shifted(a, c), Shifted(b, d)));
    ExtremesShifted(a, c);
    ExtremesShifted(b, d);
    SummaryShifted(a, slopeA, c);
    SummaryShifted(b, slopeB, d);
    var before, after := AgreementOf(a, b, slopeA, slopeB), AgreementOf(Shifted(a, c), Shifted(b, d), slopeA, slopeB);
    var bias := before.meanBias + c - d;
    assert after.meanBias == bias;
    assert after.centeredSquare == before.centeredSquare && after.covariance == before.covariance;
    assert after.absoluteSquare == before.centeredSquare + bias * bias;
    assert after.left == RaisedRelief(before.left, c) && after.right == RaisedRelief(before.right, d);
  }

  function Lifted(points: seq<Point>, c: real): seq<Point> {
    seq(|points|, i requires 0 <= i < |points| => points[i].(elevation := points[i].elevation + c))
  }

  /** Datum invariance of the whole comparison, and so of its verdict. */
  lemma DatumInvariance(spw: seq<Point>, eudem: seq<Point>, c: real, d: real)
    ensures var before, after := BuildComparison(spw, eudem), BuildComparison(Lifted(spw, c), Lifted(eudem, d));
      && (if before.Err? then after == before else after == Ok(Raised(before.value, c, d)))
      && (before.Ok? ==> (Corroborated(after.value) <==> Corroborated(before.value)))
  {
    hide Compare;
    assert Distances(Lifted(spw, c)) == Distances(spw);
    assert Distances(Lifted(eudem, d)) == Distances(eudem);
    assert Elevations(Lifted(spw, c)) == Shifted(Elevations(spw), c);
    assert Elevations(Lifted(eudem, d)) == Shifted(Elevations(eudem), d);
    if |spw| == |eudem| {
      CompareShifted(Distances(spw), Elevations(spw), Elevations(eudem), c, d);
    }
  }

  // ----- Error decomposition and Cauchy-Schwarz -----

  /** Sum of squares after adding c to each of m numbers, from their sum of squares and their sum. */
  function ShiftedDot(dot: real, total: real, c: real, m: real): real { dot + 2.0 * c * total + m * (c * c) }

  lemma {:induction false} DotShifted(s: seq<real>, c: real, n: nat)
    requires n <= |s|
    ensures DotTo(Shifted(s, c), Shifted(s, c), n) == ShiftedDot(DotTo(s, s, n), TotalTo(s, n), c, n as real)
  {
    hide DotTo, ShiftedDot;
    if n == 0 {
      NoneShifted(s, c);
    } else {
      DotShifted(s, c, n - 1);
      var x, y := s[n - 1], Shifted(s, c)[n - 1];
      DotStep(s, s, n);
      DotStep(Shifted(s, c), Shifted(s, c), n);
      ShiftedSquare(DotTo(s, s, n - 1), x, y, c, TotalTo(s, n - 1), (n - 1) as real, n as real);
      assert DotTo(s, s, n) == DotTo(s, s, n - 1) + x * x && TotalTo(s, n) == TotalTo(s, n - 1) + x;
      assert DotTo(Shifted(s, c), Shifted(s, c), n) == DotTo(Shifted(s, c), Shifted(s, c), n - 1) + y * y;
    }
  }

  lemma NoneShifted(s: seq<real>, c: real)
    ensures DotTo(Shifted(s, c), Shifted(s, c), 0) == ShiftedDot(DotTo(s, s, 0), TotalTo(s, 0), c, 0.0)
  {
  }

  lemma ShiftedSquare(dot: real, x: real, y: real, c: real, total: real, m: real, n: real)
    requires n == m + 1.0 && y == x + c
    ensures ShiftedDot(dot, total, c, m) + y * y == ShiftedDot(dot + x * x, total + x, c, n)
  {
    SquareOfSum(x, c);
    OneMore(m, n, c * c);
    assert 2.0 * c * (total + x) == 2.0 * c * total + 2.0 * c * x;
  }

  lemma SquareOfSum(x: real, c: real)
    ensures (x + c) * (x + c) == x * x + 2.0 * c * x + c * c
  {
  }

  /** Mean squared error is squared bias plus mean squared centered error. */
  lemma ErrorDecomposition(delta: seq<real>)
    requires delta != []
    ensures MeanSquare(delta) == MeanSquare(Centered(delta)) + Mean(delta) * Mean(delta)
  {
    hide DotTo, TotalTo;
    var n := |delta| as real;
    DotShifted(delta, -Mean(delta), |delta|);
    DecompositionArithmetic(Dot(delta, delta), Total(delta), n);
  }

  lemma DecompositionArithmetic(square: real, total: real, n: real)
    requires n > 0.0
    ensures var m := total / n;
      square / n == (square + 2.0 * (-m) * total + n * ((-m) * (-m))) / n + m * m
  {
    var m := total / n;
    assert m * n == total;
    assert m * total == n * (m * m);
    var rest := square + 2.0 * (-m) * total + n * ((-m) * (-m));
    assert rest == square - n * (m * m);
    DivSum(rest, n * (m * m), n);
    CancelFactor(n, m * m);
  }

  lemma SquareOrder(p: real, q: real)
    requires p >= 0.0 && q * q <= p * p
    ensures q <= p
  {
    if q > p {
      SquareGrows(p, q);
    }
  }

  lemma SquareGrows(p: real, q: real)
    requires 0.0 <= p < q
    ensures p * p < q * q
  {
    Product(q - p, q + p);
    assert q * q - p * p == (q - p) * (q + p);
  }

  lemma CauchyStep(x: real, a: real, b: real, u: real, v: real)
    requires a >= 0.0 && b >= 0.0 && x * x <= a * b
    ensures (x + u * v) * (x + u * v) <= (a + u * u) * (b + v * v)
  {
    var p, q := a * (v * v) + b * (u * u), 2.0 * x * (u * v);
    CauchyCross(x, a, b, u * u, v * v);
    assert q * q == 4.0 * (x * x) * ((u * u) * (v * v));
    SquareOrder(p, q);
    assert (x + u * v) * (x + u * v) == x * x + q + (u * u) * (v * v);
    assert (a + u * u) * (b + v * v) == a * b + p + (u * u) * (v * v);
  }

  lemma CauchyCross(x: real, a: real, b: real, uu: real, vv: real)
    requires a >= 0.0 && b >= 0.0 && uu >= 0.0 && vv >= 0.0 && x * x <= a * b
    ensures a * vv + b * uu >= 0.0
    ensures 4.0 * (x * x) * (uu * vv) <= (a * vv + b * uu) * (a * vv + b * uu)
  {
    var s, t := a * vv, b * uu;
    assert (s - t) * (s - t) >= 0.0;
    assert (s + t) * (s + t) == (s - t) * (s - t) + 4.0 * (s * t);
    assert s * t == (a * b) * (uu * vv);
    assert uu * vv >= 0.0;
    assert (a * b - x * x) * (uu * vv) >= 0.0;
  }

  lemma DotStep(a: seq<real>, b: seq<real>, n: nat)
    requires 0 < n <= |a| && n <= |b|
    ensures DotTo(a, b, n) == DotTo(a, b, n - 1) + a[n - 1] * b[n - 1]
  {
  }

  lemma {:induction false} DotNonnegative(a: seq<real>, n: nat)
    requires n <= |a|
    ensures DotTo(a, a, n) >= 0.0
  {
    if n > 0 {
      DotNonnegative(a, n - 1);
    }
  }

  lemma {:induction false} CauchySchwarz(a: seq<real>, b: seq<real>, n: nat)
    requires n <= |a| && n <= |b|
    ensures DotTo(a, b, n) * DotTo(a, b, n) <= DotTo(a, a, n) * DotTo(b, b, n)
  {
    if n > 0 {
      hide DotTo;
      CauchySchwarz(a, b, n - 1);
      DotNonnegative(a, n - 1);
      DotNonnegative(b, n - 1);
      DotStep(a, b, n);
      DotStep(a, a, n);
      DotStep(b, b, n);
      CauchyStep(DotTo(a, b, n - 1), DotTo(a, a, n - 1), DotTo(b, b, n - 1), a[n - 1], b[n - 1]);
    }
  }

  /** The reported correlation lies in [-1, 1]. */
  lemma CorrelationBounded(spw: seq<Point>, eudem: seq<Point>)
    ensures var r := BuildComparison(spw, eudem);
      r.Ok? ==> r.value.variances > 0.0 && r.value.covariance * r.value.covariance <= r.value.variances
  {
    var r := BuildComparison(spw, eudem);
    hide DotTo, Slopes, CircularMean, Mean, MeanSquare, Max, Range, Summarize;
    if r.Ok? {
      SmoothedLengths(Elevations(spw));
      SmoothedLengths(Elevations(eudem));
      var a, b := CircularMean(Elevations(spw), 1).value, CircularMean(Elevations(eudem), 1).value;
      CauchySchwarz(Centered(a), Centered(b), |a|);
      DotNonnegative(Centered(a), |a|);
      DotNonnegative(Centered(b), |b|);
    }
  }

  // ----- What the reported numbers are, said on the samples -----

  /** The greatest of the numbers. */
  ghost predicate IsGreatest(m: real, s: seq<real>) {
    (exists i :: 0 <= i < |s| && s[i] == m) && forall i :: 0 <= i < |s| ==> s[i] <= m
  }

  function Products(a: seq<real>, b: seq<real>): seq<real>
    requires |a| == |b|
  {
    seq(|a|, i requires 0 <= i < |a| => a[i] * b[i])
  }

  /** The slopes of a closed profile: each spans its segment, the first is repeated at the end. */
  ghost predicate AreSlopes(slope: seq<real>, distance: seq<real>, z: seq<real>) {
    && |slope| == |distance| == |z| >= 2 && slope[|z| - 1] == slope[0]
    && forall i :: 0 <= i < |z| - 1 ==> IsSlope(slope[i], z[i + 1] - z[i], distance[i + 1] - distance[i])
  }

  /** Attained extremes, their difference, the net and total climb, and the steepest slope. */
  ghost predicate ReliefOf(r: Relief, z: seq<real>, slope: seq<real>) {
    && |z| == |slope| >= 2
    && IsGreatest(r.maximum, z) && IsGreatest(-r.minimum, seq(|z|, i requires 0 <= i < |z| => -z[i]))
    && r.range == r.maximum - r.minimum
    && r.gain - r.loss == z[|z| - 1] - z[0]
    && r.gain + r.loss == Total(Moves(z))
    && IsGreatest(r.steepest, seq(|slope|, i requires 0 <= i < |slope| => Abs(slope[i])))
  }

  ghost predicate IsMean(m: real, s: seq<real>) { |s| as real * m == Total(s) }

  /** The numbers of a comparison of two smoothed profiles. */
  ghost predicate AgreementMeans(
    r: Agreement, a: seq<real>, b: seq<real>, slopeA: seq<real>, slopeB: seq<real>, meanA: real, meanB: real)
    requires |a| == |b| == |slopeA| == |slopeB|
  {
    var delta := seq(|a|, i requires 0 <= i < |a| => a[i] - b[i]);
    var off := seq(|a|, i requires 0 <= i < |a| => a[i] - b[i] - r.meanBias);
    var offA := seq(|a|, i requires 0 <= i < |a| => a[i] - meanA);
    var offB := seq(|b|, i requires 0 <= i < |b| => b[i] - meanB);
    var offSlope := seq(|a|, i requires 0 <= i < |a| => slopeA[i] - slopeB[i]);
    && IsMean(meanA, a) && IsMean(meanB, b) && IsMean(r.meanBias, delta)
    && IsMean(r.absoluteSquare, Products(delta, delta))
    && IsMean(r.centeredSquare, Products(off, off))
    && IsGreatest(r.largestCentered, seq(|a|, i requires 0 <= i < |a| => Abs(off[i])))
    && r.covariance == Total(Products(offA, offB))
    && r.variances == Total(Products(offA, offA)) * Total(Products(offB, offB))
    && r.rangeDifference == r.left.range - r.right.range
    && IsMean(r.slopeSquare, Products(offSlope, offSlope))
    && ReliefOf(r.left, a, slopeA) && ReliefOf(r.right, b, slopeB)
  }

  lemma {:induction false} DotIsTotal(a: seq<real>, b: seq<real>, p: seq<real>, n: nat)
    requires n <= |a| == |b| == |p| && forall i :: 0 <= i < |a| ==> p[i] == a[i] * b[i]
    ensures DotTo(a, b, n) == TotalTo(p, n)
  {
    if n > 0 {
      DotIsTotal(a, b, p, n - 1);
    }
  }

  lemma MeanIs(s: seq<real>)
    requires s != []
    ensures IsMean(Mean(s), s)
  {
    DivBack(Total(s), |s| as real);
  }

  lemma MeanSquareIs(s: seq<real>)
    requires s != []
    ensures IsMean(MeanSquare(s), Products(s, s))
  {
    hide DotTo, TotalTo;
    DotIsTotal(s, s, Products(s, s), |s|);
    DivBack(Dot(s, s), |s| as real);
  }

  lemma GreatestIs(s: seq<real>)
    requires s != []
    ensures IsGreatest(Max(s), s)
  {
    assert s[..|s|] == s;
  }

  /** Heights climbed or lost from sample to sample. */
  function Moves(z: seq<real>): seq<real>
    requires z != []
  {
    seq(|z| - 1, i requires 0 <= i < |z| - 1 => Abs(z[i + 1] - z[i]))
  }

  lemma {:induction false} TravelIs(z: seq<real>, n: nat)
    requires n < |z|
    ensures GainTo(z, n) + LossTo(z, n) == TotalTo(Moves(z), n)
  {
    if n > 0 {
      TravelIs(z, n - 1);
      assert Moves(z)[n - 1] == Abs(z[n] - z[n - 1]);
    }
  }

  lemma ExtremesAre(z: seq<real>)
    requires z != []
    ensures IsGreatest(Max(z), z) && IsGreatest(-Min(z), seq(|z|, i requires 0 <= i < |z| => -z[i]))
  {
    hide MaxTo;
    GreatestIs(z);
    GreatestIs(Negated(z));
    assert Negated(z) == seq(|z|, i requires 0 <= i < |z| => -z[i]);
  }

  lemma ClimbIs(z: seq<real>)
    requires |z| >= 2
    ensures Gain(z) - Loss(z) == z[|z| - 1] - z[0]
    ensures Gain(z) + Loss(z) == Total(Moves(z))
  {
    hide GainTo, LossTo, TotalTo;
    NetClimb(z, |z| - 1);
    TravelIs(z, |z| - 1);
  }

  lemma ReliefIs(z: seq<real>, slope: seq<real>)
    requires |z| == |slope| >= 2
    ensures ReliefOf(Summarize(z, slope), z, slope)
  {
    hide Max, Min, Gain, Loss, TotalTo, Moves, IsGreatest;
    ExtremesAre(z);
    ClimbIs(z);
    MagnitudesAre(slope);
  }

  lemma CenteredIs(s: seq<real>)
    requires s != []
    ensures Centered(s) == seq(|s|, i requires 0 <= i < |s| => s[i] - Mean(s))
  {
  }

  lemma AgreementIs(a: seq<real>, b: seq<real>, slopeA: seq<real>, slopeB: seq<real>)
    requires 2 <= |a| == |b| == |slopeA| == |slopeB|
    ensures AgreementMeans(AgreementOf(a, b, slopeA, slopeB), a, b, slopeA, slopeB, Mean(a), Mean(b))
  {
    hide Mean, Max, Summarize, DotTo, TotalTo, IsMean, IsGreatest, ReliefOf, Centered, MeanSquare, Products;
    var r := AgreementOf(a, b, slopeA, slopeB);
    var delta := seq(|a|, i requires 0 <= i < |a| => a[i] - b[i]);
    assert delta == Diff(a, b);
    var off := seq(|a|, i requires 0 <= i < |a| => a[i] - b[i] - r.meanBias);
    CenteredIs(delta);
    assert off == Centered(delta);
    CenteredIs(a);
    CenteredIs(b);
    MeanIs(a);
    MeanIs(b);
    MeanIs(delta);
    MeanSquareIs(delta);
    MeanSquareIs(off);
    MagnitudesAre(off);
    DotTotal(Centered(a), Centered(b));
    DotTotal(Centered(a), Centered(a));
    DotTotal(Centered(b), Centered(b));
    var offSlope := seq(|a|, i requires 0 <= i < |a| => slopeA[i] - slopeB[i]);
    assert offSlope == Diff(slopeA, slopeB);
    MeanSquareIs(offSlope);
    ReliefIs(a, slopeA);
    ReliefIs(b, slopeB);
    RangesAre(a, slopeA);
    RangesAre(b, slopeB);
  }

  lemma MagnitudesAre(s: seq<real>)
    requires s != []
    ensures IsGreatest(Max(Magnitudes(s)), seq(|s|, i requires 0 <= i < |s| => Abs(s[i])))
  {
    GreatestIs(Magnitudes(s));
    assert Magnitudes(s) == seq(|s|, i requires 0 <= i < |s| => Abs(s[i]));
  }

  lemma DotTotal(a: seq<real>, b: seq<real>)
    requires |a| == |b|
    ensures Dot(a, b) == Total(Products(a, b))
  {
    DotIsTotal(a, b, Products(a, b), |a|);
  }

  lemma RangesAre(z: seq<real>, slope: seq<real>)
    requires z != [] && slope != []
    ensures Summarize(z, slope).range == Range(z)
  {
  }

  lemma SlopesAre(distance: seq<real>, z: seq<real>)
    requires |distance| == |z| >= 2
    ensures Slopes(distance, z).Ok? <==> forall i :: 0 <= i < |z| - 1 ==> !Stalls(distance, i)
    ensures Slopes(distance, z).Ok? ==> AreSlopes(Slopes(distance, z).value, distance, z)
  {
    hide Quotient, IsSlope;
    var r := Slopes(distance, z);
    if r.Ok? {
      forall i | 0 <= i < |z| - 1 ensures IsSlope(r.value[i], z[i + 1] - z[i], distance[i + 1] - distance[i]) {
        assert !Stalls(distance, i);
        assert r.value[i] == Quotient(Change(z, i), Change(distance, i));
      }
    }
  }

  // ----- When there is a comparison -----

  ghost predicate Constant(s: seq<real>) { forall i, j :: 0 <= i < |s| && 0 <= j < |s| ==> s[i] == s[j] }

  lemma {:induction false} SquaresVanish(s: seq<real>, n: nat)
    requires n <= |s|
    ensures DotTo(s, s, n) >= 0.0
    ensures DotTo(s, s, n) == 0.0 <==> forall i :: 0 <= i < n ==> s[i] == 0.0
  {
    if n > 0 {
      SquaresVanish(s, n - 1);
      hide DotTo, Times;
      DotStep(s, s, n);
      TimesIs(s[n - 1], s[n - 1]);
      TimesVanishes(s[n - 1]);
    }
  }

  function Times(x: real, y: real): real { x * y }

  lemma TimesIs(x: real, y: real)
    ensures Times(x, y) == x * y
  {
  }

  lemma TimesSigns(x: real, y: real)
    ensures x > 0.0 && y > 0.0 ==> Times(x, y) > 0.0
    ensures x < 0.0 && y < 0.0 ==> Times(x, y) > 0.0
    ensures x == 0.0 ==> Times(x, y) == 0.0
  {
    Product(-x, -y);
    assert (-x) * (-y) == x * y;
  }

  lemma TimesVanishes(x: real)
    ensures Times(x, x) >= 0.0 && (Times(x, x) == 0.0 <==> x == 0.0)
  {
    hide Times;
    TimesSigns(x, x);
  }

  lemma {:induction false} ConstantTotal(s: seq<real>, c: real, n: nat)
    requires n <= |s| && forall i :: 0 <= i < n ==> s[i] == c
    ensures TotalTo(s, n) == n as real * c
  {
    if n > 0 {
      ConstantTotal(s, c, n - 1);
      OneMore((n - 1) as real, n as real, c);
    }
  }

  /** A profile has no variance exactly when it is constant. */
  lemma NoVarianceIff(s: seq<real>)
    requires s != []
    ensures Dot(Centered(s), Centered(s)) == 0.0 <==> Constant(s)
  {
    hide DotTo, TotalTo;
    var c := Centered(s);
    SquaresVanish(c, |s|);
    CenteredIs(s);
    assert forall i :: 0 <= i < |s| ==> c[i] == s[i] - Mean(s);
    if Constant(s) {
      var n := |s| as real;
      ConstantTotal(s, s[0], |s|);
      ScaledBack(n, s[0], Total(s));
    }
  }

  lemma ScaledBack(n: real, x: real, total: real)
    requires n > 0.0 && total == n * x
    ensures total / n == x
  {
  }

  lemma NoProductIff(x: real, y: real)
    ensures x * y == 0.0 <==> x == 0.0 || y == 0.0
  {
    if x != 0.0 && x * y == 0.0 {
      assert y == x * y / x;
    }
  }

  /** Both profiles smoothed, on one grid. */
  ghost predicate Comparable(spw: seq<Point>, eudem: seq<Point>) {
    && |spw| == |eudem| >= 2
    && (forall i :: 0 <= i < |spw| ==> spw[i].distance == eudem[i].distance)
    && (forall i :: 0 <= i < |spw| - 1 ==> !Stalls(Distances(spw), i))
  }

  lemma SameGrid(spw: seq<Point>, eudem: seq<Point>)
    requires |spw| == |eudem|
    ensures Distances(spw) == Distances(eudem) <==> forall i :: 0 <= i < |spw| ==> spw[i].distance == eudem[i].distance
  {
    assert forall i :: 0 <= i < |spw| ==> Distances(spw)[i] == spw[i].distance && Distances(eudem)[i] == eudem[i].distance;
  }

  /** The record reports the smoothed samples of both sources. */
  ghost predicate Explains(r: Agreement, distance: seq<real>, a: seq<real>, b: seq<real>) {
    exists slopeA, slopeB, meanA, meanB ::
      && |a| == |b| && AreSlopes(slopeA, distance, a) && AreSlopes(slopeB, distance, b)
      && AgreementMeans(r, a, b, slopeA, slopeB, meanA, meanB)
  }

  /** The same for two heights on one grid. */
  lemma CompareMeans(distance: seq<real>, left: seq<real>, right: seq<real>)
    requires |distance| == |left| == |right| >= 2
    ensures var a, b := CircularMean(left, 1).value, CircularMean(right, 1).value;
      && (Compare(distance, left, right).Ok? <==>
            && (forall i :: 0 <= i < |distance| - 1 ==> !Stalls(distance, i))
            && !Constant(a) && !Constant(b))
      && (Compare(distance, left, right).Ok? ==> Explains(Compare(distance, left, right).value, distance, a, b))
  {
    hide DotTo, Slopes, CircularMean, Mean, AgreementOf, AreSlopes, Constant, AgreementMeans;
    SmoothedLengths(left);
    SmoothedLengths(right);
    var a, b := CircularMean(left, 1).value, CircularMean(right, 1).value;
    SlopesAre(distance, a);
    SlopesAre(distance, b);
    SlopesKeepLength(distance, a);
    SlopesKeepLength(distance, b);
    NoVarianceIff(a);
    NoVarianceIff(b);
    NoProductIff(Dot(Centered(a), Centered(a)), Dot(Centered(b), Centered(b)));
    if Slopes(distance, a).Ok? {
      AgreementIs(a, b, Slopes(distance, a).value, Slopes(distance, b).value);
    }
  }

  /**
   There is a comparison exactly when the sources share a grid of distinct neighbours and neither smoothed
   profile is constant; its numbers are then those of the smoothed samples.
   */
  lemma ComparisonMeans(spw: seq<Point>, eudem: seq<Point>)
    ensures BuildComparison(spw, eudem).Ok? <==>
      Comparable(spw, eudem) && !Constant(SmoothedOf(spw)) && !Constant(SmoothedOf(eudem))
    ensures BuildComparison(spw, eudem).Ok? ==>
      Explains(BuildComparison(spw, eudem).value, Distances(spw), SmoothedOf(spw), SmoothedOf(eudem))
  {
    hide CircularMean, Constant, Explains, Compare, Elevations, Distances;
    ComparesOnGrid(spw, eudem);
    if |spw| == |eudem| >= 2 && Distances(spw) == Distances(eudem) {
      CompareMeans(Distances(spw), Elevations(spw), Elevations(eudem));
    }
  }

  /** The reported heights of a source. */
  ghost function SmoothedOf(points: seq<Point>): seq<real>
    requires |points| >= 2
  {
    CircularMean(Elevations(points), 1).value
  }

  lemma ComparesOnGrid(spw: seq<Point>, eudem: seq<Point>)
    ensures |Distances(spw)| == |Elevations(spw)| == |spw| && |Elevations(eudem)| == |eudem|
    ensures BuildComparison(spw, eudem).Ok? ==> |spw| == |eudem| >= 2 && Distances(spw) == Distances(eudem)
    ensures |spw| == |eudem| >= 2 && Distances(spw) == Distances(eudem) ==>
      BuildComparison(spw, eudem) == Compare(Distances(spw), Elevations(spw), Elevations(eudem))
    ensures Comparable(spw, eudem) <==>
      && |spw| == |eudem| >= 2 && Distances(spw) == Distances(eudem)
      && forall i :: 0 <= i < |spw| - 1 ==> !Stalls(Distances(spw), i)
  {
    hide CircularMean;
    if |spw| == |eudem| {
      SameGrid(spw, eudem);
      SmoothedLengths(Elevations(spw));
    }
  }

  /** The verdict in the original's terms, for the two roots the report shows. */
  lemma CorroboratedMeans(r: Agreement, deviation: real, error: real)
    requires deviation >= 0.0 && deviation * deviation == r.variances
    requires error >= 0.0 && error * error == r.centeredSquare
    ensures Corroborated(r) <==>
      && r.covariance >= 0.98 * deviation && error <= 5.0
      && r.rangeDifference <= 10.0 && -10.0 <= r.rangeDifference
  {
    var bound := 0.98 * deviation;
    assert bound * bound == 0.98 * 0.98 * r.variances by {
      assert bound * bound == 0.98 * 0.98 * (deviation * deviation);
    }
    if r.covariance >= 0.0 {
      SquaresOrder(bound, r.covariance);
    }
    SquaresOrder(error, 5.0);
  }

  lemma SquaresOrder(p: real, q: real)
    requires p >= 0.0 && q >= 0.0
    ensures p <= q <==> p * p <= q * q
  {
    if p < q {
      SquareGrows(p, q);
    } else if q < p {
      SquareGrows(q, p);
    }
  }
}
