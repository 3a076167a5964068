/**
 Halton-sampled driver-control profiles and the validators they must pass
 (experiments/databricks/build_v3_driver_control_manifest.py, build_v3_driver_mode_manifest.py).
 */
module DriverProfiles {
  import opened Reals
  import opened Results
  import Halton

  // ----- Rounding to eight decimals -----

  function RoundHalfEven(y: real): int {
    var n := y.Floor;
    var f := y - n as real;
    if f < 0.5 then n else if f > 0.5 then n + 1 else if n % 2 == 0 then n else n + 1
  }

  function Grid(k: int): real { k as real / 100000000.0 }

  function Round8(x: real): real { Grid(RoundHalfEven(x * 100000000.0)) }

  lemma RoundError(x: real)
    ensures x - 0.000000005 <= Round8(x) <= x + 0.000000005
  {
    var y := x * 100000000.0;
    var r := RoundHalfEven(y);
    assert y - 0.5 <= r as real <= y + 0.5;
  }

  lemma RoundMonotone(x: real, y: real)
    requires x <= y
    ensures Round8(x) <= Round8(y)
  {
    var m, n := (x * 100000000.0).Floor, (y * 100000000.0).Floor;
    assert m <= n;
  }

  lemma RoundGrid(k: int)
    ensures Round8(Grid(k)) == Grid(k)
  {
    assert Grid(k) * 100000000.0 == k as real;
    assert (k as real).Floor == k;
  }

  /** A value halfway between two grid points goes to the even one. */
  lemma RoundTies(k: int)
    ensures Round8((k as real + 0.5) / 100000000.0) == Grid(if k % 2 == 0 then k else k + 1)
  {
    var y := (k as real + 0.5) / 100000000.0 * 100000000.0;
    assert y == k as real + 0.5;
    assert y.Floor == k;
  }

  /** Rounding keeps a value between two eight-decimal bounds. */
  lemma RoundWithin(x: real, low: int, high: int)
    requires Grid(low) <= x <= Grid(high)
    ensures Grid(low) <= Round8(x) <= Grid(high)
  {
    RoundMonotone(Grid(low), x);
    RoundMonotone(x, Grid(high));
    RoundGrid(low);
    RoundGrid(high);
  }

  // ----- Profiles -----

  datatype Response = Response(floor: real, span: real)

  datatype Profile = Profile(
    manage: real, balanced: real, attack: real,
    cornering: Response, braking: Response, traction: Response,
    baseError: real, errorGain: real, errorExponent: real, workloadGain: real)

  /** Low ends and widths of the sampled intervals. */
  datatype Search = Search(
    manageLow: real, manageSpan: real, balancedLow: real, balancedSpan: real, attackLow: real, attackSpan: real,
    gainLow: real, gainSpan: real, exponentLow: real, exponentSpan: real, workloadLow: real, workloadSpan: real)

  const CONTROL := Search(0.58, 0.16, 0.04, 0.10, 0.01, 0.07, 0.12, 0.125, 1.0, 3.0, 4.0, 6.0)
  const MODE := Search(0.62, 0.12, 0.03, 0.07, 0.005, 0.045, 0.16, 0.085, 1.0, 3.0, 6.0, 4.0)

  predicate ValidResponse(r: Response) { 0.0 <= r.floor <= 1.0 && 0.0 <= r.span <= 1.0 && r.floor + r.span <= 1.0 }

  /** The checks both validators make. */
  predicate ValidMode(p: Profile) {
    && 0.0 <= p.manage < p.balanced < p.attack <= 1.0
    && p.baseError + p.errorGain <= 0.25
    && 1.0 <= p.errorExponent <= 4.0
    && 0.0 <= p.workloadGain <= 10.0
  }

  /** The control validator checks the response channels and both error terms as well. */
  predicate ValidControl(p: Profile) {
    && ValidMode(p)
    && ValidResponse(p.cornering) && ValidResponse(p.braking) && ValidResponse(p.traction)
    && 0.0 <= p.baseError && 0.0 <= p.errorGain
  }

  /** One sample per base: 2, 3, 5 for the commitments, 7 for the gain, 11 for the exponent, 13 for the workload. */
  datatype Draws = Draws(x2: real, x3: real, x5: real, x7: real, x11: real, x13: real)

  predicate Unit(d: Draws) {
    && 0.0 <= d.x2 < 1.0 && 0.0 <= d.x3 < 1.0 && 0.0 <= d.x5 < 1.0
    && 0.0 <= d.x7 < 1.0 && 0.0 <= d.x11 < 1.0 && 0.0 <= d.x13 < 1.0
  }

  function DrawsAt(index: nat): (d: Draws)
    ensures Unit(d)
  {
    Halton.InverseInUnit(index, 2);
    Halton.InverseInUnit(index, 3);
    Halton.InverseInUnit(index, 5);
    Halton.InverseInUnit(index, 7);
    Halton.InverseInUnit(index, 11);
    Halton.InverseInUnit(index, 13);
    Draws(Halton.RadicalInverse(index, 2), Halton.RadicalInverse(index, 3), Halton.RadicalInverse(index, 5),
          Halton.RadicalInverse(index, 7), Halton.RadicalInverse(index, 11), Halton.RadicalInverse(index, 13))
  }

  /** A point of the interval that starts at low. */
  function Scale(low: real, span: real, x: real): real { low + span * x }

  function RoundedGain(s: Search, x: real): real { Round8(Scale(s.gainLow, s.gainSpan, x)) }

  function ProfileFrom(base: Profile, s: Search, d: Draws): Profile {
    var manage := Scale(s.manageLow, s.manageSpan, d.x2);
    var balanced := manage + Scale(s.balancedLow, s.balancedSpan, d.x3);
    var attack := balanced + Scale(s.attackLow, s.attackSpan, d.x5);
    base.(
      manage := Round8(manage), balanced := Round8(balanced), attack := Round8(attack),
      errorGain := RoundedGain(s, d.x7),
      errorExponent := Round8(Scale(s.exponentLow, s.exponentSpan, d.x11)),
      workloadGain := Round8(Scale(s.workloadLow, s.workloadSpan, d.x13)))
  }

  function HaltonProfile(base: Profile, s: Search, index: nat): Profile { ProfileFrom(base, s, DrawsAt(index)) }

  function Gain(s: Search, index: nat): real { RoundedGain(s, DrawsAt(index).x7) }

  /** Bounds of the interval constants that keep every sample valid apart from the combined error. */
  predicate Governed(s: Search) {
    && s.manageLow >= 0.01 && s.manageSpan > 0.0 && s.balancedSpan > 0.0 && s.attackSpan > 0.0
    && s.balancedLow >= 0.001 && s.attackLow >= 0.001
    && s.manageLow + s.manageSpan + s.balancedLow + s.balancedSpan + s.attackLow + s.attackSpan <= 0.99
    && s.gainLow >= 0.01 && 0.0 < s.gainSpan <= 0.125 && s.gainLow + s.gainSpan == 0.245
    && s.exponentLow == 1.0 && s.exponentSpan == 3.0
    && 0.01 <= s.workloadLow && s.workloadSpan > 0.0 && s.workloadLow + s.workloadSpan == 10.0
  }

  lemma SearchesGoverned()
    ensures Governed(CONTROL) && Governed(MODE)
  {
  }

  lemma Scaled(low: real, span: real, x: real)
    requires span > 0.0 && 0.0 <= x < 1.0
    ensures low <= Scale(low, span, x) < low + span
  {
    Product(span, x);
    Product(span, 1.0 - x);
    assert span * (1.0 - x) == span - span * x;
  }

  lemma CommitmentsOrdered(base: Profile, s: Search, d: Draws)
    requires Governed(s) && Unit(d)
    ensures var p := ProfileFrom(base, s, d); 0.0 <= p.manage < p.balanced < p.attack <= 1.0
  {
    hide Round8, RoundedGain, Scale;
    Scaled(s.manageLow, s.manageSpan, d.x2);
    Scaled(s.balancedLow, s.balancedSpan, d.x3);
    Scaled(s.attackLow, s.attackSpan, d.x5);
    var manage := Scale(s.manageLow, s.manageSpan, d.x2);
    var balanced := manage + Scale(s.balancedLow, s.balancedSpan, d.x3);
    RoundError(manage);
    RoundError(balanced);
    RoundError(balanced + Scale(s.attackLow, s.attackSpan, d.x5));
  }

  lemma GainBounded(s: Search, x: real)
    requires Governed(s) && 0.0 <= x < 1.0
    ensures 0.0 <= RoundedGain(s, x) <= 0.245
  {
    hide Round8, Scale;
    Scaled(s.gainLow, s.gainSpan, x);
    RoundWithin(Scale(s.gainLow, s.gainSpan, x), 0, 24500000);
  }

  lemma ScalarsBounded(base: Profile, s: Search, d: Draws)
    requires Governed(s) && Unit(d)
    ensures var p := ProfileFrom(base, s, d); 1.0 <= p.errorExponent <= 4.0 && 0.0 <= p.workloadGain <= 10.0
  {
    hide Round8, RoundedGain, Scale;
    Scaled(s.exponentLow, s.exponentSpan, d.x11);
    Scaled(s.workloadLow, s.workloadSpan, d.x13);
    RoundWithin(Scale(s.exponentLow, s.exponentSpan, d.x11), 100000000, 400000000);
    RoundWithin(Scale(s.workloadLow, s.workloadSpan, d.x13), 0, 1000000000);
  }

  /** At any index, the only check a sampled profile can fail is the combined control error. */
  lemma SampleValidIff(base: Profile, s: Search, index: nat)
    requires Governed(s)
    ensures ValidMode(HaltonProfile(base, s, index)) <==> base.baseError + Gain(s, index) <= 0.25
    ensures ValidControl(base) ==>
      (ValidControl(HaltonProfile(base, s, index)) <==> base.baseError + Gain(s, index) <= 0.25)
  {
    hide Round8, RoundedGain, DrawsAt;
    CommitmentsOrdered(base, s, DrawsAt(index));
    ScalarsBounded(base, s, DrawsAt(index));
    GainBounded(s, DrawsAt(index).x7);
  }

  lemma SevenToNine()
    ensures Halton.Pow(7, 9) == 40353607
  {
    assert Halton.Pow(7, 1) == 7;
    assert Halton.Pow(7, 2) == 49;
    assert Halton.Pow(7, 3) == 343;
    assert Halton.Pow(7, 4) == 2401;
    assert Halton.Pow(7, 5) == 16807;
    assert Halton.Pow(7, 6) == 117649;
    assert Halton.Pow(7, 7) == 823543;
    assert Halton.Pow(7, 8) == 5764801;
  }

  /** Some index drives the rounded gain to the very top of its interval. */
  lemma GainReachesTop(s: Search) returns (index: nat)
    requires Governed(s)
    ensures index >= 1 && Gain(s, index) == 0.245
  {
    hide Halton.RadicalInverse, Halton.Pow;
    SevenToNine();
    index := Halton.Stratified(1, 7, 9, 40353606);
    TopRounds(s, DrawsAt(index).x7);
  }

  lemma TopRounds(s: Search, x: real)
    requires Governed(s) && 40353606.0 / 40353607.0 <= x < 1.0
    ensures RoundedGain(s, x) == 0.245
  {
    hide Scale;
    NearTop(s.gainLow, s.gainSpan, x);
    var y := Scale(s.gainLow, s.gainSpan, x) * 100000000.0;
    assert 24500000.0 - 0.5 < y <= 24500000.0;
    assert y.Floor == 24499999 || y.Floor == 24500000;
  }

  lemma NearTop(low: real, span: real, x: real)
    requires 0.0 < span <= 0.125 && 40353606.0 / 40353607.0 <= x < 1.0
    ensures low + span - 0.000000004 <= Scale(low, span, x) <= low + span
  {
    var gap := 1.0 - x;
    Product(span, gap);
    Product(0.125 - span, gap);
    assert (0.125 - span) * gap == 0.125 * gap - span * gap;
    assert span * x == span - span * gap;
  }

  /** Every sampled profile at every index is valid exactly when the baseline error is at most 0.005. */
  lemma AllSamplesValidIff(base: Profile, s: Search)
    requires Governed(s)
    ensures ValidControl(base) ==>
      ((forall index: nat :: index >= 1 ==> ValidControl(HaltonProfile(base, s, index))) <==> base.baseError <= 0.005)
    ensures (forall index: nat :: index >= 1 ==> ValidMode(HaltonProfile(base, s, index))) <==> base.baseError <= 0.005
  {
    hide HaltonProfile, Gain, ValidMode, ValidControl;
    forall index: nat
      ensures base.baseError <= 0.005 ==> ValidMode(HaltonProfile(base, s, index))
      ensures base.baseError <= 0.005 && ValidControl(base) ==> ValidControl(HaltonProfile(base, s, index))
    {
      SampleValidIff(base, s, index);
      GainAtMost(s, index);
    }
    var top := GainReachesTop(s);
    SampleValidIff(base, s, top);
  }

  lemma GainAtMost(s: Search, index: nat)
    requires Governed(s)
    ensures Gain(s, index) <= 0.245
  {
    hide RoundedGain, DrawsAt;
    GainBounded(s, DrawsAt(index).x7);
  }

  // ----- The manifests' parameter sets -----

  method ValidateModeProfile(p: Profile) returns (ok: bool)
    ensures ok <==> ValidMode(p)
  {
    if p.manage < 0.0 || p.manage >= p.balanced || p.balanced >= p.attack || p.attack > 1.0 {
      return false;
    }
    if p.baseError + p.errorGain > 0.25 {
      return false;
    }
    if p.errorExponent < 1.0 || p.errorExponent > 4.0 {
      return false;
    }
    ok := 0.0 <= p.workloadGain && p.workloadGain <= 10.0;
  }

  method ValidateControlProfile(p: Profile) returns (ok: bool)
    ensures ok <==> ValidControl(p)
  {
    if p.manage < 0.0 || p.manage >= p.balanced || p.balanced >= p.attack || p.attack > 1.0 {
      return false;
    }
    var channels := [p.cornering, p.braking, p.traction];
    for i := 0 to 3
      invariant forall j :: 0 <= j < i ==> ValidResponse(channels[j])
    {
      var response := channels[i];
      if response.floor < 0.0 || response.floor > 1.0 || response.span < 0.0 || response.span > 1.0 {
        assert !ValidResponse(p.cornering) || !ValidResponse(p.braking) || !ValidResponse(p.traction);
        return false;
      }
      if response.floor + response.span > 1.0 {
        assert !ValidResponse(p.cornering) || !ValidResponse(p.braking) || !ValidResponse(p.traction);
        return false;
      }
    }
    assert ValidResponse(channels[0]) && ValidResponse(channels[1]) && ValidResponse(channels[2]);
    if p.baseError < 0.0 || p.errorGain < 0.0 || p.baseError + p.errorGain > 0.25 {
      return false;
    }
    ok := 1.0 <= p.errorExponent && p.errorExponent <= 4.0 && 0.0 <= p.workloadGain && p.workloadGain <= 10.0;
  }

  /** Baseline first, then one profile per index, all validated before any is returned. */
  method ParameterSets(base: Profile, s: Search, count: nat, control: bool) returns (r: Result<seq<Profile>>)
    requires Governed(s)
    ensures r.Ok? <==>
      && (if control then ValidControl(base) else ValidMode(base))
      && forall index :: 1 <= index <= count ==> base.baseError + Gain(s, index) <= 0.25
    ensures r.Ok? ==>
      && |r.value| == count + 1 && r.value[0] == base
      && forall index :: 1 <= index <= count ==> r.value[index] == HaltonProfile(base, s, index)
  {
    hide HaltonProfile, Gain, ValidMode, ValidControl;
    var values := [base];
    for i := 0 to count
      invariant |values| == i + 1 && values[0] == base
      invariant forall index :: 1 <= index <= i ==> values[index] == HaltonProfile(base, s, index)
    {
      var profile := SampledProfile(base, s, i + 1);
      values := values + [profile];
    }
    for i := 0 to |values|
      invariant forall j :: 0 <= j < i ==> if control then ValidControl(values[j]) else ValidMode(values[j])
    {
      var valid;
      if control {
        valid := ValidateControlProfile(values[i]);
      } else {
        valid := ValidateModeProfile(values[i]);
      }
      if !valid {
        if i > 0 {
          SampleValidIff(base, s, i);
          assert values[0] == base;
        }
        return Err("driver control profile violates the contract");
      }
    }
    forall index | 1 <= index <= count ensures base.baseError + Gain(s, index) <= 0.25 {
      assert if control then ValidControl(values[index]) else ValidMode(values[index]);
      assert if control then ValidControl(values[0]) else ValidMode(values[0]);
      SampleValidIff(base, s, index);
    }
    r := Ok(values);
  }

  /** Samples and rounds one field after the other; the result passes unless the combined error is too large. */
  method SampledProfile(base: Profile, s: Search, index: nat) returns (p: Profile)
    ensures p == HaltonProfile(base, s, index)
    ensures Governed(s) ==> (ValidMode(p) <==> base.baseError + p.errorGain <= 0.25)
    ensures Governed(s) && ValidControl(base) ==> (ValidControl(p) <==> base.baseError + p.errorGain <= 0.25)
  {
    hide Halton.RadicalInverse, Scale, Round8, ValidMode, ValidControl, Governed;
    p := base;
    var x := Halton.Sample(index, 2);
    var manage := Scale(s.manageLow, s.manageSpan, x);
    x := Halton.Sample(index, 3);
    var balanced := manage + Scale(s.balancedLow, s.balancedSpan, x);
    x := Halton.Sample(index, 5);
    var attack := balanced + Scale(s.attackLow, s.attackSpan, x);
    p := p.(manage := Round8(manage), balanced := Round8(balanced), attack := Round8(attack));
    x := Halton.Sample(index, 7);
    p := p.(errorGain := Round8(Scale(s.gainLow, s.gainSpan, x)));
    x := Halton.Sample(index, 11);
    p := p.(errorExponent := Round8(Scale(s.exponentLow, s.exponentSpan, x)));
    x := Halton.Sample(index, 13);
    p := p.(workloadGain := Round8(Scale(s.workloadLow, s.workloadSpan, x)));
    if Governed(s) {
      SampleValidIff(base, s, index);
    }
  }
}
