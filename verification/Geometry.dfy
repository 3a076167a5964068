/**
 The track validator (experiments/racing_tracks/audit_catalog_geometry.py) and what a track without
 errors guarantees to the resampler.
 */
module Geometry {
  import opened Results
  import opened Resampling
  import opened TrackProfile

  datatype Sample = Finite(value: real) | NotFinite
  datatype Channel = NotAnArray | Samples(samples: seq<Sample>)
  datatype Severity = Error | Warning
  datatype Issue = Issue(code: string, severity: Severity)

  const CHANNELS := ["s_m", "x_m", "y_m", "z_m", "curvature_radpm", "slope_pct"]

  predicate Usable(data: map<string, Channel>, name: string) {
    && name in data && data[name].Samples?
    && |data[name].samples| >= 2
    && forall k :: 0 <= k < |data[name].samples| ==> data[name].samples[k].Finite?
  }

  function Values(data: map<string, Channel>, name: string): seq<real>
    requires Usable(data, name)
  {
    seq(|data[name].samples|, k requires 0 <= k < |data[name].samples| => data[name].samples[k].value)
  }

  function FirstIssue(data: map<string, Channel>, name: string): string {
    if name !in data || data[name].NotAnArray? then "missing_channel"
    else if |data[name].samples| < 2 then "insufficient_samples"
    else "non_finite_sample"
  }

  predicate AnyFlatOrReversed(s: seq<real>) { exists i :: 0 <= i < |s| - 1 && s[i + 1] - s[i] <= 0.0 }

  predicate AnySpacingOff(s: seq<real>) {
    exists i :: 0 <= i < |s| - 1 && !(0.99 <= s[i + 1] - s[i] <= 1.01)
  }

  predicate AnyAbove(s: seq<real>, limit: real) { exists i :: 0 <= i < |s| && Abs(s[i]) > limit }

  predicate AllEqual(s: seq<real>) { forall i :: 0 <= i < |s| ==> s[i] == s[0] }

  predicate AllZero(s: seq<real>) { forall i :: 0 <= i < |s| ==> s[i] == 0.0 }

  /** The gap between the ends of the centerline exceeds two metres. */
  predicate Open(x: seq<real>, y: seq<real>)
    requires x != [] && y != []
  {
    var dx, dy := x[|x| - 1] - x[0], y[|y| - 1] - y[0];
    dx * dx + dy * dy > 2.0 * 2.0
  }

  /** One-metre spacing, a closed centerline, bounded curvature and slope, and slope exactly where there is relief. */
  ghost predicate SoundChannels(
    s: seq<real>, x: seq<real>, y: seq<real>, z: seq<real>, curvature: seq<real>, slope: seq<real>)
    requires x != [] && y != []
  {
    && (forall i :: 0 <= i < |s| - 1 ==> 0.99 <= s[i + 1] - s[i] <= 1.01)
    && (var dx, dy := x[|x| - 1] - x[0], y[|y| - 1] - y[0]; dx * dx + dy * dy <= 4.0)
    && (forall i :: 0 <= i < |curvature| ==> Abs(curvature[i]) <= 0.2)
    && (forall i :: 0 <= i < |slope| ==> Abs(slope[i]) <= 0.3)
    && ((forall i :: 0 <= i < |z| ==> z[i] == z[0]) <==> (forall i :: 0 <= i < |slope| ==> slope[i] == 0.0))
  }

  ghost predicate AllUsable(data: map<string, Channel>) { forall j :: 0 <= j < |CHANNELS| ==> Usable(data, CHANNELS[j]) }

  /** The properties of a track that the validator lets through, said without its algorithm. */
  ghost predicate Sound(data: map<string, Channel>) {
    && AllUsable(data)
    && (UsableByName(data);
        && (forall j :: 0 <= j < |CHANNELS| ==> |Values(data, CHANNELS[j])| == |Values(data, "s_m")|)
        && SoundChannels(Values(data, "s_m"), Values(data, "x_m"), Values(data, "y_m"), Values(data, "z_m"),
                         Values(data, "curvature_radpm"), Values(data, "slope_pct")))
  }

  predicate Clear(issues: seq<Issue>) { forall k :: 0 <= k < |issues| ==> issues[k].severity != Error }

  lemma ClearOne(issue: Issue)
    ensures Clear([issue]) <==> issue.severity != Error
  {
    assert [issue][0] == issue;
  }

  function Flag(failed: bool, code: string): (issues: seq<Issue>)
    ensures Clear(issues) <==> !failed
    ensures forall i :: i in issues <==> failed && i == Issue(code, Error)
  {
    ClearOne(Issue(code, Error));
    if failed then [Issue(code, Error)] else []
  }

  lemma ClearAppend(a: seq<Issue>, b: seq<Issue>)
    ensures Clear(a + b) <==> Clear(a) && Clear(b)
  {
    assert Clear(a + b) ==> Clear(a) && Clear(b) by {
      if Clear(a + b) {
        forall k | 0 <= k < |a| ensures a[k].severity != Error { assert (a + b)[k] == a[k]; }
        forall k | 0 <= k < |b| ensures b[k].severity != Error { assert (a + b)[|a| + k] == b[k]; }
      }
    }
  }

  /** When an issue is raised on complete channels, code by code. */
  predicate ChannelRaises(
    s: seq<real>, x: seq<real>, y: seq<real>, z: seq<real>, curvature: seq<real>, slope: seq<real>, issue: Issue)
    requires x != [] && y != []
  {
    || (issue == Issue("non_monotonic_distance", Error) && AnyFlatOrReversed(s))
    || (issue == Issue("unexpected_sample_spacing", Error) && AnySpacingOff(s))
    || (issue == Issue("open_centerline", Error) && Open(x, y))
    || (issue == Issue("curvature_discontinuity", Error) && AnyAbove(curvature, 0.2))
    || (issue == Issue("slope_discontinuity", Error) && AnyAbove(slope, 0.3))
    || (issue == Issue("vertical_channel_mismatch", Error) && AllEqual(z) != AllZero(slope))
    || (issue == Issue("flat_vertical_placeholder", Warning) && AllEqual(z) && AllZero(slope))
  }

  /** The checks on complete channels, in the validator's order. */
  function ChannelIssues(s: seq<real>, x: seq<real>, y: seq<real>, z: seq<real>, curvature: seq<real>, slope: seq<real>)
    : (issues: seq<Issue>)
    requires |s| >= 2 && x != [] && y != []
    ensures Clear(issues) <==> SoundChannels(s, x, y, z, curvature, slope)
    ensures forall i :: i in issues <==> ChannelRaises(s, x, y, z, curvature, slope, i)
  {
    SpacingImpliesOrder(s);
    var distance := Flag(AnyFlatOrReversed(s), "non_monotonic_distance") + Flag(AnySpacingOff(s), "unexpected_sample_spacing");
    ClearAppend(Flag(AnyFlatOrReversed(s), "non_monotonic_distance"), Flag(AnySpacingOff(s), "unexpected_sample_spacing"));
    var closed := distance + Flag(Open(x, y), "open_centerline");
    ClearAppend(distance, Flag(Open(x, y), "open_centerline"));
    var curved := closed + Flag(AnyAbove(curvature, 0.2), "curvature_discontinuity");
    ClearAppend(closed, Flag(AnyAbove(curvature, 0.2), "curvature_discontinuity"));
    var sloped := curved + Flag(AnyAbove(slope, 0.3), "slope_discontinuity");
    ClearAppend(curved, Flag(AnyAbove(slope, 0.3), "slope_discontinuity"));
    var vertical :=
      if AllEqual(z) && !AllZero(slope) then [Issue("vertical_channel_mismatch", Error)]
      else if !AllEqual(z) && AllZero(slope) then [Issue("vertical_channel_mismatch", Error)]
      else if AllEqual(z) then [Issue("flat_vertical_placeholder", Warning)]
      else [];
    ClearOne(Issue("vertical_channel_mismatch", Error));
    ClearAppend(sloped, vertical);
    sloped + vertical
  }

  /** All channels are usable and share one length. */
  ghost predicate Comparable(data: map<string, Channel>) {
    AllUsable(data) && (UsableByName(data);
      forall j :: 0 <= j < |CHANNELS| ==> |Values(data, CHANNELS[j])| == |Values(data, "s_m")|)
  }

  /** When an issue is raised: per unusable channel, else on different lengths, else on the channels themselves. */
  ghost predicate Raises(data: map<string, Channel>, issue: Issue) {
    if !AllUsable(data) then
      exists j :: 0 <= j < |CHANNELS| && !Usable(data, CHANNELS[j]) && issue == Issue(FirstIssue(data, CHANNELS[j]), Error)
    else if !Comparable(data) then issue == Issue("channel_length_mismatch", Error)
    else
      UsableByName(data);
      ChannelRaises(Values(data, "s_m"), Values(data, "x_m"), Values(data, "y_m"), Values(data, "z_m"),
                    Values(data, "curvature_radpm"), Values(data, "slope_pct"), issue)
  }

  /** One issue per unusable channel among the first k, in channel order. */
  function UnusableIssues(data: map<string, Channel>, k: nat): seq<Issue>
    requires k <= |CHANNELS|
  {
    if k == 0 then [] else
      UnusableIssues(data, k - 1) +
      (if Usable(data, CHANNELS[k - 1]) then [] else [Issue(FirstIssue(data, CHANNELS[k - 1]), Error)])
  }

  /** The issues in the order of the report, each as often as it is reported. */
  ghost predicate Listed(data: map<string, Channel>, issues: seq<Issue>) {
    if !AllUsable(data) then issues == UnusableIssues(data, |CHANNELS|)
    else if !Comparable(data) then issues == [Issue("channel_length_mismatch", Error)]
    else
      UsableByName(data);
      issues == ChannelIssues(Values(data, "s_m"), Values(data, "x_m"), Values(data, "y_m"), Values(data, "z_m"),
                              Values(data, "curvature_radpm"), Values(data, "slope_pct"))
  }

  lemma {:induction false} UnusableAre(data: map<string, Channel>, k: nat)
    requires k <= |CHANNELS|
    ensures forall i :: i in UnusableIssues(data, k) <==>
      exists j :: 0 <= j < k && !Usable(data, CHANNELS[j]) && i == Issue(FirstIssue(data, CHANNELS[j]), Error)
    ensures Clear(UnusableIssues(data, k)) <==> forall j :: 0 <= j < k ==> Usable(data, CHANNELS[j])
    ensures (forall j :: 0 <= j < k ==> Usable(data, CHANNELS[j])) ==> UnusableIssues(data, k) == []
  {
    hide Clear, Usable, FirstIssue;
    if k == 0 {
      ClearNone();
    } else {
      UnusableAre(data, k - 1);
      var issue := Issue(FirstIssue(data, CHANNELS[k - 1]), Error);
      ClearOne(issue);
      ClearAppend(UnusableIssues(data, k - 1), [issue]);
      assert UnusableIssues(data, k - 1) + [] == UnusableIssues(data, k - 1);
    }
  }

  method ListUnusable(data: map<string, Channel>) returns (issues: seq<Issue>)
    ensures issues == UnusableIssues(data, |CHANNELS|)
  {
    issues := [];
    for k := 0 to |CHANNELS|
      invariant issues == UnusableIssues(data, k)
    {
      var name := CHANNELS[k];
      if name !in data || !data[name].Samples? {
        issues := issues + [Issue("missing_channel", Error)];
      } else if |data[name].samples| < 2 {
        issues := issues + [Issue("insufficient_samples", Error)];
      } else if exists i :: 0 <= i < |data[name].samples| && data[name].samples[i].NotFinite? {
        issues := issues + [Issue("non_finite_sample", Error)];
      }
    }
  }

  /** Exactly the right issues are listed, and none of them is an error exactly when the track is sound. */
  method ValidateGeometry(data: Option<map<string, Channel>>) returns (issues: seq<Issue>)
    ensures Clear(issues) <==> data.Some? && Sound(data.value)
    ensures data.None? ==> issues == [Issue("invalid_data", Error)]
    ensures data.Some? ==> Listed(data.value, issues)
    ensures data.Some? ==> forall i :: i in issues <==> Raises(data.value, i)
  {
    if data.None? {
      ClearOne(Issue("invalid_data", Error));
      return [Issue("invalid_data", Error)];
    }
    hide Clear, Usable, SoundChannels, Values, ChannelRaises, ChannelIssues, UnusableIssues;
    var channels := data.value;
    issues := ListUnusable(channels);
    UnusableAre(channels, |CHANNELS|);
    if !forall j :: 0 <= j < |CHANNELS| ==> Usable(channels, CHANNELS[j]) {
      return;
    }
    UsableByName(channels);
    var s := Values(channels, "s_m");
    if exists j :: 0 <= j < |CHANNELS| && |Values(channels, CHANNELS[j])| != |s| {
      ClearOne(Issue("channel_length_mismatch", Error));
      issues := [Issue("channel_length_mismatch", Error)];
      return;
    }
    ValuesNonempty(channels, "s_m");
    ValuesNonempty(channels, "x_m");
    ValuesNonempty(channels, "y_m");
    issues := ChannelIssues(s, Values(channels, "x_m"), Values(channels, "y_m"), Values(channels, "z_m"),
                            Values(channels, "curvature_radpm"), Values(channels, "slope_pct"));
  }

  lemma ClearNone()
    ensures Clear([])
  {
  }

  lemma ValuesNonempty(data: map<string, Channel>, name: string)
    requires Usable(data, name)
    ensures |Values(data, name)| >= 2
  {
  }

  lemma UsableByName(data: map<string, Channel>)
    requires AllUsable(data)
    ensures Usable(data, "s_m") && Usable(data, "x_m") && Usable(data, "y_m")
    ensures Usable(data, "z_m") && Usable(data, "curvature_radpm") && Usable(data, "slope_pct")
    ensures Values(data, "x_m") != [] && Values(data, "y_m") != []
  {
    assert Usable(data, CHANNELS[0]) && Usable(data, CHANNELS[1]) && Usable(data, CHANNELS[2]);
    assert Usable(data, CHANNELS[3]) && Usable(data, CHANNELS[4]) && Usable(data, CHANNELS[5]);
  }

  lemma SpacingImpliesOrder(s: seq<real>)
    ensures !AnySpacingOff(s) ==> !AnyFlatOrReversed(s)
  {
  }

  lemma {:induction false} StepsIncrease(s: seq<real>, i: nat, j: nat)
    requires i < j < |s| && forall k :: 0 <= k < |s| - 1 ==> s[k + 1] - s[k] >= 0.99
    ensures s[i] < s[j]
    decreases j - i
  {
    assert s[i + 1] - s[i] >= 0.99;
    if i + 1 < j {
      StepsIncrease(s, i + 1, j);
    }
  }

  /** A sound track meets the resampler's demands: it can be interpolated at every target. */
  lemma SoundTrackResamples(data: map<string, Channel>)
    requires Sound(data)
    ensures Usable(data, "s_m") && Usable(data, "x_m") && Usable(data, "y_m")
    ensures |Values(data, "s_m")| == |Values(data, "x_m")| == |Values(data, "y_m")| >= 2
    ensures Increasing(Values(data, "s_m"))
  {
    UsableByName(data);
    var s := Values(data, "s_m");
    assert |Values(data, CHANNELS[1])| == |s| && |Values(data, CHANNELS[2])| == |s|;
    forall i, j | 0 <= i < j < |s| ensures s[i] < s[j] {
      StepsIncrease(s, i, j);
    }
  }
}
