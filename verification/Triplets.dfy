/**
 Controlled budget triplets and their independent checker
 (experiments/budget_effect_v2/build_campaign.py). JSON text, digests and compact bytes belong to
 libraries and are parameters; fields no step touches are kept as one opaque text.
 */
module Triplets {
  import opened Apportionment
  import opened Counting
  import Integers
  import opened Results
  import opened Sums

  datatype Tuning = Tuning(aero: int, chassis: int, cooling: int, engine: int, rest: string)
  datatype Competitor = Competitor(id: string, isPlayer: bool, name: string, budgetCap: int, tuning: Tuning, rest: string)
  datatype Scenario = Scenario(
    identity: string, model: string, dataPack: string, competitors: seq<Competitor>, rest: string)

  const IDENTITY := "racing.budget-effect-campaign 2.0.0"
  const PLAYER_NAME := "Economy-backed Development Reference"
  const OPPONENTS := 9
  const CAP := 20

  datatype Treatment = Below | Reference | Above
  datatype Progression = Early | Mid | Late | Unknown(name: string)

  /** Budget of a treatment; None for a progression that has no treatments. */
  function Budget(p: Progression, t: Treatment): Option<int> {
    match p
    case Early => Some(match t case Below => 3 case Reference => 4 case Above => 5)
    case Mid => Some(match t case Below => 24 case Reference => 27 case Above => 30)
    case Late => Some(match t case Below => 33 case Reference => 37 case Above => 41)
    case Unknown(_) => None
  }

  function TreatmentAt(j: nat): Treatment { if j == 0 then Below else if j == 1 then Reference else Above }

  function TreatmentName(t: Treatment): string {
    match t case Below => "below" case Reference => "reference" case Above => "above"
  }

  function Points(t: Tuning): seq<int> { [t.aero, t.chassis, t.cooling, t.engine] }

  function WithPoints(t: Tuning, p: seq<int>): Tuning
    requires |p| == 4
  {
    t.(aero := p[0], chassis := p[1], cooling := p[2], engine := p[3])
  }

  // ----- The controlled player and what stays fixed -----

  ghost predicate IsControlledPlayer(s: Scenario, k: nat) {
    && k < |s.competitors| && s.competitors[k].isPlayer && s.competitors[k].id == "player"
    && forall i :: 0 <= i < |s.competitors| && s.competitors[i].isPlayer ==> i == k
  }

  method ControlledPlayer(s: Scenario) returns (r: Result<nat>)
    ensures r.Ok? ==> IsControlledPlayer(s, r.value)
    ensures r.Err? ==> forall k :: !IsControlledPlayer(s, k)
  {
    var players: seq<nat> := [];
    for i := 0 to |s.competitors|
      invariant forall j :: 0 <= j < |players| ==> players[j] < i && s.competitors[players[j]].isPlayer
      invariant forall j, k :: 0 <= j < k < |players| ==> players[j] < players[k]
      invariant forall k :: 0 <= k < i && s.competitors[k].isPlayer ==> k in players
    {
      if s.competitors[i].isPlayer {
        players := players + [i];
      }
    }
    if |players| != 1 || s.competitors[players[0]].id != "player" {
      if |players| >= 2 {
        assert players[0] != players[1];
      }
      return Err("source scenario must contain one player");
    }
    r := Ok(players[0]);
  }

  datatype Projected = Untouched(competitor: Competitor) | Stripped(id: string, name: string, tuningRest: string, rest: string)
  datatype Projection = Projection(
    identity: string, model: string, dataPack: string, competitors: seq<Projected>, rest: string)

  function Project(c: Competitor): Projected {
    if c.isPlayer then Stripped(c.id, c.name, c.tuning.rest, c.rest) else Untouched(c)
  }

  /** The scenario without the player's budget and four point fields. */
  function InvariantProjection(s: Scenario): Projection {
    Projection(s.identity, s.model, s.dataPack,
               seq(|s.competitors|, i requires 0 <= i < |s.competitors| => Project(s.competitors[i])), s.rest)
  }

  function Treated(base: Scenario, player: nat, budget: int): Scenario
    requires player < |base.competitors|
  {
    var c := base.competitors[player];
    base.(competitors := base.competitors[player :=
      c.(budgetCap := budget, tuning := WithPoints(c.tuning, BalancedPoints(4, budget)))])
  }

  /** Treatments of one base have one projection, differ in the player only, and there only where allowed. */
  lemma TripletControlled(base: Scenario, player: nat, b: int, b': int)
    requires IsControlledPlayer(base, player)
    ensures InvariantProjection(Treated(base, player, b)) == InvariantProjection(base)
    ensures IsControlledPlayer(Treated(base, player, b), player)
    ensures var s, s' := Treated(base, player, b), Treated(base, player, b');
      s' == s.(competitors := s.competitors[player := s.competitors[player].(
        budgetCap := b', tuning := WithPoints(s.competitors[player].tuning, BalancedPoints(4, b')))])
  {
    var s := Treated(base, player, b);
    forall i | 0 <= i < |base.competitors| ensures Project(s.competitors[i]) == Project(base.competitors[i]) {
    }
    assert InvariantProjection(s).competitors == InvariantProjection(base).competitors;
    assert Treated(base, player, b').competitors == s.competitors[player := Treated(base, player, b').competitors[player]];
  }

  // ----- Preparing the base -----

  /** An opponent normalized to the reference budget by largest remainders, otherwise unchanged. */
  ghost predicate Normalized(c: Competitor, c': Competitor, reference: int) {
    && Sum(Points(c.tuning)) > 0
    && Hamilton(Points(c.tuning), reference, Points(c'.tuning))
    && c' == c.(budgetCap := reference, tuning := WithPoints(c.tuning, Points(c'.tuning)))
  }

  function OpponentsTo(s: Scenario, n: nat): nat
    requires n <= |s.competitors|
  {
    if n == 0 then 0 else OpponentsTo(s, n - 1) + (if s.competitors[n - 1].isPlayer then 0 else 1)
  }

  /** Sources the builder accepts. */
  ghost predicate Buildable(s: Scenario) {
    && (exists k :: IsControlledPlayer(s, k))
    && OpponentsTo(s, |s.competitors|) == OPPONENTS
    && forall i :: 0 <= i < |s.competitors| && !s.competitors[i].isPlayer ==> Sum(Points(s.competitors[i].tuning)) > 0
  }

  ghost predicate Prepared(source: Scenario, reference: int, base: Scenario, player: nat) {
    && IsControlledPlayer(source, player)
    && |base.competitors| == |source.competitors|
    && base == source.(identity := IDENTITY, competitors := base.competitors)
    && OpponentsTo(source, |source.competitors|) == OPPONENTS
    && base.competitors[player] == source.competitors[player].(name := PLAYER_NAME)
    && forall i :: 0 <= i < |base.competitors| && i != player ==>
         Normalized(source.competitors[i], base.competitors[i], reference)
  }

  method PrepareBase(source: Scenario, reference: int) returns (r: Result<(Scenario, nat)>)
    ensures r.Ok? <==> Buildable(source)
    ensures r.Ok? ==> Prepared(source, reference, r.value.0, r.value.1)
  {
    hide Hamilton;
    var found := ControlledPlayer(source);
    if found.Err? {
      return Err(found.error);
    }
    var player := found.value;
    if OpponentsTo(source, |source.competitors|) != OPPONENTS {
      return Err("source scenario must contain nine opponents");
    }
    var competitors := source.competitors[player := source.competitors[player].(name := PLAYER_NAME)];
    for i := 0 to |competitors|
      invariant |competitors| == |source.competitors|
      invariant competitors[player] == source.competitors[player].(name := PLAYER_NAME)
      invariant forall k :: 0 <= k < i && k != player ==> Normalized(source.competitors[k], competitors[k], reference)
      invariant forall k :: i <= k < |competitors| && k != player ==> competitors[k] == source.competitors[k]
    {
      var c := competitors[i];
      if !c.isPlayer {
        var allocation := ProportionalPoints(Points(c.tuning), reference);
        if allocation.Err? {
          return Err(allocation.error);
        }
        HamiltonLength(Points(c.tuning), reference, allocation.value);
        var c' := c.(budgetCap := reference, tuning := WithPoints(c.tuning, allocation.value));
        assert Points(c'.tuning) == allocation.value;
        competitors := competitors[i := c'];
      }
    }
    r := Ok((source.(identity := IDENTITY, competitors := competitors), player));
  }

  lemma HamiltonLength(weights: seq<int>, budget: int, points: seq<int>)
    requires Sum(weights) > 0 && Hamilton(weights, budget, points)
    ensures |points| == |weights| && Sum(points) == budget
  {
  }

  // ----- Building the campaign -----

  /** Encoders and digests of the surrounding libraries. */
  datatype Codec = Codec(
    encode: Scenario -> string, parse: string -> Option<Scenario>, sha256: string -> string,
    fingerprint: Projection -> string)

  /** A source scenario with its recorded digest; `rest` holds the run fields that are copied through. */
  datatype Source = Source(key: string, progression: Progression, scenario: Scenario, digest: string, rest: string)

  datatype Run = Run(
    key: string, triplet: string, resource: string, digest: string, invariantDigest: string, progression: Progression,
    treatment: Treatment, referenceBudget: int, playerBudget: int, playerAllocation: seq<int>, opponentBudget: int,
    sourceDigest: string, rest: string)

  function RunKey(triplet: string, t: Treatment): string { "budget-effect-v2-" + triplet + "--" + TreatmentName(t) }

  lemma RunKeyInjective(a: string, t: Treatment, b: string, u: Treatment)
    requires RunKey(a, t) == RunKey(b, u)
    ensures a == b && t == u
  {
    var k, n := RunKey(a, t), |RunKey(a, t)|;
    LastLetters(a, t);
    LastLetters(b, u);
    assert t == u;
    var tail := "--" + TreatmentName(t);
    assert k == "budget-effect-v2-" + a + tail && k == "budget-effect-v2-" + b + tail by {
      assert "budget-effect-v2-" + a + "--" + TreatmentName(t) == "budget-effect-v2-" + a + tail;
      assert "budget-effect-v2-" + b + "--" + TreatmentName(t) == "budget-effect-v2-" + b + tail;
    }
    assert k[17..n - |tail|] == a;
    assert k[17..n - |tail|] == b;
  }

  lemma LastLetters(a: string, t: Treatment)
    ensures |RunKey(a, t)| >= 2
    ensures var n := |RunKey(a, t)|;
      RunKey(a, t)[n - 2] == (match t case Below => 'o' case Reference => 'c' case Above => 'v')
  {
    var head := "budget-effect-v2-" + a + "--";
    assert RunKey(a, t) == head + TreatmentName(t);
  }

  function RunFor(source: Source, base: Scenario, player: nat, t: Treatment, codec: Codec): Run
    requires player < |base.competitors| && !source.progression.Unknown?
  {
    var reference, budget := Budget(source.progression, Reference).value, Budget(source.progression, t).value;
    Run(RunKey(source.key, t), source.key, RunKey(source.key, t), codec.sha256(codec.encode(Treated(base, player, budget))),
        codec.fingerprint(InvariantProjection(base)), source.progression, t, reference, budget,
        BalancedPoints(4, budget), reference, source.digest, source.rest)
  }

  ghost predicate BuiltRun(
    source: Source, base: (Scenario, nat), t: Treatment, run: Run, resources: map<string, string>, codec: Codec)
  {
    && base.1 < |base.0.competitors| && !source.progression.Unknown?
    && run == RunFor(source, base.0, base.1, t, codec)
    && run.key in resources
    && resources[run.key] == codec.encode(Treated(base.0, base.1, Budget(source.progression, t).value))
  }

  ghost predicate BuiltTriplet(
    source: Source, base: (Scenario, nat), runs: seq<Run>, resources: map<string, string>, codec: Codec)
  {
    && |runs| == 3 && !source.progression.Unknown?
    && Prepared(source.scenario, Budget(source.progression, Reference).value, base.0, base.1)
    && BuiltRun(source, base, Below, runs[0], resources, codec)
    && BuiltRun(source, base, Reference, runs[1], resources, codec)
    && BuiltRun(source, base, Above, runs[2], resources, codec)
  }

  /** Three runs per source, in order, and one resource per run. */
  ghost predicate Built(
    sources: seq<Source>, bases: seq<(Scenario, nat)>, runs: seq<Run>, resources: map<string, string>, codec: Codec)
  {
    && |bases| == |sources| && |runs| == 3 * |sources|
    && (forall i :: 0 <= i < |sources| ==> BuiltTriplet(sources[i], bases[i], runs[3 * i..3 * i + 3], resources, codec))
    && resources.Keys == RunKeys(runs)
  }

  function RunKeys(runs: seq<Run>): set<string> { set run | run in runs :: run.key }
  function TripletKeys(runs: seq<Run>): set<string> { set run | run in runs :: run.triplet }

  lemma BuiltKey(
    source: Source, base: (Scenario, nat), runs: seq<Run>, resources: map<string, string>, codec: Codec, k: nat)
    requires BuiltTriplet(source, base, runs, resources, codec) && k < 3
    ensures runs[k].key == RunKey(source.key, TreatmentAt(k)) && runs[k].triplet == source.key && runs[k].key in resources
  {
    hide Prepared, RunKey, Treated, InvariantProjection, BalancedPoints;
    assert BuiltRun(source, base, TreatmentAt(k), runs[k], resources, codec);
  }

  /** A run of a built campaign belongs to one source and one treatment. */
  lemma BuiltAt(
    sources: seq<Source>, bases: seq<(Scenario, nat)>, runs: seq<Run>, resources: map<string, string>, codec: Codec, r: nat)
    requires Built(sources, bases, runs, resources, codec) && r < |runs|
    ensures r / 3 < |sources|
    ensures runs[r].key == RunKey(sources[r / 3].key, TreatmentAt(r % 3)) && runs[r].triplet == sources[r / 3].key
  {
    hide BuiltTriplet, RunKey;
    var i := r / 3;
    assert runs[3 * i..3 * i + 3][r % 3] == runs[r];
    BuiltKey(sources[i], bases[i], runs[3 * i..3 * i + 3], resources, codec, r % 3);
  }

  ghost predicate DistinctKeys(sources: seq<Source>) {
    forall i, j :: 0 <= i < j < |sources| ==> sources[i].key != sources[j].key
  }

  lemma PreparedPlayer(source: Scenario, reference: int, base: Scenario, player: nat)
    requires Prepared(source, reference, base, player)
    ensures IsControlledPlayer(base, player)
  {
    hide Hamilton;
    forall i | 0 <= i < |base.competitors|
      ensures base.competitors[i].isPlayer == source.competitors[i].isPlayer && (i != player ==> !base.competitors[i].isPlayer)
    {
      assert i == player || Normalized(source.competitors[i], base.competitors[i], reference);
    }
  }

  /**
   One treatment of the base, refused when anything outside the treatment changed. With a controlled
   player and the base's own digest that never happens.
   */
  method Treat(base: Scenario, player: nat, budget: int, digest: string, codec: Codec) returns (r: Result<Scenario>)
    requires player < |base.competitors|
    ensures IsControlledPlayer(base, player) && digest == codec.fingerprint(InvariantProjection(base)) ==> r.Ok?
    ensures r.Ok? ==> r.value == Treated(base, player, budget) && codec.fingerprint(InvariantProjection(r.value)) == digest
  {
    var c := base.competitors[player];
    c := c.(budgetCap := budget);
    c := c.(tuning := WithPoints(c.tuning, BalancedPoints(4, budget)));
    var scenario := base.(competitors := base.competitors[player := c]);
    if IsControlledPlayer(base, player) {
      TripletControlled(base, player, budget, budget);
    }
    if codec.fingerprint(InvariantProjection(scenario)) != digest {
      return Err("non-budget input changed inside triplet");
    }
    r := Ok(scenario);
  }

  /** The triplet loop: three runs and three scenario files per source. */
  method BuildRuns(sources: seq<Source>, codec: Codec)
    returns (r: Result<(seq<Run>, map<string, string>)>, ghost bases: seq<(Scenario, nat)>)
    requires DistinctKeys(sources)
    ensures r.Ok? <==> forall i :: 0 <= i < |sources| ==> !sources[i].progression.Unknown? && Buildable(sources[i].scenario)
    ensures r.Ok? ==> Built(sources, bases, r.value.0, r.value.1, codec)
  {
    hide Buildable, Prepared, InvariantProjection, Treated, RunKey, BalancedPoints;
    var runs: seq<Run> := [];
    var resources: map<string, string> := map[];
    bases := [];
    for i := 0 to |sources|
      invariant Built(sources[..i], bases, runs, resources, codec)
      invariant forall k :: 0 <= k < i ==> !sources[k].progression.Unknown? && Buildable(sources[k].scenario)
    {
      var source := sources[i];
      if source.progression.Unknown? {
        return Err("unknown progression"), [];
      }
      var reference := Budget(source.progression, Reference).value;
      var prepared := PrepareBase(source.scenario, reference);
      if prepared.Err? {
        return Err(prepared.error), [];
      }
      var base, player := prepared.value.0, prepared.value.1;
      PreparedPlayer(source.scenario, reference, base, player);
      var digest := codec.fingerprint(InvariantProjection(base));
      var added: seq<Run> := [];
      var files: map<string, string> := map[];
      for j := 0 to 3
        invariant |added| == j
        invariant forall k :: 0 <= k < j ==> added[k].key == RunKey(source.key, TreatmentAt(k))
        invariant forall k :: 0 <= k < j ==> BuiltRun(source, (base, player), TreatmentAt(k), added[k], files, codec)
        invariant files.Keys == RunKeys(added)
      {
        var t := TreatmentAt(j);
        var budget := Budget(source.progression, t).value;
        var treated := Treat(base, player, budget, digest, codec);
        var scenario := treated.value;
        var run := RunFor(source, base, player, t, codec);
        TreatmentKeysDiffer(source.key, j);
        files := files[run.key := codec.encode(scenario)];
        added := added + [run];
      }
      assert BuiltRun(source, (base, player), TreatmentAt(0), added[0], files, codec);
      BuiltNext(sources, i, bases, runs, resources, (base, player), added, files, codec);
      bases := bases + [(base, player)];
      runs := runs + added;
      resources := resources + files;
    }
    assert sources[..|sources|] == sources;
    r := Ok((runs, resources));
  }

  lemma TreatmentKeysDiffer(key: string, j: nat)
    requires j < 3
    ensures forall k :: 0 <= k < j ==> RunKey(key, TreatmentAt(k)) != RunKey(key, TreatmentAt(j))
  {
    hide RunKey;
    forall k | 0 <= k < j ensures RunKey(key, TreatmentAt(k)) != RunKey(key, TreatmentAt(j)) {
      if RunKey(key, TreatmentAt(k)) == RunKey(key, TreatmentAt(j)) {
        RunKeyInjective(key, TreatmentAt(k), key, TreatmentAt(j));
      }
    }
  }

  lemma KeyKept(earlier: Source, source: Source, base: (Scenario, nat), added: seq<Run>, files: map<string, string>,
    t: Treatment, codec: Codec)
    requires earlier.key != source.key
    requires BuiltTriplet(source, base, added, files, codec) && files.Keys == RunKeys(added)
    ensures RunKey(earlier.key, t) !in files
  {
    hide RunKey, BuiltTriplet;
    var key := RunKey(earlier.key, t);
    if key in files {
      assert |added| == 3 by { TripletLength(source, base, added, files, codec); }
      var k :| 0 <= k < 3 && added[k].key == key;
      BuiltKey(source, base, added, files, codec, k);
      RunKeyInjective(earlier.key, t, source.key, TreatmentAt(k));
      assert false;
    }
  }

  lemma TripletLength(
    source: Source, base: (Scenario, nat), runs: seq<Run>, resources: map<string, string>, codec: Codec)
    requires BuiltTriplet(source, base, runs, resources, codec)
    ensures |runs| == 3
  {
    hide Prepared, BuiltRun;
  }

  /** A triplet survives adding the files of another source. */
  lemma TripletKept(
    earlier: Source, base: (Scenario, nat), runs: seq<Run>, resources: map<string, string>, codec: Codec,
    source: Source, base': (Scenario, nat), added: seq<Run>, files: map<string, string>)
    requires earlier.key != source.key && BuiltTriplet(earlier, base, runs, resources, codec)
    requires BuiltTriplet(source, base', added, files, codec) && files.Keys == RunKeys(added)
    ensures BuiltTriplet(earlier, base, runs, resources + files, codec)
  {
    hide Prepared, RunKey, Treated, InvariantProjection, BalancedPoints, RunFor;
    BuiltKey(earlier, base, runs, resources, codec, 0);
    BuiltKey(earlier, base, runs, resources, codec, 1);
    BuiltKey(earlier, base, runs, resources, codec, 2);
    KeyKept(earlier, source, base', added, files, Below, codec);
    KeyKept(earlier, source, base', added, files, Reference, codec);
    KeyKept(earlier, source, base', added, files, Above, codec);
  }

  lemma BuiltNext(
    sources: seq<Source>, i: nat, bases: seq<(Scenario, nat)>, runs: seq<Run>, resources: map<string, string>,
    base: (Scenario, nat), added: seq<Run>, files: map<string, string>, codec: Codec)
    requires i < |sources| && DistinctKeys(sources) && Built(sources[..i], bases, runs, resources, codec)
    requires BuiltTriplet(sources[i], base, added, files, codec) && files.Keys == RunKeys(added)
    ensures Built(sources[..i + 1], bases + [base], runs + added, resources + files, codec)
  {
    hide BuiltTriplet;
    TripletLength(sources[i], base, added, files, codec);
    var runs', resources' := runs + added, resources + files;
    forall j | 0 <= j < i + 1
      ensures BuiltTriplet(sources[j], (bases + [base])[j], runs'[3 * j..3 * j + 3], resources', codec)
    {
      if j < i {
        assert runs'[3 * j..3 * j + 3] == runs[3 * j..3 * j + 3];
        assert sources[..i][j] == sources[j];
        TripletKept(sources[j], bases[j], runs[3 * j..3 * j + 3], resources, codec, sources[i], base, added, files);
      } else {
        assert runs'[3 * j..3 * j + 3] == added;
        TripletGrows(sources[i], base, added, resources, files, codec);
      }
    }
  }

  lemma TripletGrows(
    source: Source, base: (Scenario, nat), runs: seq<Run>, before: map<string, string>, files: map<string, string>, codec: Codec)
    requires BuiltTriplet(source, base, runs, files, codec)
    ensures BuiltTriplet(source, base, runs, before + files, codec)
  {
    hide Prepared, RunKey, Treated, InvariantProjection, BalancedPoints, RunFor;
  }

  // ----- The checker -----

  datatype Catalog = Catalog(model: string, dataPack: string)

  predicate PlayerPasses(c: Competitor, run: Run) {
    && !run.progression.Unknown?
    && var expected, reference := Budget(run.progression, run.treatment).value, Budget(run.progression, Reference).value;
    && run.referenceBudget == reference && run.opponentBudget == reference && run.playerBudget == expected
    && c.budgetCap == expected && Points(c.tuning) == BalancedPoints(4, expected)
    && run.playerAllocation == Points(c.tuning)
    && UnderCap(c.tuning)
  }

  predicate UnderCap(t: Tuning) { t.aero <= CAP && t.chassis <= CAP && t.cooling <= CAP && t.engine <= CAP }

  predicate OpponentPasses(c: Competitor, reference: int) {
    c.budgetCap == reference && Sum(Points(c.tuning)) == reference && UnderCap(c.tuning)
  }

  ghost predicate ScenarioPasses(s: Scenario, run: Run, catalog: Catalog, codec: Codec) {
    && s.identity == IDENTITY && s.model == catalog.model && s.dataPack == catalog.dataPack
    && (exists k: nat :: IsControlledPlayer(s, k) && PlayerPasses(s.competitors[k], run))
    && OpponentsTo(s, |s.competitors|) == OPPONENTS
    && (forall i :: 0 <= i < |s.competitors| && !s.competitors[i].isPlayer ==>
          OpponentPasses(s.competitors[i], run.referenceBudget))
    && codec.fingerprint(InvariantProjection(s)) == run.invariantDigest
  }

  ghost predicate RunPasses(run: Run, resources: map<string, string>, catalog: Catalog, codec: Codec) {
    && run.resource in resources
    && codec.sha256(resources[run.resource]) == run.digest
    && codec.parse(resources[run.resource]).Some?
    && ScenarioPasses(codec.parse(resources[run.resource]).value, run, catalog, codec)
  }

  function Group(runs: seq<Run>, triplet: string): set<Run> { set run | run in runs && run.triplet == triplet }

  function Treatments(group: set<Run>): set<Treatment> { set run | run in group :: run.treatment }

  predicate TripletPasses(group: set<Run>) {
    && Treatments(group) == {Below, Reference, Above}
    && |set run | run in group :: run.invariantDigest| == 1
    && |set run | run in group :: run.playerBudget| == 3
  }

  /** What the checker demands of a campaign planned with a number of triplets. */
  ghost predicate CampaignPasses(
    runs: seq<Run>, resources: map<string, string>, catalog: Catalog, codec: Codec, planned: nat)
  {
    && |runs| == 3 * planned && |RunKeys(runs)| == 3 * planned && resources.Keys == RunKeys(runs)
    && (forall run :: run in runs ==> RunPasses(run, resources, catalog, codec))
    && |TripletKeys(runs)| == planned
    && (forall key :: key in TripletKeys(runs) ==> TripletPasses(Group(runs, key)))
  }

  method CheckScenario(s: Scenario, run: Run, catalog: Catalog, codec: Codec) returns (ok: bool)
    ensures ok <==> ScenarioPasses(s, run, catalog, codec)
  {
    if s.identity != IDENTITY || s.model != catalog.model || s.dataPack != catalog.dataPack {
      return false;
    }
    var found := ControlledPlayer(s);
    if found.Err? {
      return false;
    }
    assert forall k :: IsControlledPlayer(s, k) ==> k == found.value;
    if !PlayerPasses(s.competitors[found.value], run) || OpponentsTo(s, |s.competitors|) != OPPONENTS {
      return false;
    }
    for i := 0 to |s.competitors|
      invariant forall k :: 0 <= k < i && !s.competitors[k].isPlayer ==> OpponentPasses(s.competitors[k], run.referenceBudget)
    {
      if !s.competitors[i].isPlayer && !OpponentPasses(s.competitors[i], run.referenceBudget) {
        return false;
      }
    }
    ok := codec.fingerprint(InvariantProjection(s)) == run.invariantDigest;
  }

  method CheckRun(run: Run, resources: map<string, string>, catalog: Catalog, codec: Codec) returns (ok: bool)
    ensures ok <==> RunPasses(run, resources, catalog, codec)
  {
    hide ScenarioPasses;
    if run.resource !in resources || codec.sha256(resources[run.resource]) != run.digest {
      return false;
    }
    var parsed := codec.parse(resources[run.resource]);
    if parsed.None? {
      return false;
    }
    ok := CheckScenario(parsed.value, run, catalog, codec);
  }

  /** Checks every run and files it under its triplet. */
  method CheckRuns(runs: seq<Run>, resources: map<string, string>, catalog: Catalog, codec: Codec)
    returns (ok: bool, triplets: map<string, set<Run>>)
    ensures ok <==> forall run :: run in runs ==> RunPasses(run, resources, catalog, codec)
    ensures ok ==> triplets.Keys == TripletKeys(runs) && forall key :: key in triplets ==> triplets[key] == Group(runs, key)
  {
    hide RunPasses, Group;
    triplets := map[];
    for i := 0 to |runs|
      invariant forall k :: 0 <= k < i ==> RunPasses(runs[k], resources, catalog, codec)
      invariant triplets.Keys == TripletKeys(runs[..i])
      invariant forall key :: key in triplets ==> triplets[key] == Group(runs[..i], key)
    {
      var run := runs[i];
      assert run in runs;
      var passes := CheckRun(run, resources, catalog, codec);
      if !passes {
        return false, triplets;
      }
      GroupNext(runs, i);
      triplets := triplets[run.triplet := (if run.triplet in triplets then triplets[run.triplet] else {}) + {run}];
    }
    assert runs[..|runs|] == runs;
    ok := true;
  }

  method CheckTriplets(triplets: map<string, set<Run>>) returns (ok: bool)
    ensures ok <==> forall key :: key in triplets ==> TripletPasses(triplets[key])
  {
    hide TripletPasses;
    var pending := triplets.Keys;
    while pending != {}
      invariant pending <= triplets.Keys
      invariant forall key :: key in triplets.Keys - pending ==> TripletPasses(triplets[key])
      decreases |pending|
    {
      var key :| key in pending;
      if !TripletPasses(triplets[key]) {
        return false;
      }
      pending := pending - {key};
    }
    ok := true;
  }

  /** The checks of the runs, their resources and their triplets. */
  method CheckCampaign(
    runs: seq<Run>, resources: map<string, string>, catalog: Catalog, codec: Codec, planned: nat) returns (ok: bool)
    ensures ok <==> CampaignPasses(runs, resources, catalog, codec, planned)
  {
    hide RunPasses, TripletPasses, Group, TripletKeys, RunKeys;
    if |runs| != 3 * planned || |RunKeys(runs)| != 3 * planned || resources.Keys != RunKeys(runs) {
      return false;
    }
    var passed, triplets := CheckRuns(runs, resources, catalog, codec);
    if !passed || |triplets.Keys| != planned {
      return false;
    }
    ok := CheckTriplets(triplets);
  }

  lemma GroupNext(runs: seq<Run>, i: nat)
    requires i < |runs|
    ensures TripletKeys(runs[..i + 1]) == TripletKeys(runs[..i]) + {runs[i].triplet}
    ensures Group(runs[..i + 1], runs[i].triplet) == Group(runs[..i], runs[i].triplet) + {runs[i]}
    ensures forall key :: key != runs[i].triplet ==> Group(runs[..i + 1], key) == Group(runs[..i], key)
    ensures runs[i].triplet !in TripletKeys(runs[..i]) ==> Group(runs[..i], runs[i].triplet) == {}
  {
    assert runs[..i + 1] == runs[..i] + [runs[i]];
  }

  // ----- The builder against the checker -----

  /** Whether the exact share of an axis is rounded to no more than the cap. */
  ghost predicate FitsCap(weights: seq<int>, budget: int, axis: nat)
    requires Sum(weights) > 0 && axis < |weights|
  {
    var share, unit := budget * weights[axis], Sum(weights);
    || share <= 20 * unit
    || (share < 21 * unit && |Prior(Remainders(weights, budget), axis)| >= Leftover(weights, budget))
  }

  ghost predicate OpponentFits(c: Competitor, reference: int) {
    Sum(Points(c.tuning)) > 0 && forall axis :: 0 <= axis < 4 ==> FitsCap(Points(c.tuning), reference, axis)
  }

  /** Sources whose triplet the checker admits, read off the source alone. */
  ghost predicate SourceFits(source: Source, catalog: Catalog) {
    && !source.progression.Unknown?
    && source.scenario.model == catalog.model && source.scenario.dataPack == catalog.dataPack
    && forall i :: 0 <= i < |source.scenario.competitors| && !source.scenario.competitors[i].isPlayer ==>
         OpponentFits(source.scenario.competitors[i], Budget(source.progression, Reference).value)
  }

  lemma UnderCapAxes(t: Tuning)
    ensures UnderCap(t) <==> forall axis :: 0 <= axis < 4 ==> Points(t)[axis] <= CAP
  {
    assert Points(t)[0] == t.aero && Points(t)[1] == t.chassis && Points(t)[2] == t.cooling && Points(t)[3] == t.engine;
  }

  lemma AxisFits(weights: seq<int>, budget: int, p: seq<int>, axis: nat)
    requires Sum(weights) > 0 && Hamilton(weights, budget, p) && axis < |weights|
    ensures |p| == |weights|
    ensures p[axis] <= CAP <==> FitsCap(weights, budget, axis)
  {
    WithinCapIff(weights, budget, p, axis, CAP);
  }

  lemma NormalizedFits(c: Competitor, c': Competitor, reference: int)
    requires Normalized(c, c', reference)
    ensures OpponentPasses(c', reference) <==> OpponentFits(c, reference)
  {
    hide FitsCap, UnderCap, Hamilton;
    var weights, p := Points(c.tuning), Points(c'.tuning);
    HamiltonLength(weights, reference, p);
    forall axis | 0 <= axis < 4 ensures p[axis] <= CAP <==> FitsCap(weights, reference, axis) {
      AxisFits(weights, reference, p, axis);
    }
    UnderCapAxes(c'.tuning);
  }

  lemma {:induction false} OpponentsSame(s: Scenario, s': Scenario, n: nat)
    requires n <= |s.competitors| == |s'.competitors|
    requires forall i :: 0 <= i < n ==> s.competitors[i].isPlayer == s'.competitors[i].isPlayer
    ensures OpponentsTo(s, n) == OpponentsTo(s', n)
  {
    if n > 0 {
      OpponentsSame(s, s', n - 1);
    }
  }

  lemma PlayerTreated(source: Source, base: Scenario, player: nat, t: Treatment, codec: Codec)
    requires player < |base.competitors| && !source.progression.Unknown?
    ensures var s := Treated(base, player, Budget(source.progression, t).value);
      PlayerPasses(s.competitors[player], RunFor(source, base, player, t, codec))
  {
    var b := Budget(source.progression, t).value;
    var c := Treated(base, player, b).competitors[player];
    assert Points(c.tuning) == BalancedPoints(4, b);
    assert 0 <= b <= 41;
    assert forall k :: 0 <= k < 4 ==> BalancedPoints(4, b)[k] <= CAP;
    UnderCapAxes(c.tuning);
  }

  /** A treated scenario passes exactly when the source names the catalog's identities and fits the cap. */
  lemma TreatedPasses(source: Source, base: Scenario, player: nat, t: Treatment, catalog: Catalog, codec: Codec)
    requires !source.progression.Unknown?
    requires Prepared(source.scenario, Budget(source.progression, Reference).value, base, player)
    ensures var s := Treated(base, player, Budget(source.progression, t).value);
      ScenarioPasses(s, RunFor(source, base, player, t, codec), catalog, codec) <==> SourceFits(source, catalog)
  {
    hide Hamilton, OpponentPasses, OpponentFits, PlayerPasses, RunKey, BalancedPoints, OpponentsTo;
    var reference, b := Budget(source.progression, Reference).value, Budget(source.progression, t).value;
    var s := Treated(base, player, b);
    PreparedPlayer(source.scenario, reference, base, player);
    TripletControlled(base, player, b, b);
    PlayerTreated(source, base, player, t, codec);
    OpponentsSame(source.scenario, s, |s.competitors|);
    forall i | 0 <= i < |s.competitors| && i != player
      ensures OpponentPasses(s.competitors[i], reference) <==> OpponentFits(source.scenario.competitors[i], reference)
    {
      assert s.competitors[i] == base.competitors[i];
      NormalizedFits(source.scenario.competitors[i], base.competitors[i], reference);
    }
  }

  lemma BuiltKeys(
    sources: seq<Source>, bases: seq<(Scenario, nat)>, runs: seq<Run>, resources: map<string, string>, codec: Codec)
    requires DistinctKeys(sources) && Built(sources, bases, runs, resources, codec)
    ensures |RunKeys(runs)| == |runs|
  {
    hide Built, RunKey;
    var keys := seq(|runs|, i requires 0 <= i < |runs| => runs[i].key);
    forall i, j | 0 <= i < j < |keys| ensures keys[i] != keys[j] {
      BuiltAt(sources, bases, runs, resources, codec, i);
      BuiltAt(sources, bases, runs, resources, codec, j);
      if keys[i] == keys[j] {
        RunKeyInjective(sources[i / 3].key, TreatmentAt(i % 3), sources[j / 3].key, TreatmentAt(j % 3));
      }
    }
    DistinctCount(keys);
    forall x | x in RunKeys(runs) ensures x in keys {
      var i :| 0 <= i < |runs| && runs[i].key == x;
      assert keys[i] == x;
    }
    assert RunKeys(runs) == set x | x in keys;
  }

  lemma BuiltTripletKeys(
    sources: seq<Source>, bases: seq<(Scenario, nat)>, runs: seq<Run>, resources: map<string, string>, codec: Codec)
    requires DistinctKeys(sources) && Built(sources, bases, runs, resources, codec)
    ensures TripletKeys(runs) == set source | source in sources :: source.key
    ensures |TripletKeys(runs)| == |sources|
  {
    hide BuiltTriplet, RunKey;
    var keys := seq(|sources|, i requires 0 <= i < |sources| => sources[i].key);
    DistinctCount(keys);
    forall key | key in TripletKeys(runs) ensures key in keys {
      var r :| 0 <= r < |runs| && runs[r].triplet == key;
      BuiltAt(sources, bases, runs, resources, codec, r);
      assert keys[r / 3] == key;
    }
    forall i | 0 <= i < |sources| ensures sources[i].key in TripletKeys(runs) && sources[i].key in keys {
      BuiltAt(sources, bases, runs, resources, codec, 3 * i);
      assert runs[3 * i] in runs && keys[i] == sources[i].key;
    }
    assert TripletKeys(runs) == set x | x in keys;
    assert (set x | x in keys) == set source | source in sources :: source.key;
  }

  lemma BuiltGroup(
    sources: seq<Source>, bases: seq<(Scenario, nat)>, runs: seq<Run>, resources: map<string, string>, codec: Codec, i: nat)
    requires DistinctKeys(sources) && Built(sources, bases, runs, resources, codec) && i < |sources|
    ensures Group(runs, sources[i].key) == {runs[3 * i], runs[3 * i + 1], runs[3 * i + 2]}
    ensures TripletPasses(Group(runs, sources[i].key))
  {
    hide BuiltTriplet, RunKey, TripletPasses;
    var a, b, c := runs[3 * i], runs[3 * i + 1], runs[3 * i + 2];
    var group := Group(runs, sources[i].key);
    forall run | run in group ensures run in {a, b, c} {
      var r :| 0 <= r < |runs| && runs[r] == run;
      BuiltAt(sources, bases, runs, resources, codec, r);
      assert r / 3 == i;
      assert r == 3 * i || r == 3 * i + 1 || r == 3 * i + 2;
    }
    BuiltAt(sources, bases, runs, resources, codec, 3 * i);
    BuiltAt(sources, bases, runs, resources, codec, 3 * i + 1);
    BuiltAt(sources, bases, runs, resources, codec, 3 * i + 2);
    assert group == {a, b, c};
    assert runs[3 * i..3 * i + 3] == [a, b, c];
    ThreeTreatments(sources[i], bases[i], a, b, c, resources, codec);
  }

  lemma ThreeTreatments(
    source: Source, base: (Scenario, nat), a: Run, b: Run, c: Run, resources: map<string, string>, codec: Codec)
    requires BuiltTriplet(source, base, [a, b, c], resources, codec)
    ensures TripletPasses({a, b, c})
  {
    hide Prepared;
    var group := {a, b, c};
    assert Treatments(group) == {a.treatment, b.treatment, c.treatment};
    assert (set run | run in group :: run.invariantDigest) == {a.invariantDigest};
    assert (set run | run in group :: run.playerBudget) == {a.playerBudget, b.playerBudget, c.playerBudget};
    assert a.playerBudget < b.playerBudget < c.playerBudget;
    assert |{a.playerBudget, b.playerBudget, c.playerBudget}| == 3;
  }

  ghost predicate Lossless(codec: Codec) { forall s :: codec.parse(codec.encode(s)) == Some(s) }

  lemma BuiltRunPasses(
    source: Source, base: (Scenario, nat), t: Treatment, run: Run, resources: map<string, string>, codec: Codec,
    catalog: Catalog)
    requires Lossless(codec) && BuiltRun(source, base, t, run, resources, codec)
    requires Prepared(source.scenario, Budget(source.progression, Reference).value, base.0, base.1)
    ensures RunPasses(run, resources, catalog, codec) <==> SourceFits(source, catalog)
  {
    hide Prepared, ScenarioPasses, SourceFits, RunKey, Treated, InvariantProjection, BalancedPoints;
    TreatedPasses(source, base.0, base.1, t, catalog, codec);
  }

  lemma BuiltRunAtPasses(
    source: Source, base: (Scenario, nat), runs: seq<Run>, resources: map<string, string>, codec: Codec,
    catalog: Catalog, k: nat)
    requires Lossless(codec) && BuiltTriplet(source, base, runs, resources, codec) && k < 3
    ensures RunPasses(runs[k], resources, catalog, codec) <==> SourceFits(source, catalog)
  {
    hide Prepared, BuiltRun, RunPasses, SourceFits;
    BuiltRunPasses(source, base, TreatmentAt(k), runs[k], resources, codec, catalog);
  }

  /** The checker accepts a built campaign exactly when every source fits. */
  lemma BuiltCampaignPasses(
    sources: seq<Source>, bases: seq<(Scenario, nat)>, runs: seq<Run>, resources: map<string, string>, codec: Codec,
    catalog: Catalog)
    requires Lossless(codec) && DistinctKeys(sources) && Built(sources, bases, runs, resources, codec)
    ensures CampaignPasses(runs, resources, catalog, codec, |sources|) <==>
      forall i :: 0 <= i < |sources| ==> SourceFits(sources[i], catalog)
  {
    hide BuiltTriplet, SourceFits, RunPasses, TripletPasses, RunKeys, TripletKeys, Group;
    BuiltKeys(sources, bases, runs, resources, codec);
    BuiltTripletKeys(sources, bases, runs, resources, codec);
    forall key | key in TripletKeys(runs) ensures TripletPasses(Group(runs, key)) {
      var i :| 0 <= i < |sources| && sources[i].key == key;
      BuiltGroup(sources, bases, runs, resources, codec, i);
    }
    forall r | 0 <= r < |runs|
      ensures r / 3 < |sources| && (RunPasses(runs[r], resources, catalog, codec) <==> SourceFits(sources[r / 3], catalog))
    {
      BuiltRunAtPasses(sources[r / 3], bases[r / 3], runs[3 * (r / 3)..3 * (r / 3) + 3], resources, codec, catalog, r % 3);
    }
    if CampaignPasses(runs, resources, catalog, codec, |sources|) {
      forall i | 0 <= i < |sources| ensures SourceFits(sources[i], catalog) {
        assert runs[3 * i] in runs && 3 * i / 3 == i;
      }
    }
  }

  lemma OneAxisDoesNotFit(c: Competitor)
    requires Points(c.tuning) == [1, 0, 0, 0]
    ensures !OpponentFits(c, Budget(Late, Reference).value)
  {
    var w: seq<int> := [1, 0, 0, 0];
    SumOfFour(w);
    assert !FitsCap(w, 37, 0);
  }

  /** A late source with one player and nine one-axis opponents. */
  function OneAxisScenario(): Scenario {
    var opponent := Competitor("opponent", false, "", 0, Tuning(1, 0, 0, 0, ""), "");
    var player := Competitor("player", true, "", 0, Tuning(0, 0, 0, 0, ""), "");
    Scenario("", "", "", seq(10, i => if i == 0 then player else opponent), "")
  }

  lemma {:induction false} OneAxisOpponents(n: nat)
    requires n <= 10
    ensures OpponentsTo(OneAxisScenario(), n) == if n == 0 then 0 else n - 1
  {
    if n > 0 {
      OneAxisOpponents(n - 1);
    }
  }

  /** The builder accepts it, so a campaign that the checker refuses can be built. */
  lemma OneAxisBuildable()
    ensures Buildable(OneAxisScenario())
  {
    var s := OneAxisScenario();
    assert IsControlledPlayer(s, 0);
    OneAxisOpponents(10);
    forall i | 0 <= i < |s.competitors| && !s.competitors[i].isPlayer ensures Sum(Points(s.competitors[i].tuning)) > 0 {
      SumOfFour(Points(s.competitors[i].tuning));
    }
  }

  /** A built campaign the checker refuses: a late source with an opponent that has everything on one axis. */
  lemma OneAxisOpponentRefused(
    sources: seq<Source>, bases: seq<(Scenario, nat)>, runs: seq<Run>, resources: map<string, string>, codec: Codec,
    catalog: Catalog, i: nat, j: nat)
    requires Lossless(codec) && DistinctKeys(sources) && Built(sources, bases, runs, resources, codec)
    requires i < |sources| && sources[i].progression == Late && j < |sources[i].scenario.competitors|
    requires !sources[i].scenario.competitors[j].isPlayer
    requires Points(sources[i].scenario.competitors[j].tuning) == [1, 0, 0, 0]
    ensures !CampaignPasses(runs, resources, catalog, codec, |sources|)
  {
    hide Built, CampaignPasses, OpponentFits;
    BuiltCampaignPasses(sources, bases, runs, resources, codec, catalog);
    OneAxisDoesNotFit(sources[i].scenario.competitors[j]);
  }

  // ----- What acceptance guarantees, whoever wrote the campaign -----

  function Members(runs: seq<Run>, keys: set<string>): set<Run> { set run | run in runs && run.triplet in keys }

  lemma {:induction false} TreatmentsSmaller(group: set<Run>)
    ensures |Treatments(group)| <= |group|
  {
    if group != {} {
      var run :| run in group;
      TreatmentsSmaller(group - {run});
      assert Treatments(group) == Treatments(group - {run}) + {run.treatment};
    }
  }

  lemma TripletAtLeastThree(group: set<Run>)
    requires TripletPasses(group)
    ensures |group| >= 3
  {
    TreatmentsSmaller(group);
    assert |{Below, Reference, Above}| == 3;
  }

  lemma {:induction false} MembersAtLeast(runs: seq<Run>, keys: set<string>)
    requires forall key :: key in keys ==> TripletPasses(Group(runs, key))
    ensures |Members(runs, keys)| >= 3 * |keys|
    decreases |keys|
  {
    hide TripletPasses;
    if keys != {} {
      var key :| key in keys;
      MembersAtLeast(runs, keys - {key});
      TripletAtLeastThree(Group(runs, key));
      assert Members(runs, keys) == Members(runs, keys - {key}) + Group(runs, key);
      assert Members(runs, keys - {key}) !! Group(runs, key);
    }
  }

  lemma SameTreatmentSame(group: set<Run>, a: Run, b: Run)
    requires TripletPasses(group) && |group| == 3 && a in group && b in group && a.treatment == b.treatment
    ensures a == b
  {
    TreatmentsSmaller(group - {a});
    assert |{Below, Reference, Above}| == 3;
    assert b in group - {a} ==> Treatments(group - {a}) == Treatments(group);
  }

  lemma GroupSize(runs: seq<Run>, key: string, planned: nat)
    requires |runs| == 3 * planned && |TripletKeys(runs)| == planned && key in TripletKeys(runs)
    requires forall k :: k in TripletKeys(runs) ==> TripletPasses(Group(runs, k))
    ensures |Group(runs, key)| == 3
  {
    hide TripletPasses;
    var group, others := Group(runs, key), TripletKeys(runs) - {key};
    TripletAtLeastThree(group);
    MembersAtLeast(runs, others);
    AtMostLength(runs);
    assert (set run | run in runs) == Members(runs, others) + group;
    assert Members(runs, others) !! group;
  }

  /** Every treatment occurs once. */
  ghost predicate OnePerTreatment(group: set<Run>) {
    && |group| == 3 && Treatments(group) == {Below, Reference, Above}
    && forall a, b :: a in group && b in group && a.treatment == b.treatment ==> a == b
  }

  /** The counts leave no room: an accepted campaign has one run per treatment in every triplet. */
  lemma AcceptedTripletsExact(
    runs: seq<Run>, resources: map<string, string>, catalog: Catalog, codec: Codec, planned: nat, key: string)
    requires CampaignPasses(runs, resources, catalog, codec, planned) && key in TripletKeys(runs)
    ensures OnePerTreatment(Group(runs, key))
  {
    hide RunPasses, Group, TripletKeys;
    var group := Group(runs, key);
    GroupSize(runs, key, planned);
    forall a, b | a in group && b in group && a.treatment == b.treatment ensures a == b {
      SameTreatmentSame(group, a, b);
    }
  }

  /** Different runs of an accepted triplet have different player budgets, by the counts alone. */
  lemma AcceptedBudgetsDiffer(
    runs: seq<Run>, resources: map<string, string>, catalog: Catalog, codec: Codec, planned: nat, a: Run, b: Run)
    requires CampaignPasses(runs, resources, catalog, codec, planned)
    requires a in runs && b in runs && a.triplet == b.triplet && a.playerBudget == b.playerBudget
    ensures a == b
  {
    hide RunPasses;
    var group := Group(runs, a.triplet);
    GroupSize(runs, a.triplet, planned);
    SameBudgetSame(group, a, b);
  }

  function Budgets(group: set<Run>): set<int> { set run | run in group :: run.playerBudget }

  lemma {:induction false} BudgetsSmaller(group: set<Run>)
    ensures |Budgets(group)| <= |group|
  {
    if group != {} {
      var run :| run in group;
      BudgetsSmaller(group - {run});
      assert Budgets(group) == Budgets(group - {run}) + {run.playerBudget};
    }
  }

  lemma SameBudgetSame(group: set<Run>, a: Run, b: Run)
    requires TripletPasses(group) && |group| == 3 && a in group && b in group && a.playerBudget == b.playerBudget
    ensures a == b
  {
    BudgetsSmaller(group - {a});
    assert Budgets(group) == set run | run in group :: run.playerBudget;
    assert b in group - {a} ==> Budgets(group - {a}) == Budgets(group);
  }

  /** An accepted campaign has the planned number of runs, one file per run, and no run key twice. */
  lemma AcceptedFiles(
    runs: seq<Run>, resources: map<string, string>, catalog: Catalog, codec: Codec, planned: nat)
    requires CampaignPasses(runs, resources, catalog, codec, planned)
    ensures |runs| == |resources| == 3 * planned
    ensures forall i, j :: 0 <= i < j < |runs| ==> runs[i].key != runs[j].key
    ensures forall key :: key in resources <==> exists run :: run in runs && run.key == key
  {
    hide RunPasses, TripletPasses;
    var keys := seq(|runs|, i requires 0 <= i < |runs| => runs[i].key);
    KeysOf(runs, keys);
    DistinctCount(keys);
    assert forall i, j :: 0 <= i < j < |runs| ==> keys[i] != keys[j];
    assert |resources| == |resources.Keys|;
  }

  lemma KeysOf(runs: seq<Run>, keys: seq<string>)
    requires |keys| == |runs| && forall i :: 0 <= i < |runs| ==> keys[i] == runs[i].key
    ensures RunKeys(runs) == set x | x in keys
  {
    forall x | x in RunKeys(runs) ensures x in keys {
      var i :| 0 <= i < |runs| && runs[i].key == x;
      assert keys[i] == x;
    }
    forall x | x in keys ensures x in RunKeys(runs) {
      var i :| 0 <= i < |keys| && keys[i] == x;
      assert runs[i] in runs;
    }
  }

  ghost predicate Fingerprints(codec: Codec) {
    forall p, q :: codec.fingerprint(p) == codec.fingerprint(q) ==> p == q
  }

  lemma SameProjection(s: Scenario, s': Scenario, k: nat, k': nat)
    requires IsControlledPlayer(s, k) && IsControlledPlayer(s', k')
    requires InvariantProjection(s) == InvariantProjection(s')
    ensures k == k' && |s.competitors| == |s'.competitors|
    ensures s' == s.(competitors := s.competitors[k := s.competitors[k].(
      budgetCap := s'.competitors[k].budgetCap,
      tuning := WithPoints(s.competitors[k].tuning, Points(s'.competitors[k].tuning)))])
  {
    assert |InvariantProjection(s).competitors| == |s.competitors| && |InvariantProjection(s').competitors| == |s'.competitors|;
    forall i | 0 <= i < |s.competitors| ensures Project(s.competitors[i]) == Project(s'.competitors[i]) {
      assert InvariantProjection(s).competitors[i] == Project(s.competitors[i]);
      assert InvariantProjection(s').competitors[i] == Project(s'.competitors[i]);
    }
    assert Project(s.competitors[k]) == Project(s'.competitors[k]);
    var c := s.competitors[k].(
      budgetCap := s'.competitors[k].budgetCap,
      tuning := WithPoints(s.competitors[k].tuning, Points(s'.competitors[k].tuning)));
    assert c == s'.competitors[k];
    assert s'.competitors == s.competitors[k := c];
  }

  /** The second scenario is the first with another balanced budget for the player. */
  ghost predicate DiffersInBudget(s: Scenario, s': Scenario, budget: int) {
    exists k: nat :: IsControlledPlayer(s, k) && s' == Treated(s, k, budget)
  }

  lemma PassingDiffer(s: Scenario, s': Scenario, a: Run, b: Run, catalog: Catalog, codec: Codec)
    requires ScenarioPasses(s, a, catalog, codec) && ScenarioPasses(s', b, catalog, codec)
    requires Fingerprints(codec) && a.invariantDigest == b.invariantDigest
    ensures DiffersInBudget(s, s', b.playerBudget)
  {
    hide InvariantProjection, OpponentPasses, BalancedPoints, OpponentsTo, UnderCap;
    var k: nat :| IsControlledPlayer(s, k) && PlayerPasses(s.competitors[k], a);
    var k': nat :| IsControlledPlayer(s', k') && PlayerPasses(s'.competitors[k'], b);
    SameProjection(s, s', k, k');
    assert s' == Treated(s, k, b.playerBudget);
  }

  /** Two runs of one triplet of an accepted campaign differ in the player's budget and balanced points alone. */
  lemma AcceptedTripletControlled(
    runs: seq<Run>, resources: map<string, string>, catalog: Catalog, codec: Codec, planned: nat, a: Run, b: Run)
    requires CampaignPasses(runs, resources, catalog, codec, planned) && Fingerprints(codec)
    requires a in runs && b in runs && a.triplet == b.triplet
    ensures RunPasses(a, resources, catalog, codec) && RunPasses(b, resources, catalog, codec)
    ensures DiffersInBudget(
      codec.parse(resources[a.resource]).value, codec.parse(resources[b.resource]).value, b.playerBudget)
  {
    hide ScenarioPasses, TripletPasses, DiffersInBudget, Fingerprints;
    OneDigest(runs, a, b);
    PassingDiffer(
      codec.parse(resources[a.resource]).value, codec.parse(resources[b.resource]).value, a, b, catalog, codec);
  }

  lemma {:induction false} SomeOpponent(s: Scenario, n: nat) returns (i: nat)
    requires n <= |s.competitors| && OpponentsTo(s, n) > 0
    ensures i < n && !s.competitors[i].isPlayer
  {
    if s.competitors[n - 1].isPlayer {
      i := SomeOpponent(s, n - 1);
    } else {
      i := n - 1;
    }
  }

  /** The shared opponents fix the reference budget, and the reference budget fixes the progression. */
  lemma PassingSameProgression(s: Scenario, s': Scenario, a: Run, b: Run, catalog: Catalog, codec: Codec)
    requires ScenarioPasses(s, a, catalog, codec) && ScenarioPasses(s', b, catalog, codec)
    requires Fingerprints(codec) && a.invariantDigest == b.invariantDigest
    ensures a.progression == b.progression && !a.progression.Unknown?
  {
    hide InvariantProjection, BalancedPoints, OpponentsTo, UnderCap, Fingerprints;
    PassingDiffer(s, s', a, b, catalog, codec);
    var i := SomeOpponent(s, |s.competitors|);
    assert s'.competitors[i] == s.competitors[i];
    assert OpponentPasses(s.competitors[i], a.referenceBudget) && OpponentPasses(s'.competitors[i], b.referenceBudget);
  }

  /** The run belongs to a progression with treatments and carries exactly its budgets. */
  ghost predicate BudgetedBy(run: Run, p: Progression) {
    && !p.Unknown? && run.progression == p
    && Some(run.referenceBudget) == Budget(p, Reference) && Some(run.playerBudget) == Budget(p, run.treatment)
  }

  lemma RunBudgets(s: Scenario, run: Run, catalog: Catalog, codec: Codec)
    requires ScenarioPasses(s, run, catalog, codec)
    ensures BudgetedBy(run, run.progression)
  {
    hide InvariantProjection, OpponentPasses, BalancedPoints, UnderCap, OpponentsTo;
  }

  /** Every triplet of an accepted campaign has one progression and exactly that progression's three budgets. */
  lemma AcceptedTripletBudgets(
    runs: seq<Run>, resources: map<string, string>, catalog: Catalog, codec: Codec, planned: nat, a: Run, b: Run)
    requires CampaignPasses(runs, resources, catalog, codec, planned) && Fingerprints(codec)
    requires a in runs && b in runs && a.triplet == b.triplet
    ensures BudgetedBy(a, a.progression) && BudgetedBy(b, a.progression)
  {
    hide TripletPasses, Fingerprints, ScenarioPasses;
    OneDigest(runs, a, b);
    RunBudgets(codec.parse(resources[a.resource]).value, a, catalog, codec);
    RunBudgets(codec.parse(resources[b.resource]).value, b, catalog, codec);
    PassingSameProgression(
      codec.parse(resources[a.resource]).value, codec.parse(resources[b.resource]).value, a, b, catalog, codec);
  }

  /** What an accepted run promises, in numbers. */
  ghost predicate RunIsSound(run: Run, s: Scenario) {
    && run.opponentBudget == run.referenceBudget && |run.playerAllocation| == 4
    && Sum(run.playerAllocation) == run.playerBudget
    && (forall k :: 0 <= k < 4 ==> run.playerAllocation[k] <= 20)
    && (forall i :: 0 <= i < |s.competitors| ==>
          var c := s.competitors[i];
          if c.isPlayer then
            && c.id == "player" && c.budgetCap == run.playerBudget
            && [c.tuning.aero, c.tuning.chassis, c.tuning.cooling, c.tuning.engine] == run.playerAllocation
          else
            && c.budgetCap == run.referenceBudget
            && c.tuning.aero + c.tuning.chassis + c.tuning.cooling + c.tuning.engine == run.referenceBudget
            && c.tuning.aero <= 20 && c.tuning.chassis <= 20 && c.tuning.cooling <= 20 && c.tuning.engine <= 20)
  }

  /** An accepted run has an intact file whose scenario names the catalog's model and data pack and is sound. */
  lemma AcceptedRunSound(run: Run, resources: map<string, string>, catalog: Catalog, codec: Codec)
    requires RunPasses(run, resources, catalog, codec)
    ensures run.resource in resources && codec.sha256(resources[run.resource]) == run.digest
    ensures codec.parse(resources[run.resource]).Some?
    ensures var s := codec.parse(resources[run.resource]).value;
      && s.identity == "racing.budget-effect-campaign 2.0.0" && s.model == catalog.model && s.dataPack == catalog.dataPack
      && RunIsSound(run, s) && codec.fingerprint(InvariantProjection(s)) == run.invariantDigest
  {
    hide InvariantProjection, BalancedPoints, OpponentsTo, Sum;
    var s := codec.parse(resources[run.resource]).value;
    BalancedTotal(4, run.playerBudget);
    forall i | 0 <= i < |s.competitors| ensures
      var t := s.competitors[i].tuning; Sum(Points(t)) == t.aero + t.chassis + t.cooling + t.engine
    {
      SumOfFour(Points(s.competitors[i].tuning));
    }
  }

  lemma OneDigest(runs: seq<Run>, a: Run, b: Run)
    requires a in runs && b in runs && a.triplet == b.triplet && TripletPasses(Group(runs, a.triplet))
    ensures a.invariantDigest == b.invariantDigest
  {
    var digests := set run | run in Group(runs, a.triplet) :: run.invariantDigest;
    assert a.invariantDigest in digests && b.invariantDigest in digests;
    if a.invariantDigest != b.invariantDigest {
      Pair(digests, a.invariantDigest, b.invariantDigest);
    }
  }

  lemma Pair<T>(s: set<T>, a: T, b: T)
    requires a in s && b in s && a != b
    ensures |s| >= 2
  {
    assert {a, b} <= s;
    SubsetSmaller({a, b}, s);
  }

  // ----- The manifest around the runs -----

  datatype Stored = Stored(key: string, progression: Progression, data: string, digest: string, rest: string)

  /** A stored source scenario, unless its bytes changed or do not parse. */
  function Loaded(stored: Stored, codec: Codec): Option<Source> {
    if codec.sha256(stored.data) != stored.digest then None else
      match codec.parse(stored.data)
      case None => None
      case Some(scenario) => Some(Source(stored.key, stored.progression, scenario, stored.digest, stored.rest))
  }

  datatype MatrixRow = MatrixRow(progression: Progression, playerBudget: Option<int>, referenceBudget: Option<int>, rest: string)

  /** The header: fixed texts and governance flags, provenance, the progression matrix and the planned counts. */
  datatype Header = Header(
    fixed: seq<string>, governance: seq<bool>, sourceDigest: string, matrix: seq<MatrixRow>, triplets: nat, runs: nat)

  const FIXED := [
    "pitgun.budget-effect-campaign/v2", "racing-budget-effect-2026-v2",
    "sha256:1e5a082ff05b8c66d43ad0d69306af608c2b9fd4253a4d479d3c0f9c03daf23c",
    "player.development_budget_and_balanced_point_allocation",
    "neutral", "balanced-one-stop", "deterministic-balanced-four-axis",
    "source-relative-largest-remainder-with-integer-quantization"]

  ghost predicate MatrixBuildable(matrix: seq<MatrixRow>) {
    forall i :: 0 <= i < |matrix| ==> matrix[i].playerBudget.Some? && !matrix[i].progression.Unknown?
  }

  /** A row without its player budget and with the reference budget of its progression. */
  function Backed(row: MatrixRow): (r: MatrixRow)
    ensures r.progression == row.progression && r.rest == row.rest && r.playerBudget.None?
    ensures r.referenceBudget == Budget(row.progression, Reference)
  {
    row.(playerBudget := None, referenceBudget := Budget(row.progression, Reference))
  }

  method EconomyBackedMatrix(matrix: seq<MatrixRow>) returns (r: Result<seq<MatrixRow>>)
    ensures r.Ok? <==> MatrixBuildable(matrix)
    ensures r.Ok? ==> |r.value| == |matrix| && forall i :: 0 <= i < |matrix| ==>
      r.value[i] == Backed(matrix[i])
  {
    var rows: seq<MatrixRow> := [];
    for i := 0 to |matrix|
      invariant |rows| == i
      invariant forall k :: 0 <= k < i ==>
        && matrix[k].playerBudget.Some? && !matrix[k].progression.Unknown?
        && rows[k] == Backed(matrix[k])
    {
      if matrix[i].playerBudget.None? || matrix[i].progression.Unknown? {
        return Err("unknown progression or missing player budget");
      }
      rows := rows + [Backed(matrix[i])];
    }
    r := Ok(rows);
  }

  function Progressions(matrix: seq<MatrixRow>): set<Progression> { set row | row in matrix :: row.progression }

  predicate HeaderPasses(header: Header, sourceDigest: string, planned: nat) {
    && header.fixed == FIXED && header.governance == [false, false, false] && header.sourceDigest == sourceDigest
    && header.triplets == planned && header.runs == 3 * planned
    && |header.matrix| == 3 && Progressions(header.matrix) == {Early, Mid, Late}
    && forall i :: 0 <= i < |header.matrix| ==>
         header.matrix[i].playerBudget.None? && header.matrix[i].referenceBudget == Budget(header.matrix[i].progression, Reference)
  }

  /** One row per progression. */
  predicate MatrixFits(matrix: seq<MatrixRow>) { |matrix| == 3 && Progressions(matrix) == {Early, Mid, Late} }

  /** The planned file names. */
  function PlannedKeys(sources: seq<Source>): set<string> {
    set i, t | 0 <= i < |sources| && t in {Below, Reference, Above} :: RunKey(sources[i].key, t)
  }

  lemma BuiltRunKeys(
    sources: seq<Source>, bases: seq<(Scenario, nat)>, runs: seq<Run>, resources: map<string, string>, codec: Codec)
    requires Built(sources, bases, runs, resources, codec)
    ensures RunKeys(runs) == PlannedKeys(sources)
  {
    hide Built, RunKey;
    forall key | key in RunKeys(runs) ensures key in PlannedKeys(sources) {
      var r :| 0 <= r < |runs| && runs[r].key == key;
      BuiltAt(sources, bases, runs, resources, codec, r);
    }
    forall i, t | 0 <= i < |sources| && t in {Below, Reference, Above} ensures RunKey(sources[i].key, t) in RunKeys(runs) {
      PlannedKeyBuilt(sources, bases, runs, resources, codec, i, t);
    }
  }

  lemma PlannedKeyBuilt(
    sources: seq<Source>, bases: seq<(Scenario, nat)>, runs: seq<Run>, resources: map<string, string>, codec: Codec,
    i: nat, t: Treatment)
    requires Built(sources, bases, runs, resources, codec) && i < |sources|
    ensures RunKey(sources[i].key, t) in RunKeys(runs)
  {
    hide Built, RunKey;
    var j := if t == Below then 0 else if t == Reference then 1 else 2;
    BuiltLength(sources, bases, runs, resources, codec);
    BuiltAt(sources, bases, runs, resources, codec, 3 * i + j);
    assert runs[3 * i + j] in runs;
  }

  lemma BuiltLength(
    sources: seq<Source>, bases: seq<(Scenario, nat)>, runs: seq<Run>, resources: map<string, string>, codec: Codec)
    requires Built(sources, bases, runs, resources, codec)
    ensures |runs| == 3 * |sources| && resources.Keys == RunKeys(runs)
  {
    hide BuiltTriplet;
  }

  /** Stored sources in key order, the source campaign's matrix and digest, and the planned number of triplets. */
  datatype Plan = Plan(stored: seq<Stored>, matrix: seq<MatrixRow>, sourceDigest: string, triplets: nat)

  /** The header written for a plan with this many runs. */
  ghost predicate HeaderFrom(header: Header, plan: Plan, runs: nat) {
    && header.fixed == FIXED && header.governance == [false, false, false] && header.sourceDigest == plan.sourceDigest
    && header.triplets == plan.triplets && header.runs == runs
    && |header.matrix| == |plan.matrix| && forall i :: 0 <= i < |plan.matrix| ==> header.matrix[i] == Backed(plan.matrix[i])
  }

  ghost predicate IsLoaded(plan: Plan, sources: seq<Source>, codec: Codec) {
    |sources| == |plan.stored| && forall i :: 0 <= i < |sources| ==> Loaded(plan.stored[i], codec) == Some(sources[i])
  }

  ghost predicate AllBuildable(sources: seq<Source>) {
    forall i :: 0 <= i < |sources| ==> !sources[i].progression.Unknown? && Buildable(sources[i].scenario)
  }

  /** What the builder accepts: intact sources that build, no foreign file in the directory, a usable matrix. */
  ghost predicate PlanBuildable(plan: Plan, directory: map<string, string>, codec: Codec) {
    exists sources ::
      && IsLoaded(plan, sources, codec) && AllBuildable(sources)
      && directory.Keys <= PlannedKeys(sources) && MatrixBuildable(plan.matrix)
  }

  lemma LoadedUnique(plan: Plan, a: seq<Source>, b: seq<Source>, codec: Codec)
    requires IsLoaded(plan, a, codec) && IsLoaded(plan, b, codec)
    ensures a == b
  {
    forall i | 0 <= i < |a| ensures a[i] == b[i] {
      assert Some(a[i]) == Some(b[i]);
    }
  }

  method LoadSources(plan: Plan, codec: Codec) returns (r: Result<seq<Source>>)
    ensures r.Ok? ==> IsLoaded(plan, r.value, codec)
    ensures r.Err? ==> forall sources :: !IsLoaded(plan, sources, codec)
  {
    var sources: seq<Source> := [];
    for i := 0 to |plan.stored|
      invariant |sources| == i
      invariant forall k :: 0 <= k < i ==> Loaded(plan.stored[k], codec) == Some(sources[k])
    {
      var source := Loaded(plan.stored[i], codec);
      if source.None? {
        return Err("source resource changed");
      }
      sources := sources + [source.value];
    }
    r := Ok(sources);
  }

  // ----- What the records say, field by field -----

  /** A treated player: the new name, the recorded budget and points, nothing else. */
  ghost predicate PlayerFrom(c: Competitor, o: Competitor, run: Run) {
    && |run.playerAllocation| == 4
    && c == o.(name := "Economy-backed Development Reference", budgetCap := run.playerBudget,
               tuning := o.tuning.(aero := run.playerAllocation[0], chassis := run.playerAllocation[1],
                                   cooling := run.playerAllocation[2], engine := run.playerAllocation[3]))
  }

  /** The rounded share of a weight: less than one point off the exact share. */
  ghost predicate Rounded(points: int, weight: int, total: int, budget: int) {
    -total < total * points - budget * weight < total
  }

  /** A normalized opponent: the reference total, every axis within a point of its share, ties to the earlier axis. */
  ghost predicate OpponentFrom(c: Competitor, o: Competitor, reference: int) {
    var t, u := c.tuning, o.tuning;
    var total := u.aero + u.chassis + u.cooling + u.engine;
    && c == o.(budgetCap := reference,
               tuning := u.(aero := t.aero, chassis := t.chassis, cooling := t.cooling, engine := t.engine))
    && t.aero + t.chassis + t.cooling + t.engine == reference
    && Rounded(t.aero, u.aero, total, reference) && Rounded(t.chassis, u.chassis, total, reference)
    && Rounded(t.cooling, u.cooling, total, reference) && Rounded(t.engine, u.engine, total, reference)
    && (u.aero == u.chassis ==> t.aero >= t.chassis) && (u.chassis == u.cooling ==> t.chassis >= t.cooling)
    && (u.cooling == u.engine ==> t.cooling >= t.engine)
  }

  /** The scenario of a run, from the scenario it was made of. */
  ghost predicate ScenarioFrom(s: Scenario, o: Scenario, run: Run) {
    && |s.competitors| == |o.competitors|
    && s == o.(identity := "racing.budget-effect-campaign 2.0.0", competitors := s.competitors)
    && forall i :: 0 <= i < |s.competitors| ==>
         if o.competitors[i].isPlayer then PlayerFrom(s.competitors[i], o.competitors[i], run)
         else OpponentFrom(s.competitors[i], o.competitors[i], run.referenceBudget)
  }

  /** Budgets of the k-th run of a progression: below, at and above the reference. */
  ghost predicate BudgetsAt(p: Progression, k: nat, reference: int, player: int) {
    && (p == Early ==> reference == 4 && player == 3 + k)
    && (p == Mid ==> reference == 27 && player == 24 + 3 * k)
    && (p == Late ==> reference == 37 && player == 33 + 4 * k)
  }

  /** The record of the k-th run of a stored source and of the scenario file written for it. */
  ghost predicate Records(run: Run, stored: Stored, k: nat, file: string, codec: Codec) {
    && k < 3 && run.treatment == [Below, Reference, Above][k]
    && run.key == "budget-effect-v2-" + stored.key + "--" + ["below", "reference", "above"][k]
    && run.resource == run.key && run.triplet == stored.key
    && run.progression == stored.progression && run.rest == stored.rest
    && run.sourceDigest == codec.sha256(stored.data) && run.digest == codec.sha256(file)
    && BudgetsAt(run.progression, k, run.referenceBudget, run.playerBudget)
    && run.opponentBudget == run.referenceBudget
    && |run.playerAllocation| == 4 && Sum(run.playerAllocation) == run.playerBudget
    && (var a := run.playerAllocation; a[0] >= a[1] >= a[2] >= a[3] >= a[0] - 1)
    && codec.parse(stored.data).Some?
    && exists s :: file == codec.encode(s) && ScenarioFrom(s, codec.parse(stored.data).value, run)
                   && codec.fingerprint(InvariantProjection(s)) == run.invariantDigest
  }

  lemma SharesRounded(weights: seq<int>, budget: int, p: seq<int>, i: nat)
    requires Sum(weights) > 0 && Hamilton(weights, budget, p) && i < |weights|
    ensures |p| == |weights| && Rounded(p[i], weights[i], Sum(weights), budget)
  {
    var t, n := Sum(weights), budget * weights[i];
    Integers.DivMod(n, t);
    if p[i] == n / t + 1 {
      Integers.Distribute(t, n / t, 1);
      if n % t == 0 {
        ExactShareKept(weights, budget, p, i);
      }
    }
  }

  lemma NormalizedFrom(c: Competitor, c': Competitor, reference: int)
    requires Normalized(c, c', reference)
    ensures OpponentFrom(c', c, reference)
  {
    hide Hamilton, Rounded;
    var w, p := Points(c.tuning), Points(c'.tuning);
    HamiltonLength(w, reference, p);
    SumOfFour(w);
    SumOfFour(p);
    SharesRounded(w, reference, p, 0);
    SharesRounded(w, reference, p, 1);
    SharesRounded(w, reference, p, 2);
    SharesRounded(w, reference, p, 3);
    TiesToEarlier(w, reference, p);
  }

  lemma TiesToEarlier(w: seq<int>, budget: int, p: seq<int>)
    requires |w| == 4 && Sum(w) > 0 && Hamilton(w, budget, p)
    ensures |p| == 4
    ensures (w[0] == w[1] ==> p[0] >= p[1]) && (w[1] == w[2] ==> p[1] >= p[2]) && (w[2] == w[3] ==> p[2] >= p[3])
  {
    hide Hamilton;
    HamiltonLength(w, budget, p);
    forall i | 0 <= i < 3 ensures w[i] == w[i + 1] ==> p[i] >= p[i + 1] {
      if w[i] == w[i + 1] {
        EqualWeightsClose(w, budget, p, i, i + 1);
      }
    }
  }

  lemma TreatedFrom(source: Scenario, reference: int, base: Scenario, player: nat, run: Run)
    requires Prepared(source, reference, base, player) && run.referenceBudget == reference
    requires run.playerAllocation == BalancedPoints(4, run.playerBudget)
    ensures ScenarioFrom(Treated(base, player, run.playerBudget), source, run)
  {
    hide Hamilton, OpponentFrom, BalancedPoints;
    var s := Treated(base, player, run.playerBudget);
    AllocationLength(run.playerBudget);
    forall i | 0 <= i < |s.competitors|
      ensures if source.competitors[i].isPlayer then PlayerFrom(s.competitors[i], source.competitors[i], run)
              else OpponentFrom(s.competitors[i], source.competitors[i], reference)
    {
      if i != player {
        NormalizedFrom(source.competitors[i], base.competitors[i], reference);
        assert !source.competitors[i].isPlayer;
      }
    }
  }

  lemma AllocationLength(budget: int)
    ensures |BalancedPoints(4, budget)| == 4
    ensures var a := BalancedPoints(4, budget); a[0] >= a[1] >= a[2] >= a[3] >= a[0] - 1
  {
  }

  lemma BudgetTable(p: Progression, k: nat)
    requires !p.Unknown? && k < 3
    ensures BudgetsAt(p, k, Budget(p, Reference).value, Budget(p, TreatmentAt(k)).value)
    ensures TreatmentAt(k) == [Below, Reference, Above][k]
    ensures TreatmentName(TreatmentAt(k)) == ["below", "reference", "above"][k]
  {
  }

  lemma RunRecords(
    stored: Stored, source: Source, base: (Scenario, nat), run: Run, resources: map<string, string>, codec: Codec, k: nat)
    requires k < 3 && Loaded(stored, codec) == Some(source)
    requires BuiltRun(source, base, TreatmentAt(k), run, resources, codec)
    requires Prepared(source.scenario, Budget(source.progression, Reference).value, base.0, base.1)
    ensures Records(run, stored, k, resources[run.key], codec)
  {
    hide Prepared, Treated, InvariantProjection, BalancedPoints, ScenarioFrom, Sum, Budget, TreatmentName;
    var s := Treated(base.0, base.1, run.playerBudget);
    BudgetTable(source.progression, k);
    AllocationLength(run.playerBudget);
    BalancedTotal(4, run.playerBudget);
    TreatedFrom(source.scenario, run.referenceBudget, base.0, base.1, run);
    PreparedPlayer(source.scenario, run.referenceBudget, base.0, base.1);
    TripletControlled(base.0, base.1, run.playerBudget, run.playerBudget);
    assert resources[run.key] == codec.encode(s);
  }

  /** Every run of a built manifest records its stored source, and its file holds the scenario made of it. */
  ghost predicate AllRecord(plan: Plan, runs: seq<Run>, files: map<string, string>, codec: Codec) {
    && |runs| == 3 * |plan.stored|
    && forall r :: 0 <= r < |runs| ==>
         runs[r].key in files && Records(runs[r], plan.stored[r / 3], r % 3, files[runs[r].key], codec)
  }

  lemma BuiltRecords(
    plan: Plan, sources: seq<Source>, bases: seq<(Scenario, nat)>, runs: seq<Run>, files: map<string, string>, codec: Codec)
    requires IsLoaded(plan, sources, codec) && Built(sources, bases, runs, files, codec)
    ensures AllRecord(plan, runs, files, codec)
  {
    hide BuiltTriplet, Records, Loaded;
    BuiltLength(sources, bases, runs, files, codec);
    forall r | 0 <= r < |runs|
      ensures runs[r].key in files && Records(runs[r], plan.stored[r / 3], r % 3, files[runs[r].key], codec)
    {
      var i := r / 3;
      assert runs[3 * i..3 * i + 3][r % 3] == runs[r];
      TripletRecords(plan.stored[i], sources[i], bases[i], runs[3 * i..3 * i + 3], files, codec, r % 3);
    }
  }

  lemma TripletRecords(
    stored: Stored, source: Source, base: (Scenario, nat), runs: seq<Run>, files: map<string, string>, codec: Codec, k: nat)
    requires k < 3 && Loaded(stored, codec) == Some(source) && BuiltTriplet(source, base, runs, files, codec)
    ensures runs[k].key in files && Records(runs[k], stored, k, files[runs[k].key], codec)
  {
    hide Prepared, BuiltRun, Records, Loaded;
    BuiltKey(source, base, runs, files, codec, k);
    RunRecords(stored, source, base, runs[k], files, codec, k);
  }

  /** The manifest and the scenario directory the builder leaves. */
  method BuildManifest(plan: Plan, directory: map<string, string>, codec: Codec)
    returns (r: Result<(Header, seq<Run>, map<string, string>)>, ghost sources: seq<Source>, ghost bases: seq<(Scenario, nat)>)
    requires forall i, j :: 0 <= i < j < |plan.stored| ==> plan.stored[i].key != plan.stored[j].key
    ensures r.Ok? <==> PlanBuildable(plan, directory, codec)
    ensures r.Ok? ==>
      && IsLoaded(plan, sources, codec) && DistinctKeys(sources)
      && Built(sources, bases, r.value.1, r.value.2, codec)
    ensures r.Ok? ==> AllRecord(plan, r.value.1, r.value.2, codec)
    ensures r.Ok? ==> HeaderFrom(r.value.0, plan, |r.value.1|)
  {
    hide AllRecord, Built, Buildable, RunKey, MatrixBuildable, Loaded;
    bases := [];
    var loaded := LoadSources(plan, codec);
    if loaded.Err? {
      return Err(loaded.error), [], [];
    }
    sources := loaded.value;
    KeysLoaded(plan, sources, codec);
    assert forall others :: IsLoaded(plan, others, codec) ==> others == sources by {
      forall others | IsLoaded(plan, others, codec) ensures others == sources {
        LoadedUnique(plan, others, sources, codec);
      }
    }
    var built;
    built, bases := BuildRuns(loaded.value, codec);
    if built.Err? {
      return Err(built.error), sources, bases;
    }
    var runs, written := built.value.0, built.value.1;
    BuiltLength(sources, bases, runs, written, codec);
    BuiltRunKeys(sources, bases, runs, written, codec);
    if !(directory.Keys <= written.Keys) {
      return Err("unplanned V2 budget scenarios"), sources, bases;
    }
    assert directory + written == written;
    BuiltRecords(plan, sources, bases, runs, written, codec);
    var matrix := EconomyBackedMatrix(plan.matrix);
    if matrix.Err? {
      return Err(matrix.error), sources, bases;
    }
    r := Ok((Header(FIXED, [false, false, false], plan.sourceDigest, matrix.value, plan.triplets, |runs|), runs, directory + written));
  }

  lemma KeysLoaded(plan: Plan, sources: seq<Source>, codec: Codec)
    requires IsLoaded(plan, sources, codec)
    requires forall i, j :: 0 <= i < j < |plan.stored| ==> plan.stored[i].key != plan.stored[j].key
    ensures DistinctKeys(sources)
  {
    forall i | 0 <= i < |sources| ensures sources[i].key == plan.stored[i].key {
      assert Loaded(plan.stored[i], codec) == Some(sources[i]);
    }
  }

  method CheckHeader(header: Header, sourceDigest: string, planned: nat) returns (ok: bool)
    ensures ok <==> HeaderPasses(header, sourceDigest, planned)
  {
    if header.fixed != FIXED || header.triplets != planned || header.runs != 3 * planned {
      return false;
    }
    if header.sourceDigest != sourceDigest || |header.matrix| != 3 {
      return false;
    }
    if (set row | row in header.matrix :: row.progression) != {Early, Mid, Late} {
      return false;
    }
    for i := 0 to |header.matrix|
      invariant forall k :: 0 <= k < i ==>
        header.matrix[k].playerBudget.None? && header.matrix[k].referenceBudget == Budget(header.matrix[k].progression, Reference)
    {
      var row := header.matrix[i];
      if row.playerBudget.Some? || row.referenceBudget != Budget(row.progression, Reference) {
        return false;
      }
    }
    ok := header.governance == [false, false, false];
  }

  method ValidateManifest(
    header: Header, runs: seq<Run>, resources: map<string, string>, sourceDigest: string, catalog: Catalog, codec: Codec,
    planned: nat) returns (ok: bool)
    ensures ok <==> HeaderPasses(header, sourceDigest, planned) && CampaignPasses(runs, resources, catalog, codec, planned)
  {
    hide CampaignPasses, HeaderPasses;
    ok := CheckHeader(header, sourceDigest, planned);
    if ok {
      ok := CheckCampaign(runs, resources, catalog, codec, planned);
    }
  }

  /** The checker accepts the builder's own manifest exactly when the matrix, the count and every source fit. */
  lemma BuiltManifestPasses(
    plan: Plan, header: Header, sources: seq<Source>, bases: seq<(Scenario, nat)>, runs: seq<Run>,
    resources: map<string, string>, codec: Codec, catalog: Catalog)
    requires Lossless(codec) && IsLoaded(plan, sources, codec) && DistinctKeys(sources)
    requires Built(sources, bases, runs, resources, codec)
    requires HeaderFrom(header, plan, |runs|)
    ensures
      HeaderPasses(header, plan.sourceDigest, plan.triplets) && CampaignPasses(runs, resources, catalog, codec, plan.triplets) <==>
      && |plan.stored| == plan.triplets && MatrixFits(plan.matrix)
      && forall i :: 0 <= i < |sources| ==> SourceFits(sources[i], catalog)
  {
    hide Built, SourceFits, IsLoaded, HeaderFrom, HeaderPasses, CampaignPasses, MatrixFits;
    BuiltLength(sources, bases, runs, resources, codec);
    BuiltCampaignPasses(sources, bases, runs, resources, codec, catalog);
    LoadedLength(plan, sources, codec);
    HeaderPassesIff(header, plan, |runs|);
  }

  lemma HeaderPassesIff(header: Header, plan: Plan, runs: nat)
    requires HeaderFrom(header, plan, runs)
    ensures HeaderPasses(header, plan.sourceDigest, plan.triplets) <==> runs == 3 * plan.triplets && MatrixFits(plan.matrix)
  {
    hide Budget, Progressions;
    SameProgressions(header.matrix, plan.matrix);
  }

  lemma LoadedLength(plan: Plan, sources: seq<Source>, codec: Codec)
    requires IsLoaded(plan, sources, codec)
    ensures |sources| == |plan.stored|
  {
  }

  lemma SameProgressions(a: seq<MatrixRow>, b: seq<MatrixRow>)
    requires |a| == |b| && forall i :: 0 <= i < |a| ==> a[i].progression == b[i].progression
    ensures Progressions(a) == Progressions(b)
  {
    forall p | p in Progressions(a) ensures p in Progressions(b) {
      var i :| 0 <= i < |a| && a[i].progression == p;
      assert b[i] in b;
    }
    forall p | p in Progressions(b) ensures p in Progressions(a) {
      var i :| 0 <= i < |b| && b[i].progression == p;
      assert a[i] in a;
    }
  }
}
