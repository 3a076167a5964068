/**
 Coefficient screening (experiments/racing_response/coefficient_screening.py): probes run on a thread
 pool, results arrive in any completion order, and the report is sorted, summarized and ranked.
 A probe is a function of its inputs; a failing probe aborts the report.
 */
module Screening {
  import opened Counting
  import opened Filtering
  import opened Ordering
  import opened Results
  import opened Sums

  datatype Candidate = Candidate(id: string, downforceGain: real, dragGain: real)
  datatype Work = Work(id: string, circuit: nat, downforce: nat, gearing: nat)
  datatype Measurement = Measurement(
    totalTime: int, maximumSpeed: real, cornerSpeed: real, dragWork: real, meanDownforce: real)
  datatype Point = Point(work: Work, result: Measurement)

  type Probe = Work -> Result<Measurement>
  type Simulation = (Candidate, nat, nat, nat) -> Result<Measurement>

  // ----- Response files -----

  /** One response file per candidate id, written before any probe starts; a later candidate overwrites it. */
  function Responses(candidates: seq<Candidate>): map<string, Candidate> {
    if candidates == [] then map[] else
      var last := candidates[|candidates| - 1];
      Responses(candidates[..|candidates| - 1])[last.id := last]
  }

  /** A probe sees the candidate only through the response file of its id. */
  function ProbeWith(files: map<string, Candidate>, simulate: Simulation): Probe {
    (w: Work) =>
      if w.id in files then simulate(files[w.id], w.circuit, w.downforce, w.gearing) else Err("missing response")
  }

  lemma {:induction false} ResponsesAre(candidates: seq<Candidate>, i: nat)
    requires i < |candidates|
    ensures candidates[i].id in Responses(candidates)
    ensures DistinctIds(candidates) ==> Responses(candidates)[candidates[i].id] == candidates[i]
  {
    var front, last := candidates[..|candidates| - 1], candidates[|candidates| - 1];
    if i < |front| {
      ResponsesAre(front, i);
      assert front[i] == candidates[i];
      assert DistinctIds(candidates) ==> DistinctIds(front) && candidates[i].id != last.id;
    }
  }

  /** With distinct ids every candidate is simulated with its own coefficients. */
  lemma OwnResponse(candidates: seq<Candidate>, simulate: Simulation, i: nat, circuit: nat, downforce: nat, gearing: nat)
    requires DistinctIds(candidates) && i < |candidates|
    ensures ProbeWith(Responses(candidates), simulate)(Work(candidates[i].id, circuit, downforce, gearing))
         == simulate(candidates[i], circuit, downforce, gearing)
  {
    ResponsesAre(candidates, i);
  }

  // ----- The plan -----

  function GearingWork(id: string, circuit: nat, downforce: nat, n: nat): seq<Work> {
    if n == 0 then [] else GearingWork(id, circuit, downforce, n - 1) + [Work(id, circuit, downforce, n - 1)]
  }

  function DownforceWork(id: string, circuit: nat, levels: nat, n: nat): seq<Work> {
    if n == 0 then [] else DownforceWork(id, circuit, levels, n - 1) + GearingWork(id, circuit, n - 1, levels)
  }

  function CircuitWork(id: string, levels: nat, n: nat): seq<Work> {
    if n == 0 then [] else CircuitWork(id, levels, n - 1) + DownforceWork(id, n - 1, levels, levels)
  }

  /** All combinations, in the nesting order of the four loops. */
  function PlanTo(candidates: seq<Candidate>, circuits: nat, levels: nat, n: nat): seq<Work>
    requires n <= |candidates|
  {
    if n == 0 then [] else PlanTo(candidates, circuits, levels, n - 1) + CircuitWork(candidates[n - 1].id, levels, circuits)
  }

  function Plan(candidates: seq<Candidate>, circuits: nat, levels: nat): seq<Work> {
    PlanTo(candidates, circuits, levels, |candidates|)
  }

  lemma {:induction false} GearingWorkIs(id: string, circuit: nat, downforce: nat, n: nat)
    ensures |GearingWork(id, circuit, downforce, n)| == n
    ensures forall w :: w in GearingWork(id, circuit, downforce, n) <==>
      w.id == id && w.circuit == circuit && w.downforce == downforce && w.gearing < n
  {
    if n > 0 {
      GearingWorkIs(id, circuit, downforce, n - 1);
    }
  }

  lemma {:induction false} DownforceWorkIs(id: string, circuit: nat, levels: nat, n: nat)
    ensures |DownforceWork(id, circuit, levels, n)| == levels * n
    ensures forall w :: w in DownforceWork(id, circuit, levels, n) <==>
      w.id == id && w.circuit == circuit && w.downforce < n && w.gearing < levels
  {
    hide GearingWork;
    if n > 0 {
      DownforceWorkIs(id, circuit, levels, n - 1);
      GearingWorkIs(id, circuit, n - 1, levels);
      MulNext(levels, n - 1);
    }
  }

  lemma {:induction false} CircuitWorkIs(id: string, levels: nat, n: nat)
    ensures |CircuitWork(id, levels, n)| == (levels * levels) * n
    ensures forall w :: w in CircuitWork(id, levels, n) <==>
      w.id == id && w.circuit < n && w.downforce < levels && w.gearing < levels
  {
    hide DownforceWork;
    if n > 0 {
      CircuitWorkIs(id, levels, n - 1);
      DownforceWorkIs(id, n - 1, levels, levels);
      MulNext(levels * levels, n - 1);
    }
  }

  lemma MulNext(x: int, n: int)
    ensures x * (n + 1) == x * n + x
  {
  }

  function Ids(candidates: seq<Candidate>): seq<string> {
    seq(|candidates|, i requires 0 <= i < |candidates| => candidates[i].id)
  }

  lemma {:induction false} PlanMembers(candidates: seq<Candidate>, circuits: nat, levels: nat, n: nat, w: Work)
    requires n <= |candidates|
    ensures w in PlanTo(candidates, circuits, levels, n) <==>
      w.id in Ids(candidates)[..n] && w.circuit < circuits && w.downforce < levels && w.gearing < levels
  {
    hide CircuitWork;
    if n > 0 {
      PlanMembers(candidates, circuits, levels, n - 1, w);
      CircuitWorkIs(candidates[n - 1].id, levels, circuits);
      assert Ids(candidates)[..n] == Ids(candidates)[..n - 1] + [candidates[n - 1].id];
    }
  }

  ghost predicate DistinctIds(candidates: seq<Candidate>) {
    forall i, j :: 0 <= i < j < |candidates| ==> candidates[i].id != candidates[j].id
  }

  // ----- Running the plan -----

  function Measured(work: seq<Work>, probe: Probe): seq<Point>
    requires forall w :: w in work ==> probe(w).Ok?
  {
    if work == [] then [] else [Point(work[0], probe(work[0]).value)] + Measured(work[1..], probe)
  }

  lemma {:induction false} MeasuredMembers(work: seq<Work>, probe: Probe)
    requires forall w :: w in work ==> probe(w).Ok?
    ensures forall p :: p in Measured(work, probe) <==> p.work in work && p.result == probe(p.work).value
  {
    if work != [] {
      MeasuredMembers(work[1..], probe);
      assert work == [work[0]] + work[1..];
    }
  }

  lemma {:induction false} MeasuredCount(work: seq<Work>, probe: Probe, p: Point)
    requires forall w :: w in work ==> probe(w).Ok?
    ensures multiset(Measured(work, probe))[p] ==
      if p.work in work && p.result == probe(p.work).value then multiset(work)[p.work] else 0
  {
    if work != [] {
      MeasuredCount(work[1..], probe, p);
      assert work == [work[0]] + work[1..];
    }
  }

  /** Tuple order of (candidate id, circuit, downforce, gearing). */
  predicate PointLe(a: Point, b: Point) {
    var v, w := a.work, b.work;
    if v.id != w.id then StringLe(v.id, w.id)
    else if v.circuit != w.circuit then v.circuit < w.circuit
    else if v.downforce != w.downforce then v.downforce < w.downforce
    else v.gearing <= w.gearing
  }

  lemma PointLeTransitive(a: Point, b: Point, c: Point)
    requires PointLe(a, b) && PointLe(b, c)
    ensures PointLe(a, c)
  {
    var x, y, z := a.work.id, b.work.id, c.work.id;
    if x != y && y != z {
      StringLeTransitive(x, y, z);
      StringLeTotal(x, y);
    }
  }

  lemma PointLeTotal()
    ensures TotalPreorder(PointLe)
  {
    forall a: Point, b: Point ensures PointLe(a, b) || PointLe(b, a) {
      StringLeTotal(a.work.id, b.work.id);
    }
    forall a: Point, b: Point, c: Point | PointLe(a, b) && PointLe(b, c) ensures PointLe(a, c) {
      PointLeTransitive(a, b, c);
    }
  }

  /** The sort key holds all a probe depends on, so points of one probe that tie are equal. */
  lemma KeyInjective(a: Point, b: Point, probe: Probe)
    requires probe(a.work) == Ok(a.result) && probe(b.work) == Ok(b.result)
    requires PointLe(a, b) && PointLe(b, a)
    ensures a == b
  {
    StringLeTotal(a.work.id, b.work.id);
  }

  /**
   The pool: any pending probe may complete next, and the first failure aborts. Whatever the schedule,
   the sorted points are those of running the plan in sequence.
   */
  method CollectPoints(candidates: seq<Candidate>, circuits: nat, levels: nat, probe: Probe)
    returns (r: Result<seq<Point>>)
    ensures r.Ok? <==> forall w :: w in Plan(candidates, circuits, levels) ==> probe(w).Ok?
    ensures r.Ok? ==> r.value == Sort(Measured(Plan(candidates, circuits, levels), probe), PointLe)
  {
    hide PlanTo;
    var work := Plan(candidates, circuits, levels);
    var pending := multiset(work);
    var points: seq<Point> := [];
    ghost var finished: seq<Work> := [];
    while pending != multiset{}
      invariant multiset(finished) + pending == multiset(work)
      invariant forall w :: w in finished ==> probe(w).Ok?
      invariant points == Measured(finished, probe)
      decreases |pending|
    {
      var w :| w in pending;
      assert w in multiset(work);
      var outcome := probe(w);
      if outcome.Err? {
        return Err(outcome.error);
      }
      MeasuredAppend(finished, w, probe);
      points := points + [Point(w, outcome.value)];
      finished := finished + [w];
      pending := pending - multiset{w};
    }
    SameMembers(finished, work);
    ScheduleFree(candidates, circuits, levels, finished, probe);
    r := Ok(Sort(points, PointLe));
  }

  lemma {:induction false} MeasuredAppend(work: seq<Work>, w: Work, probe: Probe)
    requires forall v :: v in work ==> probe(v).Ok?
    requires probe(w).Ok?
    ensures Measured(work + [w], probe) == Measured(work, probe) + [Point(w, probe(w).value)]
  {
    if work != [] {
      MeasuredAppend(work[1..], w, probe);
      assert (work + [w])[1..] == work[1..] + [w];
    }
  }

  /** Confluence: every completion order of the plan sorts to the same points. */
  lemma ScheduleFree(candidates: seq<Candidate>, circuits: nat, levels: nat, finished: seq<Work>, probe: Probe)
    requires multiset(finished) == multiset(Plan(candidates, circuits, levels))
    requires forall w :: w in Plan(candidates, circuits, levels) ==> probe(w).Ok?
    requires forall w :: w in finished ==> probe(w).Ok?
    ensures Sort(Measured(finished, probe), PointLe) == Sort(Measured(Plan(candidates, circuits, levels), probe), PointLe)
  {
    hide PlanTo, Measured;
    var work := Plan(candidates, circuits, levels);
    SameMembers(finished, work);
    forall p ensures multiset(Measured(finished, probe))[p] == multiset(Measured(work, probe))[p] {
      MeasuredCount(finished, probe, p);
      MeasuredCount(work, probe, p);
    }
    MeasuredMembers(finished, probe);
    PointLeTotal();
    forall a, b | a in multiset(Measured(finished, probe)) && b in multiset(Measured(finished, probe)) &&
                  PointLe(a, b) && PointLe(b, a)
      ensures a == b
    {
      assert a in Measured(finished, probe) && b in Measured(finished, probe);
      KeyInjective(a, b, probe);
    }
    SortConfluent(Measured(finished, probe), Measured(work, probe), PointLe);
  }

  // ----- Summaries -----

  datatype Optimum = Optimum(downforce: nat, gearing: nat, time: int)
  datatype CircuitSummary = CircuitSummary(fastest: Optimum, onBoundary: bool, invariantFailures: nat)
  datatype Assessment = Assessment(
    candidate: Candidate, circuits: seq<CircuitSummary>, eligible: bool,
    failures: nat, boundaryOptima: nat, distinctOptima: nat, optimumRange: real)

  predicate TimeLe(a: Point, b: Point) {
    if a.result.totalTime != b.result.totalTime then a.result.totalTime < b.result.totalTime
    else if a.work.downforce != b.work.downforce then a.work.downforce < b.work.downforce
    else a.work.gearing <= b.work.gearing
  }

  /** Lookup in the dictionary keyed by (downforce, gearing); later entries replace earlier ones. */
  function Find(points: seq<Point>, downforce: nat, gearing: nat): Option<Point> {
    if points == [] then None else
      var last := points[|points| - 1];
      if last.work.downforce == downforce && last.work.gearing == gearing then Some(last)
      else Find(points[..|points| - 1], downforce, gearing)
  }

  function Failure(passed: bool): nat { if passed then 0 else 1 }

  /** More downforce must cost top speed and drag work, and gain corner speed and downforce. */
  function InvariantFailures(high: Measurement, low: Measurement): nat {
    Failure(high.maximumSpeed - low.maximumSpeed < 0.0) + Failure(high.cornerSpeed - low.cornerSpeed > 0.0) +
    Failure(high.dragWork - low.dragWork > 0.0) + Failure(high.meanDownforce - low.meanDownforce > 0.0)
  }

  function SummarizeCircuit(selected: seq<Point>, levels: nat): Result<CircuitSummary>
    requires levels > 0
  {
    if selected == [] then Err("min() arg is an empty sequence") else
      var fastest := MinBy(selected, TimeLe);
      var high, low := Find(selected, levels - 1, levels / 2), Find(selected, 0, levels / 2);
      if high.None? || low.None? then Err("missing setup point") else
        Ok(CircuitSummary(
             Optimum(fastest.work.downforce, fastest.work.gearing, fastest.result.totalTime),
             fastest.work.downforce == 0 || fastest.work.downforce == levels - 1,
             InvariantFailures(high.value.result, low.value.result)))
  }

  function OnCircuit(circuit: nat): Point -> bool { (p: Point) => p.work.circuit == circuit }

  function SummarizeTo(points: seq<Point>, levels: nat, n: nat): Result<seq<CircuitSummary>>
    requires levels > 0
  {
    if n == 0 then Ok([]) else
      var before :- SummarizeTo(points, levels, n - 1);
      var circuit :- SummarizeCircuit(Keep(points, OnCircuit(n - 1)), levels);
      Ok(before + [circuit])
  }

  function FailuresTo(circuits: seq<CircuitSummary>, n: nat): nat
    requires n <= |circuits|
  {
    if n == 0 then 0 else FailuresTo(circuits, n - 1) + circuits[n - 1].invariantFailures
  }

  function BoundariesTo(circuits: seq<CircuitSummary>, n: nat): (b: nat)
    requires n <= |circuits|
    ensures b <= n
  {
    if n == 0 then 0 else BoundariesTo(circuits, n - 1) + (if circuits[n - 1].onBoundary then 1 else 0)
  }

  function Highest(values: seq<real>): (m: real)
    requires values != []
    ensures m in values && forall x :: x in values ==> x <= m
  {
    if |values| == 1 then values[0] else
      var rest := Highest(values[1..]);
      assert values == [values[0]] + values[1..];
      if values[0] >= rest then values[0] else rest
  }

  /** The downforce sliders of the optima. */
  function Sliders(circuits: seq<CircuitSummary>, slider: nat -> real): seq<real> {
    seq(|circuits|, k requires 0 <= k < |circuits| => slider(circuits[k].fastest.downforce))
  }

  function Assess(candidate: Candidate, circuits: seq<CircuitSummary>, slider: nat -> real): Assessment
    requires circuits != []
  {
    var optima := Sliders(circuits, slider);
    var distinct := |set x | x in optima|;
    var range := Highest(optima) + Highest(Negated(optima));
    var failures, boundary := FailuresTo(circuits, |circuits|), BoundariesTo(circuits, |circuits|);
    var eligible := failures == 0 && |circuits| - boundary >= 1 && distinct == |circuits| && range >= 0.25;
    Assessment(candidate, circuits, eligible, failures, boundary, distinct, range)
  }

  function SummarizeCandidate(candidate: Candidate, points: seq<Point>, circuits: nat, levels: nat, slider: nat -> real)
    : Result<Assessment>
    requires circuits > 0 && levels > 0
  {
    var own := Keep(points, Mine(candidate.id));
    if |own| != (levels * levels) * circuits then Err("incomplete surface") else
      var summaries :- SummarizeTo(own, levels, circuits);
      SummariesLength(own, levels, circuits);
      Ok(Assess(candidate, summaries, slider))
  }

  lemma {:induction false} SummariesLength(points: seq<Point>, levels: nat, n: nat)
    requires levels > 0
    ensures var r := SummarizeTo(points, levels, n); r.Ok? ==> |r.value| == n
  {
    hide SummarizeCircuit, Keep;
    if n > 0 {
      SummariesLength(points, levels, n - 1);
    }
  }

  // ----- A complete run is always summarized, by the true optimum -----

  lemma MeasuredCons(x: Work, w: seq<Work>, probe: Probe)
    requires probe(x).Ok? && forall y :: y in w ==> probe(y).Ok?
    ensures Measured([x] + w, probe) == [Point(x, probe(x).value)] + Measured(w, probe)
  {
    assert ([x] + w)[1..] == w;
  }

  lemma {:induction false} MeasuredConcat(v: seq<Work>, w: seq<Work>, probe: Probe)
    requires forall x :: x in v ==> probe(x).Ok?
    requires forall x :: x in w ==> probe(x).Ok?
    ensures Measured(v + w, probe) == Measured(v, probe) + Measured(w, probe)
  {
    if v == [] {
      assert v + w == w;
    } else {
      hide Measured;
      var x, rest := v[0], v[1..];
      MeasuredConcat(rest, w, probe);
      MeasuredCons(x, rest + w, probe);
      MeasuredCons(x, rest, probe);
      assert v == [x] + rest && v + w == [x] + (rest + w);
      JoinFront(Point(x, probe(x).value), Measured(rest, probe), Measured(w, probe));
    }
  }

  lemma {:induction false} MeasuredLength(work: seq<Work>, probe: Probe)
    requires forall x :: x in work ==> probe(x).Ok?
    ensures |Measured(work, probe)| == |work|
  {
    if work != [] {
      MeasuredLength(work[1..], probe);
    }
  }

  function Mine(id: string): Point -> bool { (p: Point) => p.work.id == id }

  /** How many of the first n candidates carry an id. */
  function Carriers(candidates: seq<Candidate>, id: string, n: nat): nat
    requires n <= |candidates|
  {
    if n == 0 then 0 else Carriers(candidates, id, n - 1) + (if candidates[n - 1].id == id then 1 else 0)
  }

  lemma {:induction false} CarriersAtLeast(candidates: seq<Candidate>, id: string, n: nat, i: nat, j: nat)
    requires n <= |candidates| && i <= j < |candidates| && candidates[i].id == id && candidates[j].id == id
    ensures i < n ==> Carriers(candidates, id, n) >= 1
    ensures i < j < n ==> Carriers(candidates, id, n) >= 2
  {
    if n > 0 {
      CarriersAtLeast(candidates, id, n - 1, i, j);
    }
  }

  lemma {:induction false} CarriersDistinct(candidates: seq<Candidate>, n: nat, i: nat)
    requires DistinctIds(candidates) && n <= |candidates| && i < |candidates|
    ensures Carriers(candidates, candidates[i].id, n) == if i < n then 1 else 0
  {
    if n > 0 {
      CarriersDistinct(candidates, n - 1, i);
      assert candidates[n - 1].id == candidates[i].id ==> n - 1 == i;
    }
  }

  /** Every carrier of an id contributes one whole surface to the points of that id. */
  lemma {:induction false} OwnCount(candidates: seq<Candidate>, circuits: nat, levels: nat, n: nat, id: string, probe: Probe)
    requires n <= |candidates|
    requires forall w :: w in PlanTo(candidates, circuits, levels, n) ==> probe(w).Ok?
    ensures |Keep(Measured(PlanTo(candidates, circuits, levels, n), probe), Mine(id))|
         == ((levels * levels) * circuits) * Carriers(candidates, id, n)
  {
    hide CircuitWork;
    if n > 0 {
      var block := CircuitWork(candidates[n - 1].id, levels, circuits);
      OwnCount(candidates, circuits, levels, n - 1, id, probe);
      CircuitWorkIs(candidates[n - 1].id, levels, circuits);
      MeasuredConcat(PlanTo(candidates, circuits, levels, n - 1), block, probe);
      MeasuredMembers(block, probe);
      MeasuredLength(block, probe);
      KeepConcat(Measured(PlanTo(candidates, circuits, levels, n - 1), probe), Measured(block, probe), Mine(id));
      MulNext((levels * levels) * circuits, Carriers(candidates, id, n - 1));
      if candidates[n - 1].id == id {
        KeepAll(Measured(block, probe), Mine(id));
      } else {
        KeepNone(Measured(block, probe), Mine(id));
      }
    }
  }

  lemma TimeLeTotal()
    ensures TotalPreorder(TimeLe)
  {
  }

  /** All grid points of one circuit and candidate, and nothing else. */
  ghost predicate Surface(selected: seq<Point>, id: string, circuit: nat, levels: nat, probe: Probe) {
    forall p :: p in selected <==>
      && p.work.id == id && p.work.circuit == circuit && p.work.downforce < levels && p.work.gearing < levels
      && probe(p.work) == Ok(p.result)
  }

  /** The reported optimum is the least (time, downforce, gearing) over the whole grid of probes. */
  ghost predicate TrueOptimum(o: Optimum, id: string, circuit: nat, levels: nat, probe: Probe) {
    && o.downforce < levels && o.gearing < levels
    && probe(Work(id, circuit, o.downforce, o.gearing)).Ok?
    && probe(Work(id, circuit, o.downforce, o.gearing)).value.totalTime == o.time
    && forall d: nat, g: nat :: d < levels && g < levels && probe(Work(id, circuit, d, g)).Ok? ==>
         var time := probe(Work(id, circuit, d, g)).value.totalTime;
         o.time < time || (o.time == time && (o.downforce < d || (o.downforce == d && o.gearing <= g)))
  }

  lemma {:induction false} FindPresent(points: seq<Point>, p: Point)
    requires p in points
    ensures Find(points, p.work.downforce, p.work.gearing).Some?
    ensures var f := Find(points, p.work.downforce, p.work.gearing).value;
      f in points && f.work.downforce == p.work.downforce && f.work.gearing == p.work.gearing
  {
    var front, last := points[..|points| - 1], points[|points| - 1];
    assert points == front + [last];
    if last.work.downforce != p.work.downforce || last.work.gearing != p.work.gearing {
      FindPresent(front, p);
    }
  }

  /** The four physical promises of more downforce, and which one is broken. */
  predicate Breaks(high: Measurement, low: Measurement, q: nat) {
    || (q == 0 && high.maximumSpeed >= low.maximumSpeed)
    || (q == 1 && high.cornerSpeed <= low.cornerSpeed)
    || (q == 2 && high.dragWork <= low.dragWork)
    || (q == 3 && high.meanDownforce <= low.meanDownforce)
  }

  function Broken(high: Measurement, low: Measurement): set<nat> { set q: nat | q < 4 && Breaks(high, low, q) }

  function BrokenTo(high: Measurement, low: Measurement, n: nat): nat {
    if n == 0 then 0 else BrokenTo(high, low, n - 1) + Failure(!Breaks(high, low, n - 1))
  }

  lemma {:induction false} BrokenCounted(high: Measurement, low: Measurement, n: nat)
    ensures |set q: nat | q < n && Breaks(high, low, q)| == BrokenTo(high, low, n)
  {
    hide Breaks;
    if n > 0 {
      BrokenCounted(high, low, n - 1);
      var last: nat := n - 1;
      var before := set q: nat | q < last && Breaks(high, low, q);
      if Breaks(high, low, last) {
        assert (set q: nat | q < n && Breaks(high, low, q)) == before + {last};
      } else {
        assert (set q: nat | q < n && Breaks(high, low, q)) == before;
      }
    }
  }

  lemma FailuresAreBroken(high: Measurement, low: Measurement)
    ensures InvariantFailures(high, low) == |Broken(high, low)|
  {
    BrokenCounted(high, low, 4);
    hide Broken;
    assert BrokenTo(high, low, 1) == BrokenTo(high, low, 0) + Failure(!Breaks(high, low, 0));
    assert BrokenTo(high, low, 2) == BrokenTo(high, low, 1) + Failure(!Breaks(high, low, 1));
    assert BrokenTo(high, low, 3) == BrokenTo(high, low, 2) + Failure(!Breaks(high, low, 2));
    assert BrokenTo(high, low, 4) == BrokenTo(high, low, 3) + Failure(!Breaks(high, low, 3));
    BrokenIs(high, low);
  }

  lemma BrokenIs(high: Measurement, low: Measurement)
    ensures Broken(high, low) == set q: nat | q < 4 && Breaks(high, low, q)
  {
  }

  /** One promise of one circuit, between the highest and the lowest downforce at middle gearing. */
  ghost predicate BrokenAt(id: string, circuit: nat, levels: nat, probe: Probe, q: nat)
    requires levels > 0
  {
    var high, low := probe(Work(id, circuit, levels - 1, levels / 2)), probe(Work(id, circuit, 0, levels / 2));
    high.Ok? && low.Ok? && Breaks(high.value, low.value, q)
  }

  /** A circuit summary said on the probes alone. */
  ghost predicate TrueCircuit(s: CircuitSummary, id: string, circuit: nat, levels: nat, probe: Probe)
    requires levels > 0
  {
    && TrueOptimum(s.fastest, id, circuit, levels, probe)
    && (s.onBoundary <==> s.fastest.downforce == 0 || s.fastest.downforce == levels - 1)
    && s.invariantFailures == |set q: nat | q < 4 && BrokenAt(id, circuit, levels, probe, q)|
  }

  lemma CircuitComplete(selected: seq<Point>, id: string, circuit: nat, levels: nat, probe: Probe)
    requires levels > 0 && Surface(selected, id, circuit, levels, probe)
    requires forall d: nat, g: nat :: d < levels && g < levels ==> probe(Work(id, circuit, d, g)).Ok?
    ensures SummarizeCircuit(selected, levels).Ok?
    ensures var s := SummarizeCircuit(selected, levels).value;
      TrueCircuit(s, id, circuit, levels, probe)
  {
    hide Find, MinBy, InvariantFailures, Broken;
    var high, low := Work(id, circuit, levels - 1, levels / 2), Work(id, circuit, 0, levels / 2);
    var hp, lp := Point(high, probe(high).value), Point(low, probe(low).value);
    assert hp in selected && lp in selected;
    FindPresent(selected, hp);
    FindPresent(selected, lp);
    TimeLeTotal();
    MinByLeast(selected, TimeLe);
    var fastest := MinBy(selected, TimeLe);
    FailuresAreBroken(probe(high).value, probe(low).value);
    BrokenAre(id, circuit, levels, probe);
    forall d: nat, g: nat | d < levels && g < levels
      ensures TimeLe(fastest, Point(Work(id, circuit, d, g), probe(Work(id, circuit, d, g)).value))
    {
      assert Point(Work(id, circuit, d, g), probe(Work(id, circuit, d, g)).value) in selected;
    }
  }

  lemma BrokenAre(id: string, circuit: nat, levels: nat, probe: Probe)
    requires levels > 0
    requires probe(Work(id, circuit, levels - 1, levels / 2)).Ok? && probe(Work(id, circuit, 0, levels / 2)).Ok?
    ensures (set q: nat | q < 4 && BrokenAt(id, circuit, levels, probe, q)) ==
            Broken(probe(Work(id, circuit, levels - 1, levels / 2)).value, probe(Work(id, circuit, 0, levels / 2)).value)
  {
  }

  /** Every circuit of a complete candidate is summarized by its true optimum and its true failures. */
  ghost predicate TrueSummaries(circuits: seq<CircuitSummary>, id: string, levels: nat, probe: Probe)
    requires levels > 0
  {
    forall k :: 0 <= k < |circuits| ==> TrueCircuit(circuits[k], id, k, levels, probe)
  }

  lemma {:induction false} CircuitsComplete(own: seq<Point>, id: string, circuits: nat, levels: nat, probe: Probe, n: nat)
    requires levels > 0 && n <= circuits
    requires forall p :: p in own <==> OwnPoint(p, id, circuits, levels, probe)
    requires forall k: nat, d: nat, g: nat :: k < circuits && d < levels && g < levels ==> probe(Work(id, k, d, g)).Ok?
    ensures SummarizeTo(own, levels, n).Ok? && |SummarizeTo(own, levels, n).value| == n
    ensures TrueSummaries(SummarizeTo(own, levels, n).value, id, levels, probe)
  {
    hide SummarizeCircuit, TrueCircuit;
    if n > 0 {
      CircuitsComplete(own, id, circuits, levels, probe, n - 1);
      KeepMembers(own, OnCircuit(n - 1));
      CircuitComplete(Keep(own, OnCircuit(n - 1)), id, n - 1, levels, probe);
    }
  }

  // ----- Who is eligible, said on the probes -----

  /** All broken promises of a candidate, by circuit and kind. */
  ghost function AllBroken(id: string, n: nat, levels: nat, probe: Probe): set<(nat, nat)>
    requires levels > 0
  {
    set k: nat, q: nat | k < n && q < 4 && BrokenAt(id, k, levels, probe, q) :: (k, q)
  }

  ghost predicate Inner(o: Optimum, levels: nat) { 0 < o.downforce && o.downforce + 1 < levels }

  ghost predicate IsSpread(range: real, x: seq<real>) {
    && (exists i, j :: 0 <= i < |x| && 0 <= j < |x| && range == x[i] - x[j])
    && forall i, j :: 0 <= i < |x| && 0 <= j < |x| ==> x[i] - x[j] <= range
  }

  ghost predicate AllDifferent(x: seq<real>) { forall i, j :: 0 <= i < j < |x| ==> x[i] != x[j] }

  /** The assessment of a candidate: true optima, counted failures, and eligibility by the four conditions. */
  ghost predicate Judged(a: Assessment, circuits: nat, levels: nat, slider: nat -> real, probe: Probe)
    requires levels > 0
  {
    var x := Sliders(a.circuits, slider);
    && |x| == |a.circuits| && (forall k :: 0 <= k < |x| ==> x[k] == slider(a.circuits[k].fastest.downforce))
    && |a.circuits| == circuits && TrueSummaries(a.circuits, a.candidate.id, levels, probe)
    && a.failures == |AllBroken(a.candidate.id, circuits, levels, probe)|
    && a.boundaryOptima == |Outer(a.circuits, levels, circuits)|
    && a.distinctOptima == |set v | v in x| && IsSpread(a.optimumRange, x)
    && (a.eligible <==>
          && AllBroken(a.candidate.id, circuits, levels, probe) == {}
          && (exists k :: 0 <= k < circuits && Inner(a.circuits[k].fastest, levels))
          && AllDifferent(x)
          && exists i, j :: 0 <= i < |x| && 0 <= j < |x| && x[i] - x[j] >= 0.25)
  }

  ghost function Tagged(s: set<nat>, k: nat): set<(nat, nat)> { set q | q in s :: (k, q) }

  lemma {:induction false} TagAll(s: set<nat>, k: nat)
    ensures |Tagged(s, k)| == |s|
  {
    if s != {} {
      var q :| q in s;
      TagAll(s - {q}, k);
      assert Tagged(s, k) == Tagged(s - {q}, k) + {(k, q)};
    }
  }

  lemma {:induction false} FailuresCounted(circuits: seq<CircuitSummary>, id: string, levels: nat, probe: Probe, n: nat)
    requires levels > 0 && n <= |circuits| && TrueSummaries(circuits, id, levels, probe)
    ensures FailuresTo(circuits, n) == |AllBroken(id, n, levels, probe)|
  {
    hide TrueOptimum, BrokenAt;
    if n > 0 {
      FailuresCounted(circuits, id, levels, probe, n - 1);
      assert TrueCircuit(circuits[n - 1], id, n - 1, levels, probe);
      var last: nat := n - 1;
      var broken := set q: nat | q < 4 && BrokenAt(id, last, levels, probe, q);
      var tagged: set<(nat, nat)> := Tagged(broken, last);
      TagAll(broken, last);
      assert AllBroken(id, n, levels, probe) == AllBroken(id, n - 1, levels, probe) + tagged;
      assert AllBroken(id, n - 1, levels, probe) !! tagged;
    }
  }

  ghost function Outer(circuits: seq<CircuitSummary>, levels: nat, n: nat): set<int>
    requires n <= |circuits|
  {
    set k | 0 <= k < n && !Inner(circuits[k].fastest, levels)
  }

  lemma OnBoundaryIff(circuits: seq<CircuitSummary>, id: string, levels: nat, probe: Probe, k: nat)
    requires levels > 0 && k < |circuits| && TrueSummaries(circuits, id, levels, probe)
    ensures circuits[k].onBoundary <==> !Inner(circuits[k].fastest, levels)
  {
    hide BrokenAt;
    assert TrueCircuit(circuits[k], id, k, levels, probe);
  }

  lemma {:induction false} BoundariesCounted(circuits: seq<CircuitSummary>, id: string, levels: nat, probe: Probe, n: nat)
    requires levels > 0 && n <= |circuits| && TrueSummaries(circuits, id, levels, probe)
    ensures BoundariesTo(circuits, n) == |Outer(circuits, levels, n)|
  {
    hide TrueSummaries, Inner;
    if n > 0 {
      BoundariesCounted(circuits, id, levels, probe, n - 1);
      OnBoundaryIff(circuits, id, levels, probe, n - 1);
      if Inner(circuits[n - 1].fastest, levels) {
        assert Outer(circuits, levels, n) == Outer(circuits, levels, n - 1);
      } else {
        assert Outer(circuits, levels, n) == Outer(circuits, levels, n - 1) + {n - 1};
      }
    }
  }

  lemma {:induction false} SomeInner(circuits: seq<CircuitSummary>, id: string, levels: nat, probe: Probe, n: nat)
    requires levels > 0 && n <= |circuits| && TrueSummaries(circuits, id, levels, probe)
    ensures BoundariesTo(circuits, n) < n <==> exists k :: 0 <= k < n && Inner(circuits[k].fastest, levels)
  {
    hide TrueSummaries, Inner;
    if n > 0 {
      SomeInner(circuits, id, levels, probe, n - 1);
      OnBoundaryIff(circuits, id, levels, probe, n - 1);
    }
  }

  lemma SpreadIs(x: seq<real>)
    requires x != []
    ensures IsSpread(Highest(x) + Highest(Negated(x)), x)
  {
    hide Highest;
    var top, bottom := Highest(x), Highest(Negated(x));
    var i :| 0 <= i < |x| && x[i] == top;
    var j :| 0 <= j < |x| && Negated(x)[j] == bottom;
    forall k, l | 0 <= k < |x| && 0 <= l < |x| ensures x[k] - x[l] <= top + bottom {
      assert x[k] in x && Negated(x)[l] in Negated(x);
    }
  }

  lemma AssessJudged(
    candidate: Candidate, circuits: seq<CircuitSummary>, levels: nat, slider: nat -> real, probe: Probe)
    requires circuits != [] && levels > 0 && TrueSummaries(circuits, candidate.id, levels, probe)
    ensures Judged(Assess(candidate, circuits, slider), |circuits|, levels, slider, probe)
  {
    hide FailuresTo, BoundariesTo, Highest, TrueSummaries, AllBroken, Inner;
    var x := Sliders(circuits, slider);
    FailuresCounted(circuits, candidate.id, levels, probe, |circuits|);
    BoundariesCounted(circuits, candidate.id, levels, probe, |circuits|);
    SomeInner(circuits, candidate.id, levels, probe, |circuits|);
    SpreadIs(x);
    DistinctCount(x);
  }

  ghost predicate AllSucceed(candidates: seq<Candidate>, circuits: nat, levels: nat, probe: Probe) {
    forall w :: w in Plan(candidates, circuits, levels) ==> probe(w).Ok?
  }

  /** The points of a run, in the published order. */
  function RunPoints(candidates: seq<Candidate>, circuits: nat, levels: nat, probe: Probe): seq<Point>
    requires forall w :: w in Plan(candidates, circuits, levels) ==> probe(w).Ok?
  {
    Sort(Measured(Plan(candidates, circuits, levels), probe), PointLe)
  }

  ghost predicate OwnPoint(p: Point, id: string, circuits: nat, levels: nat, probe: Probe) {
    && p.work.id == id && p.work.circuit < circuits && p.work.downforce < levels && p.work.gearing < levels
    && probe(p.work) == Ok(p.result)
  }

  lemma OwnLength(candidates: seq<Candidate>, circuits: nat, levels: nat, probe: Probe, id: string)
    requires AllSucceed(candidates, circuits, levels, probe)
    ensures |Keep(RunPoints(candidates, circuits, levels, probe), Mine(id))|
         == ((levels * levels) * circuits) * Carriers(candidates, id, |candidates|)
  {
    hide PlanTo, Measured, PointLe, Mine, Carriers;
    var raw, mine := Measured(Plan(candidates, circuits, levels), probe), Mine(id);
    PointLeTotal();
    SortCorrect(raw, PointLe);
    KeepMultiset(Sort(raw, PointLe), raw, mine);
    assert |multiset(Keep(Sort(raw, PointLe), mine))| == |multiset(Keep(raw, mine))|;
    OwnCount(candidates, circuits, levels, |candidates|, id, probe);
  }

  lemma OwnMembers(candidates: seq<Candidate>, circuits: nat, levels: nat, probe: Probe, i: nat, p: Point)
    requires AllSucceed(candidates, circuits, levels, probe) && i < |candidates|
    ensures p in Keep(RunPoints(candidates, circuits, levels, probe), Mine(candidates[i].id)) <==>
            OwnPoint(p, candidates[i].id, circuits, levels, probe)
  {
    hide PlanTo, Measured, PointLe;
    var plan := Plan(candidates, circuits, levels);
    var raw, points := Measured(plan, probe), RunPoints(candidates, circuits, levels, probe);
    PointLeTotal();
    SortCorrect(raw, PointLe);
    KeepMembers(points, Mine(candidates[i].id));
    SameMembers(points, raw);
    MeasuredMembers(plan, probe);
    PlanMembers(candidates, circuits, levels, |candidates|, p.work);
    assert Ids(candidates)[..|candidates|] == Ids(candidates) && Ids(candidates)[i] == candidates[i].id;
  }

  lemma SurfaceCounts(x: nat, k: nat)
    requires x > 0
    ensures x * k == x <==> k == 1
  {
    if k >= 2 {
      assert x * k == x * 2 + x * (k - 2);
    }
  }

  /** An id carried twice doubles the surface, and the candidate is refused. */
  lemma SharedIdRefused(
    candidates: seq<Candidate>, circuits: nat, levels: nat, probe: Probe, slider: nat -> real, i: nat, j: nat)
    requires AllSucceed(candidates, circuits, levels, probe) && circuits > 0 && levels > 0
    requires i < j < |candidates| && candidates[i].id == candidates[j].id
    ensures SummarizeCandidate(candidates[i], RunPoints(candidates, circuits, levels, probe), circuits, levels, slider)
         == Err("incomplete surface")
  {
    hide PlanTo, RunPoints, SummarizeTo, PointLe, Carriers;
    var points, id := RunPoints(candidates, circuits, levels, probe), candidates[i].id;
    OwnLength(candidates, circuits, levels, probe, id);
    CarriersAtLeast(candidates, id, |candidates|, i, j);
    SurfacePositive(levels, circuits);
    SurfaceCounts((levels * levels) * circuits, Carriers(candidates, id, |candidates|));
  }

  lemma SurfacePositive(levels: nat, circuits: nat)
    requires levels > 0 && circuits > 0
    ensures (levels * levels) * circuits > 0
  {
  }

  /** A complete run never reports an incomplete surface, and finds every true optimum. */
  lemma CandidateComplete(
    candidates: seq<Candidate>, circuits: nat, levels: nat, probe: Probe, slider: nat -> real, i: nat)
    requires DistinctIds(candidates) && AllSucceed(candidates, circuits, levels, probe) && i < |candidates|
    requires circuits > 0 && levels > 0
    ensures var r := SummarizeCandidate(candidates[i], RunPoints(candidates, circuits, levels, probe), circuits, levels, slider);
      && r.Ok? && r.value.candidate == candidates[i] && Judged(r.value, circuits, levels, slider, probe)
  {
    hide PlanTo, RunPoints, SummarizeTo, TrueSummaries, PointLe, Carriers, Judged, Assess;
    var points, id := RunPoints(candidates, circuits, levels, probe), candidates[i].id;
    OwnLength(candidates, circuits, levels, probe, id);
    CarriersDistinct(candidates, |candidates|, i);
    forall p: Point ensures p in Keep(points, Mine(id)) <==> OwnPoint(p, id, circuits, levels, probe) {
      OwnMembers(candidates, circuits, levels, probe, i, p);
    }
    forall k: nat, d: nat, g: nat | k < circuits && d < levels && g < levels ensures probe(Work(id, k, d, g)).Ok? {
      PlanMembers(candidates, circuits, levels, |candidates|, Work(id, k, d, g));
      assert Ids(candidates)[..|candidates|] == Ids(candidates) && Ids(candidates)[i] == id;
    }
    CircuitsComplete(Keep(points, Mine(id)), id, circuits, levels, probe, circuits);
    AssessJudged(candidates[i], SummarizeTo(Keep(points, Mine(id)), levels, circuits).value, levels, slider, probe);
    AssessedCandidate(candidates[i], SummarizeTo(Keep(points, Mine(id)), levels, circuits).value, slider);
  }

  lemma AssessedCandidate(candidate: Candidate, circuits: seq<CircuitSummary>, slider: nat -> real)
    requires circuits != []
    ensures Assess(candidate, circuits, slider).candidate == candidate
  {
  }

  // ----- Ranking and the report -----

  /** Eligible first, then fewer invariant failures, more distinct optima, fewer boundary optima, wider range, id. */
  predicate RankLe(a: Assessment, b: Assessment) {
    if a.eligible != b.eligible then a.eligible
    else if a.failures != b.failures then a.failures < b.failures
    else if a.distinctOptima != b.distinctOptima then a.distinctOptima > b.distinctOptima
    else if a.boundaryOptima != b.boundaryOptima then a.boundaryOptima < b.boundaryOptima
    else if a.optimumRange != b.optimumRange then a.optimumRange > b.optimumRange
    else StringLe(a.candidate.id, b.candidate.id)
  }

  lemma RankLeTotal()
    ensures TotalPreorder(RankLe)
  {
    forall a: Assessment, b: Assessment ensures RankLe(a, b) || RankLe(b, a) {
      StringLeTotal(a.candidate.id, b.candidate.id);
    }
    forall a: Assessment, b: Assessment, c: Assessment | RankLe(a, b) && RankLe(b, c) ensures RankLe(a, c) {
      if StringLe(a.candidate.id, b.candidate.id) && StringLe(b.candidate.id, c.candidate.id) {
        StringLeTransitive(a.candidate.id, b.candidate.id, c.candidate.id);
      }
    }
  }

  datatype Report = Report(points: seq<Point>, ranking: seq<Assessment>)

  const SEEDS := 0x1_0000_0000_0000_0000
  const MAX_JOBS := 16

  predicate ValidLevels(levels: int) { 3 <= levels <= 11 && levels % 2 == 1 }

  /** One assessment per candidate, each from the whole run. */
  ghost predicate Assessed(
    summaries: seq<Assessment>, candidates: seq<Candidate>, points: seq<Point>, circuits: nat, levels: nat, slider: nat -> real)
    requires circuits > 0 && levels > 0
  {
    && |summaries| == |candidates|
    && forall i :: 0 <= i < |candidates| ==>
         SummarizeCandidate(candidates[i], points, circuits, levels, slider) == Ok(summaries[i])
  }

  /** What the report must be: it mentions neither the pool nor a completion order. */
  ghost predicate IsReport(
    report: Report, candidates: seq<Candidate>, circuits: nat, levels: nat, slider: nat -> real, probe: Probe)
    requires circuits > 0 && levels > 0 && AllSucceed(candidates, circuits, levels, probe)
  {
    && report.points == RunPoints(candidates, circuits, levels, probe)
    && exists summaries ::
         && Assessed(summaries, candidates, report.points, circuits, levels, slider)
         && report.ranking == Sort(summaries, RankLe)
  }

  /** A report exists only when no id is shared. */
  lemma ReportHasDistinctIds(
    report: Report, candidates: seq<Candidate>, circuits: nat, levels: nat, slider: nat -> real, probe: Probe)
    requires circuits > 0 && levels > 0 && AllSucceed(candidates, circuits, levels, probe)
    requires IsReport(report, candidates, circuits, levels, slider, probe)
    ensures DistinctIds(candidates)
  {
    hide SummarizeCandidate, RunPoints, RankLe, AllSucceed;
    forall i, j | 0 <= i < j < |candidates| ensures candidates[i].id != candidates[j].id {
      if candidates[i].id == candidates[j].id {
        SharedIdRefused(candidates, circuits, levels, probe, slider, i, j);
      }
    }
  }

  method WriteResponses(candidates: seq<Candidate>) returns (files: map<string, Candidate>)
    ensures files == Responses(candidates)
  {
    files := map[];
    for i := 0 to |candidates|
      invariant files == Responses(candidates[..i])
    {
      assert candidates[..i + 1][..i] == candidates[..i];
      files := files[candidates[i].id := candidates[i]];
    }
    assert candidates[..|candidates|] == candidates;
  }

  /** One summary per candidate, in order; refused exactly when two candidates share an id. */
  method Summarize(
    candidates: seq<Candidate>, points: seq<Point>, circuits: nat, levels: nat, slider: nat -> real, ghost probe: Probe)
    returns (r: Result<seq<Assessment>>)
    requires circuits > 0 && levels > 0 && AllSucceed(candidates, circuits, levels, probe)
    requires points == RunPoints(candidates, circuits, levels, probe)
    ensures r.Ok? <==> DistinctIds(candidates)
    ensures r.Ok? ==> Assessed(r.value, candidates, points, circuits, levels, slider)
  {
    hide SummarizeCandidate, RunPoints, AllSucceed;
    var summaries: seq<Assessment> := [];
    for i := 0 to |candidates|
      invariant |summaries| == i
      invariant forall k :: 0 <= k < i ==>
        SummarizeCandidate(candidates[k], points, circuits, levels, slider) == Ok(summaries[k])
    {
      var summary := SummarizeCandidate(candidates[i], points, circuits, levels, slider);
      if summary.Err? {
        if DistinctIds(candidates) {
          CandidateComplete(candidates, circuits, levels, probe, slider, i);
        }
        return Err(summary.error);
      }
      summaries := summaries + [summary.value];
    }
    forall i, j | 0 <= i < j < |candidates| ensures candidates[i].id != candidates[j].id {
      if candidates[i].id == candidates[j].id {
        SharedIdRefused(candidates, circuits, levels, probe, slider, i, j);
      }
    }
    r := Ok(summaries);
  }

  /** For every schedule of the pool there is one report, produced exactly when every probe succeeds and no id is shared. */
  method BuildReport(
    candidates: seq<Candidate>, circuits: nat, seed: int, levels: nat, jobs: int, slider: nat -> real, simulate: Simulation)
    returns (r: Result<Report>)
    requires circuits > 0
    ensures r.Ok? <==>
      && 0 <= seed < SEEDS && 1 <= jobs <= MAX_JOBS && ValidLevels(levels) && DistinctIds(candidates)
      && AllSucceed(candidates, circuits, levels, ProbeWith(Responses(candidates), simulate))
    ensures r.Ok? ==> IsReport(r.value, candidates, circuits, levels, slider, ProbeWith(Responses(candidates), simulate))
  {
    hide PlanTo, Assessed, RunPoints, Responses, ProbeWith, RankLe, DistinctIds;
    if seed < 0 || seed > SEEDS - 1 {
      return Err("seed must be an unsigned 64-bit integer");
    }
    if jobs < 1 || jobs > MAX_JOBS {
      return Err("jobs must be between 1 and 16");
    }
    if levels < 3 || levels > 11 || levels % 2 == 0 {
      return Err("level count must be an odd integer between 3 and 11");
    }
    var files := WriteResponses(candidates);
    var probe := ProbeWith(files, simulate);
    var collected := CollectPoints(candidates, circuits, levels, probe);
    if collected.Err? {
      return Err(collected.error);
    }
    RunPointsAre(candidates, circuits, levels, probe);
    var summaries := Summarize(candidates, collected.value, circuits, levels, slider, probe);
    if summaries.Err? {
      return Err(summaries.error);
    }
    r := Ok(Report(collected.value, Sort(summaries.value, RankLe)));
  }

  lemma RunPointsAre(candidates: seq<Candidate>, circuits: nat, levels: nat, probe: Probe)
    requires AllSucceed(candidates, circuits, levels, probe)
    ensures RunPoints(candidates, circuits, levels, probe) == Sort(Measured(Plan(candidates, circuits, levels), probe), PointLe)
  {
  }

  lemma ReportUnique(
    a: Report, b: Report, candidates: seq<Candidate>, circuits: nat, levels: nat, slider: nat -> real, probe: Probe)
    requires circuits > 0 && levels > 0 && AllSucceed(candidates, circuits, levels, probe)
    requires IsReport(a, candidates, circuits, levels, slider, probe)
    requires IsReport(b, candidates, circuits, levels, slider, probe)
    ensures a == b
  {
    hide SummarizeCandidate, RunPoints, RankLe;
    var s: seq<Assessment> :| Assessed(s, candidates, a.points, circuits, levels, slider) && a.ranking == Sort(s, RankLe);
    var t: seq<Assessment> :| Assessed(t, candidates, b.points, circuits, levels, slider) && b.ranking == Sort(t, RankLe);
    forall i | 0 <= i < |candidates| ensures s[i] == t[i] {
      assert Ok(s[i]) == Ok(t[i]);
    }
    assert s == t;
  }

  /** The first of two ranked assessments is no worse: eligibility, failures, variety, boundaries, spread, then id. */
  ghost predicate NoWorse(a: Assessment, b: Assessment) {
    && (b.eligible ==> a.eligible)
    && (a.eligible == b.eligible ==>
          && a.failures <= b.failures
          && (a.failures == b.failures ==>
                && a.distinctOptima >= b.distinctOptima
                && (a.distinctOptima == b.distinctOptima ==>
                      && a.boundaryOptima <= b.boundaryOptima
                      && (a.boundaryOptima == b.boundaryOptima ==>
                            && a.optimumRange >= b.optimumRange
                            && (a.optimumRange == b.optimumRange ==> StringLe(a.candidate.id, b.candidate.id))))))
  }

  /** Ranks run over all candidates once, in the order of their quantities, which are those of the probes. */
  lemma RankingSound(
    report: Report, candidates: seq<Candidate>, circuits: nat, levels: nat, slider: nat -> real, probe: Probe)
    requires circuits > 0 && levels > 0 && AllSucceed(candidates, circuits, levels, probe)
    requires IsReport(report, candidates, circuits, levels, slider, probe)
    ensures |report.ranking| == |candidates|
    ensures forall i, j :: 0 <= i < j < |report.ranking| ==> NoWorse(report.ranking[i], report.ranking[j])
    ensures forall c :: c in candidates <==> exists a :: a in report.ranking && a.candidate == c
    ensures forall a :: a in report.ranking ==> Judged(a, circuits, levels, slider, probe)
  {
    hide SummarizeCandidate, RunPoints, Judged, NoWorse;
    var s: seq<Assessment> :| Assessed(s, candidates, report.points, circuits, levels, slider) && report.ranking == Sort(s, RankLe);
    ReportHasDistinctIds(report, candidates, circuits, levels, slider, probe);
    RankLeTotal();
    SortCorrect(s, RankLe);
    SameMembers(report.ranking, s);
    forall i, j | 0 <= i < j < |report.ranking| ensures NoWorse(report.ranking[i], report.ranking[j]) {
      RankedNoWorse(report.ranking[i], report.ranking[j]);
    }
    forall i | 0 <= i < |candidates|
      ensures s[i].candidate == candidates[i] && Judged(s[i], circuits, levels, slider, probe)
    {
      CandidateComplete(candidates, circuits, levels, probe, slider, i);
      assert Ok(s[i]).value == s[i];
    }
    forall c ensures c in candidates <==> exists a :: a in report.ranking && a.candidate == c {
      if c in candidates {
        var i :| 0 <= i < |candidates| && candidates[i] == c;
        assert s[i] in s;
      }
    }
  }

  lemma RankedNoWorse(a: Assessment, b: Assessment)
    requires RankLe(a, b)
    ensures NoWorse(a, b)
  {
  }
}
