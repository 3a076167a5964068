/**
 Pareto selection of thermal parameter sets (experiments/racing_v3_thermal/screen_local.py) and the
 retained sets of the follow-up campaign (experiments/databricks/build_v3_thermal_manifest.py).
 */
module Pareto {
  import opened Filtering
  import opened Ordering

  datatype Aggregate = Aggregate(
    id: string,
    medianTotalTime: real,
    maximumDeratedFraction: real,
    medianCoolingTimeEffect: real,
    maximumTemperature: real,
    pathologicalCount: nat)

  predicate Dominates(left: Aggregate, right: Aggregate) {
    && left.medianTotalTime <= right.medianTotalTime
    && left.maximumDeratedFraction <= right.maximumDeratedFraction
    && left.medianCoolingTimeEffect <= right.medianCoolingTimeEffect
    && (|| left.medianTotalTime < right.medianTotalTime
        || left.maximumDeratedFraction < right.maximumDeratedFraction
        || left.medianCoolingTimeEffect < right.medianCoolingTimeEffect)
  }

  predicate Pathological(a: Aggregate) { a.pathologicalCount > 0 }

  predicate Disengaged(a: Aggregate) { a.pathologicalCount == 0 && a.maximumTemperature < 100.0 }

  predicate Eligible(a: Aggregate) { a.pathologicalCount == 0 && a.maximumTemperature >= 100.0 }

  /** No eligible set of another id dominates the candidate. */
  predicate Undominated(candidate: Aggregate, eligible: seq<Aggregate>) {
    forall other :: other in eligible && other.id != candidate.id ==> !Dominates(other, candidate)
  }

  function IdLe(): (Aggregate, Aggregate) -> bool { (a: Aggregate, b: Aggregate) => StringLe(a.id, b.id) }

  lemma IdLeTotal()
    ensures TotalPreorder(IdLe())
  {
    forall x: Aggregate, y: Aggregate ensures IdLe()(x, y) || IdLe()(y, x) {
      StringLeTotal(x.id, y.id);
    }
    forall x: Aggregate, y: Aggregate, z: Aggregate | IdLe()(x, y) && IdLe()(y, z) ensures IdLe()(x, z) {
      StringLeTransitive(x.id, y.id, z.id);
    }
  }

  datatype Summary = Summary(
    pathological: seq<Aggregate>, disengaged: seq<Aggregate>, eligible: seq<Aggregate>, frontier: seq<Aggregate>)

  function ParetoSummary(aggregates: seq<Aggregate>): Summary {
    var eligible := Keep(aggregates, Eligible);
    Summary(
      Keep(aggregates, Pathological),
      Keep(aggregates, Disengaged),
      eligible,
      Sort(Keep(eligible, c => Undominated(c, eligible)), IdLe()))
  }

  /** The sets carried into the follow-up campaign, before its fixed-count check. */
  function Retained(aggregates: seq<Aggregate>): seq<Aggregate> {
    Sort(Keep(aggregates, Eligible), IdLe())
  }

  lemma SortMembers(s: seq<Aggregate>)
    ensures Sorted(IdLe(), Sort(s, IdLe()))
    ensures forall a :: a in Sort(s, IdLe()) <==> a in s
  {
    IdLeTotal();
    SortCorrect(s, IdLe());
    forall a ensures a in Sort(s, IdLe()) <==> a in s {
      assert a in multiset(s) <==> a in s;
      assert a in multiset(Sort(s, IdLe())) <==> a in Sort(s, IdLe());
    }
  }

  /** What the frontier is, as a set: exactly the undominated eligible sets. */
  lemma FrontierMembers(aggregates: seq<Aggregate>, a: Aggregate)
    ensures a in ParetoSummary(aggregates).eligible <==> a in aggregates && Eligible(a)
    ensures a in ParetoSummary(aggregates).frontier <==>
      a in ParetoSummary(aggregates).eligible && Undominated(a, ParetoSummary(aggregates).eligible)
  {
    var eligible := Keep(aggregates, Eligible);
    KeepMembers(aggregates, Eligible);
    KeepMembers(eligible, c => Undominated(c, eligible));
    SortMembers(Keep(eligible, c => Undominated(c, eligible)));
  }

  lemma DominanceStrictPartialOrder(a: Aggregate, b: Aggregate, c: Aggregate)
    ensures !Dominates(a, a)
    ensures !(Dominates(a, b) && Dominates(b, a))
    ensures Dominates(a, b) && Dominates(b, c) ==> Dominates(a, c)
  {
  }

  /** Dominance is: no objective larger, and a smaller sum. So lowering any one objective dominates. */
  lemma DominanceMinimizes(l: Aggregate, r: Aggregate, step: real)
    requires step > 0.0
    ensures Dominates(l, r) <==>
      && l.medianTotalTime <= r.medianTotalTime && l.maximumDeratedFraction <= r.maximumDeratedFraction
      && l.medianCoolingTimeEffect <= r.medianCoolingTimeEffect
      && l.medianTotalTime + l.maximumDeratedFraction + l.medianCoolingTimeEffect
         < r.medianTotalTime + r.maximumDeratedFraction + r.medianCoolingTimeEffect
    ensures Dominates(r.(medianTotalTime := r.medianTotalTime - step), r)
    ensures Dominates(r.(maximumDeratedFraction := r.maximumDeratedFraction - step), r)
    ensures Dominates(r.(medianCoolingTimeEffect := r.medianCoolingTimeEffect - step), r)
  {
  }

  /** Every eligible set has a frontier member that is no worse in any objective. */
  lemma FrontierNoWorse(aggregates: seq<Aggregate>, a: Aggregate) returns (f: Aggregate)
    requires a in aggregates && a.pathologicalCount == 0 && a.maximumTemperature >= 100.0
    ensures f in ParetoSummary(aggregates).frontier
    ensures f.medianTotalTime <= a.medianTotalTime && f.maximumDeratedFraction <= a.maximumDeratedFraction
    ensures f.medianCoolingTimeEffect <= a.medianCoolingTimeEffect
  {
    FrontierCovers(aggregates, a);
    var frontier := ParetoSummary(aggregates).frontier;
    f := a;
    if a !in frontier {
      f :| f in frontier && Dominates(f, a);
    }
  }

  /** What the classes are. */
  lemma ClassesAre(aggregates: seq<Aggregate>, a: Aggregate)
    ensures var s := ParetoSummary(aggregates);
      && (a in s.pathological <==> a in aggregates && a.pathologicalCount > 0)
      && (a in s.disengaged <==> a in aggregates && a.pathologicalCount == 0 && a.maximumTemperature < 100.0)
      && (a in s.eligible <==> a in aggregates && a.pathologicalCount == 0 && a.maximumTemperature >= 100.0)
  {
    KeepMembers(aggregates, Pathological);
    KeepMembers(aggregates, Disengaged);
    KeepMembers(aggregates, Eligible);
  }

  /** The three classes partition the aggregates. */
  lemma ClassesPartition(aggregates: seq<Aggregate>)
    ensures var s := ParetoSummary(aggregates);
      multiset(s.pathological) + multiset(s.disengaged) + multiset(s.eligible) == multiset(aggregates)
  {
    hide Keep, Pathological, Disengaged, Eligible;
    var s := ParetoSummary(aggregates);
    var classes := multiset(s.pathological) + multiset(s.disengaged) + multiset(s.eligible);
    forall a ensures classes[a] == multiset(aggregates)[a] {
      ClassCounts(aggregates, a);
    }
  }

  lemma ClassCounts(aggregates: seq<Aggregate>, a: Aggregate)
    ensures multiset(Keep(aggregates, Pathological))[a] + multiset(Keep(aggregates, Disengaged))[a] +
            multiset(Keep(aggregates, Eligible))[a] == multiset(aggregates)[a]
  {
    hide Keep;
    KeepCount(aggregates, Pathological, a);
    KeepCount(aggregates, Disengaged, a);
    KeepCount(aggregates, Eligible, a);
  }

  /** Walking down from a dominated set ends on the frontier; `pool` holds what may still be visited. */
  lemma {:induction false} Descend(eligible: seq<Aggregate>, c: Aggregate, pool: set<Aggregate>) returns (f: Aggregate)
    requires c in eligible && !Undominated(c, eligible)
    requires forall a :: a in eligible && Dominates(a, c) ==> a in pool
    ensures f in eligible && Undominated(f, eligible) && Dominates(f, c)
    decreases pool
  {
    var d :| d in eligible && d.id != c.id && Dominates(d, c);
    if Undominated(d, eligible) {
      f := d;
    } else {
      forall a | a in eligible && Dominates(a, d) ensures a in pool - {d} {
        DominanceStrictPartialOrder(a, d, c);
        DominanceStrictPartialOrder(d, d, d);
      }
      f := Descend(eligible, d, pool - {d});
      DominanceStrictPartialOrder(f, d, c);
    }
  }

  /** Cover: every eligible set is on the frontier or dominated by a member of it, even with repeated ids. */
  lemma FrontierCovers(aggregates: seq<Aggregate>, a: Aggregate)
    requires a in aggregates && Eligible(a)
    ensures var frontier := ParetoSummary(aggregates).frontier;
      a in frontier || exists f :: f in frontier && Dominates(f, a)
  {
    var eligible := ParetoSummary(aggregates).eligible;
    FrontierMembers(aggregates, a);
    if !Undominated(a, eligible) {
      var f := Descend(eligible, a, set e | e in eligible);
      FrontierMembers(aggregates, f);
    }
  }

  /** No member dominates another. */
  ghost predicate Antichain(s: seq<Aggregate>) { forall f, g :: f in s && g in s ==> !Dominates(f, g) }

  /** A set dominated under its own id is also dominated under another one; distinct ids meet this at once. */
  ghost predicate Screened(eligible: seq<Aggregate>) {
    forall g, h :: g in eligible && h in eligible && g.id == h.id && Dominates(h, g) ==>
      exists o :: o in eligible && o.id != g.id && Dominates(o, g)
  }

  ghost predicate DistinctIds(aggregates: seq<Aggregate>) {
    forall x, y :: x in aggregates && y in aggregates && x.id == y.id ==> x == y
  }

  lemma DistinctIdsScreened(aggregates: seq<Aggregate>)
    requires DistinctIds(aggregates)
    ensures Screened(ParetoSummary(aggregates).eligible)
  {
    KeepMembers(aggregates, Eligible);
  }

  /** Some frontier member dominates whatever an eligible set dominates. */
  lemma FrontierDominator(aggregates: seq<Aggregate>, h: Aggregate, g: Aggregate) returns (f: Aggregate)
    requires h in ParetoSummary(aggregates).eligible && Dominates(h, g)
    ensures f in ParetoSummary(aggregates).frontier && Dominates(f, g)
  {
    var eligible := ParetoSummary(aggregates).eligible;
    f := h;
    if !Undominated(h, eligible) {
      f := Descend(eligible, h, set e | e in eligible);
      DominanceStrictPartialOrder(f, h, g);
    }
    FrontierMembers(aggregates, f);
  }

  /** Antichain: no frontier member dominates another exactly when the eligible sets are screened. */
  lemma FrontierAntichainIff(aggregates: seq<Aggregate>)
    ensures Antichain(ParetoSummary(aggregates).frontier) <==> Screened(ParetoSummary(aggregates).eligible)
  {
    hide ParetoSummary, Dominates;
    var eligible, frontier := ParetoSummary(aggregates).eligible, ParetoSummary(aggregates).frontier;
    forall a ensures a in frontier <==> a in eligible && Undominated(a, eligible) {
      FrontierMembers(aggregates, a);
    }
    if Antichain(frontier) {
      forall g, h | g in eligible && h in eligible && g.id == h.id && Dominates(h, g)
        ensures exists o :: o in eligible && o.id != g.id && Dominates(o, g)
      {
        var f := FrontierDominator(aggregates, h, g);
      }
    }
  }

  /** With a repeated id the frontier can hold a dominated set. */
  lemma RepeatedIdDominated()
    ensures
      var slow, fast := Aggregate("a", 2.0, 0.0, 0.0, 120.0, 0), Aggregate("a", 1.0, 0.0, 0.0, 120.0, 0);
      var frontier := ParetoSummary([slow, fast]).frontier;
      slow in frontier && fast in frontier && Dominates(fast, slow)
  {
    var slow, fast := Aggregate("a", 2.0, 0.0, 0.0, 120.0, 0), Aggregate("a", 1.0, 0.0, 0.0, 120.0, 0);
    var both := [slow, fast];
    assert slow in both && fast in both && forall o :: o in both ==> o.id == "a";
    KeepMembers(both, Eligible);
    FrontierMembers(both, slow);
    FrontierMembers(both, fast);
  }

  /** A selection of eligible sets that leaves no other eligible set undominated. */
  ghost predicate Covers(cover: set<Aggregate>, eligible: seq<Aggregate>) {
    && (forall c :: c in cover ==> c in eligible)
    && forall a :: a in eligible && a !in cover ==> exists c :: c in cover && Dominates(c, a)
  }

  ghost predicate LeastCover(s: seq<Aggregate>, eligible: seq<Aggregate>) {
    forall cover: set<Aggregate> :: Covers(cover, eligible) ==> forall f :: f in s ==> f in cover
  }

  lemma LeavingOutOneCovers(eligible: seq<Aggregate>, g: Aggregate, h: Aggregate)
    requires g in eligible && h in eligible && Dominates(h, g)
    ensures Covers((set e | e in eligible) - {g}, eligible)
  {
    DominanceStrictPartialOrder(g, g, g);
    assert h in (set e | e in eligible) - {g};
  }

  /** Least cover: every covering selection contains the frontier exactly when the eligible sets are screened. */
  lemma FrontierLeastIff(aggregates: seq<Aggregate>)
    ensures LeastCover(ParetoSummary(aggregates).frontier, ParetoSummary(aggregates).eligible)
       <==> Screened(ParetoSummary(aggregates).eligible)
  {
    hide ParetoSummary, Dominates;
    var eligible, frontier := ParetoSummary(aggregates).eligible, ParetoSummary(aggregates).frontier;
    forall a ensures a in frontier <==> a in eligible && Undominated(a, eligible) {
      FrontierMembers(aggregates, a);
    }
    if LeastCover(frontier, eligible) {
      forall g, h | g in eligible && h in eligible && g.id == h.id && Dominates(h, g)
        ensures exists o :: o in eligible && o.id != g.id && Dominates(o, g)
      {
        LeavingOutOneCovers(eligible, g, h);
        assert g !in (set e | e in eligible) - {g};
      }
    }
  }

  /** The retained sets are the eligible ones, in id order, and the sorted frontier is among them. */
  lemma FrontierRetained(aggregates: seq<Aggregate>)
    ensures Sorted(IdLe(), ParetoSummary(aggregates).frontier) && Sorted(IdLe(), Retained(aggregates))
    ensures forall a :: a in Retained(aggregates) <==>
      a in aggregates && a.pathologicalCount == 0 && a.maximumTemperature >= 100.0
    ensures |Retained(aggregates)| == |ParetoSummary(aggregates).eligible|
    ensures forall f :: f in ParetoSummary(aggregates).frontier ==> f in Retained(aggregates)
  {
    var eligible := Keep(aggregates, Eligible);
    KeepMembers(aggregates, Eligible);
    KeepMembers(eligible, c => Undominated(c, eligible));
    SortMembers(Keep(eligible, c => Undominated(c, eligible)));
    SortMembers(eligible);
    IdLeTotal();
    SortCorrect(eligible, IdLe());
  }

  /**
   Arrival order never changes which sets are on the frontier, nor how often; with no id shared by two
   different frontier members it does not change the published order either.
   */
  lemma FrontierOrderFree(s: seq<Aggregate>, t: seq<Aggregate>)
    requires multiset(s) == multiset(t)
    ensures multiset(ParetoSummary(s).frontier) == multiset(ParetoSummary(t).frontier)
    ensures DistinctIds(ParetoSummary(s).frontier) ==> ParetoSummary(s).frontier == ParetoSummary(t).frontier
  {
    var es, et := Keep(s, Eligible), Keep(t, Eligible);
    KeepMultiset(s, t, Eligible);
    forall c: Aggregate ensures Undominated(c, es) == Undominated(c, et) {
      SameMembers(es, et);
    }
    var fs, ft := Keep(es, c => Undominated(c, es)), Keep(et, c => Undominated(c, et));
    KeepCongruent(es, c => Undominated(c, es), c => Undominated(c, et));
    KeepMultiset(es, et, c => Undominated(c, et));
    IdLeTotal();
    SortCorrect(fs, IdLe());
    SortCorrect(ft, IdLe());
    if DistinctIds(ParetoSummary(s).frontier) {
      SortMembers(fs);
      forall x, y | x in multiset(fs) && y in multiset(fs) && IdLe()(x, y) && IdLe()(y, x) ensures x == y {
        assert x in fs && y in fs;
        StringLeTotal(x.id, y.id);
      }
      SortConfluent(fs, ft, IdLe());
    }
  }
}
