/**
 The refinement anchors of the thermal search: the four healthy and the four hot parameter sets closest
 to their target temperatures (experiments/racing_v3_thermal/screen_local.py).
 */
module Anchors {
  import opened Filtering
  import opened Ordering
  import opened Pareto

  const PER_CLASS := 4

  function Distance(temperature: real, target: real): real {
    if temperature >= target then temperature - target else target - temperature
  }

  predicate Healthy(a: Aggregate) { a.pathologicalCount == 0 }

  /** Key (distance to 120 degrees, id). */
  predicate HealthyLe(a: Aggregate, b: Aggregate) {
    var x, y := Distance(a.maximumTemperature, 120.0), Distance(b.maximumTemperature, 120.0);
    x < y || (x == y && StringLe(a.id, b.id))
  }

  /** Key (pathological executions, distance to 150 degrees, id). */
  predicate HotLe(a: Aggregate, b: Aggregate) {
    var x, y := Distance(a.maximumTemperature, 150.0), Distance(b.maximumTemperature, 150.0);
    if a.pathologicalCount != b.pathologicalCount then a.pathologicalCount < b.pathologicalCount
    else x < y || (x == y && StringLe(a.id, b.id))
  }

  /** The first n in sorted order, or all of them. */
  function Best(s: seq<Aggregate>, le: (Aggregate, Aggregate) -> bool, n: nat): seq<Aggregate> {
    var sorted := Sort(s, le);
    if |sorted| <= n then sorted else sorted[..n]
  }

  function HealthyAnchors(aggregates: seq<Aggregate>): seq<Aggregate> {
    Best(Keep(aggregates, Healthy), HealthyLe, PER_CLASS)
  }

  function HotAnchors(aggregates: seq<Aggregate>): seq<Aggregate> {
    Best(Keep(aggregates, Pathological), HotLe, PER_CLASS)
  }

  function Chosen(aggregates: seq<Aggregate>): seq<Aggregate> { HealthyAnchors(aggregates) + HotAnchors(aggregates) }

  lemma OrdersTotal()
    ensures TotalPreorder(HealthyLe) && TotalPreorder(HotLe)
  {
    hide StringLe, Distance;
    forall a, b ensures (HealthyLe(a, b) || HealthyLe(b, a)) && (HotLe(a, b) || HotLe(b, a)) {
      StringLeTotal(a.id, b.id);
    }
    forall a, b, c
      ensures HealthyLe(a, b) && HealthyLe(b, c) ==> HealthyLe(a, c)
      ensures HotLe(a, b) && HotLe(b, c) ==> HotLe(a, c)
    {
      if StringLe(a.id, b.id) && StringLe(b.id, c.id) {
        StringLeTransitive(a.id, b.id, c.id);
      }
    }
  }

  /** As many as asked for when there are enough, in order, and none is left out for one that sorts after it. */
  lemma BestOf(s: seq<Aggregate>, le: (Aggregate, Aggregate) -> bool, n: nat)
    requires TotalPreorder(le)
    ensures var best := Best(s, le, n);
      && |best| == (if |s| <= n then |s| else n) && Sorted(le, best)
      && (forall a :: a in best ==> a in s)
      && forall a, b :: a in best && b in s && b !in best ==> le(a, b)
  {
    SortCorrect(s, le);
    var sorted, best := Sort(s, le), Best(s, le, n);
    SameMembers(sorted, s);
    forall a, b | a in best && b in s && b !in best ensures le(a, b) {
      var i :| 0 <= i < |best| && best[i] == a;
      assert b in sorted;
      var j :| 0 <= j < |sorted| && sorted[j] == b;
      assert best[i] == sorted[i] && j >= |best|;
    }
  }

  /** The anchors: up to four of each class, the closest ones, healthy before hot, and some whenever there is any set. */
  lemma AnchorsClosest(aggregates: seq<Aggregate>)
    ensures var healthy, hot := HealthyAnchors(aggregates), HotAnchors(aggregates);
      && |healthy| <= PER_CLASS && |hot| <= PER_CLASS
      && (forall a :: a in healthy ==> a in aggregates && Healthy(a))
      && (forall a :: a in hot ==> a in aggregates && !Healthy(a))
      && (forall a, b :: a in healthy && b in aggregates && Healthy(b) && b !in healthy ==>
            |healthy| == PER_CLASS && HealthyLe(a, b))
      && (forall a, b :: a in hot && b in aggregates && !Healthy(b) && b !in hot ==> |hot| == PER_CLASS && HotLe(a, b))
    ensures Chosen(aggregates) == [] <==> aggregates == []
  {
    hide Best, HealthyLe, HotLe;
    var healthy, hot := Keep(aggregates, Healthy), Keep(aggregates, Pathological);
    OrdersTotal();
    BestOf(healthy, HealthyLe, PER_CLASS);
    BestOf(hot, HotLe, PER_CLASS);
    KeepMembers(aggregates, Healthy);
    KeepMembers(aggregates, Pathological);
    AllTaken(healthy, HealthyLe, PER_CLASS);
    AllTaken(hot, HotLe, PER_CLASS);
    if aggregates != [] {
      assert aggregates[0] in healthy || aggregates[0] in hot;
    }
  }

  /** In degrees: no set left out is closer to its target, and for hot sets none has fewer bad executions. */
  lemma AnchorsNearest(aggregates: seq<Aggregate>, a: Aggregate, b: Aggregate)
    requires b in aggregates && b !in Chosen(aggregates)
    ensures a in HealthyAnchors(aggregates) && b.pathologicalCount == 0 ==>
      && |HealthyAnchors(aggregates)| == 4
      && (a.maximumTemperature - 120.0 <= 0.0 || Beyond(b.maximumTemperature, 120.0, a.maximumTemperature - 120.0))
      && (a.maximumTemperature - 120.0 >= 0.0 || Beyond(b.maximumTemperature, 120.0, 120.0 - a.maximumTemperature))
    ensures a in HotAnchors(aggregates) && b.pathologicalCount > 0 ==>
      && |HotAnchors(aggregates)| == 4
      && a.pathologicalCount <= b.pathologicalCount
      && (a.pathologicalCount == b.pathologicalCount ==>
            && (a.maximumTemperature - 150.0 <= 0.0 || Beyond(b.maximumTemperature, 150.0, a.maximumTemperature - 150.0))
            && (a.maximumTemperature - 150.0 >= 0.0 || Beyond(b.maximumTemperature, 150.0, 150.0 - a.maximumTemperature)))
  {
    hide Best, StringLe;
    AnchorsClosest(aggregates);
  }

  /** The temperature lies at least this far from the target. */
  predicate Beyond(temperature: real, target: real, far: real) {
    temperature >= target + far || temperature <= target - far
  }

  lemma AllTaken(s: seq<Aggregate>, le: (Aggregate, Aggregate) -> bool, n: nat)
    requires TotalPreorder(le)
    ensures |s| <= n ==> forall b :: b in s ==> b in Best(s, le, n)
  {
    SortCorrect(s, le);
    SameMembers(Sort(s, le), s);
  }

  /** With distinct ids the anchors do not depend on the order of the aggregates. */
  lemma AnchorsOrderFree(s: seq<Aggregate>, t: seq<Aggregate>)
    requires multiset(s) == multiset(t) && DistinctIds(s)
    ensures Chosen(s) == Chosen(t)
  {
    hide HealthyLe, HotLe;
    OrdersTotal();
    KeepMultiset(s, t, Healthy);
    KeepMultiset(s, t, Pathological);
    KeepMembers(s, Healthy);
    KeepMembers(s, Pathological);
    NoTiesByDistinctIds(Keep(s, Healthy));
    NoTiesByDistinctIds(Keep(s, Pathological));
    SortConfluent(Keep(s, Healthy), Keep(t, Healthy), HealthyLe);
    SortConfluent(Keep(s, Pathological), Keep(t, Pathological), HotLe);
  }

  lemma NoTiesByDistinctIds(s: seq<Aggregate>)
    requires DistinctIds(s)
    ensures NoTies(HealthyLe, multiset(s)) && NoTies(HotLe, multiset(s))
  {
    hide StringLe, Distance;
    forall x, y | x in multiset(s) && y in multiset(s)
      ensures HealthyLe(x, y) && HealthyLe(y, x) ==> x == y
      ensures HotLe(x, y) && HotLe(y, x) ==> x == y
    {
      assert x in s && y in s;
      StringLeTotal(x.id, y.id);
    }
  }
}
