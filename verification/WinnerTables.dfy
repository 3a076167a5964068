/**
 Winner tables over full-factorial rows (experiments/racing_v3_driver_control/review_v11_shortlist.py)
 and the universal-winner checks (experiments/racing_v3_driver_control/screen_local.py).
 A Counter is a multiset; the tables are specified on the set of rows, so their order cannot matter.
 */
module WinnerTables {
  import opened Counting
  import opened Ordering

  datatype Context = Context(circuit: string, horizon: string, tire: string, seed: int)
  datatype Row = Row(family: string, context: Context, driver: string, mode: string, meanLap: real)
  datatype Group = Group(context: Context, driver: string)

  const FULL := "archetype.full-factorial"

  // ----- Order of candidates -----

  /** Key (mean lap, mode) inside one driver's group. */
  function DriverLe(): (Row, Row) -> bool {
    (a: Row, b: Row) => a.meanLap < b.meanLap || (a.meanLap == b.meanLap && StringLe(a.mode, b.mode))
  }

  /** Key (mean lap, driver, mode) across drivers. */
  function GlobalLe(): (Row, Row) -> bool {
    (a: Row, b: Row) =>
      a.meanLap < b.meanLap ||
      (a.meanLap == b.meanLap &&
       (if a.driver == b.driver then StringLe(a.mode, b.mode) else StringLe(a.driver, b.driver)))
  }

  lemma KeysTotal()
    ensures TotalPreorder(DriverLe()) && TotalPreorder(GlobalLe())
  {
    forall x: Row, y: Row
      ensures DriverLe()(x, y) || DriverLe()(y, x)
      ensures GlobalLe()(x, y) || GlobalLe()(y, x)
    {
      StringLeTotal(x.mode, y.mode);
      StringLeTotal(x.driver, y.driver);
    }
    forall x: Row, y: Row, z: Row | DriverLe()(x, y) && DriverLe()(y, z) ensures DriverLe()(x, z) {
      if x.meanLap == y.meanLap == z.meanLap {
        StringLeTransitive(x.mode, y.mode, z.mode);
      }
    }
    forall x: Row, y: Row, z: Row | GlobalLe()(x, y) && GlobalLe()(y, z) ensures GlobalLe()(x, z) {
      GlobalLeTransitive(x, y, z);
    }
  }

  lemma GlobalLeTransitive(x: Row, y: Row, z: Row)
    requires GlobalLe()(x, y) && GlobalLe()(y, z)
    ensures GlobalLe()(x, z)
  {
    if x.meanLap == y.meanLap == z.meanLap {
      if x.driver == y.driver == z.driver {
        StringLeTransitive(x.mode, y.mode, z.mode);
      } else if x.driver != y.driver && y.driver != z.driver {
        StringLeTransitive(x.driver, y.driver, z.driver);
        StringLeTotal(x.driver, y.driver);
      }
    }
  }

  // ----- Winners, on sets of rows -----

  ghost predicate IsDriverWinner(s: set<Row>, g: Group, w: Row) {
    && w in s && w.context == g.context && w.driver == g.driver
    && forall r :: r in s && r.context == g.context && r.driver == g.driver ==> DriverLe()(w, r)
  }

  ghost predicate IsGlobalWinner(s: set<Row>, c: Context, w: Row) {
    && w in s && w.context == c
    && forall r :: r in s && r.context == c ==> GlobalLe()(w, r)
  }

  /** Ties cannot change the winning mode. */
  lemma DriverWinnerUnique(s: set<Row>, g: Group, v: Row, w: Row)
    requires IsDriverWinner(s, g, v) && IsDriverWinner(s, g, w)
    ensures v.mode == w.mode
  {
    assert DriverLe()(v, w) && DriverLe()(w, v);
    StringLeTotal(v.mode, w.mode);
  }

  lemma GlobalWinnerUnique(s: set<Row>, c: Context, v: Row, w: Row)
    requires IsGlobalWinner(s, c, v) && IsGlobalWinner(s, c, w)
    ensures v.mode == w.mode && v.driver == w.driver
  {
    assert GlobalLe()(v, w) && GlobalLe()(w, v);
    StringLeTotal(v.driver, w.driver);
    StringLeTotal(v.mode, w.mode);
  }

  /** The fastest row of a context is also the fastest of its own driver there. */
  lemma GlobalWinnerWinsOwnGroup(s: set<Row>, c: Context, w: Row)
    requires IsGlobalWinner(s, c, w)
    ensures IsDriverWinner(s, Group(c, w.driver), w)
  {
    forall r | r in s && r.context == c && r.driver == w.driver ensures DriverLe()(w, r) {
      assert GlobalLe()(w, r);
    }
  }

  ghost function DriverMode(s: set<Row>, g: Group): string {
    if exists w :: IsDriverWinner(s, g, w) then (var w :| IsDriverWinner(s, g, w); w.mode) else ""
  }

  ghost function GlobalPair(s: set<Row>, c: Context): (string, string) {
    if exists w :: IsGlobalWinner(s, c, w) then (var w :| IsGlobalWinner(s, c, w); (w.driver, w.mode)) else ("", "")
  }

  function PairKey(driver: string, mode: string): string { driver + ":" + mode }

  ghost function GlobalKey(s: set<Row>, c: Context): string { PairKey(GlobalPair(s, c).0, GlobalPair(s, c).1) }

  ghost function Groups(s: set<Row>): set<Group> { set r | r in s :: Group(r.context, r.driver) }

  ghost function Contexts(s: set<Row>): set<Context> { set r | r in s :: r.context }

  /** What the tables are counted by. */
  ghost function WinningMode(s: set<Row>): Group -> string { (g: Group) => DriverMode(s, g) }
  ghost function KeyIn(s: set<Row>): Context -> string { (c: Context) => GlobalKey(s, c) }
  ghost function ModeIn(s: set<Row>): Context -> string { (c: Context) => GlobalPair(s, c).1 }
  ghost function DriverOf(): Group -> string { (g: Group) => g.driver }
  ghost function HorizonOf(): Group -> string { (g: Group) => g.context.horizon }

  // ----- Tallies -----

  ghost function Labelled<G(!new)>(groups: set<G>, tag: G -> string, l: string): set<G> {
    set g | g in groups && tag(g) == l
  }

  /** The counter holds every tag as often as some group carries it. */
  ghost predicate Tally<G(!new)>(c: multiset<string>, groups: set<G>, tag: G -> string) {
    forall l :: c[l] == |Labelled(groups, tag, l)|
  }

  lemma TallyAdd<G(!new)>(c: multiset<string>, groups: set<G>, tag: G -> string, g: G)
    requires Tally(c, groups, tag) && g !in groups
    ensures Tally(c + multiset{tag(g)}, groups + {g}, tag)
  {
    forall l ensures (c + multiset{tag(g)})[l] == |Labelled(groups + {g}, tag, l)| {
      if tag(g) == l {
        assert Labelled(groups + {g}, tag, l) == Labelled(groups, tag, l) + {g};
      } else {
        assert Labelled(groups + {g}, tag, l) == Labelled(groups, tag, l);
      }
    }
  }

  ghost function Part<G(!new)>(groups: set<G>, part: G -> string, p: string): set<G> {
    set g | g in groups && part(g) == p
  }

  /** One counter per part that occurs. */
  ghost predicate TallyBy<G(!new)>(t: map<string, multiset<string>>, groups: set<G>, part: G -> string, tag: G -> string) {
    && (forall p :: p in t <==> Part(groups, part, p) != {})
    && forall p :: p in t ==> Tally(t[p], Part(groups, part, p), tag)
  }

  function Bump(t: map<string, multiset<string>>, p: string, l: string): map<string, multiset<string>> {
    t[p := (if p in t then t[p] else multiset{}) + multiset{l}]
  }

  lemma TallyByAdd<G(!new)>(
    t: map<string, multiset<string>>, groups: set<G>, part: G -> string, tag: G -> string, g: G)
    requires TallyBy(t, groups, part, tag) && g !in groups
    ensures TallyBy(Bump(t, part(g), tag(g)), groups + {g}, part, tag)
  {
    hide Tally, Part;
    var t', groups' := Bump(t, part(g), tag(g)), groups + {g};
    forall p ensures p in t' <==> Part(groups', part, p) != {}
             ensures p in t' ==> Tally(t'[p], Part(groups', part, p), tag)
    {
      PartAdd(groups, part, g, p);
      if p == part(g) {
        if p !in t {
          EmptyTally(Part(groups, part, p), tag);
        }
        TallyAdd(if p in t then t[p] else multiset{}, Part(groups, part, p), tag, g);
      }
    }
  }

  lemma PartAdd<G(!new)>(groups: set<G>, part: G -> string, g: G, p: string)
    ensures Part(groups + {g}, part, p) == if p == part(g) then Part(groups, part, p) + {g} else Part(groups, part, p)
    ensures g !in groups ==> g !in Part(groups, part, p)
  {
  }

  lemma EmptyTally<G(!new)>(groups: set<G>, tag: G -> string)
    requires groups == {}
    ensures Tally(multiset{}, groups, tag)
  {
    forall l ensures Labelled(groups, tag, l) == {} {
    }
  }

  lemma TallyUnique<G(!new)>(c: multiset<string>, d: multiset<string>, groups: set<G>, tag: G -> string)
    requires Tally(c, groups, tag) && Tally(d, groups, tag)
    ensures c == d
  {
    forall l ensures c[l] == d[l] {
    }
  }

  // ----- The report -----

  datatype Tables = Tables(
    groupCount: nat,
    modes: multiset<string>,
    modesByHorizon: map<string, multiset<string>>,
    modesByDriver: map<string, multiset<string>>,
    contextCount: nat,
    global: multiset<string>)

  ghost predicate Reports(s: set<Row>, t: Tables) {
    && t.groupCount == |Groups(s)|
    && Tally(t.modes, Groups(s), WinningMode(s))
    && TallyBy(t.modesByHorizon, Groups(s), HorizonOf(), WinningMode(s))
    && TallyBy(t.modesByDriver, Groups(s), DriverOf(), WinningMode(s))
    && t.contextCount == |Contexts(s)|
    && Tally(t.global, Contexts(s), KeyIn(s))
  }

  function FullTo(rows: seq<Row>, n: nat): set<Row>
    requires n <= |rows|
  {
    set r | r in rows[..n] && r.family == FULL
  }

  /** A dictionary of lists that splits the rows by a key. */
  ghost predicate Grouped<K(!new)>(d: map<K, seq<Row>>, s: set<Row>, key: Row -> K) {
    && (forall k :: k in d ==> d[k] != [] && forall r :: r in d[k] ==> r in s && key(r) == k)
    && forall r :: r in s ==> key(r) in d && r in d[key(r)]
  }

  function AddTo<K>(d: map<K, seq<Row>>, k: K, r: Row): map<K, seq<Row>> {
    d[k := (if k in d then d[k] else []) + [r]]
  }

  lemma GroupedAdd<K(!new)>(d: map<K, seq<Row>>, s: set<Row>, key: Row -> K, r: Row)
    requires Grouped(d, s, key)
    ensures Grouped(AddTo(d, key(r), r), s + {r}, key)
  {
  }

  function GroupOf(): Row -> Group { (r: Row) => Group(r.context, r.driver) }

  function ContextOf(): Row -> Context { (r: Row) => r.context }

  method GroupRows(rows: seq<Row>) returns (within: map<Group, seq<Row>>, across: map<Context, seq<Row>>)
    ensures var s := FullTo(rows, |rows|);
      && Grouped(within, s, GroupOf()) && within.Keys == Groups(s)
      && Grouped(across, s, ContextOf()) && across.Keys == Contexts(s)
  {
    within, across := map[], map[];
    hide Grouped;
    GroupedNone(GroupOf());
    GroupedNone(ContextOf());
    assert FullTo(rows, 0) == {};
    for k := 0 to |rows|
      invariant Grouped(within, FullTo(rows, k), GroupOf())
      invariant Grouped(across, FullTo(rows, k), ContextOf())
    {
      var row := rows[k];
      assert rows[..k + 1] == rows[..k] + [row];
      if row.family == FULL {
        assert FullTo(rows, k + 1) == FullTo(rows, k) + {row};
        GroupedAdd(within, FullTo(rows, k), GroupOf(), row);
        GroupedAdd(across, FullTo(rows, k), ContextOf(), row);
        within := AddTo(within, Group(row.context, row.driver), row);
        across := AddTo(across, row.context, row);
      } else {
        assert FullTo(rows, k + 1) == FullTo(rows, k);
      }
    }
    GroupKeys(within, across, FullTo(rows, |rows|));
  }

  lemma GroupedNone<K(!new)>(key: Row -> K)
    ensures Grouped(map[], {}, key)
  {
  }

  lemma GroupKeys(within: map<Group, seq<Row>>, across: map<Context, seq<Row>>, s: set<Row>)
    requires Grouped(within, s, GroupOf()) && Grouped(across, s, ContextOf())
    ensures within.Keys == Groups(s) && across.Keys == Contexts(s)
  {
    forall g | g in within ensures g in Groups(s) {
      var r := within[g][0];
      assert r in within[g];
      assert GroupOf()(r) == g;
    }
    forall c | c in across ensures c in Contexts(s) {
      var r := across[c][0];
      assert r in across[c];
      assert ContextOf()(r) == c;
    }
    forall r | r in s ensures Group(r.context, r.driver) in within && r.context in across {
      assert GroupOf()(r) in within && ContextOf()(r) in across;
    }
  }

  /** The least row of a driver's list wins its group. */
  lemma ListWinnerDriver(within: map<Group, seq<Row>>, s: set<Row>, g: Group)
    requires Grouped(within, s, GroupOf()) && g in within
    ensures MinBy(within[g], DriverLe()).mode == DriverMode(s, g)
    ensures MinBy(within[g], DriverLe()).context == g.context && MinBy(within[g], DriverLe()).driver == g.driver
  {
    var w := MinBy(within[g], DriverLe());
    KeysTotal();
    MinByLeast(within[g], DriverLe());
    assert GroupOf()(w) == g;
    forall r | r in s && r.context == g.context && r.driver == g.driver ensures DriverLe()(w, r) {
      assert GroupOf()(r) == g;
    }
    assert IsDriverWinner(s, g, w);
    var v :| IsDriverWinner(s, g, v) && v.mode == DriverMode(s, g);
    DriverWinnerUnique(s, g, v, w);
  }

  lemma ListWinnerGlobal(across: map<Context, seq<Row>>, s: set<Row>, c: Context)
    requires Grouped(across, s, ContextOf()) && c in across
    ensures var w := MinBy(across[c], GlobalLe());
      (w.driver, w.mode) == GlobalPair(s, c) && PairKey(w.driver, w.mode) == GlobalKey(s, c)
  {
    var w := MinBy(across[c], GlobalLe());
    KeysTotal();
    MinByLeast(across[c], GlobalLe());
    assert ContextOf()(w) == c;
    forall r | r in s && r.context == c ensures GlobalLe()(w, r) {
      assert ContextOf()(r) == c;
    }
    assert IsGlobalWinner(s, c, w);
    GlobalPairIs(s, c, w);
  }

  lemma GlobalPairIs(s: set<Row>, c: Context, w: Row)
    requires IsGlobalWinner(s, c, w)
    ensures GlobalPair(s, c) == (w.driver, w.mode)
  {
    var v :| IsGlobalWinner(s, c, v) && (v.driver, v.mode) == GlobalPair(s, c);
    GlobalWinnerUnique(s, c, v, w);
  }

  method CountDriverWinners(within: map<Group, seq<Row>>, ghost s: set<Row>)
    returns (modes: multiset<string>, byHorizon: map<string, multiset<string>>, byDriver: map<string, multiset<string>>)
    requires Grouped(within, s, GroupOf())
    ensures Tally(modes, within.Keys, WinningMode(s))
    ensures TallyBy(byHorizon, within.Keys, HorizonOf(), WinningMode(s))
    ensures TallyBy(byDriver, within.Keys, DriverOf(), WinningMode(s))
  {
    ghost var modeOf := WinningMode(s);
    ghost var horizonOf := HorizonOf();
    ghost var driverOf := DriverOf();
    hide Grouped, Tally, TallyBy, DriverMode, MinBy;
    modes, byHorizon, byDriver := multiset{}, map[], map[];
    var todo := within.Keys;
    ghost var done: set<Group> := {};
    TalliesStart(modeOf, horizonOf, driverOf);
    while todo != {}
      invariant todo <= within.Keys && done == within.Keys - todo
      invariant Tally(modes, done, modeOf)
      invariant TallyBy(byHorizon, done, horizonOf, modeOf)
      invariant TallyBy(byDriver, done, driverOf, modeOf)
      decreases todo
    {
      var g :| g in todo;
      NonemptyLists(within, s, GroupOf(), g);
      var winner := MinBy(within[g], DriverLe());
      ListWinnerDriver(within, s, g);
      TallyAdd(modes, done, modeOf, g);
      TallyByAdd(byHorizon, done, horizonOf, modeOf, g);
      TallyByAdd(byDriver, done, driverOf, modeOf, g);
      modes := modes + multiset{winner.mode};
      byHorizon := Bump(byHorizon, winner.context.horizon, winner.mode);
      byDriver := Bump(byDriver, winner.driver, winner.mode);
      todo, done := todo - {g}, done + {g};
    }
    assert done == within.Keys;
  }

  /** Tallies the outright winners, by printed pair and by mode. */
  method CountGlobalWinners(across: map<Context, seq<Row>>, ghost s: set<Row>)
    returns (pairs: multiset<string>, modes: multiset<string>)
    requires Grouped(across, s, ContextOf())
    ensures Tally(pairs, across.Keys, KeyIn(s))
    ensures Tally(modes, across.Keys, ModeIn(s))
  {
    ghost var keyOf := KeyIn(s);
    ghost var modeOf := ModeIn(s);
    hide Grouped, Tally, GlobalKey, GlobalPair, MinBy;
    pairs, modes := multiset{}, multiset{};
    var todo := across.Keys;
    ghost var done: set<Context> := {};
    EmptyTally({}, keyOf);
    EmptyTally({}, modeOf);
    while todo != {}
      invariant todo <= across.Keys && done == across.Keys - todo
      invariant Tally(pairs, done, keyOf) && Tally(modes, done, modeOf)
      decreases todo
    {
      var c :| c in todo;
      NonemptyLists(across, s, ContextOf(), c);
      var winner := MinBy(across[c], GlobalLe());
      ListWinnerGlobal(across, s, c);
      TallyAdd(pairs, done, keyOf, c);
      TallyAdd(modes, done, modeOf, c);
      pairs := pairs + multiset{PairKey(winner.driver, winner.mode)};
      modes := modes + multiset{winner.mode};
      todo, done := todo - {c}, done + {c};
    }
    assert done == across.Keys;
  }

  method WinnerCounts(rows: seq<Row>) returns (t: Tables)
    ensures Reports(FullTo(rows, |rows|), t)
  {
    hide Grouped, Tally, TallyBy;
    var within, across := GroupRows(rows);
    ghost var s := FullTo(rows, |rows|);
    var modes, byHorizon, byDriver := CountDriverWinners(within, s);
    var global, _ := CountGlobalWinners(across, s);
    t := Tables(|within|, modes, byHorizon, byDriver, |across|, global);
  }

  lemma TalliesStart(modeOf: Group -> string, horizonOf: Group -> string, driverOf: Group -> string)
    ensures Tally(multiset{}, {}, modeOf)
    ensures TallyBy(map[], {}, horizonOf, modeOf) && TallyBy(map[], {}, driverOf, modeOf)
  {
    EmptyTally({}, modeOf);
    assert forall p :: Part({}, horizonOf, p) == {} && Part({}, driverOf, p) == {};
  }

  lemma NonemptyLists<K(!new)>(d: map<K, seq<Row>>, s: set<Row>, key: Row -> K, k: K)
    requires Grouped(d, s, key) && k in d
    ensures d[k] != []
  {
  }

  // ----- Theorems -----

  /** The tables are determined by the set of rows: no permutation or repetition of rows changes them. */
  lemma TablesOrderFree(rows: seq<Row>, rows': seq<Row>, t: Tables, t': Tables)
    requires forall r :: r in rows <==> r in rows'
    requires Reports(FullTo(rows, |rows|), t) && Reports(FullTo(rows', |rows'|), t')
    ensures t == t'
  {
    var s := FullTo(rows, |rows|);
    assert s == FullTo(rows', |rows'|) by {
      assert rows[..|rows|] == rows && rows'[..|rows'|] == rows';
    }
    var modeOf := WinningMode(s);
    TallyUnique(t.modes, t'.modes, Groups(s), modeOf);
    TallyUnique(t.global, t'.global, Contexts(s), KeyIn(s));
    TallyByUnique(t.modesByHorizon, t'.modesByHorizon, Groups(s), HorizonOf(), modeOf);
    TallyByUnique(t.modesByDriver, t'.modesByDriver, Groups(s), DriverOf(), modeOf);
  }

  lemma TallyByUnique<G(!new)>(
    t: map<string, multiset<string>>, t': map<string, multiset<string>>, groups: set<G>, part: G -> string, tag: G -> string)
    requires TallyBy(t, groups, part, tag) && TallyBy(t', groups, part, tag)
    ensures t == t'
  {
    forall p ensures p in t <==> p in t'
             ensures p in t && p in t' ==> t[p] == t'[p]
    {
      if p in t && p in t' {
        TallyUnique(t[p], t'[p], Part(groups, part, p), tag);
      }
    }
  }

  /** A counter has one entry per group. */
  lemma {:induction false} TallySize<G(!new)>(c: multiset<string>, groups: set<G>, tag: G -> string)
    requires Tally(c, groups, tag)
    ensures |c| == |groups|
    decreases groups
  {
    if groups == {} {
      EmptyTally(groups, tag);
      TallyUnique(c, multiset{}, groups, tag);
    } else {
      var g :| g in groups;
      var before := TallyExists(groups - {g}, tag);
      TallySize(before, groups - {g}, tag);
      TallyAdd(before, groups - {g}, tag, g);
      assert groups - {g} + {g} == groups;
      TallyUnique(c, before + multiset{tag(g)}, groups, tag);
    }
  }

  ghost function Pick(keys: set<string>): (k: string)
    requires keys != {}
    ensures k in keys
  {
    var k :| k in keys;
    k
  }

  ghost function SumOver(keys: set<string>, f: string -> nat): nat {
    if keys == {} then 0 else f(Pick(keys)) + SumOver(keys - {Pick(keys)}, f)
  }

  /** The sizes of the parts of a finite set add up to its size. */
  lemma {:induction false} PartSizes<G(!new)>(keys: set<string>, f: string -> nat, groups: set<G>, part: G -> string)
    requires forall g :: g in groups ==> part(g) in keys
    requires forall p :: p in keys ==> f(p) == |Part(groups, part, p)|
    ensures SumOver(keys, f) == |groups|
  {
    hide Part;
    if keys == {} {
      assert groups == {};
    } else {
      var k := Pick(keys);
      var mine, rest := Part(groups, part, k), groups - Part(groups, part, k);
      PartSplit(groups, part, k);
      forall p | p in keys - {k} ensures f(p) == |Part(rest, part, p)| {
        PartRest(groups, part, k, p);
      }
      PartSizes(keys - {k}, f, rest, part);
    }
  }

  lemma PartSplit<G(!new)>(groups: set<G>, part: G -> string, k: string)
    ensures |groups| == |Part(groups, part, k)| + |groups - Part(groups, part, k)|
    ensures forall g :: g in groups - Part(groups, part, k) ==> g in groups && part(g) != k
  {
    assert groups == Part(groups, part, k) + (groups - Part(groups, part, k));
  }

  lemma PartRest<G(!new)>(groups: set<G>, part: G -> string, k: string, p: string)
    requires p != k
    ensures Part(groups - Part(groups, part, k), part, p) == Part(groups, part, p)
  {
  }

  ghost function EntriesOf(t: map<string, multiset<string>>, m: string): string -> nat {
    (p: string) => if p in t then t[p][m] else 0
  }

  ghost function SizesOf(t: map<string, multiset<string>>): string -> nat {
    (p: string) => if p in t then |t[p]| else 0
  }

  /** Counters per part: entries of one mode, or all entries, over all parts. */
  ghost function ModeOver(t: map<string, multiset<string>>, m: string): nat {
    SumOver(t.Keys, EntriesOf(t, m))
  }

  ghost function SizeOver(t: map<string, multiset<string>>): nat {
    SumOver(t.Keys, SizesOf(t))
  }

  lemma PartsAddUp<G(!new)>(
    t: map<string, multiset<string>>, c: multiset<string>, groups: set<G>, part: G -> string, tag: G -> string, m: string)
    requires TallyBy(t, groups, part, tag) && Tally(c, groups, tag)
    ensures ModeOver(t, m) == c[m] && SizeOver(t) == |groups|
  {
    forall g | g in groups ensures part(g) in t {
      assert g in Part(groups, part, part(g));
    }
    var won := Labelled(groups, tag, m);
    forall p | p in t ensures t[p][m] == |Part(won, part, p)| && |t[p]| == |Part(groups, part, p)| {
      assert Labelled(Part(groups, part, p), tag, m) == Part(won, part, p);
      TallySize(t[p], Part(groups, part, p), tag);
    }
    PartSizes(t.Keys, EntriesOf(t, m), won, part);
    PartSizes(t.Keys, SizesOf(t), groups, part);
  }

  /**
   The tables agree with each other: for every mode the wins over all drivers, and over all horizons, add
   up to the mode's total; each table has as many entries as there are groups, or contexts.
   */
  lemma Marginals(s: set<Row>, t: Tables, m: string)
    requires Reports(s, t)
    ensures ModeOver(t.modesByDriver, m) == t.modes[m] == ModeOver(t.modesByHorizon, m)
    ensures |t.modes| == SizeOver(t.modesByDriver) == SizeOver(t.modesByHorizon) == t.groupCount
    ensures |t.global| == t.contextCount
  {
    hide Tally, TallyBy, DriverMode, GlobalKey, ModeOver, SizeOver;
    var modeOf, keyOf := WinningMode(s), KeyIn(s);
    PartsAddUp(t.modesByDriver, t.modes, Groups(s), DriverOf(), modeOf, m);
    PartsAddUp(t.modesByHorizon, t.modes, Groups(s), HorizonOf(), modeOf, m);
    TallySize(t.modes, Groups(s), modeOf);
    TallySize(t.global, Contexts(s), keyOf);
  }

  /** The row is a fastest one of the driver there, the first in code-point order of modes among equals. */
  ghost predicate WinsGroup(s: set<Row>, g: Group, w: Row) {
    && w in s && w.context == g.context && w.driver == g.driver
    && forall r :: r in s && r.context == g.context && r.driver == g.driver ==>
         w.meanLap < r.meanLap || (w.meanLap == r.meanLap && StringLe(w.mode, r.mode))
  }

  ghost predicate WinsWith(s: set<Row>, g: Group, m: string) { exists w :: WinsGroup(s, g, w) && w.mode == m }

  /** The row is a fastest row of its context, by driver and then by mode among equals. */
  ghost predicate WinsOutright(s: set<Row>, w: Row) {
    && w in s
    && forall r :: r in s && r.context == w.context ==>
         || w.meanLap < r.meanLap
         || (w.meanLap == r.meanLap && w.driver != r.driver && StringLe(w.driver, r.driver))
         || (w.meanLap == r.meanLap && w.driver == r.driver && StringLe(w.mode, r.mode))
  }

  ghost predicate Prints(s: set<Row>, c: Context, key: string) {
    exists w :: WinsOutright(s, w) && w.context == c && w.driver + ":" + w.mode == key
  }

  lemma {:induction false} DriverLeast(rows: set<Row>) returns (w: Row)
    requires rows != {} && TotalPreorder(DriverLe())
    ensures w in rows && forall r :: r in rows ==> DriverLe()(w, r)
  {
    var r :| r in rows;
    if rows == {r} {
      w := r;
    } else {
      assert rows - {r} != {};
      var v := DriverLeast(rows - {r});
      w := if DriverLe()(v, r) then v else r;
    }
  }

  lemma WinsGroupIff(s: set<Row>, g: Group, w: Row)
    ensures WinsGroup(s, g, w) <==> IsDriverWinner(s, g, w)
  {
    hide StringLe;
  }

  lemma DriverWinnerExists(s: set<Row>, g: Group) returns (w: Row)
    requires g in Groups(s)
    ensures IsDriverWinner(s, g, w)
  {
    hide StringLe;
    KeysTotal();
    var rows := set r | r in s && r.context == g.context && r.driver == g.driver;
    var r0 :| r0 in s && Group(r0.context, r0.driver) == g;
    assert r0 in rows;
    w := DriverLeast(rows);
  }

  lemma WinsWithIff(s: set<Row>, g: Group, m: string)
    requires g in Groups(s)
    ensures WinsWith(s, g, m) <==> DriverMode(s, g) == m
  {
    hide WinsGroup, IsDriverWinner, Groups;
    var least := DriverWinnerExists(s, g);
    var v :| IsDriverWinner(s, g, v) && v.mode == DriverMode(s, g);
    WinsGroupIff(s, g, v);
    if WinsWith(s, g, m) {
      var w :| WinsGroup(s, g, w) && w.mode == m;
      WinsGroupIff(s, g, w);
      DriverWinnerUnique(s, g, v, w);
    }
  }

  lemma PrintsIff(s: set<Row>, c: Context, key: string)
    requires c in Contexts(s)
    ensures Prints(s, c, key) <==> GlobalKey(s, c) == key
  {
    hide StringLe;
    var v := WinnerExists(s, c);
    GlobalPairIs(s, c, v);
    assert WinsOutright(s, v) && v.context == c;
    if Prints(s, c, key) {
      var w :| WinsOutright(s, w) && w.context == c && w.driver + ":" + w.mode == key;
      assert IsGlobalWinner(s, c, w);
      GlobalWinnerUnique(s, c, v, w);
    }
  }

  ghost function Count(t: map<string, multiset<string>>, part: string, m: string): nat {
    if part in t then t[part][m] else 0
  }

  lemma CountIs<G(!new)>(
    t: map<string, multiset<string>>, groups: set<G>, part: G -> string, tag: G -> string, p: string, m: string)
    requires TallyBy(t, groups, part, tag)
    ensures Count(t, p, m) == |Labelled(Part(groups, part, p), tag, m)|
  {
    if p !in t {
      assert Labelled(Part(groups, part, p), tag, m) == {};
    }
  }

  /** Every number of the report, said on the rows. */
  lemma TablesMean(s: set<Row>, t: Tables, horizon: string, driver: string, m: string)
    requires Reports(s, t)
    ensures t.modes[m] == |set g | g in Groups(s) && WinsWith(s, g, m)|
    ensures Count(t.modesByHorizon, horizon, m) == |set g | g in Groups(s) && g.context.horizon == horizon && WinsWith(s, g, m)|
    ensures Count(t.modesByDriver, driver, m) == |set g | g in Groups(s) && g.driver == driver && WinsWith(s, g, m)|
    ensures t.global[m] == |set c | c in Contexts(s) && Prints(s, c, m)|
    ensures t.groupCount == |set r | r in s :: (r.context, r.driver)| && t.contextCount == |set r | r in s :: r.context|
  {
    hide DriverMode, GlobalKey, WinsWith, Prints, Tally, TallyBy;
    var modeOf := WinningMode(s);
    forall g | g in Groups(s) ensures WinsWith(s, g, m) <==> modeOf(g) == m {
      WinsWithIff(s, g, m);
    }
    forall c | c in Contexts(s) ensures Prints(s, c, m) <==> KeyIn(s)(c) == m {
      PrintsIff(s, c, m);
    }
    CountIs(t.modesByHorizon, Groups(s), HorizonOf(), modeOf, horizon, m);
    CountIs(t.modesByDriver, Groups(s), DriverOf(), modeOf, driver, m);
    TallyAt(t.modes, Groups(s), modeOf, m);
    TallyAt(t.global, Contexts(s), KeyIn(s), m);
    assert Labelled(Groups(s), modeOf, m) == set g | g in Groups(s) && WinsWith(s, g, m);
    assert Labelled(Part(Groups(s), HorizonOf(), horizon), modeOf, m) ==
      set g | g in Groups(s) && g.context.horizon == horizon && WinsWith(s, g, m);
    assert Labelled(Part(Groups(s), DriverOf(), driver), modeOf, m) ==
      set g | g in Groups(s) && g.driver == driver && WinsWith(s, g, m);
    assert Labelled(Contexts(s), KeyIn(s), m) == set c | c in Contexts(s) && Prints(s, c, m);
    GroupsArePairs(Groups(s), set r | r in s :: (r.context, r.driver));
  }

  lemma TallyAt<G(!new)>(c: multiset<string>, groups: set<G>, tag: G -> string, l: string)
    requires Tally(c, groups, tag)
    ensures c[l] == |Labelled(groups, tag, l)|
  {
  }

  lemma {:induction false} GroupsArePairs(groups: set<Group>, pairs: set<(Context, string)>)
    requires forall g :: g in groups <==> (g.context, g.driver) in pairs
    ensures |groups| == |pairs|
    decreases groups
  {
    forall p | p in pairs ensures Group(p.0, p.1) in groups {
    }
    if groups != {} {
      var g :| g in groups;
      var rest := pairs - {(g.context, g.driver)};
      forall h ensures h in groups - {g} <==> (h.context, h.driver) in rest {
      }
      GroupsArePairs(groups - {g}, rest);
      assert pairs == rest + {(g.context, g.driver)};
    }
  }

  /** Contexts that a driver and mode win outright. */
  ghost function GlobalWins(s: set<Row>, d: string, m: string): set<Context> {
    set c | c in Contexts(s) && GlobalPair(s, c) == (d, m)
  }

  lemma {:induction false} InjectOne(a: set<Context>, d: string)
    ensures |set c | c in a :: Group(c, d)| == |a|
  {
    if a != {} {
      var c :| c in a;
      InjectOne(a - {c}, d);
      assert (set x | x in a :: Group(x, d)) == (set x | x in a - {c} :: Group(x, d)) + {Group(c, d)};
    }
  }

  lemma WinnerExists(s: set<Row>, c: Context) returns (w: Row)
    requires c in Contexts(s)
    ensures IsGlobalWinner(s, c, w)
  {
    KeysTotal();
    var rows := set r | r in s && r.context == c;
    var r0 :| r0 in s && r0.context == c;
    assert r0 in rows;
    w := LeastOf(rows);
  }

  lemma {:induction false} LeastOf(rows: set<Row>) returns (w: Row)
    requires rows != {} && TotalPreorder(GlobalLe())
    ensures w in rows && forall r :: r in rows ==> GlobalLe()(w, r)
  {
    var r :| r in rows;
    if rows == {r} {
      w := r;
    } else {
      assert rows - {r} != {};
      var v := LeastOf(rows - {r});
      w := if GlobalLe()(v, r) then v else r;
    }
  }

  /** Global wins of (d, m) never exceed d's own wins with m. */
  lemma GlobalWinsBounded(s: set<Row>, t: Tables, d: string, m: string)
    requires Reports(s, t)
    ensures |GlobalWins(s, d, m)| <= (if d in t.modesByDriver then t.modesByDriver[d][m] else 0)
  {
    hide DriverMode, GlobalPair, GlobalKey;
    var wins := GlobalWins(s, d, m);
    var own := set c | c in wins :: Group(c, d);
    var driverOf, modeOf := DriverOf(), WinningMode(s);
    InjectOne(wins, d);
    forall g | g in own ensures g in Part(Groups(s), driverOf, d) && DriverMode(s, g) == m {
      WonGroup(s, g.context, d, m);
    }
    if d in t.modesByDriver {
      assert own <= Labelled(Part(Groups(s), driverOf, d), modeOf, m);
      SubsetSmaller(own, Labelled(Part(Groups(s), driverOf, d), modeOf, m));
    } else {
      assert own == {};
    }
  }

  lemma WonGroup(s: set<Row>, c: Context, d: string, m: string)
    requires c in GlobalWins(s, d, m)
    ensures Group(c, d) in Groups(s) && DriverMode(s, Group(c, d)) == m
  {
    var w := WinnerExists(s, c);
    GlobalPairIs(s, c, w);
    GlobalWinnerWinsOwnGroup(s, c, w);
    var v :| IsDriverWinner(s, Group(c, d), v) && v.mode == DriverMode(s, Group(c, d));
    DriverWinnerUnique(s, Group(c, d), v, w);
  }

  lemma FirstColon(d: string, m: string, k: nat)
    requires ':' !in d
    ensures PairKey(d, m)[|d|] == ':'
    ensures k < |d| ==> PairKey(d, m)[k] != ':'
  {
  }

  lemma LastColon(d: string, m: string, k: nat)
    requires ':' !in m
    ensures PairKey(d, m)[|d|] == ':'
    ensures |d| < k < |PairKey(d, m)| ==> PairKey(d, m)[k] != ':'
  {
    assert |d| < k < |PairKey(d, m)| ==> PairKey(d, m)[k] == m[k - |d| - 1];
  }

  /** Printed keys "driver:mode" keep pairs apart when driver ids hold no colon, and also when modes hold none. */
  lemma PairKeyInjective(d: string, m: string, d': string, m': string)
    requires (':' !in d && ':' !in d') || (':' !in m && ':' !in m')
    requires PairKey(d, m) == PairKey(d', m')
    ensures d == d' && m == m'
  {
    if ':' !in d && ':' !in d' {
      FirstColon(d, m, |d'|);
      FirstColon(d', m', |d|);
    } else {
      LastColon(d, m, |d'|);
      LastColon(d', m', |d|);
    }
    assert d == PairKey(d, m)[..|d|] == d' && m == PairKey(d, m)[|d| + 1..] == m';
  }

  ghost predicate PlainDrivers(s: set<Row>) { forall r :: r in s ==> ':' !in r.driver }
  ghost predicate PlainModes(s: set<Row>) { forall r :: r in s ==> ':' !in r.mode }

  /** The printed global table counts exactly the outright wins. */
  lemma GlobalTableCounts(s: set<Row>, t: Tables, d: string, m: string)
    requires Reports(s, t) && ((PlainDrivers(s) && ':' !in d) || (PlainModes(s) && ':' !in m))
    ensures t.global[PairKey(d, m)] == |GlobalWins(s, d, m)|
  {
    var keyOf := KeyIn(s);
    forall c | c in Contexts(s) ensures keyOf(c) == PairKey(d, m) <==> GlobalPair(s, c) == (d, m) {
      var w := WinnerExists(s, c);
      GlobalPairIs(s, c, w);
      if keyOf(c) == PairKey(d, m) {
        PairKeyInjective(w.driver, w.mode, d, m);
      }
    }
    assert Labelled(Contexts(s), keyOf, PairKey(d, m)) == GlobalWins(s, d, m);
  }

  // ----- Universal winners -----

  /** max(counts, default 0) < scenarios. */
  ghost predicate NoUniversalWinner(counts: multiset<string>, scenarios: nat) { forall l :: counts[l] < scenarios }

  /** The two checks of the analysis, from one pass over the scenarios. */
  method UniversalWinnerChecks(rows: seq<Row>) returns (pairPassed: bool, modePassed: bool)
    ensures KeysTellModes(Roster(FullTo(rows, |rows|))) && modePassed ==> pairPassed
    ensures (forall r :: r in rows ==> r.mode in MODES) && modePassed ==> pairPassed
    ensures exists pairs, modes ::
      && Tally(pairs, Contexts(FullTo(rows, |rows|)), KeyIn(FullTo(rows, |rows|)))
      && Tally(modes, Contexts(FullTo(rows, |rows|)), ModeIn(FullTo(rows, |rows|)))
      && (pairPassed <==> NoUniversalWinner(pairs, |Contexts(FullTo(rows, |rows|))|))
      && (modePassed <==> NoUniversalWinner(modes, |Contexts(FullTo(rows, |rows|))|))
  {
    hide Grouped, Tally, GlobalKey, GlobalPair;
    var within, across := GroupRows(rows);
    ghost var s := FullTo(rows, |rows|);
    var pairs, modes := CountGlobalWinners(across, s);
    pairPassed := |across| > 0 && forall l :: l in pairs ==> pairs[l] < |across|;
    modePassed := |across| > 0 && forall l :: l in modes ==> modes[l] < |across|;
    MaxBelow(pairs, |across|);
    MaxBelow(modes, |across|);
    if forall r :: r in rows ==> r.mode in MODES {
      ModesArePlain();
      PlainRosters(s);
    }
    if KeysTellModes(Roster(s)) && modePassed {
      NoUniversalModeImpliesPair(s, pairs, modes);
    }
  }

  lemma MaxBelow(counts: multiset<string>, n: nat)
    ensures NoUniversalWinner(counts, n) <==> n > 0 && forall l :: l in counts ==> counts[l] < n
  {
    if NoUniversalWinner(counts, n) {
      assert counts[""] < n;
    }
  }

  // ----- When the mode check implies the pair check -----

  /** The modes the campaign runs. */
  const MODES: set<string> := {"manage", "balanced", "attack"}

  lemma ModesArePlain()
    ensures forall m :: m in MODES ==> ':' !in m
  {
  }

  ghost function Roster(s: set<Row>): set<(string, string)> { set r | r in s :: (r.driver, r.mode) }

  /** Pairs that print alike have one mode. */
  ghost predicate KeysTellModes(roster: set<(string, string)>) {
    forall p, q :: p in roster && q in roster && PairKey(p.0, p.1) == PairKey(q.0, q.1) ==> p.1 == q.1
  }

  /** It is enough that no driver id, or that no mode, holds a colon. */
  lemma PlainRosters(s: set<Row>)
    ensures PlainDrivers(s) || PlainModes(s) ==> KeysTellModes(Roster(s))
  {
    hide PairKey;
    forall p, q | p in Roster(s) && q in Roster(s) && PairKey(p.0, p.1) == PairKey(q.0, q.1) && (PlainDrivers(s) || PlainModes(s))
      ensures p.1 == q.1
    {
      PairKeyInjective(p.0, p.1, q.0, q.1);
    }
  }

  /** If no mode wins everywhere, no driver-mode pair does. */
  lemma NoUniversalModeImpliesPair(s: set<Row>, pairs: multiset<string>, modes: multiset<string>)
    requires KeysTellModes(Roster(s))
    requires Tally(pairs, Contexts(s), KeyIn(s))
    requires Tally(modes, Contexts(s), ModeIn(s))
    requires NoUniversalWinner(modes, |Contexts(s)|)
    ensures NoUniversalWinner(pairs, |Contexts(s)|)
  {
    hide PairKey, GlobalPair, IsGlobalWinner;
    var keyOf, modeOf := KeyIn(s), ModeIn(s);
    forall l ensures pairs[l] < |Contexts(s)| {
      var same := Labelled(Contexts(s), keyOf, l);
      if same == {} {
        assert modes[""] < |Contexts(s)|;
      } else {
        var c0 :| c0 in same;
        var m := GlobalPair(s, c0).1;
        forall c | c in same ensures modeOf(c) == m {
          WinnerInRoster(s, c0);
          WinnerInRoster(s, c);
        }
        assert same <= Labelled(Contexts(s), modeOf, m);
        SubsetSmaller(same, Labelled(Contexts(s), modeOf, m));
        assert modes[m] < |Contexts(s)|;
      }
    }
  }

  lemma WinnerInRoster(s: set<Row>, c: Context)
    requires c in Contexts(s)
    ensures GlobalPair(s, c) in Roster(s)
  {
    var w := WinnerExists(s, c);
    GlobalPairIs(s, c, w);
  }

  /** Two contexts that print one key but carry two modes look like a universal pair and no universal mode. */
  lemma TwoAlike<G(!new)>(
    c: G, c': G, pairs: multiset<string>, modes: multiset<string>, key: G -> string, mode: G -> string)
    requires c != c' && key(c) == key(c') && mode(c) != mode(c')
    requires Tally(pairs, {c, c'}, key) && Tally(modes, {c, c'}, mode)
    ensures NoUniversalWinner(modes, 2) && !NoUniversalWinner(pairs, 2)
  {
    assert Labelled({c, c'}, key, key(c)) == {c, c'};
    assert pairs[key(c)] == 2;
    forall l ensures modes[l] < 2 {
      if l == mode(c) {
        assert Labelled({c, c'}, mode, l) == {c};
      } else {
        assert Labelled({c, c'}, mode, l) <= {c'};
        SubsetSmaller(Labelled({c, c'}, mode, l), {c'});
      }
    }
  }

  lemma {:induction false} TallyExists<G(!new)>(groups: set<G>, tag: G -> string) returns (c: multiset<string>)
    ensures Tally(c, groups, tag)
  {
    if groups == {} {
      c := multiset{};
      EmptyTally(groups, tag);
    } else {
      var g :| g in groups;
      var before := TallyExists(groups - {g}, tag);
      TallyAdd(before, groups - {g}, tag, g);
      assert groups - {g} + {g} == groups;
      c := before + multiset{tag(g)};
    }
  }

  /** In a field of one row per context every row wins. */
  lemma SoleWinner(s: set<Row>, w: Row)
    requires w in s && forall r :: r in s && r.context == w.context ==> r == w
    ensures GlobalPair(s, w.context) == (w.driver, w.mode)
  {
    hide GlobalPair, StringLe;
    KeysTotal();
    assert GlobalLe()(w, w);
    GlobalPairIs(s, w.context, w);
  }

  /** On these rows the mode check is at least as strict as the pair check. */
  ghost predicate ModeImpliesPair(s: set<Row>) {
    forall pairs, modes |
      && Tally(pairs, Contexts(s), KeyIn(s))
      && Tally(modes, Contexts(s), ModeIn(s))
      && NoUniversalWinner(modes, |Contexts(s)|) ::
      NoUniversalWinner(pairs, |Contexts(s)|)
  }

  lemma CollisionFails(c: Context, c': Context, p: (string, string), q: (string, string), s: set<Row>)
    requires c != c' && PairKey(p.0, p.1) == PairKey(q.0, q.1) && p.1 != q.1
    requires s == {Row(FULL, c, p.0, p.1, 1.0), Row(FULL, c', q.0, q.1, 1.0)}
    ensures !ModeImpliesPair(s)
  {
    hide Tally, NoUniversalWinner, GlobalPair, PairKey;
    var v, w := Row(FULL, c, p.0, p.1, 1.0), Row(FULL, c', q.0, q.1, 1.0);
    assert v in s && w in s;
    assert Contexts(s) == {c, c'};
    SoleWinner(s, v);
    SoleWinner(s, w);
    var key, mode := KeyIn(s), ModeIn(s);
    var pairs := TallyExists(Contexts(s), key);
    var modes := TallyExists(Contexts(s), mode);
    TwoAlike(c, c', pairs, modes, key, mode);
  }

  /**
   For a roster of driver-mode pairs, the implication holds on every field drawn from it exactly when
   pairs that print alike have one mode.
   */
  lemma RosterExact(roster: set<(string, string)>)
    ensures (forall s: set<Row> :: Roster(s) <= roster ==> ModeImpliesPair(s)) <==> KeysTellModes(roster)
  {
    hide PairKey, Tally, NoUniversalWinner, GlobalPair, GlobalKey, Contexts;
    if KeysTellModes(roster) {
      forall s: set<Row> | Roster(s) <= roster ensures ModeImpliesPair(s) {
        forall pairs, modes |
          Tally(pairs, Contexts(s), KeyIn(s)) &&
          Tally(modes, Contexts(s), ModeIn(s)) &&
          NoUniversalWinner(modes, |Contexts(s)|)
          ensures NoUniversalWinner(pairs, |Contexts(s)|)
        {
          NoUniversalModeImpliesPair(s, pairs, modes);
        }
      }
    } else {
      var p, q :| p in roster && q in roster && PairKey(p.0, p.1) == PairKey(q.0, q.1) && p.1 != q.1;
      var c, c' := Context("", "", "", 0), Context("", "", "", 1);
      var s := {Row(FULL, c, p.0, p.1, 1.0), Row(FULL, c', q.0, q.1, 1.0)};
      assert Roster(s) <= roster;
      CollisionFails(c, c', p, q, s);
    }
  }
}
