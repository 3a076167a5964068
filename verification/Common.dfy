/** Outcomes of operations that raise an error in the original. */
module Results {
  datatype Result<+T> = Ok(value: T) | Err(error: string) {
    predicate IsFailure() { Err? }
    function PropagateFailure<U>(): Result<U> requires Err? { Err(error) }
    function Extract(): T requires Ok? { value }
  }

  datatype Option<+T> = None | Some(value: T)
}

/** Contents of files. */
module Binary {
  newtype Byte = x: int | 0 <= x < 256
  type Bytes = seq<Byte>
}

/** Products, quotients and remainders of integers. */
module Integers {
  lemma DivMod(n: int, t: int)
    requires t > 0
    ensures n == t * (n / t) + n % t && 0 <= n % t < t
  {
  }

  lemma Distribute(c: int, x: int, y: int)
    ensures c * (x + y) == c * x + c * y
  {
  }

  /** A product of a positive number moves at least one step for each step of the other factor. */
  lemma MulSteps(t: int, d: int)
    requires t > 0
    ensures d >= 1 ==> t * d >= t
    ensures d <= -1 ==> t * d <= -t
    ensures d == 0 ==> t * d == 0
  {
    assert d >= 1 ==> t * (d - 1) >= 0;
    assert d <= -1 ==> t * (-d - 1) >= 0;
  }

  lemma DivUnique(n: int, t: int, q: int, r: int)
    requires t > 0 && n == t * q + r && 0 <= r < t
    ensures n / t == q && n % t == r
  {
    DivMod(n, t);
    var d := n / t - q;
    assert t * d == t * (n / t) - t * q;
    MulSteps(t, d);
  }
}

/** Products of reals. */
module Reals {
  lemma Product(x: real, y: real)
    ensures x >= 0.0 && y >= 0.0 ==> x * y >= 0.0
    ensures x > 0.0 && y > 0.0 ==> x * y > 0.0
    ensures x <= 0.0 && y >= 0.0 ==> x * y <= 0.0
  {
  }

  /** One more copy of a number. */
  lemma OneMore(m: real, n: real, c: real)
    requires n == m + 1.0
    ensures n * c == m * c + c
  {
  }
}

/** Finite sums over prefixes of sequences, of integers and of reals. */
module Sums {
  function SumTo(s: seq<int>, n: nat): int
    requires n <= |s|
  {
    if n == 0 then 0 else SumTo(s, n - 1) + s[n - 1]
  }

  function Sum(s: seq<int>): int { SumTo(s, |s|) }

  function TotalTo(s: seq<real>, n: nat): real
    requires n <= |s|
  {
    if n == 0 then 0.0 else TotalTo(s, n - 1) + s[n - 1]
  }

  function Total(s: seq<real>): real { TotalTo(s, |s|) }

  function Negated(s: seq<real>): seq<real> { seq(|s|, i requires 0 <= i < |s| => -s[i]) }

  /** Adding one at a single position adds one to the sum. */
  lemma {:induction false} SumToIncrement(s: seq<int>, i: nat, n: nat)
    requires i < |s| && n <= |s|
    ensures SumTo(s[i := s[i] + 1], n) == SumTo(s, n) + (if i < n then 1 else 0)
  {
    if n > 0 {
      SumToIncrement(s, i, n - 1);
    }
  }

  /** A pointwise inequality carries over to sums; equality of the sums then forces equality everywhere. */
  lemma {:induction false} SumToMonotone(s: seq<int>, t: seq<int>, n: nat)
    requires n <= |s| && n <= |t|
    requires forall i :: 0 <= i < n ==> s[i] <= t[i]
    ensures SumTo(s, n) <= SumTo(t, n)
    ensures SumTo(s, n) == SumTo(t, n) ==> forall i :: 0 <= i < n ==> s[i] == t[i]
  {
    if n > 0 {
      SumToMonotone(s, t, n - 1);
    }
  }

  /** Two different sequences with one sum go up somewhere and down somewhere else. */
  lemma SumsCross(s: seq<int>, t: seq<int>) returns (up: nat, down: nat)
    requires |s| == |t| && s != t && Sum(s) == Sum(t)
    ensures up < |s| && s[up] > t[up]
    ensures down < |s| && s[down] < t[down]
  {
    if forall i :: 0 <= i < |s| ==> s[i] <= t[i] {
      SumToMonotone(s, t, |s|);
      assert false;
    }
    if forall i :: 0 <= i < |s| ==> t[i] <= s[i] {
      SumToMonotone(t, s, |s|);
      assert false;
    }
    up :| 0 <= up < |s| && s[up] > t[up];
    down :| 0 <= down < |s| && s[down] < t[down];
  }
}

/** Stable sorting by a comparison, as the built-in sort of the original does it. */
module Ordering {
  ghost predicate TotalPreorder<T(!new)>(le: (T, T) -> bool) {
    && (forall x, y :: le(x, y) || le(y, x))
    && (forall x, y, z :: le(x, y) && le(y, z) ==> le(x, z))
  }

  /** No two different members tie: the sort key is injective on them. */
  ghost predicate NoTies<T(!new)>(le: (T, T) -> bool, members: multiset<T>) {
    forall x, y :: x in members && y in members && le(x, y) && le(y, x) ==> x == y
  }

  ghost predicate Sorted<T>(le: (T, T) -> bool, s: seq<T>) {
    forall i, j :: 0 <= i < j < |s| ==> le(s[i], s[j])
  }

  function Insert<T>(x: T, s: seq<T>, le: (T, T) -> bool): seq<T> {
    if s == [] || le(x, s[0]) then [x] + s else [s[0]] + Insert(x, s[1..], le)
  }

  function Sort<T>(s: seq<T>, le: (T, T) -> bool): seq<T> {
    if s == [] then [] else Insert(s[0], Sort(s[1..], le), le)
  }

  lemma SortedHead<T(!new)>(a: seq<T>, x: T, le: (T, T) -> bool)
    requires Sorted(le, a) && TotalPreorder(le) && x in multiset(a)
    ensures le(a[0], x)
  {
    var i :| 0 <= i < |a| && a[i] == x;
    assert i == 0 || le(a[0], a[i]);
  }

  lemma {:induction false} InsertMultiset<T>(x: T, s: seq<T>, le: (T, T) -> bool)
    ensures multiset(Insert(x, s, le)) == multiset(s) + multiset{x}
  {
    if s != [] && !le(x, s[0]) {
      InsertMultiset(x, s[1..], le);
      assert s == [s[0]] + s[1..];
    }
  }

  /** Prepending a lower bound keeps a sequence sorted. */
  lemma PrependSorted<T(!new)>(x: T, s: seq<T>, le: (T, T) -> bool)
    requires Sorted(le, s) && forall y :: y in s ==> le(x, y)
    ensures Sorted(le, [x] + s)
  {
    var r := [x] + s;
    forall i, j | 0 <= i < j < |r| ensures le(r[i], r[j]) {
      assert r[j] == s[j - 1];
      assert i > 0 ==> r[i] == s[i - 1];
    }
  }

  lemma {:induction false} InsertSorted<T(!new)>(x: T, s: seq<T>, le: (T, T) -> bool)
    requires TotalPreorder(le) && Sorted(le, s)
    ensures Sorted(le, Insert(x, s, le))
  {
    if s == [] {
    } else if le(x, s[0]) {
      forall y | y in s ensures le(x, y) {
        SortedHead(s, y, le);
      }
      PrependSorted(x, s, le);
    } else {
      var rest := Insert(x, s[1..], le);
      InsertSorted(x, s[1..], le);
      InsertMultiset(x, s[1..], le);
      forall y | y in rest ensures le(s[0], y) {
        assert y in multiset(rest);
        if y != x {
          assert y in s[1..];
          SortedHead(s, y, le);
        }
      }
      PrependSorted(s[0], rest, le);
    }
  }

  lemma {:induction false} SortCorrect<T(!new)>(s: seq<T>, le: (T, T) -> bool)
    requires TotalPreorder(le)
    ensures Sorted(le, Sort(s, le))
    ensures multiset(Sort(s, le)) == multiset(s)
    ensures |Sort(s, le)| == |s|
  {
    if s != [] {
      SortCorrect(s[1..], le);
      InsertSorted(s[0], Sort(s[1..], le), le);
      InsertMultiset(s[0], Sort(s[1..], le), le);
      assert s == [s[0]] + s[1..];
    }
    assert |multiset(Sort(s, le))| == |multiset(s)|;
  }

  lemma TailFacts<T>(a: seq<T>, le: (T, T) -> bool)
    requires a != [] && Sorted(le, a)
    ensures multiset(a[1..]) == multiset(a) - multiset{a[0]}
    ensures Sorted(le, a[1..])
    ensures a == [a[0]] + a[1..]
  {
    assert a == [a[0]] + a[1..];
    forall i, j | 0 <= i < j < |a[1..]| ensures le(a[1..][i], a[1..][j]) {
      assert le(a[i + 1], a[j + 1]);
    }
  }

  lemma SameHead<T(!new)>(a: seq<T>, b: seq<T>, le: (T, T) -> bool)
    requires Sorted(le, a) && Sorted(le, b) && TotalPreorder(le) && a != [] && b != []
    requires multiset(a) == multiset(b) && NoTies(le, multiset(a))
    ensures a[0] == b[0]
  {
    assert a[0] in multiset(b) && b[0] in multiset(a);
    SortedHead(a, b[0], le);
    SortedHead(b, a[0], le);
  }

  lemma {:induction false} SortedUnique<T(!new)>(a: seq<T>, b: seq<T>, le: (T, T) -> bool)
    requires Sorted(le, a) && Sorted(le, b) && TotalPreorder(le)
    requires multiset(a) == multiset(b) && NoTies(le, multiset(a))
    ensures a == b
  {
    assert |multiset(a)| == |multiset(b)|;
    if a != [] {
      SameHead(a, b, le);
      TailFacts(a, le);
      TailFacts(b, le);
      assert NoTies(le, multiset(a[1..]));
      SortedUnique(a[1..], b[1..], le);
    }
  }

  /** A value found at two positions is counted twice. */
  lemma RepeatCounted<T>(s: seq<T>, j: nat, k: nat)
    requires j < k < |s| && s[j] == s[k]
    ensures multiset(s)[s[k]] >= 2
  {
    assert s == s[..k] + ([s[k]] + s[k + 1..]);
    assert s[j] in s[..k];
    assert multiset(s) == multiset(s[..k]) + multiset([s[k]] + s[k + 1..]);
    assert s[k] in multiset([s[k]] + s[k + 1..]);
  }

  /** Sorting forgets the input order when the key is injective on the elements. */
  lemma SortConfluent<T(!new)>(s: seq<T>, t: seq<T>, le: (T, T) -> bool)
    requires TotalPreorder(le) && multiset(s) == multiset(t) && NoTies(le, multiset(s))
    ensures Sort(s, le) == Sort(t, le)
  {
    SortCorrect(s, le);
    SortCorrect(t, le);
    SortedUnique(Sort(s, le), Sort(t, le), le);
  }

  /** First least element, as the built-in min picks it. */
  function MinBy<T>(s: seq<T>, le: (T, T) -> bool): T
    requires s != []
  {
    if |s| == 1 then s[0] else
      var best := MinBy(s[..|s| - 1], le);
      if le(best, s[|s| - 1]) then best else s[|s| - 1]
  }

  lemma {:induction false} MinByLeast<T(!new)>(s: seq<T>, le: (T, T) -> bool)
    requires s != [] && TotalPreorder(le)
    ensures MinBy(s, le) in s && forall x :: x in s ==> le(MinBy(s, le), x)
  {
    if |s| > 1 {
      var front, last := s[..|s| - 1], s[|s| - 1];
      MinByLeast(front, le);
      assert s == front + [last];
    } else {
      assert s == [s[0]];
    }
  }

  /** Code-point order of strings. */
  predicate StringLe(a: string, b: string) {
    a == [] || (b != [] && (a[0] < b[0] || (a[0] == b[0] && StringLe(a[1..], b[1..]))))
  }

  lemma {:induction false} StringLeTotal(a: string, b: string)
    ensures StringLe(a, b) || StringLe(b, a)
    ensures StringLe(a, b) && StringLe(b, a) ==> a == b
  {
    if a != [] && b != [] && a[0] == b[0] {
      StringLeTotal(a[1..], b[1..]);
      assert a == [a[0]] + a[1..] && b == [b[0]] + b[1..];
    }
  }

  lemma {:induction false} StringLeTransitive(a: string, b: string, c: string)
    requires StringLe(a, b) && StringLe(b, c)
    ensures StringLe(a, c)
  {
    if a != [] && a[0] == b[0] == c[0] {
      StringLeTransitive(a[1..], b[1..], c[1..]);
    }
  }
}

/** List comprehensions with a filter. */
module Filtering {
  function Keep<T>(s: seq<T>, p: T -> bool): seq<T> {
    if s == [] then [] else (if p(s[0]) then [s[0]] else []) + Keep(s[1..], p)
  }

  lemma {:induction false} KeepMembers<T(!new)>(s: seq<T>, p: T -> bool)
    ensures forall a :: a in Keep(s, p) <==> a in s && p(a)
  {
    if s != [] {
      KeepMembers(s[1..], p);
      assert s == [s[0]] + s[1..];
    }
  }

  lemma SameMembers<T(!new)>(s: seq<T>, t: seq<T>)
    requires multiset(s) == multiset(t)
    ensures forall a :: a in s <==> a in t
  {
    forall a ensures a in s <==> a in t {
      assert a in multiset(s) <==> a in s;
      assert a in multiset(t) <==> a in t;
    }
  }

  lemma {:induction false} KeepCongruent<T(!new)>(s: seq<T>, p: T -> bool, q: T -> bool)
    requires forall a :: a in s ==> p(a) == q(a)
    ensures Keep(s, p) == Keep(s, q)
  {
    if s != [] {
      KeepCongruent(s[1..], p, q);
    }
  }

  lemma {:induction false} KeepCount<T(!new)>(s: seq<T>, p: T -> bool, a: T)
    ensures multiset(Keep(s, p))[a] == if p(a) then multiset(s)[a] else 0
  {
    if s != [] {
      KeepCount(s[1..], p, a);
      assert s == [s[0]] + s[1..];
    }
  }

  lemma KeepMultiset<T(!new)>(s: seq<T>, t: seq<T>, p: T -> bool)
    requires multiset(s) == multiset(t)
    ensures multiset(Keep(s, p)) == multiset(Keep(t, p))
  {
    forall a ensures multiset(Keep(s, p))[a] == multiset(Keep(t, p))[a] {
      KeepCount(s, p, a);
      KeepCount(t, p, a);
    }
  }

  lemma KeepCons<T>(x: T, s: seq<T>, p: T -> bool)
    ensures Keep([x] + s, p) == if p(x) then [x] + Keep(s, p) else Keep(s, p)
  {
    assert ([x] + s)[1..] == s;
    assert [] + Keep(s, p) == Keep(s, p);
  }

  lemma {:induction false} KeepConcat<T(!new)>(s: seq<T>, t: seq<T>, p: T -> bool)
    ensures Keep(s + t, p) == Keep(s, p) + Keep(t, p)
  {
    hide Keep;
    if s == [] {
      KeepNil(p);
      assert s + t == t;
    } else {
      KeepConcat(s[1..], t, p);
      KeepCons(s[0], s[1..] + t, p);
      KeepCons(s[0], s[1..], p);
      assert s + t == [s[0]] + (s[1..] + t) && s == [s[0]] + s[1..];
      JoinFront(s[0], Keep(s[1..], p), Keep(t, p));
    }
  }

  lemma KeepNil<T>(p: T -> bool)
    ensures Keep([], p) == []
  {
  }

  lemma JoinFront<T>(x: T, s: seq<T>, t: seq<T>)
    ensures [x] + (s + t) == ([x] + s) + t
  {
  }

  lemma {:induction false} KeepAll<T>(s: seq<T>, p: T -> bool)
    requires forall a :: a in s ==> p(a)
    ensures Keep(s, p) == s
  {
    if s != [] {
      KeepAll(s[1..], p);
    }
  }

  lemma {:induction false} KeepNone<T>(s: seq<T>, p: T -> bool)
    requires forall a :: a in s ==> !p(a)
    ensures Keep(s, p) == []
  {
    if s != [] {
      KeepNone(s[1..], p);
    }
  }
}

/** Numbers of different elements. */
module Counting {
  lemma {:induction false} AtMostLength<T>(s: seq<T>)
    ensures |set x | x in s| <= |s|
  {
    if s != [] {
      var n := |s| - 1;
      AtMostLength(s[..n]);
      assert s == s[..n] + [s[n]];
      assert (set x | x in s) == (set x | x in s[..n]) + {s[n]};
    }
  }

  lemma {:induction false} DistinctCount<T>(s: seq<T>)
    ensures (forall i, j :: 0 <= i < j < |s| ==> s[i] != s[j]) <==> |set x | x in s| == |s|
  {
    if s != [] {
      var n := |s| - 1;
      DistinctCount(s[..n]);
      AtMostLength(s[..n]);
      assert s == s[..n] + [s[n]];
      var before := set x | x in s[..n];
      assert (set x | x in s) == before + {s[n]};
      assert s[n] in before <==> exists i :: 0 <= i < n && s[i] == s[n];
      if s[n] in before {
        assert before + {s[n]} == before;
      } else {
        assert |before + {s[n]}| == |before| + 1;
        assert forall i :: 0 <= i < n ==> s[..n][i] == s[i];
      }
    }
  }

  lemma SubsetSmaller<T>(a: set<T>, b: set<T>)
    requires a <= b
    ensures |a| <= |b|
  {
    assert b == a + (b - a);
  }
}
