/**
 The radical-inverse sampler behind every deterministic search of the experiment engine
 (experiments/racing_v3_thermal/screen_local.py and the two driver manifests), over exact reals.
 */
module Halton {
  import opened Integers
  import opened Reals
  import opened Results

  /** Lowest base-b digit of n. */
  function Digit(n: nat, b: nat): (d: nat)
    requires b >= 2
    ensures d < b
  {
    n % b
  }

  /** The digits above it. */
  function Rest(n: nat, b: nat): (r: nat)
    requires b >= 2
    ensures if n == 0 then r == 0 else r < n
  {
    DivSmaller(n, b);
    n / b
  }

  lemma DivSmaller(n: nat, b: nat)
    requires b >= 2
    ensures if n == 0 then n / b == 0 && n % b == 0 else 0 <= n / b < n
  {
    assert n == b * (n / b) + n % b;
    assert (b - 2) * (n / b) >= 0;
  }

  /** Mirror the base-b digits of n behind the radix point. */
  function RadicalInverse(n: nat, b: nat): real
    requires b >= 2
  {
    if n == 0 then 0.0 else (Digit(n, b) as real + RadicalInverse(Rest(n, b), b)) / b as real
  }

  lemma DivTimes(x: real, d: real)
    requires d > 0.0
    ensures x / d * d == x
    ensures 0.0 <= x < d ==> 0.0 <= x / d < 1.0
  {
  }

  lemma {:induction false} InverseInUnit(n: nat, b: nat)
    requires b >= 2
    ensures 0.0 <= RadicalInverse(n, b) < 1.0
  {
    hide Digit, Rest;
    if n > 0 {
      InverseInUnit(Rest(n, b), b);
      DivTimes(Digit(n, b) as real + RadicalInverse(Rest(n, b), b), b as real);
    }
  }

  lemma InverseUnfolds(n: nat, b: nat)
    requires b >= 2
    ensures n == 0 ==> RadicalInverse(n, b) == 0.0 && Digit(n, b) == 0 && Rest(n, b) == 0
    ensures n > 0 ==> RadicalInverse(n, b) == (Digit(n, b) as real + RadicalInverse(Rest(n, b), b)) / b as real
  {
    DivSmaller(n, b);
  }

  /** Multiplying by the base moves the lowest digit in front of the radix point. */
  lemma InverseStep(n: nat, b: nat)
    requires b >= 2
    ensures RadicalInverse(n, b) * b as real == Digit(n, b) as real + RadicalInverse(Rest(n, b), b)
  {
    hide *;
    InverseUnfolds(n, b);
    if n > 0 {
      DivTimes(Digit(n, b) as real + RadicalInverse(Rest(n, b), b), b as real);
    }
  }

  lemma LoopArithmetic(fraction: real, b: real, v: real, digit: real, rest: real)
    requires b > 0.0 && v * b == digit + rest
    ensures fraction * b * v == fraction * digit + fraction / b * b * rest
  {
    DivTimes(fraction, b);
    assert fraction * b * v == fraction * (v * b);
    assert fraction * (digit + rest) == fraction * digit + fraction * rest;
  }

  /** The loop, as every sampler runs it; `value` accumulates what `current` still misses. */
  method Sample(index: nat, b: nat) returns (value: real)
    requires b >= 2
    ensures value == RadicalInverse(index, b)
    ensures 0.0 <= value < 1.0
  {
    hide RadicalInverse;
    value := 0.0;
    var fraction := 1.0 / b as real;
    var current: nat := index;
    DivTimes(1.0, b as real);
    while current != 0
      invariant value + fraction * b as real * RadicalInverse(current, b) == RadicalInverse(index, b)
      decreases current
    {
      InverseStep(current, b);
      DivSmaller(current, b);
      LoopArithmetic(fraction, b as real, RadicalInverse(current, b), (current % b) as real, RadicalInverse(current / b, b));
      value := value + fraction * (current % b) as real;
      current := current / b;
      fraction := fraction / b as real;
    }
    InverseUnfolds(0, b);
    InverseInUnit(index, b);
  }

  /** The guarded sampler of the thermal screen. */
  method HaltonChecked(index: int, b: int) returns (r: Result<real>)
    ensures r.Ok? <==> index >= 1 && b >= 2
    ensures r.Ok? ==> r.value == RadicalInverse(index, b) && 0.0 <= r.value < 1.0
  {
    if index < 1 || b < 2 {
      return Err("Halton index must be positive and base at least two");
    }
    var value := Sample(index, b);
    r := Ok(value);
  }

  // ----- Stratification -----

  /** low + base * high: put a number in front of a digit, or a digit in front of a number. */
  function Join(low: nat, base: nat, high: nat): nat { low + base * high }

  function Pow(b: nat, k: nat): nat { if k == 0 then 1 else Join(0, b, Pow(b, k - 1)) }

  lemma {:induction false} PowPositive(b: nat, k: nat)
    requires b >= 2
    ensures Pow(b, k) > k
  {
    hide Join;
    if k > 0 {
      PowPositive(b, k - 1);
      JoinDoubles(b, Pow(b, k - 1));
    }
  }

  lemma JoinDoubles(b: nat, p: nat)
    requires b >= 2
    ensures Join(0, b, p) >= p + p
  {
    assert (b - 2) * p >= 0;
  }

  /** The cell of the b^k-cell partition of [0,1) that sample n falls into: the k lowest digits, mirrored. */
  function Cell(n: nat, b: nat, k: nat): nat
    requires b >= 2
  {
    if k == 0 then 0 else Join(Cell(Rest(n, b), b, k - 1), Pow(b, k - 1), Digit(n, b))
  }

  ghost predicate InCell(x: real, j: nat, cells: nat)
    requires cells > 0
  {
    j as real / cells as real <= x < (j + 1) as real / cells as real
  }

  lemma {:induction false} RealProduct(x: int, y: nat)
    ensures (x * y) as real == x as real * y as real
  {
    if y > 0 {
      RealProduct(x, y - 1);
      assert x * y == x * (y - 1) + x;
      OneMore((y - 1) as real, y as real, x as real);
    }
  }

  lemma BracketProduct(v: real, b: real, digit: real, rest: real, p: real)
    requires v * b == digit + rest
    ensures v * (b * p) == digit * p + rest * p
  {
    assert v * (b * p) == (v * b) * p;
  }

  lemma BracketStep(v: real, b: nat, digit: nat, rest: real, p: nat, cell: nat)
    requires v * b as real == digit as real + rest
    requires cell as real <= rest * p as real < (cell + 1) as real
    ensures Join(cell, p, digit) as real <= v * Join(0, b, p) as real < (Join(cell, p, digit) + 1) as real
  {
    RealProduct(b, p);
    RealProduct(digit, p);
    BracketProduct(v, b as real, digit as real, rest, p as real);
  }

  lemma {:induction false} CellBrackets(n: nat, b: nat, k: nat)
    requires b >= 2
    ensures Cell(n, b, k) as real <= RadicalInverse(n, b) * Pow(b, k) as real < (Cell(n, b, k) + 1) as real
    decreases k
  {
    hide RadicalInverse, Join, Digit, Rest;
    if k == 0 {
      InverseInUnit(n, b);
    } else {
      CellBrackets(Rest(n, b), b, k - 1);
      InverseStep(n, b);
      BracketStep(RadicalInverse(n, b), b, Digit(n, b), RadicalInverse(Rest(n, b), b),
                  Pow(b, k - 1), Cell(Rest(n, b), b, k - 1));
    }
  }

  lemma Rescale(x: real, y: real, c: real)
    requires c > 0.0
    ensures x <= y <==> x * c <= y * c
    ensures x < y <==> x * c < y * c
  {
    assert (y - x) * c == y * c - x * c;
    assert x < y ==> (y - x) * c > 0.0;
    assert x > y ==> (x - y) * c > 0.0;
  }

  lemma BracketIsCell(x: real, lo: real, hi: real, c: real)
    requires c > 0.0
    ensures lo / c <= x < hi / c <==> lo <= x * c < hi
  {
    DivTimes(lo, c);
    DivTimes(hi, c);
    RescaleBracket(lo / c, x, hi / c, c);
  }

  lemma RescaleBracket(a: real, x: real, b: real, c: real)
    requires c > 0.0
    ensures a <= x < b <==> a * c <= x * c < b * c
  {
    Rescale(a, x, c);
    Rescale(x, b, c);
  }

  lemma UniqueFloor(x: real, m: int, n: int)
    requires m as real <= x < (m + 1) as real
    ensures n as real <= x < (n + 1) as real <==> m == n
  {
    assert n < m ==> (n + 1) as real <= m as real;
    assert n > m ==> n as real >= (m + 1) as real;
  }

  /** A sample lies in cell j exactly when its mirrored digits spell j. */
  lemma InCellIff(n: nat, b: nat, k: nat, j: nat)
    requires b >= 2
    ensures Pow(b, k) > 0
    ensures InCell(RadicalInverse(n, b), j, Pow(b, k)) <==> Cell(n, b, k) == j
  {
    hide RadicalInverse, Pow, Cell;
    PowPositive(b, k);
    CellBrackets(n, b, k);
    BracketIsCell(RadicalInverse(n, b), j as real, (j + 1) as real, Pow(b, k) as real);
    UniqueFloor(RadicalInverse(n, b) * Pow(b, k) as real, Cell(n, b, k), j);
  }

  function High(j: nat, p: nat): nat { if p == 0 then 0 else j / p }

  function Low(j: nat, p: nat): nat { if p == 0 then j else j % p }

  lemma SplitHighLow(j: nat, b: nat, p: nat)
    requires p > 0 && j < Join(0, b, p)
    ensures j == Join(Low(j, p), p, High(j, p)) && Low(j, p) < p && High(j, p) < b
  {
    var d := j / p - b;
    assert j == p * (j / p) + j % p;
    assert p * d == p * (j / p) - p * b;
    assert d >= 0 ==> p * d >= 0;
  }

  /** Which index spells cell j: the mirror image of j's own digits. */
  function Uncell(j: nat, b: nat, k: nat): nat {
    if k == 0 then 0 else Join(High(j, Pow(b, k - 1)), b, Uncell(Low(j, Pow(b, k - 1)), b, k - 1))
  }

  /** Peeling a joined digit off again, after any whole multiple of the next power. */
  lemma PeelJoined(digit: nat, b: nat, rest: nat, p: nat, m: nat)
    requires b >= 2 && digit < b && rest < p
    ensures Join(digit, b, rest) < Join(0, b, p)
    ensures Digit(Join(Join(digit, b, rest), Join(0, b, p), m), b) == digit
    ensures Rest(Join(Join(digit, b, rest), Join(0, b, p), m), b) == Join(rest, p, m)
  {
    var gap := p - 1 - rest;
    assert b * gap >= 0;
    assert b * p == b * rest + b + b * gap;
    assert (b * p) * m == b * (p * m);
    assert b * (rest + p * m) == b * rest + b * (p * m);
    DivUnique(digit + b * (rest + p * m), b, rest + p * m, digit);
  }

  /** Every index congruent to Uncell(j) modulo b^k falls into cell j. */
  lemma {:induction false} UncellHits(j: nat, b: nat, k: nat, m: nat)
    requires b >= 2 && j < Pow(b, k)
    ensures Uncell(j, b, k) < Pow(b, k)
    ensures Cell(Join(Uncell(j, b, k), Pow(b, k), m), b, k) == j
    decreases k
  {
    hide Join, Digit, Rest, High, Low;
    if k > 0 {
      var p := Pow(b, k - 1);
      PowPositive(b, k - 1);
      SplitHighLow(j, b, p);
      UncellHits(Low(j, p), b, k - 1, m);
      PeelJoined(High(j, p), b, Uncell(Low(j, p), b, k - 1), p, m);
    }
  }

  lemma JoinBound(low: nat, p: nat, digit: nat, b: nat)
    requires low < p && digit < b
    ensures Join(low, p, digit) < Join(0, b, p)
  {
    var gap := b - 1 - digit;
    assert p * gap >= 0;
    assert b * p == p * digit + p + p * gap;
  }

  lemma {:induction false} CellBound(n: nat, b: nat, k: nat)
    requires b >= 2
    ensures Cell(n, b, k) < Pow(b, k)
    decreases k
  {
    hide Join, Digit, Rest;
    if k > 0 {
      CellBound(Rest(n, b), b, k - 1);
      JoinBound(Cell(Rest(n, b), b, k - 1), Pow(b, k - 1), Digit(n, b), b);
    }
  }

  lemma JoinInjective(low: nat, low': nat, p: nat, high: nat, high': nat)
    requires low < p && low' < p && Join(low, p, high) == Join(low', p, high')
    ensures low == low' && high == high'
  {
    DivUnique(low + p * high, p, high, low);
    DivUnique(low' + p * high', p, high', low');
  }

  lemma CongruenceStep(n: nat, n': nat, b: nat, p: nat, m: int)
    requires b >= 2 && Digit(n, b) == Digit(n', b) && Rest(n', b) == Rest(n, b) + m * p
    ensures n' == n + m * Join(0, b, p)
  {
    assert n == b * (n / b) + n % b && n' == b * (n' / b) + n' % b;
    assert b * (n / b + m * p) == b * (n / b) + b * (m * p);
    assert m * (b * p) == b * (m * p);
  }

  /** Indices that share a cell are congruent modulo b^k. */
  lemma {:induction false} SameCellCongruent(n: nat, n': nat, b: nat, k: nat) returns (m: int)
    requires b >= 2 && Cell(n, b, k) == Cell(n', b, k)
    ensures n' == n + m * Pow(b, k)
    decreases k
  {
    hide Join, Digit, Rest;
    if k == 0 {
      m := n' - n;
    } else {
      CellBound(Rest(n, b), b, k - 1);
      CellBound(Rest(n', b), b, k - 1);
      JoinInjective(Cell(Rest(n, b), b, k - 1), Cell(Rest(n', b), b, k - 1), Pow(b, k - 1), Digit(n, b), Digit(n', b));
      m := SameCellCongruent(Rest(n, b), Rest(n', b), b, k - 1);
      CongruenceStep(n, n', b, Pow(b, k - 1), m);
    }
  }

  lemma Near(n: int, n': int, m: int, p: int)
    requires p > 0 && n' == n + m * p && -p < n' - n < p
    ensures n == n'
  {
    assert m >= 1 ==> (m - 1) * p >= 0;
    assert m <= -1 ==> (-m - 1) * p >= 0;
  }

  lemma NextCongruent(start: nat, u: nat, p: nat) returns (m: nat)
    requires u < p
    ensures start <= Join(u, p, m) < start + p
  {
    DivMod(start, p);
    Distribute(p, start / p, 1);
    m := if u >= start % p then start / p else start / p + 1;
  }

  /**
   Van der Corput stratification: among any b^k consecutive indices exactly one has its sample in
   [j/b^k, (j+1)/b^k), for every cell j.
   */
  lemma Stratified(start: nat, b: nat, k: nat, j: nat) returns (hit: nat)
    requires b >= 2 && j < Pow(b, k)
    ensures start <= hit < start + Pow(b, k)
    ensures InCell(RadicalInverse(hit, b), j, Pow(b, k))
    ensures forall n: nat ::
      start <= n < start + Pow(b, k) && InCell(RadicalInverse(n, b), j, Pow(b, k)) ==> n == hit
  {
    hide *;
    UncellHits(j, b, k, 0);
    var m := NextCongruent(start, Uncell(j, b, k), Pow(b, k));
    hit := Join(Uncell(j, b, k), Pow(b, k), m);
    UncellHits(j, b, k, m);
    InCellIff(hit, b, k, j);
    forall n: nat | start <= n < start + Pow(b, k) && InCell(RadicalInverse(n, b), j, Pow(b, k)) ensures n == hit {
      InCellIff(n, b, k, j);
      var q := SameCellCongruent(n, hit, b, k);
      Near(n, hit, q, Pow(b, k));
    }
  }

  /** No two indices ever draw the same sample. */
  lemma SamplesDistinct(n: nat, n': nat, b: nat)
    requires b >= 2 && RadicalInverse(n, b) == RadicalInverse(n', b)
    ensures n == n'
  {
    hide *;
    var k := n + n';
    PowPositive(b, k);
    CellBrackets(n, b, k);
    CellBrackets(n', b, k);
    UniqueFloor(RadicalInverse(n, b) * Pow(b, k) as real, Cell(n, b, k), Cell(n', b, k));
    var m := SameCellCongruent(n, n', b, k);
    Near(n, n', m, Pow(b, k));
  }
}
