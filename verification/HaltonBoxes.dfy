/**
 Several radical inverses of one index, as the searches draw them (experiments/racing_v3_thermal/screen_local.py):
 with pairwise coprime bases every box of the grid is hit exactly once per period.
 */
module HaltonBoxes {
  import opened Halton
  import opened Integers

  // ----- Coprime numbers -----

  /** Greatest common divisor, by remainders. */
  function Gcd(a: nat, b: nat): nat
    decreases b
  {
    if b == 0 then a else Gcd(b, a % b)
  }

  ghost predicate IsBezout(p: int, q: int, u: int, v: int) { u * p + v * q == 1 }

  lemma {:induction false} GcdCombination(a: nat, b: nat) returns (u: int, v: int)
    ensures u * a + v * b == Gcd(a, b)
    decreases b
  {
    if b == 0 {
      u, v := 1, 0;
    } else {
      var u', v' := GcdCombination(b, a % b);
      u, v := v', u' - v' * (a / b);
      CombinationStep(a, b, u', v', a / b, a % b);
    }
  }

  lemma CombinationStep(a: int, b: int, u: int, v: int, q: int, r: int)
    requires a == b * q + r
    ensures v * a + (u - v * q) * b == u * b + v * r
  {
    assert v * a == v * (b * q) + v * r;
    assert (u - v * q) * b == u * b - v * q * b;
    assert v * (b * q) == v * q * b;
  }

  lemma CoprimeBezout(a: nat, b: nat) returns (u: int, v: int)
    requires Gcd(a, b) == 1
    ensures IsBezout(a, b, u, v)
  {
    u, v := GcdCombination(a, b);
  }

  lemma BezoutSwap(p: int, q: int, u: int, v: int)
    requires IsBezout(p, q, u, v)
    ensures IsBezout(q, p, v, u)
  {
  }

  /** What is coprime to two numbers is coprime to their product. */
  lemma BezoutProduct(p: int, p': int, q: int, u: int, v: int, u': int, v': int) returns (s: int, t: int)
    requires IsBezout(p, q, u, v) && IsBezout(p', q, u', v')
    ensures IsBezout(p * p', q, s, t)
  {
    s, t := u * u', u * p * v' + v;
    ProductExpand(u * p, v, q, u', p', v');
    assert (u * p) * (u' * p') == (u * u') * (p * p');
    assert (u * p) * (v' * q) == u * p * v' * q;
  }

  lemma ProductExpand(up: int, v: int, q: int, u': int, p': int, v': int)
    requires up + v * q == 1 && u' * p' + v' * q == 1
    ensures up * (u' * p') + up * (v' * q) + v * q == 1
  {
    assert up * (u' * p' + v' * q) == up * (u' * p') + up * (v' * q);
    assert up * 1 == up;
  }

  lemma {:induction false} PowBezout(b: nat, k: nat, q: int, u: int, v: int) returns (s: int, t: int)
    requires IsBezout(b, q, u, v)
    ensures IsBezout(Pow(b, k), q, s, t)
  {
    if k == 0 {
      s, t := 1, 0;
    } else {
      var s', t' := PowBezout(b, k - 1, q, u, v);
      s, t := BezoutProduct(b, Pow(b, k - 1), q, u, v, s', t');
      assert Pow(b, k) == b * Pow(b, k - 1);
    }
  }

  // ----- Residue classes -----

  /** A number in a residue class, written out. */
  lemma ResidueIs(n: int, p: int, r: int) returns (m: int)
    requires p > 0 && n % p == r
    ensures n == p * m + r && 0 <= r < p
  {
    DivMod(n, p);
    m := n / p;
  }

  lemma ReduceLeft(x: int, y: int, m: int, p: int, q: int, r: int)
    requires p > 0 && y == (p * q) * m + x && x % p == r
    ensures y % p == r
  {
    var k := ResidueIs(x, p, r);
    assert (p * q) * m == p * (q * m);
    Distribute(p, q * m, k);
    DivUnique(y, p, q * m + k, r);
  }

  /** Reduction modulo a product keeps both residues. */
  lemma ReduceProduct(x: int, y: int, m: int, p: int, q: int)
    requires p > 0 && q > 0 && y == (p * q) * m + x
    ensures y % p == x % p && y % q == x % q
  {
    ReduceLeft(x, y, m, p, q, x % p);
    assert p * q == q * p;
    ReduceLeft(x, y, m, q, p, x % q);
  }

  /** A multiple of two coprime numbers is a multiple of their product. */
  lemma BothDivide(d: int, p: int, q: int, a: int, b: int, u: int, v: int)
    requires IsBezout(p, q, u, v) && d == p * a && d == q * b
    ensures d == (p * q) * (u * b + v * a)
  {
    Distribute(d, u * p, v * q);
    assert d * (u * p) == (p * q) * (u * b) by {
      assert (q * b) * (u * p) == (p * q) * (u * b);
    }
    assert d * (v * q) == (p * q) * (v * a) by {
      assert (p * a) * (v * q) == (p * q) * (v * a);
    }
    Distribute(p * q, u * b, v * a);
  }

  /** The common number of two classes before reduction. */
  lemma Merged(p: int, q: int, u: int, v: int, r: int, s: int) returns (y: int)
    requires p > 0 && q > 0 && IsBezout(p, q, u, v) && 0 <= r < p && 0 <= s < q
    ensures y % p == r && y % q == s
  {
    var d := s - r;
    y := r + p * (u * d);
    DivUnique(y, p, u * d, r);
    assert y == q * (-(v * d)) + s by {
      Distribute(d, u * p, v * q);
      assert d * (u * p) == p * (u * d);
      assert d * (v * q) == q * (v * d);
      assert q * (-(v * d)) == -(q * (v * d));
    }
    DivUnique(y, q, -(v * d), s);
  }

  /** Chinese remainder theorem: two classes with coprime moduli meet in one class of the product. */
  lemma ClassesMeet(p: nat, q: nat, u: int, v: int, r: nat, s: nat) returns (x: nat)
    requires IsBezout(p, q, u, v) && r < p && s < q
    ensures p * q > 0 && x < p * q
    ensures forall n: nat :: n % p == r && n % q == s <==> n % (p * q) == x
  {
    MulSteps(p, q);
    var y := Merged(p, q, u, v, r, s);
    DivMod(y, p * q);
    x := y % (p * q);
    var k := y / (p * q);
    assert x == (p * q) * (-k) + y by { assert (p * q) * (-k) == -((p * q) * k); }
    ReduceProduct(y, x, -k, p, q);
    forall n: nat ensures n % p == r && n % q == s <==> n % (p * q) == x {
      if n % (p * q) == x {
        var m := ResidueIs(n, p * q, x);
        ReduceProduct(x, n, m, p, q);
      }
      if n % p == r && n % q == s {
        MeetsOnce(n, x, p, q, u, v, r, s);
      }
    }
  }

  lemma MeetsOnce(n: int, x: int, p: int, q: int, u: int, v: int, r: int, s: int)
    requires p > 0 && q > 0 && IsBezout(p, q, u, v) && p * q > 0 && 0 <= x < p * q
    requires n % p == r == x % p && n % q == s == x % q
    ensures n % (p * q) == x
  {
    var a := ResidueIs(n, p, r);
    var b := ResidueIs(x, p, r);
    var c := ResidueIs(n, q, s);
    var d := ResidueIs(x, q, s);
    Distribute(p, a - b, b);
    Distribute(q, c - d, d);
    BothDivide(n - x, p, q, a - b, c - d, u, v);
    DivUnique(n, p * q, u * (c - d) + v * (a - b), x);
  }

  // ----- Cells as residue classes -----

  /** The indices of a cell are one residue class. */
  lemma CellClass(n: nat, b: nat, k: nat, j: nat)
    requires b >= 2 && j < Pow(b, k)
    ensures Pow(b, k) > 0 && Uncell(j, b, k) < Pow(b, k)
    ensures Cell(n, b, k) == j <==> n % Pow(b, k) == Uncell(j, b, k)
  {
    hide Cell, Uncell, Pow;
    var p, r := Pow(b, k), Uncell(j, b, k);
    PowPositive(b, k);
    UncellHits(j, b, k, 0);
    assert Join(r, p, 0) == r;
    DivMod(n, p);
    UncellHits(j, b, k, n / p);
    if n % p == r {
      assert Join(r, p, n / p) == n;
    }
    if Cell(n, b, k) == j {
      var m := SameCellCongruent(r, n, b, k);
      assert m * p == p * m;
      DivUnique(n, p, m, r);
    }
  }

  // ----- Boxes -----

  /** One side of a box: a cell of the grid with base^k cells. */
  datatype Side = Side(base: nat, k: nat, cell: nat)

  ghost predicate ValidBox(box: seq<Side>) {
    && (forall i :: 0 <= i < |box| ==> box[i].base >= 2 && box[i].cell < Pow(box[i].base, box[i].k))
    && forall i, j :: 0 <= i < j < |box| ==> Gcd(box[i].base, box[j].base) == 1
  }

  function Cells(side: Side): nat { Pow(side.base, side.k) }

  /** Number of boxes of the grid spanned by the first n sides. */
  function Volume(box: seq<Side>, n: nat): nat
    requires n <= |box|
  {
    if n == 0 then 1 else Volume(box, n - 1) * Cells(box[n - 1])
  }

  /** The samples of an index, one per side, fall into the box. */
  ghost predicate InBox(index: nat, box: seq<Side>, n: nat)
    requires ValidBox(box) && n <= |box|
  {
    forall i :: 0 <= i < n ==> Cell(index, box[i].base, box[i].k) == box[i].cell
  }

  lemma SidesCoprime(a: Side, b: Side) returns (u: int, v: int)
    requires Gcd(a.base, b.base) == 1
    ensures IsBezout(Cells(a), Cells(b), u, v)
  {
    u, v := CoprimeBezout(a.base, b.base);
    u, v := PowBezout(a.base, a.k, b.base, u, v);
    BezoutSwap(Cells(a), b.base, u, v);
    v, u := PowBezout(b.base, b.k, Cells(a), v, u);
    BezoutSwap(Cells(b), Cells(a), v, u);
  }

  lemma {:induction false} VolumeCoprime(box: seq<Side>, m: nat, n: nat) returns (u: int, v: int)
    requires ValidBox(box) && m <= n < |box|
    ensures IsBezout(Volume(box, m), Cells(box[n]), u, v)
  {
    hide IsBezout, Gcd, Pow, Cells;
    if m == 0 {
      u, v := 1, 0;
      OneBezout(Cells(box[n]));
    } else {
      var s, t := VolumeCoprime(box, m - 1, n);
      var s', t' := SidesCoprime(box[m - 1], box[n]);
      u, v := BezoutProduct(Volume(box, m - 1), Cells(box[m - 1]), Cells(box[n]), s, t, s', t');
    }
  }

  lemma OneBezout(q: int)
    ensures IsBezout(1, q, 1, 0)
  {
  }

  /** The indices whose samples fall into a box are one residue class modulo the number of boxes. */
  lemma {:induction false} BoxClass(box: seq<Side>, n: nat) returns (r: nat)
    requires ValidBox(box) && n <= |box|
    ensures Volume(box, n) > 0 && r < Volume(box, n)
    ensures forall index: nat :: InBox(index, box, n) <==> index % Volume(box, n) == r
  {
    hide IsBezout, Gcd, Pow, Cell, Uncell;
    if n == 0 {
      r := 0;
    } else {
      var side := box[n - 1];
      var r' := BoxClass(box, n - 1);
      var u, v := VolumeCoprime(box, n - 1, n - 1);
      CellClass(0, side.base, side.k, side.cell);
      r := ClassesMeet(Volume(box, n - 1), Cells(side), u, v, r', Uncell(side.cell, side.base, side.k));
      forall index: nat ensures InBox(index, box, n) <==> index % Volume(box, n) == r {
        CellClass(index, side.base, side.k, side.cell);
        assert InBox(index, box, n) <==> InBox(index, box, n - 1) && Cell(index, side.base, side.k) == side.cell;
      }
    }
  }

  /** All samples of an index lie in their intervals. */
  ghost predicate Lands(index: nat, box: seq<Side>)
    requires ValidBox(box)
  {
    forall i :: 0 <= i < |box| ==>
      (PowPositive(box[i].base, box[i].k);
       InCell(RadicalInverse(index, box[i].base), box[i].cell, Pow(box[i].base, box[i].k)))
  }

  lemma LandsIff(index: nat, box: seq<Side>)
    requires ValidBox(box)
    ensures Lands(index, box) <==> InBox(index, box, |box|)
  {
    hide InCell, RadicalInverse, Cell, Pow;
    forall i | 0 <= i < |box|
      ensures Pow(box[i].base, box[i].k) > 0
      ensures InCell(RadicalInverse(index, box[i].base), box[i].cell, Pow(box[i].base, box[i].k))
         <==> Cell(index, box[i].base, box[i].k) == box[i].cell
    {
      InCellIff(index, box[i].base, box[i].k, box[i].cell);
    }
  }

  /**
   Stratification in every dimension at once: with pairwise coprime bases, among as many consecutive
   indices as the grid has boxes exactly one index lands in each box.
   */
  lemma BoxesStratified(start: nat, box: seq<Side>) returns (hit: nat)
    requires ValidBox(box)
    ensures start <= hit < start + Volume(box, |box|) && Lands(hit, box)
    ensures forall n: nat :: start <= n < start + Volume(box, |box|) && Lands(n, box) ==> n == hit
  {
    hide ValidBox, InBox, Lands;
    var p := Volume(box, |box|);
    var r := BoxClass(box, |box|);
    var m := NextCongruent(start, r, p);
    hit := Join(r, p, m);
    DivUnique(hit, p, m, r);
    LandsIff(hit, box);
    forall n: nat | start <= n < start + p && Lands(n, box) ensures n == hit {
      LandsIff(n, box);
      var k := ResidueIs(n, p, r);
      assert p * k - p * m == (k - m) * p;
      Near(hit, n, k - m, p);
    }
  }
}
