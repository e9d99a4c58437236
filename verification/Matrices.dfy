/**
 Matrices as values: the register tiles of a kernel.

 `E` is the bounds-checked element read of a block load: outside the matrix it is zero. The ring
 laws below are what the triangular inverse and the chunk theorem calculate with.
 */
module Matrices {
  import opened Sums

  type Vec = seq<real>
  type Mat = seq<Vec>

  function At(v: Vec, i: int): real {
    if 0 <= i < |v| then v[i] else 0.0
  }

  function E(x: Mat, i: int, j: int): real {
    if 0 <= i < |x| && 0 <= j < |x[i]| then x[i][j] else 0.0
  }

  ghost predicate Dim(x: Mat, m: nat, n: nat) {
    |x| == m && forall i :: 0 <= i < m ==> |x[i]| == n
  }

  function Tab(m: nat, n: nat, f: (int, int) -> real): (r: Mat)
    ensures Dim(r, m, n)
    ensures forall i, j {:trigger E(r, i, j)} :: E(r, i, j) == if 0 <= i < m && 0 <= j < n then f(i, j) else 0.0
  {
    seq(m, i requires 0 <= i < m => seq(n, j requires 0 <= j < n => f(i, j)))
  }

  lemma MatExt(x: Mat, y: Mat, m: nat, n: nat)
    requires Dim(x, m, n) && Dim(y, m, n)
    requires forall i, j :: 0 <= i < m && 0 <= j < n ==> E(x, i, j) == E(y, i, j)
    ensures x == y
  {
    forall i | 0 <= i < m ensures x[i] == y[i] {
      forall j | 0 <= j < n ensures x[i][j] == y[i][j] {
        assert E(x, i, j) == E(y, i, j);
      }
    }
  }

  // ----- block operations -----

  function Zeros(m: nat, n: nat): (r: Mat) {
    Tab(m, n, (i, j) => 0.0)
  }

  function Id(n: nat): (r: Mat) {
    Tab(n, n, (i, j) => if i == j then 1.0 else 0.0)
  }

  function Add(m: nat, n: nat, x: Mat, y: Mat): (r: Mat) {
    Tab(m, n, (i, j) => E(x, i, j) + E(y, i, j))
  }

  function Neg(m: nat, n: nat, x: Mat): (r: Mat) {
    Tab(m, n, (i, j) => -E(x, i, j))
  }

  function Sub(m: nat, n: nat, x: Mat, y: Mat): (r: Mat) {
    Tab(m, n, (i, j) => E(x, i, j) - E(y, i, j))
  }

  function Scale(m: nat, n: nat, a: real, x: Mat): (r: Mat) {
    Tab(m, n, (i, j) => E(x, i, j) * a)
  }

  function Trans(m: nat, n: nat, x: Mat): (r: Mat) {
    Tab(n, m, (i, j) => E(x, j, i))
  }

  /** Row i of x times a[i]: x * a[:, None]. */
  function ScaleRows(m: nat, n: nat, x: Mat, a: Vec): (r: Mat) {
    Tab(m, n, (i, j) => E(x, i, j) * At(a, i))
  }

  /** The m x n times n x p block product. */
  function Mul(m: nat, n: nat, p: nat, x: Mat, y: Mat): (r: Mat) {
    Tab(m, p, (i, j) => Sum(n, k => E(x, i, k) * E(y, k, j)))
  }

  // ----- ring laws -----

  lemma MulAssoc(m: nat, n: nat, p: nat, q: nat, x: Mat, y: Mat, z: Mat)
    ensures Mul(m, p, q, Mul(m, n, p, x, y), z) == Mul(m, n, q, x, Mul(n, p, q, y, z))
  {
    var xy, yz := Mul(m, n, p, x, y), Mul(n, p, q, y, z);
    var l, r := Mul(m, p, q, xy, z), Mul(m, n, q, x, yz);
    forall i, j | 0 <= i < m && 0 <= j < q ensures E(l, i, j) == E(r, i, j) {
      MulAssocAt(m, n, p, q, x, y, z, i, j);
    }
    MatExt(l, r, m, q);
  }

  lemma MulAssocAt(m: nat, n: nat, p: nat, q: nat, x: Mat, y: Mat, z: Mat, i: nat, j: nat)
    requires i < m && j < q
    ensures Sum(p, l => E(Mul(m, n, p, x, y), i, l) * E(z, l, j))
         == Sum(n, k => E(x, i, k) * E(Mul(n, p, q, y, z), k, j))
  {
    hide E;
    var xy, yz := Mul(m, n, p, x, y), Mul(n, p, q, y, z);
    AssocAt(n, p, x, y, z, i, j);
    SumExt(p, l => E(xy, i, l) * E(z, l, j), l => RowCol(n, x, y, i, l) * E(z, l, j));
    SumExt(n, k => E(x, i, k) * E(yz, k, j), k => E(x, i, k) * RowCol(p, y, z, k, j));
  }

  /** Entry (i, j) of the product x y over the inner dimension n. */
  function RowCol(n: nat, x: Mat, y: Mat, i: int, j: int): real {
    Sum(n, k => E(x, i, k) * E(y, k, j))
  }

  lemma MulEntry(m: nat, n: nat, p: nat, x: Mat, y: Mat, i: nat, j: nat)
    requires i < m && j < p
    ensures E(Mul(m, n, p, x, y), i, j) == RowCol(n, x, y, i, j)
  {
  }

  lemma MulDims(m: nat, n: nat, p: nat, x: Mat, y: Mat)
    ensures Dim(Mul(m, n, p, x, y), m, p)
  {
  }

  lemma {:induction false} AssocAt(n: nat, p: nat, x: Mat, y: Mat, z: Mat, i: int, j: int)
    ensures Sum(p, l => RowCol(n, x, y, i, l) * E(z, l, j)) == Sum(n, k => E(x, i, k) * RowCol(p, y, z, k, j))
  {
    hide E, RowCol;
    if p == 0 {
      forall k ensures RowCol(0, y, z, k, j) == 0.0 { RowColNone(y, z, k, j); }
      SumZero(n, k => E(x, i, k) * RowCol(p, y, z, k, j));
    } else {
      AssocAt(n, p - 1, x, y, z, i, j);
      AssocStep(n, p, x, y, z, i, j);
    }
  }

  lemma AssocStep(n: nat, p: nat, x: Mat, y: Mat, z: Mat, i: int, j: int)
    requires p > 0
    ensures Sum(n, k => E(x, i, k) * RowCol(p, y, z, k, j))
         == Sum(n, k => E(x, i, k) * RowCol(p - 1, y, z, k, j)) + RowCol(n, x, y, i, p - 1) * E(z, p - 1, j)
  {
    hide E, RowCol;
    var whole := k => E(x, i, k) * RowCol(p, y, z, k, j);
    var init, last := k => E(x, i, k) * RowCol(p - 1, y, z, k, j), k => E(x, i, k) * E(y, k, p - 1);
    var d := E(z, p - 1, j);
    forall k | 0 <= k < n ensures whole(k) == 1.0 * init(k) + d * last(k) {
      RowColLast(p, y, z, k, j);
      AssocTerm(E(x, i, k), RowCol(p, y, z, k, j), RowCol(p - 1, y, z, k, j), E(y, k, p - 1), d);
    }
    SumCombine(n, whole, 1.0, init, d, last);
    RowColIs(n, x, y, i, p - 1);
  }

  lemma RowColNone(x: Mat, y: Mat, i: int, j: int)
    ensures RowCol(0, x, y, i, j) == 0.0
  {
  }

  lemma RowColIs(n: nat, x: Mat, y: Mat, i: int, j: int)
    ensures RowCol(n, x, y, i, j) == Sum(n, k => E(x, i, k) * E(y, k, j))
  {
  }

  lemma RowColLast(p: nat, y: Mat, z: Mat, k: int, j: int)
    requires p > 0
    ensures RowCol(p, y, z, k, j) == RowCol(p - 1, y, z, k, j) + E(y, k, p - 1) * E(z, p - 1, j)
  {
    hide E;
  }

  lemma AssocTerm(a: real, w: real, b: real, c: real, d: real)
    requires w == b + c * d
    ensures a * w == 1.0 * (a * b) + d * (a * c)
  {
  }

  lemma PullSign(a: real, b: real)
    ensures a * -b == -1.0 * (a * b)
  {
  }

  lemma MulNegRight(m: nat, n: nat, p: nat, x: Mat, y: Mat)
    ensures Mul(m, n, p, x, Neg(n, p, y)) == Neg(m, p, Mul(m, n, p, x, y))
  {
    hide E;
    var l, r := Mul(m, n, p, x, Neg(n, p, y)), Neg(m, p, Mul(m, n, p, x, y));
    forall i, j | 0 <= i < m && 0 <= j < p ensures E(l, i, j) == E(r, i, j) {
      var f, g := k => E(x, i, k) * E(Neg(n, p, y), k, j), k => E(x, i, k) * E(y, k, j);
      forall k | 0 <= k < n ensures f(k) == -1.0 * g(k) { PullSign(E(x, i, k), E(y, k, j)); }
      SumFactor(n, f, -1.0, g);
    }
    MatExt(l, r, m, p);
  }

  lemma MulIdLeft(m: nat, p: nat, x: Mat)
    requires Dim(x, m, p)
    ensures Mul(m, m, p, Id(m), x) == x
  {
    var l := Mul(m, m, p, Id(m), x);
    forall i, j | 0 <= i < m && 0 <= j < p ensures E(l, i, j) == E(x, i, j) {
      SumSingle(m, i, k => E(Id(m), i, k) * E(x, k, j));
    }
    MatExt(l, x, m, p);
  }

  lemma MulIdRight(m: nat, p: nat, x: Mat)
    requires Dim(x, m, p)
    ensures Mul(m, p, p, x, Id(p)) == x
  {
    var l := Mul(m, p, p, x, Id(p));
    forall i, j | 0 <= i < m && 0 <= j < p ensures E(l, i, j) == E(x, i, j) {
      SumSingle(p, j, k => E(x, i, k) * E(Id(p), k, j));
    }
    MatExt(l, x, m, p);
  }
}
