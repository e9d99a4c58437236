/** Block loads out of a matrix view, and sums taken tile by tile. */
module Tiles {
  import opened Sums
  import opened Matrices
  import opened Recurrence
  import opened ChunkTheorem

  /** The m x n block at (r0, c0); entries outside the view are zero (boundary_check). */
  function Load(m: nat, n: nat, x: Mat, r0: int, c0: int): (r: Mat) {
    Tab(m, n, (i, j) => E(x, r0 + i, c0 + j))
  }

  function LoadVec(m: nat, v: Vec, r0: int): (r: Vec) {
    VTab(m, i => At(v, r0 + i))
  }

  /** Rows of the chunk at r0 that lie inside a sequence of T tokens. */
  function Rows(T: int, r0: int, BT: int): int {
    if T - r0 < BT then T - r0 else BT
  }

  lemma LoadAt(m: nat, n: nat, x: Mat, r0: int, c0: int, i: nat, j: nat)
    requires i < m && j < n
    ensures E(Load(m, n, x, r0, c0), i, j) == E(x, r0 + i, c0 + j)
  {
  }

  function Cdiv(a: nat, b: nat): nat
    requires b > 0
  {
    (a + b - 1) / b
  }

  lemma CdivCovers(a: nat, b: nat)
    requires b > 0
    ensures a <= Cdiv(a, b) * b < a + b
  {
  }

  /** Token t of chunk c. */
  lemma ChunkOf(BT: nat, c: nat, t: nat)
    requires BT > 0 && c * BT <= t < c * BT + BT
    ensures t / BT == c
  {
    var q, r := t / BT, t % BT;
    assert t == q * BT + r && 0 <= r < BT;
    if q < c { ChunkGap(BT, q, c); } else if c < q { ChunkGap(BT, c, q); }
  }

  /** Chunks do not overlap. */
  lemma ChunkGap(BT: nat, c: nat, d: nat)
    requires c < d
    ensures c * BT + BT <= d * BT
  {
    assert d * BT == c * BT + (d - c) * BT;
    assert (d - c) * BT == BT + (d - c - 1) * BT;
  }

  /** A row-by-row product extended by one tile of n channels. */
  lemma RowDotStep(k0: nat, n: nat, x: Mat, a: int, y: Mat, b: int, xt: Mat, yt: Mat, i: int, m: int)
    requires forall l :: 0 <= l < n ==> E(xt, i, l) == E(x, a, k0 + l) && E(yt, l, m) == E(y, b, k0 + l)
    ensures RowDot(k0 + n, x, a, y, b) == RowDot(k0, x, a, y, b) + RowCol(n, xt, yt, i, m)
  {
    var f := c => E(x, a, c) * E(y, b, c);
    SumSplit(k0, n, f);
    SumExt(n, l => f(k0 + l), l => E(xt, i, l) * E(yt, l, m));
  }

  /** Channels past the end of x do not count. */
  lemma RowDotTail(K: nat, n: nat, x: Mat, a: int, y: Mat, b: int)
    requires K <= n && forall c :: K <= c < n ==> E(x, a, c) == 0.0
    ensures RowDot(n, x, a, y, b) == RowDot(K, x, a, y, b)
  {
    SumTail(K, n, c => E(x, a, c) * E(y, b, c));
  }

  lemma RowDotNone(x: Mat, a: int, y: Mat, b: int)
    ensures RowDot(0, x, a, y, b) == 0.0
  {
  }

  // ----- x y^T accumulated over tiles of BK channels -----

  /** acc[i][l] is row r0 + i of w times row v0 + l of s, over the first n channels. */
  ghost predicate ReadOut(n: nat, BT: nat, BV: nat, w: Mat, s: Mat, r0: nat, v0: nat, acc: Mat) {
    forall i, l :: 0 <= i < BT && 0 <= l < BV ==> E(acc, i, l) == RowDot(n, w, r0 + i, s, v0 + l)
  }

  function ReadTile(BT: nat, BK: nat, BV: nat, w: Mat, r0: nat, k0: nat, b: Mat): (r: Mat) {
    Mul(BT, BK, BV, Load(BT, BK, w, r0, k0), Trans(BV, BK, b))
  }

  lemma ReadTileAt(BT: nat, BK: nat, BV: nat, w: Mat, s: Mat, r0: nat, v0: nat, k0: nat, i: nat, l: nat)
    requires i < BT && l < BV
    ensures RowDot(k0 + BK, w, r0 + i, s, v0 + l)
         == RowDot(k0, w, r0 + i, s, v0 + l) + E(ReadTile(BT, BK, BV, w, r0, k0, Load(BV, BK, s, v0, k0)), i, l)
  {
    hide RowDot, E, Load, Trans;
    var wt, st := Load(BT, BK, w, r0, k0), Trans(BV, BK, Load(BV, BK, s, v0, k0));
    forall c | 0 <= c < BK ensures E(wt, i, c) == E(w, r0 + i, k0 + c) && E(st, c, l) == E(s, v0 + l, k0 + c) {
      LoadAt(BT, BK, w, r0, k0, i, c);
      LoadAt(BV, BK, s, v0, k0, l, c);
      TransAt(BV, BK, Load(BV, BK, s, v0, k0), c, l);
    }
    RowDotStep(k0, BK, w, r0 + i, s, v0 + l, wt, st, i, l);
    MulEntry(BT, BK, BV, wt, st, i, l);
  }

  lemma TransAt(m: nat, n: nat, x: Mat, i: nat, j: nat)
    requires i < n && j < m
    ensures E(Trans(m, n, x), i, j) == E(x, j, i)
  {
  }

  lemma ReadFirst(BT: nat, BK: nat, BV: nat, w: Mat, s: Mat, r0: nat, v0: nat)
    ensures ReadOut(BK, BT, BV, w, s, r0, v0, ReadTile(BT, BK, BV, w, r0, 0, Load(BV, BK, s, v0, 0)))
  {
    hide E, RowDot, ReadTile, Load;
    forall i, l | 0 <= i < BT && 0 <= l < BV
      ensures E(ReadTile(BT, BK, BV, w, r0, 0, Load(BV, BK, s, v0, 0)), i, l) == RowDot(BK, w, r0 + i, s, v0 + l)
    {
      ReadTileAt(BT, BK, BV, w, s, r0, v0, 0, i, l);
      RowDotNone(w, r0 + i, s, v0 + l);
    }
  }

  lemma ReadNext(BT: nat, BK: nat, BV: nat, w: Mat, s: Mat, r0: nat, v0: nat, k0: nat, acc: Mat)
    requires ReadOut(k0, BT, BV, w, s, r0, v0, acc)
    ensures ReadOut(k0 + BK, BT, BV, w, s, r0, v0,
                    Add(BT, BV, acc, ReadTile(BT, BK, BV, w, r0, k0, Load(BV, BK, s, v0, k0))))
  {
    hide E, RowDot, ReadTile, Load;
    forall i, l | 0 <= i < BT && 0 <= l < BV
      ensures RowDot(k0 + BK, w, r0 + i, s, v0 + l)
           == E(acc, i, l) + E(ReadTile(BT, BK, BV, w, r0, k0, Load(BV, BK, s, v0, k0)), i, l)
    {
      ReadTileAt(BT, BK, BV, w, s, r0, v0, k0, i, l);
    }
  }

  /** A tile the kernel skips would have added nothing. */
  lemma ReadSkip(K: nat, T: nat, BT: nat, BV: nat, w: Mat, s: Mat, r0: nat, v0: nat, n: nat, m: nat, acc: Mat)
    requires Dim(w, T, K) && K <= n && K <= m && ReadOut(n, BT, BV, w, s, r0, v0, acc)
    ensures ReadOut(m, BT, BV, w, s, r0, v0, acc)
  {
    hide E, RowDot;
    forall i, l | 0 <= i < BT && 0 <= l < BV ensures E(acc, i, l) == RowDot(m, w, r0 + i, s, v0 + l) {
      var t := r0 + i;
      forall c | K <= c ensures E(w, t, c) == 0.0 { BeyondColumns(w, T, K, t, c); }
      RowDotTail(K, n, w, r0 + i, s, v0 + l);
      RowDotTail(K, m, w, r0 + i, s, v0 + l);
    }
  }

  lemma BeyondColumns(x: Mat, m: nat, n: nat, i: int, j: int)
    requires Dim(x, m, n) && j >= n
    ensures E(x, i, j) == 0.0
  {
  }
}
