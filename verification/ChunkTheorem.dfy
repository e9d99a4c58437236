/**
 The chunk theorem: inside one chunk the update values solve a unit lower triangular system, so the
 tiles that the prefill kernels multiply together give the recurrence's update values, outputs and
 next state.
 */
module ChunkTheorem {
  import opened Sums
  import opened Matrices
  import opened Recurrence
  import opened ChunkAlgebra

  /** Entry (i, m) of the strictly lower matrix A of the chunk at r0. */
  function DecayedKK(expo: Expo, hd: Head, g: Vec, r0: nat, L: int, i: int, m: int): real {
    if 0 <= m < i < L then
      Sum(hd.K, c => E(hd.k, r0 + i, c) * At(hd.beta, r0 + i) * E(hd.k, r0 + m, c))
        * expo(At(g, r0 + i) - At(g, r0 + m))
    else 0.0
  }

  function ChunkA(expo: Expo, hd: Head, g: Vec, r0: nat, L: int, n: nat): (r: Mat) {
    Tab(n, n, (i, m) => DecayedKK(expo, hd, g, r0, L, i, m))
  }

  function UnitLower(n: nat, a: Mat): (r: Mat) {
    Add(n, n, Id(n), a)
  }

  /** Keys scaled by beta and by the decay since the chunk began: the right operand of w. */
  function ScaledKeys(expo: Expo, hd: Head, g: Vec, r0: nat, n: nat): (r: Mat) {
    Tab(n, hd.K, (i, c) => E(hd.k, r0 + i, c) * At(hd.beta, r0 + i) * expo(At(g, r0 + i)))
  }

  /** Values scaled by beta: the right operand of u. */
  function ScaledValues(hd: Head, r0: nat, n: nat): (r: Mat) {
    Tab(n, hd.V, (i, j) => E(hd.v, r0 + i, j) * At(hd.beta, r0 + i))
  }

  /** Row i of b inverts row i of (I + a) from the left, for the first L rows. */
  ghost predicate InvertsRows(n: nat, L: int, a: Mat, b: Mat) {
    forall i, j :: 0 <= i < L && 0 <= j < n ==> RowCol(n, b, UnitLower(n, a), i, j) == if i == j then 1.0 else 0.0
  }

  /** The update values of the chunk as a column, zero below row L. */
  function Updates(expo: Expo, hd: Head, j: int, s0: Vec, r0: nat, L: nat, n: nat): (r: Mat) {
    Tab(n, 1, (m, z) => if 0 <= m < L then Update(expo, hd, j, s0, r0 + m) else 0.0)
  }

  /** Right hand side of the system for row i: beta v minus the read-out of the state at chunk start. */
  function Residual(expo: Expo, hd: Head, g: Vec, r0: nat, n: nat, j: int, s: Vec, i: int): real {
    E(ScaledValues(hd, r0, n), i, j) - Sum(hd.K, c => E(ScaledKeys(expo, hd, g, r0, n), i, c) * At(s, c))
  }

  lemma ReadAtToken(expo: Expo, hd: Head, g: Vec, r0: nat, L: nat, i: nat, j: int, s0: Vec, z: int -> real)
    requires IsExp(expo) && Cumulative(hd, g, r0, L) && i < L
    ensures expo(At(hd.logDecay, r0 + i)) * Proj(hd.K, RowState(expo, hd, j, s0, r0 + i), z)
         == expo(At(g, r0 + i)) * Proj(hd.K, RowState(expo, hd, j, s0, r0), z)
            + Sum(i, Faded(expo, g, r0, i + 1, Feed(expo, hd, r0, j, s0, z)))
  {
    hide RowState, Proj, Feed, Faded;
    ProjClosed(expo, hd, g, r0, L, i, j, s0, z);
    var y := Feed(expo, hd, r0, j, s0, z);
    FadeStep(expo, hd, g, r0, L, i, y);
    assert Cum(g, r0, i + 1) == At(g, r0 + i);
    Distribute(expo(At(hd.logDecay, r0 + i)), Proj(hd.K, RowState(expo, hd, j, s0, r0 + i), z), expo(Cum(g, r0, i)),
               Proj(hd.K, RowState(expo, hd, j, s0, r0), z), Sum(i, Faded(expo, g, r0, i, y)));
  }

  lemma Distribute(d: real, p: real, e: real, q: real, s: real)
    requires p == e * q + s
    ensures d * p == (e * d) * q + d * s
  {
  }

  /** Token i's update value in terms of the state at the start of the chunk and the earlier updates. */
  lemma UpdateUnfolded(expo: Expo, hd: Head, g: Vec, r0: nat, L: nat, i: nat, j: int, s0: Vec, key: int -> real)
    requires IsExp(expo) && Cumulative(hd, g, r0, L) && i < L
    requires forall c :: key(c) == E(hd.k, r0 + i, c)
    ensures Update(expo, hd, j, s0, r0 + i)
         == At(hd.beta, r0 + i) * (E(hd.v, r0 + i, j)
              - (expo(At(g, r0 + i)) * Proj(hd.K, RowState(expo, hd, j, s0, r0), key)
                 + Sum(i, Faded(expo, g, r0, i + 1, Feed(expo, hd, r0, j, s0, key)))))
  {
    hide RowState, Faded, Feed, E, At, Cumulative;
    var s, d := RowState(expo, hd, j, s0, r0 + i), expo(At(hd.logDecay, r0 + i));
    var f := c => At(s, c) * d * E(hd.k, r0 + i, c);
    forall c | 0 <= c < hd.K ensures f(c) == d * (c => At(s, c) * key(c))(c) {
      assert key(c) == E(hd.k, r0 + i, c);
    }
    SumFactor(hd.K, f, d, c => At(s, c) * key(c));
    ReadAtToken(expo, hd, g, r0, L, i, j, s0, key);
  }

  // ----- the triangular system -----

  lemma CoefficientTimesUpdate(expo: Expo, hd: Head, g: Vec, r0: nat, L: nat, i: nat, m: nat, j: int, s0: Vec,
                               key: int -> real)
    requires m < i < L
    requires forall c :: key(c) == E(hd.k, r0 + i, c)
    ensures DecayedKK(expo, hd, g, r0, L, i, m) * Update(expo, hd, j, s0, r0 + m)
         == At(hd.beta, r0 + i) * Faded(expo, g, r0, i + 1, Feed(expo, hd, r0, j, s0, key))(m)
  {
    hide Update, E, At;
    var b := At(hd.beta, r0 + i);
    var kk := c => E(hd.k, r0 + i, c) * b * E(hd.k, r0 + m, c);
    var kp := c => E(hd.k, r0 + m, c) * key(c);
    forall c | 0 <= c < hd.K ensures kk(c) == b * kp(c) {
      assert key(c) == E(hd.k, r0 + i, c);
    }
    SumFactor(hd.K, kk, b, kp);
    var w := expo(At(g, r0 + i) - At(g, r0 + m));
    assert w == expo(Cum(g, r0, i + 1) - Cum(g, r0, m + 1));
    Regroup(Sum(hd.K, kk), b, KeyProj(hd, r0 + m, key), w, Update(expo, hd, j, s0, r0 + m));
  }

  lemma Regroup(s: real, b: real, p: real, w: real, x: real)
    requires s == b * p
    ensures s * w * x == b * (w * (x * p))
  {
  }

  lemma SystemLeft(expo: Expo, hd: Head, g: Vec, r0: nat, L: nat, n: nat, i: nat, j: nat, s0: Vec, key: int -> real)
    requires i < L <= n
    requires forall c :: key(c) == E(hd.k, r0 + i, c)
    ensures RowCol(n, UnitLower(n, ChunkA(expo, hd, g, r0, L, n)), Updates(expo, hd, j, s0, r0, L, n), i, 0)
         == At(hd.beta, r0 + i) * Sum(i, Faded(expo, g, r0, i + 1, Feed(expo, hd, r0, j, s0, key)))
            + Update(expo, hd, j, s0, r0 + i)
  {
    hide *;
    var b, y := At(hd.beta, r0 + i), Faded(expo, g, r0, i + 1, Feed(expo, hd, r0, j, s0, key));
    var u, x := UnitLower(n, ChunkA(expo, hd, g, r0, L, n)), Updates(expo, hd, j, s0, r0, L, n);
    var terms := m => E(u, i, m) * E(x, m, 0);
    forall m | 0 <= m < n
      ensures terms(m) == if m < i then b * y(m) else if m == i then Update(expo, hd, j, s0, r0 + i) else 0.0
    {
      SystemTerm(expo, hd, g, r0, L, n, i, m, j, s0, key);
    }
    SumTail(i + 1, n, terms);
    SumFactor(i, terms, b, y);
    SumLast(i, terms);
    RowColIs(n, u, x, i, 0);
    SumExt(n, k => E(u, i, k) * E(x, k, 0), terms);
  }

  lemma SumLast(i: nat, f: int -> real)
    ensures Sum(i + 1, f) == Sum(i, f) + f(i)
  {
  }

  lemma SystemTerm(expo: Expo, hd: Head, g: Vec, r0: nat, L: nat, n: nat, i: nat, m: nat, j: nat, s0: Vec,
                   key: int -> real)
    requires i < L <= n && m < n
    requires forall c :: key(c) == E(hd.k, r0 + i, c)
    ensures E(UnitLower(n, ChunkA(expo, hd, g, r0, L, n)), i, m) * E(Updates(expo, hd, j, s0, r0, L, n), m, 0)
         == if m < i then At(hd.beta, r0 + i) * Faded(expo, g, r0, i + 1, Feed(expo, hd, r0, j, s0, key))(m)
            else if m == i then Update(expo, hd, j, s0, r0 + i) else 0.0
  {
    hide Update, Faded, Feed, DecayedKK;
    if m < i {
      CoefficientTimesUpdate(expo, hd, g, r0, L, i, m, j, s0, key);
      UnitLowerBelow(expo, hd, g, r0, L, n, i, m);
    } else {
      UnitLowerOnAndAbove(expo, hd, g, r0, L, n, i);
    }
  }

  /** Row i < L of (I + A) x = beta v - (scaled keys) s. */
  lemma SystemRow(expo: Expo, hd: Head, g: Vec, r0: nat, L: nat, n: nat, i: nat, j: nat, s0: Vec)
    requires IsExp(expo) && Cumulative(hd, g, r0, L) && i < L <= n && j < hd.V
    ensures RowCol(n, UnitLower(n, ChunkA(expo, hd, g, r0, L, n)), Updates(expo, hd, j, s0, r0, L, n), i, 0)
         == Residual(expo, hd, g, r0, n, j, RowState(expo, hd, j, s0, r0), i)
  {
    hide RowState, Update, Faded, Feed, DecayedKK, RowCol, Residual, Proj, E, At;
    var key := c => E(hd.k, r0 + i, c);
    SystemLeft(expo, hd, g, r0, L, n, i, j, s0, key);
    UpdateUnfolded(expo, hd, g, r0, L, i, j, s0, key);
    ResidualUnfolded(expo, hd, g, r0, n, j, RowState(expo, hd, j, s0, r0), i, key);
    SystemArithmetic(At(hd.beta, r0 + i), E(hd.v, r0 + i, j),
                     expo(At(g, r0 + i)) * Proj(hd.K, RowState(expo, hd, j, s0, r0), key),
                     Sum(i, Faded(expo, g, r0, i + 1, Feed(expo, hd, r0, j, s0, key))));
  }

  lemma SystemArithmetic(b: real, v: real, p: real, s: real)
    ensures b * s + b * (v - (p + s)) == v * b - b * p
  {
  }

  lemma UnitLowerBelow(expo: Expo, hd: Head, g: Vec, r0: nat, L: nat, n: nat, i: nat, m: nat)
    requires m < i < L <= n
    ensures E(UnitLower(n, ChunkA(expo, hd, g, r0, L, n)), i, m) == DecayedKK(expo, hd, g, r0, L, i, m)
  {
    hide DecayedKK;
  }

  lemma UnitLowerOnAndAbove(expo: Expo, hd: Head, g: Vec, r0: nat, L: nat, n: nat, i: nat)
    requires i < n
    ensures E(UnitLower(n, ChunkA(expo, hd, g, r0, L, n)), i, i) == 1.0
    ensures forall m :: i < m < n ==> E(UnitLower(n, ChunkA(expo, hd, g, r0, L, n)), i, m) == 0.0
  {
  }

  lemma ResidualUnfolded(expo: Expo, hd: Head, g: Vec, r0: nat, n: nat, j: nat, s: Vec, i: nat, key: int -> real)
    requires i < n && j < hd.V
    requires forall c :: key(c) == E(hd.k, r0 + i, c)
    ensures Residual(expo, hd, g, r0, n, j, s, i)
         == E(hd.v, r0 + i, j) * At(hd.beta, r0 + i) - At(hd.beta, r0 + i) * (expo(At(g, r0 + i)) * Proj(hd.K, s, key))
  {
    hide E, At;
    var b, e := At(hd.beta, r0 + i), expo(At(g, r0 + i));
    var f, p := c => E(ScaledKeys(expo, hd, g, r0, n), i, c) * At(s, c), c => At(s, c) * key(c);
    forall c | 0 <= c < hd.K ensures f(c) == (b * e) * p(c) {
      ScaledTerm(E(hd.k, r0 + i, c), b, e, At(s, c));
    }
    SumFactor(hd.K, f, b * e, p);
  }

  lemma ScaledTerm(k: real, b: real, e: real, s: real)
    ensures k * b * e * s == (b * e) * (s * k)
  {
  }

  /** Rows past the end of a partial chunk are trivial: nothing was loaded there. */
  lemma SystemPadding(expo: Expo, hd: Head, g: Vec, r0: nat, L: nat, n: nat, i: nat, j: nat, s0: Vec, s: Vec)
    requires Shaped(hd) && L <= i < n && r0 + L == hd.T
    ensures RowCol(n, UnitLower(n, ChunkA(expo, hd, g, r0, L, n)), Updates(expo, hd, j, s0, r0, L, n), i, 0) == 0.0
    ensures Residual(expo, hd, g, r0, n, j, s, i) == 0.0
  {
    hide E, At, UnitLower, Updates, ChunkA, ScaledKeys, ScaledValues, Shaped;
    var u, x := UnitLower(n, ChunkA(expo, hd, g, r0, L, n)), Updates(expo, hd, j, s0, r0, L, n);
    forall m | 0 <= m < n ensures E(u, i, m) * E(x, m, 0) == 0.0 {
      PaddingTerm(expo, hd, g, r0, L, n, i, m, j, s0);
    }
    forall c | 0 <= c < hd.K ensures E(ScaledKeys(expo, hd, g, r0, n), i, c) * At(s, c) == 0.0 {
      PaddingKey(expo, hd, g, r0, n, i, c);
    }
    PaddingValue(hd, r0, n, i, j);
    SumZero(n, m => E(u, i, m) * E(x, m, 0));
    SumZero(hd.K, c => E(ScaledKeys(expo, hd, g, r0, n), i, c) * At(s, c));
  }

  lemma PaddingTerm(expo: Expo, hd: Head, g: Vec, r0: nat, L: nat, n: nat, i: nat, m: nat, j: nat, s0: Vec)
    requires L <= i < n && m < n
    ensures E(UnitLower(n, ChunkA(expo, hd, g, r0, L, n)), i, m) * E(Updates(expo, hd, j, s0, r0, L, n), m, 0) == 0.0
  {
    hide Update;
    assert m != i ==> E(UnitLower(n, ChunkA(expo, hd, g, r0, L, n)), i, m) == 0.0;
  }

  lemma PaddingKey(expo: Expo, hd: Head, g: Vec, r0: nat, n: nat, i: nat, c: nat)
    requires Shaped(hd) && r0 + i >= hd.T && c < hd.K
    ensures E(ScaledKeys(expo, hd, g, r0, n), i, c) == 0.0
  {
    assert E(hd.k, r0 + i, c) == 0.0;
  }

  lemma PaddingValue(hd: Head, r0: nat, n: nat, i: nat, j: nat)
    requires Shaped(hd) && r0 + i >= hd.T
    ensures E(ScaledValues(hd, r0, n), i, j) == 0.0
  {
    assert E(hd.v, r0 + i, j) == 0.0;
  }

  // ----- what the tiles compute -----

  /** Value new to the state at row i: u minus w read out against the state at chunk start. */
  function NewRow(n: nat, K: nat, b: Mat, values: Mat, keys: Mat, s: Vec, i: int, j: int): real {
    RowCol(n, b, values, i, j) - Sum(K, c => RowCol(n, b, keys, i, c) * At(s, c))
  }

  /** The inverse applied to beta v and to the scaled keys yields exactly the recurrence's updates. */
  lemma NewRowIsUpdate(expo: Expo, hd: Head, g: Vec, r0: nat, L: nat, n: nat, b: Mat, i: nat, j: nat, s0: Vec)
    requires IsExp(expo) && Shaped(hd) && Cumulative(hd, g, r0, L) && i < L <= n && j < hd.V
    requires r0 + L == hd.T || L == n
    requires InvertsRows(n, L, ChunkA(expo, hd, g, r0, L, n), b)
    ensures NewRow(n, hd.K, b, ScaledValues(hd, r0, n), ScaledKeys(expo, hd, g, r0, n),
                   RowState(expo, hd, j, s0, r0), i, j) == Update(expo, hd, j, s0, r0 + i)
  {
    hide *;
    var s := RowState(expo, hd, j, s0, r0);
    var x, a := Updates(expo, hd, j, s0, r0, L, n), ChunkA(expo, hd, g, r0, L, n);
    var u := UnitLower(n, a);
    forall m | 0 <= m < n
      ensures E(b, i, m) * RowCol(n, u, x, m, 0) == E(b, i, m) * Residual(expo, hd, g, r0, n, j, s, m)
    {
      if m < L { SystemRow(expo, hd, g, r0, L, n, m, j, s0); }
      else { SystemPadding(expo, hd, g, r0, L, n, m, j, s0, s); }
    }
    UpdatesAt(expo, hd, j, s0, r0, L, n, i);
    Cancel(n, L, b, a, x, i);
    SumExt(n, m => E(b, i, m) * RowCol(n, u, x, m, 0), m => E(b, i, m) * Residual(expo, hd, g, r0, n, j, s, m));
    SplitResidual(expo, hd, g, r0, n, b, i, j, s);
  }

  lemma UpdatesAt(expo: Expo, hd: Head, j: int, s0: Vec, r0: nat, L: nat, n: nat, i: nat)
    requires i < L <= n
    ensures E(Updates(expo, hd, j, s0, r0, L, n), i, 0) == Update(expo, hd, j, s0, r0 + i)
  {
    hide Update;
  }

  /** B (I + A) x has entry x_i in each inverted row. */
  lemma Cancel(n: nat, L: nat, b: Mat, a: Mat, x: Mat, i: nat)
    requires i < L <= n && InvertsRows(n, L, a, b)
    ensures Sum(n, m => E(b, i, m) * RowCol(n, UnitLower(n, a), x, m, 0)) == E(x, i, 0)
  {
    hide RowCol, E, UnitLower;
    var u := UnitLower(n, a);
    AssocAt(n, n, b, u, x, i, 0);
    SumSingle(n, i, l => RowCol(n, b, u, i, l) * E(x, l, 0));
  }

  lemma SplitResidual(expo: Expo, hd: Head, g: Vec, r0: nat, n: nat, b: Mat, i: nat, j: nat, s: Vec)
    ensures Sum(n, m => E(b, i, m) * Residual(expo, hd, g, r0, n, j, s, m))
         == NewRow(n, hd.K, b, ScaledValues(hd, r0, n), ScaledKeys(expo, hd, g, r0, n), s, i, j)
  {
    hide *;
    var vals, keys := ScaledValues(hd, r0, n), ScaledKeys(expo, hd, g, r0, n);
    var col := Tab(hd.K, 1, (c, z) => At(s, c));
    var f, h := m => E(b, i, m) * E(vals, m, j), m => E(b, i, m) * RowCol(hd.K, keys, col, m, 0);
    var all := m => E(b, i, m) * Residual(expo, hd, g, r0, n, j, s, m);
    forall m | 0 <= m < n ensures all(m) == 1.0 * f(m) + -1.0 * h(m) {
      ResidualSplit(expo, hd, g, r0, n, j, s, m);
      Minus(E(b, i, m), Residual(expo, hd, g, r0, n, j, s, m), E(vals, m, j), RowCol(hd.K, keys, col, m, 0));
    }
    SumCombine(n, all, 1.0, f, -1.0, h);
    AssocAt(n, hd.K, b, keys, col, i, 0);
    RowColIs(n, b, vals, i, j);
    SumExt(hd.K, c => RowCol(n, b, keys, i, c) * At(s, c), c => RowCol(n, b, keys, i, c) * E(col, c, 0));
    NewRowIs(n, hd.K, b, vals, keys, s, i, j);
  }

  lemma NewRowIs(n: nat, K: nat, b: Mat, values: Mat, keys: Mat, s: Vec, i: int, j: int)
    ensures NewRow(n, K, b, values, keys, s, i, j)
         == RowCol(n, b, values, i, j) - Sum(K, c => RowCol(n, b, keys, i, c) * At(s, c))
  {
  }

  lemma ResidualSplit(expo: Expo, hd: Head, g: Vec, r0: nat, n: nat, j: nat, s: Vec, m: int)
    ensures Residual(expo, hd, g, r0, n, j, s, m)
         == E(ScaledValues(hd, r0, n), m, j)
            - RowCol(hd.K, ScaledKeys(expo, hd, g, r0, n), Tab(hd.K, 1, (c, z) => At(s, c)), m, 0)
  {
    hide E, At, ScaledKeys, ScaledValues;
    var keys, col := ScaledKeys(expo, hd, g, r0, n), Tab(hd.K, 1, (c, z) => At(s, c));
    SumExt(hd.K, c => E(keys, m, c) * At(s, c), c => E(keys, m, c) * E(col, c, 0));
  }

  lemma Minus(b: real, r: real, v: real, w: real)
    requires r == v - w
    ensures b * r == 1.0 * (b * v) + -1.0 * (b * w)
  {
  }

  /** Entry c of the state row the chunk ends with: decayed start plus every update carried to the end. */
  lemma NextStateEntry(expo: Expo, hd: Head, g: Vec, r0: nat, L: nat, j: int, s0: Vec, c: nat, carried: int -> real)
    requires IsExp(expo) && Cumulative(hd, g, r0, L) && 0 < L && c < hd.K
    requires forall m :: 0 <= m < L ==>
      carried(m) == E(hd.k, r0 + m, c) * (Update(expo, hd, j, s0, r0 + m) * expo(At(g, r0 + L - 1) - At(g, r0 + m)))
    ensures At(RowState(expo, hd, j, s0, r0 + L), c)
         == At(RowState(expo, hd, j, s0, r0), c) * expo(At(g, r0 + L - 1)) + Sum(L, carried)
  {
    hide *;
    var unit := z => if z == c then 1.0 else 0.0;
    ProjClosed(expo, hd, g, r0, L, L, j, s0, unit);
    ProjUnit(hd.K, RowState(expo, hd, j, s0, r0), c, unit);
    ProjUnit(hd.K, RowState(expo, hd, j, s0, r0 + L), c, unit);
    var y := Faded(expo, g, r0, L, Feed(expo, hd, r0, j, s0, unit));
    forall m | 0 <= m < L ensures y(m) == carried(m) {
      KeyUnit(hd, r0 + m, c, unit);
      FadedTerm(expo, hd, g, r0, L, m, j, s0, unit);
      Reorder(expo(At(g, r0 + L - 1) - At(g, r0 + m)), Update(expo, hd, j, s0, r0 + m), E(hd.k, r0 + m, c));
    }
    SumExt(L, y, carried);
    CumAt(g, r0, L);
  }

  lemma CumAt(g: Vec, r0: nat, i: nat)
    requires i > 0
    ensures Cum(g, r0, i) == At(g, r0 + i - 1)
  {
  }

  lemma FadedTerm(expo: Expo, hd: Head, g: Vec, r0: nat, i: nat, m: nat, j: int, s0: Vec, z: int -> real)
    requires m < i
    ensures Faded(expo, g, r0, i, Feed(expo, hd, r0, j, s0, z))(m)
         == expo(At(g, r0 + i - 1) - At(g, r0 + m)) * (Update(expo, hd, j, s0, r0 + m) * KeyProj(hd, r0 + m, z))
  {
    hide Update, KeyProj, At;
    assert Cum(g, r0, m + 1) == At(g, r0 + m) && Cum(g, r0, i) == At(g, r0 + i - 1);
    assert Feed(expo, hd, r0, j, s0, z)(m) == Update(expo, hd, j, s0, r0 + m) * KeyProj(hd, r0 + m, z);
  }

  lemma Reorder(w: real, x: real, k: real)
    ensures w * (x * k) == k * (x * w)
  {
  }

  lemma ProjUnit(n: nat, s: Vec, c: nat, unit: int -> real)
    requires c < n && forall z :: unit(z) == if z == c then 1.0 else 0.0
    ensures Proj(n, s, unit) == At(s, c)
  {
    SumSingle(n, c, z => At(s, z) * unit(z));
  }

  lemma KeyUnit(hd: Head, t: int, c: nat, unit: int -> real)
    requires c < hd.K && forall z :: unit(z) == if z == c then 1.0 else 0.0
    ensures KeyProj(hd, t, unit) == E(hd.k, t, c)
  {
    SumSingle(hd.K, c, z => E(hd.k, t, z) * unit(z));
  }

  /** The output of token i: the start state read with the decayed query plus the masked product with the updates. */
  lemma OutputEntry(expo: Expo, hd: Head, g: Vec, r0: nat, L: nat, i: nat, scale: real, j: int, s0: Vec,
                    masked: int -> real)
    requires IsExp(expo) && Cumulative(hd, g, r0, L) && i < L
    requires forall m :: 0 <= m <= i ==>
      masked(m) == RowDot(hd.K, hd.q, r0 + i, hd.k, r0 + m) * expo(At(g, r0 + i) - At(g, r0 + m))
            * Update(expo, hd, j, s0, r0 + m)
    ensures Output(expo, hd, scale, j, s0, r0 + i)
         == Sum(hd.K, c => E(hd.q, r0 + i, c) * At(RowState(expo, hd, j, s0, r0), c)) * expo(At(g, r0 + i)) * scale
            + Sum(i + 1, masked) * scale
  {
    hide *;
    var query := c => E(hd.q, r0 + i, c);
    var s, last := RowState(expo, hd, j, s0, r0), RowState(expo, hd, j, s0, r0 + i + 1);
    ProjClosed(expo, hd, g, r0, L, i + 1, j, s0, query);
    var y := Faded(expo, g, r0, i + 1, Feed(expo, hd, r0, j, s0, query));
    forall m | 0 <= m < i + 1 ensures y(m) == masked(m) {
      MaskedTerm(expo, hd, g, r0, i, m, j, s0, query);
    }
    SumExt(i + 1, y, masked);
    ReadStart(hd, r0 + i, s, query);
    OutputIsProj(expo, hd, scale, j, s0, r0 + i, query);
    CumAt(g, r0, i + 1);
    ScaleOut(Proj(hd.K, last, query), expo(At(g, r0 + i)), Proj(hd.K, s, query), Sum(i + 1, masked), scale);
  }

  lemma ReadStart(hd: Head, t: int, s: Vec, query: int -> real)
    requires forall c :: query(c) == E(hd.q, t, c)
    ensures Sum(hd.K, c => E(hd.q, t, c) * At(s, c)) == Proj(hd.K, s, query)
  {
    SumExt(hd.K, c => E(hd.q, t, c) * At(s, c), c => At(s, c) * query(c));
  }

  function RowDot(n: nat, x: Mat, a: int, y: Mat, b: int): real {
    Sum(n, c => E(x, a, c) * E(y, b, c))
  }

  lemma MaskedTerm(expo: Expo, hd: Head, g: Vec, r0: nat, i: nat, m: nat, j: int, s0: Vec, query: int -> real)
    requires m <= i && forall c :: query(c) == E(hd.q, r0 + i, c)
    ensures Faded(expo, g, r0, i + 1, Feed(expo, hd, r0, j, s0, query))(m)
         == RowDot(hd.K, hd.q, r0 + i, hd.k, r0 + m) * expo(At(g, r0 + i) - At(g, r0 + m))
            * Update(expo, hd, j, s0, r0 + m)
  {
    hide *;
    FadedTerm(expo, hd, g, r0, i + 1, m, j, s0, query);
    RowDotIsKeyProj(hd, r0 + i, r0 + m, query);
    assert r0 + (i + 1) - 1 == r0 + i;
    Swap3(expo(At(g, r0 + i) - At(g, r0 + m)), Update(expo, hd, j, s0, r0 + m), KeyProj(hd, r0 + m, query));
  }

  lemma RowDotIsKeyProj(hd: Head, t: int, m: int, query: int -> real)
    requires forall c :: query(c) == E(hd.q, t, c)
    ensures RowDot(hd.K, hd.q, t, hd.k, m) == KeyProj(hd, m, query)
  {
    SumExt(hd.K, c => E(hd.q, t, c) * E(hd.k, m, c), c => E(hd.k, m, c) * query(c));
  }

  lemma Swap3(w: real, x: real, d: real)
    ensures w * (x * d) == d * w * x
  {
  }

  lemma OutputIsProj(expo: Expo, hd: Head, scale: real, j: int, s0: Vec, t: nat, query: int -> real)
    requires forall c :: query(c) == E(hd.q, t, c)
    ensures Output(expo, hd, scale, j, s0, t) == scale * Proj(hd.K, RowState(expo, hd, j, s0, t + 1), query)
  {
    hide RowState;
    var s := RowState(expo, hd, j, s0, t + 1);
    var f, p := c => At(s, c) * (E(hd.q, t, c) * scale), c => At(s, c) * query(c);
    forall c | 0 <= c < hd.K ensures f(c) == scale * p(c) {
      ScaledRead(At(s, c), E(hd.q, t, c), scale);
    }
    SumFactor(hd.K, f, scale, p);
  }

  lemma ScaledRead(s: real, q: real, scale: real)
    ensures s * (q * scale) == scale * (s * q)
  {
  }

  lemma ScaleOut(p: real, e: real, q: real, y: real, scale: real)
    requires p == e * q + y
    ensures scale * p == q * e * scale + y * scale
  {
  }
}
