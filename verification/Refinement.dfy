/**
 The chunk kernels' results are the recurrence: if w and u come from the inverse of every chunk's
 I + A, then the carried states, new values and outputs are those of the token-by-token run.
 */
module Refinement {
  import opened Sums
  import opened Matrices
  import opened Recurrence
  import opened ChunkAlgebra
  import opened ChunkTheorem
  import opened Tiles
  import ChunkDeltaH
  import ChunkO

  /** g restarts at every multiple of BT and accumulates the log decays in between. */
  ghost predicate ChunkCumulative(hd: Head, g: Vec, BT: nat) {
    forall c: nat :: c * BT < hd.T ==> Cumulative(hd, g, c * BT, Rows(hd.T, c * BT, BT))
  }

  /** Row i of chunk c of w and u is row i of b times the scaled keys and values, b inverting I + A. */
  ghost predicate ChunkWU(expo: Expo, hd: Head, g: Vec, BT: nat, w: Mat, u: Mat, c: nat, b: Mat) {
    var r0, L := c * BT, Rows(hd.T, c * BT, BT);
    && InvertsRows(BT, L, ChunkA(expo, hd, g, r0, L, BT), b)
    && (forall i, j :: 0 <= i < L && 0 <= j < hd.V ==> E(u, r0 + i, j) == RowCol(BT, b, ScaledValues(hd, r0, BT), i, j))
    && (forall i, j :: 0 <= i < L && 0 <= j < hd.K ==>
          E(w, r0 + i, j) == RowCol(BT, b, ScaledKeys(expo, hd, g, r0, BT), i, j))
  }

  ghost predicate WU(expo: Expo, hd: Head, g: Vec, BT: nat, w: Mat, u: Mat) {
    forall c: nat :: c * BT < hd.T ==> exists b :: ChunkWU(expo, hd, g, BT, w, u, c, b)
  }

  /** Row j of the matrix s is the vector x. */
  ghost predicate IsRow(K: nat, s: Mat, j: int, x: Vec) {
    forall c :: 0 <= c < K ==> E(s, j, c) == At(x, c)
  }

  lemma RowEntry(K: nat, s: Mat, j: int, x: Vec, c: int)
    requires IsRow(K, s, j, x) && 0 <= c < K
    ensures E(s, j, c) == At(x, c)
  {
  }

  lemma NewAtIsUpdate(expo: Expo, hd: Head, g: Vec, BT: nat, w: Mat, u: Mat, c: nat, s: Mat, s0: Vec, i: nat, j: nat)
    requires IsExp(expo) && Shaped(hd) && ChunkCumulative(hd, g, BT) && WU(expo, hd, g, BT, w, u)
    requires c * BT < hd.T && i < Rows(hd.T, c * BT, BT) && j < hd.V
    requires IsRow(hd.K, s, j, RowState(expo, hd, j, s0, c * BT))
    ensures ChunkDeltaH.NewAt(hd.K, w, u, s, c * BT + i, j) == Update(expo, hd, j, s0, c * BT + i)
  {
    hide E, At, RowState, Update, RowCol, ChunkA, ScaledKeys, ScaledValues, InvertsRows, NewRow, Shaped, Cumulative;
    var r0, L := c * BT, Rows(hd.T, c * BT, BT);
    var b :| ChunkWU(expo, hd, g, BT, w, u, c, b);
    var vals, keys := ScaledValues(hd, r0, BT), ScaledKeys(expo, hd, g, r0, BT);
    var x := RowState(expo, hd, j, s0, r0);
    NewRowIsUpdate(expo, hd, g, r0, L, BT, b, i, j, s0);
    NewRowIs(BT, hd.K, b, vals, keys, x, i, j);
    SumExt(hd.K, c => E(w, r0 + i, c) * E(s, j, c), c => RowCol(BT, b, keys, i, c) * At(x, c));
  }

  /** Tokens consumed before chunk c. */
  function Consumed(T: nat, BT: nat, c: nat): nat {
    if c * BT < T then c * BT else T
  }

  lemma {:induction false} StateIsRecurrence(expo: Expo, hd: Head, g: Vec, BT: nat, w: Mat, u: Mat, m0: Mat, s0: Vec,
                                             c: nat, j: nat)
    requires IsExp(expo) && Shaped(hd) && ChunkCumulative(hd, g, BT) && WU(expo, hd, g, BT, w, u)
    requires BT > 0 && c <= Cdiv(hd.T, BT) && j < hd.V && IsRow(hd.K, m0, j, s0)
    ensures IsRow(hd.K, ChunkDeltaH.StateBefore(expo, hd, g, w, u, BT, m0, c), j,
                  RowState(expo, hd, j, s0, Consumed(hd.T, BT, c)))
  {
    hide E, At, Update, StepRow, Shaped, ChunkCumulative, WU, ChunkDeltaH.NextState;
    if c > 0 {
      var r0 := (c - 1) * BT;
      CdivCovers(hd.T, BT);
      ChunkStarts(hd.T, BT, c - 1);
      var s := ChunkDeltaH.StateBefore(expo, hd, g, w, u, BT, m0, c - 1);
      StateIsRecurrence(expo, hd, g, BT, w, u, m0, s0, c - 1, j);
      assert c * BT == r0 + BT;
      forall cc | 0 <= cc < hd.K
        ensures E(ChunkDeltaH.NextState(expo, hd, g, w, u, BT, r0, s), j, cc)
             == At(RowState(expo, hd, j, s0, r0 + Rows(hd.T, r0, BT)), cc)
      {
        NextStateIsRecurrence(expo, hd, g, BT, w, u, c - 1, s, s0, j, cc);
      }
    }
  }

  /** Every counted chunk starts inside the sequence. */
  lemma ChunkStarts(T: nat, BT: nat, c: nat)
    requires BT > 0 && c < Cdiv(T, BT)
    ensures c * BT < T
  {
    var q := Cdiv(T, BT);
    CdivCovers(T, BT);
    assert q * BT == c * BT + (q - c) * BT;
    assert (q - c) * BT >= BT by { if q - c > 1 { ChunkGap(BT, 1, q - c); } }
  }

  lemma NextStateIsRecurrence(expo: Expo, hd: Head, g: Vec, BT: nat, w: Mat, u: Mat, c: nat, s: Mat, s0: Vec, j: nat,
                              cc: nat)
    requires IsExp(expo) && Shaped(hd) && ChunkCumulative(hd, g, BT) && WU(expo, hd, g, BT, w, u)
    requires BT > 0 && c * BT < hd.T && j < hd.V && cc < hd.K && IsRow(hd.K, s, j, RowState(expo, hd, j, s0, c * BT))
    ensures E(ChunkDeltaH.NextState(expo, hd, g, w, u, BT, c * BT, s), j, cc)
         == At(RowState(expo, hd, j, s0, c * BT + Rows(hd.T, c * BT, BT)), cc)
  {
    hide E, At, RowState, Update, Shaped, WU, Cumulative, IsRow, Sum;
    hide ChunkDeltaH.NextState, ChunkDeltaH.NewAt, ChunkDeltaH.Carry, ChunkDeltaH.LastToken;
    var r0, L := c * BT, Rows(hd.T, c * BT, BT);
    var f := m => E(hd.k, r0 + m, cc)
                  * (ChunkDeltaH.NewAt(hd.K, w, u, s, r0 + m, j) * ChunkDeltaH.Carry(expo, hd.T, g, r0, BT, r0 + m));
    var carried := (m: int) => if m < 0 then 0.0
      else E(hd.k, r0 + m, cc) * (Update(expo, hd, j, s0, r0 + m) * expo(At(g, r0 + L - 1) - At(g, r0 + m)));
    RowEntry(hd.K, s, j, RowState(expo, hd, j, s0, r0), cc);
    ChunkDeltaH.NextStateAt(expo, hd, g, w, u, BT, r0, s, j, cc);
    assert L == Rows(hd.T, r0, BT);
    LastIs(hd.T, r0, BT);
    forall m | L <= m < BT ensures f(m) == 0.0 { KeyPastEnd(hd, r0 + m, cc); }
    forall m | 0 <= m < L ensures f(m) == carried(m) {
      NewAtIsUpdate(expo, hd, g, BT, w, u, c, s, s0, m, j);
      CarryIs(expo, hd.T, g, r0, BT, r0 + m);
    }
    SumTail(L, BT, f);
    SumExt(L, f, carried);
    NextStateEntry(expo, hd, g, r0, L, j, s0, cc, carried);
  }

  lemma LastIs(T: int, r0: int, BT: int)
    ensures ChunkDeltaH.LastToken(T, r0, BT) == r0 + Rows(T, r0, BT) - 1
  {
  }

  lemma CarryIs(expo: Expo, T: int, g: Vec, r0: int, BT: int, t: int)
    requires t < T
    ensures ChunkDeltaH.Carry(expo, T, g, r0, BT, t) == expo(At(g, r0 + Rows(T, r0, BT) - 1) - At(g, t))
  {
    LastIs(T, r0, BT);
    hide At;
  }

  lemma KeyPastEnd(hd: Head, t: int, c: int)
    requires Shaped(hd) && t >= hd.T
    ensures E(hd.k, t, c) == 0.0
  {
  }

  lemma OutputIsRecurrence(expo: Expo, hd: Head, g: Vec, scale: real, BT: nat, c: nat, s: Mat, vn: Mat, s0: Vec, i: nat,
                           j: nat)
    requires IsExp(expo) && Shaped(hd) && ChunkCumulative(hd, g, BT)
    requires BT > 0 && c * BT < hd.T && i < Rows(hd.T, c * BT, BT)
    requires IsRow(hd.K, s, j, RowState(expo, hd, j, s0, c * BT))
    requires forall t :: c * BT <= t <= c * BT + i ==> E(vn, t, j) == Update(expo, hd, j, s0, t)
    ensures ChunkO.OutputAt(expo, hd, g, scale, BT, c * BT, s, vn, i, j) == Output(expo, hd, scale, j, s0, c * BT + i)
  {
    hide E, At, RowState, Update, Shaped, Cumulative, RowDot, Sum, IsRow, ChunkO.Weight, ChunkO.OutputAt, Output;
    var r0, L := c * BT, Rows(hd.T, c * BT, BT);
    var f := m => ChunkO.Weight(expo, hd, g, r0, i, m) * E(vn, r0 + m, j);
    var masked := (m: int) =>
      if m < 0 then 0.0
      else RowDot(hd.K, hd.q, r0 + i, hd.k, r0 + m) * expo(At(g, r0 + i) - At(g, r0 + m))
           * Update(expo, hd, j, s0, r0 + m);
    forall m | 0 <= m < BT
      ensures f(m) == if m <= i then masked(m) else 0.0
    {
      WeightIs(expo, hd, g, r0, i, m);
      if m <= i { assert E(vn, r0 + m, j) == Update(expo, hd, j, s0, r0 + m); }
    }
    SumTail(i + 1, BT, f);
    SumExt(i + 1, f, masked);
    OutputEntry(expo, hd, g, r0, L, i, scale, j, s0, masked);
    ReadOutOf(hd, s, j, RowState(expo, hd, j, s0, r0), r0 + i);
    OutputAtIs(expo, hd, g, scale, BT, r0, s, vn, i, j);
  }

  lemma ReadOutOf(hd: Head, s: Mat, j: int, x: Vec, t: int)
    requires IsRow(hd.K, s, j, x)
    ensures Sum(hd.K, cc => E(hd.q, t, cc) * At(x, cc)) == Sum(hd.K, cc => E(hd.q, t, cc) * E(s, j, cc))
  {
    hide E, At;
    SumExt(hd.K, cc => E(hd.q, t, cc) * At(x, cc), cc => E(hd.q, t, cc) * E(s, j, cc));
  }

  lemma WeightIs(expo: Expo, hd: Head, g: Vec, r0: nat, i: nat, m: nat)
    requires r0 + i < hd.T
    ensures ChunkO.Weight(expo, hd, g, r0, i, m)
         == if m <= i then RowDot(hd.K, hd.q, r0 + i, hd.k, r0 + m) * expo(At(g, r0 + i) - At(g, r0 + m)) else 0.0
  {
    hide RowDot, At;
  }

  lemma OutputAtIs(expo: Expo, hd: Head, g: Vec, scale: real, BT: nat, r0: int, s: Mat, vn: Mat, i: int, j: int)
    ensures ChunkO.OutputAt(expo, hd, g, scale, BT, r0, s, vn, i, j)
         == Sum(hd.K, cc => E(hd.q, r0 + i, cc) * E(s, j, cc)) * expo(At(g, r0 + i)) * scale
            + Sum(BT, m => ChunkO.Weight(expo, hd, g, r0, i, m) * E(vn, r0 + m, j)) * scale
  {
    hide At, E, ChunkO.Weight;
  }
}
