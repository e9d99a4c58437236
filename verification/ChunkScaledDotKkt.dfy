/** triton_kernels/chunk_scaled_dot_kkt.py: one program writes the strictly lower matrix A of one chunk. */
module ChunkScaledDotKkt {
  import opened Sums
  import opened Matrices
  import opened Recurrence
  import opened ChunkTheorem
  import opened Tiles
  import opened Buffers

  /** The first n channels of beta k_t . k_u. */
  function ScaledKK(hd: Head, n: nat, t: int, u: int): real {
    Sum(n, c => E(hd.k, t, c) * At(hd.beta, t) * E(hd.k, u, c))
  }

  lemma ScaledKKStep(hd: Head, BT: nat, BK: nat, r0: nat, k0: nat, i: nat, m: nat)
    requires i < BT && m < BT
    ensures ScaledKK(hd, k0 + BK, r0 + i, r0 + m) == ScaledKK(hd, k0, r0 + i, r0 + m)
      + E(Mul(BT, BK, BT, ScaleRows(BT, BK, Load(BT, BK, hd.k, r0, k0), LoadVec(BT, hd.beta, r0)),
              Trans(BT, BK, Load(BT, BK, hd.k, r0, k0))), i, m)
  {
    hide E, At, ScaleRows, Trans, Load, LoadVec;
    var f := c => E(hd.k, r0 + i, c) * At(hd.beta, r0 + i) * E(hd.k, r0 + m, c);
    var kb := ScaleRows(BT, BK, Load(BT, BK, hd.k, r0, k0), LoadVec(BT, hd.beta, r0));
    var kt := Trans(BT, BK, Load(BT, BK, hd.k, r0, k0));
    var p, q := l => E(kb, i, l) * E(kt, l, m), l => f(k0 + l);
    SumSplit(k0, BK, f);
    forall l | 0 <= l < BK ensures p(l) == q(l) {
      KeyTile(hd, BT, BK, r0, k0, i, m, l);
    }
    SumExt(BK, p, q);
    MulEntry(BT, BK, BT, kb, kt, i, m);
  }

  lemma KeyTile(hd: Head, BT: nat, BK: nat, r0: nat, k0: nat, i: nat, m: nat, l: nat)
    requires i < BT && m < BT && l < BK
    ensures E(ScaleRows(BT, BK, Load(BT, BK, hd.k, r0, k0), LoadVec(BT, hd.beta, r0)), i, l)
         == E(hd.k, r0 + i, k0 + l) * At(hd.beta, r0 + i)
    ensures E(Trans(BT, BK, Load(BT, BK, hd.k, r0, k0)), l, m) == E(hd.k, r0 + m, k0 + l)
  {
  }

  lemma ScaledKKTail(hd: Head, n: nat, t: int, u: int)
    requires Shaped(hd) && hd.K <= n
    ensures ScaledKK(hd, n, t, u) == ScaledKK(hd, hd.K, t, u)
  {
    var f := c => E(hd.k, t, c) * At(hd.beta, t) * E(hd.k, u, c);
    forall c | hd.K <= c < n ensures f(c) == 0.0 {
      assert E(hd.k, t, c) == 0.0;
    }
    SumTail(hd.K, n, f);
  }

  /** The accumulator after n channels. */
  ghost predicate Accumulated(hd: Head, BT: nat, r0: nat, n: nat, a: Mat) {
    forall i, m :: 0 <= i < BT && 0 <= m < BT ==> E(a, i, m) == ScaledKK(hd, n, r0 + i, r0 + m)
  }

  lemma Accumulate(hd: Head, BT: nat, BK: nat, r0: nat, k0: nat, a: Mat)
    requires Accumulated(hd, BT, r0, k0, a)
    ensures var k := Load(BT, BK, hd.k, r0, k0);
            Accumulated(hd, BT, r0, k0 + BK,
              Add(BT, BT, a, Mul(BT, BK, BT, ScaleRows(BT, BK, k, LoadVec(BT, hd.beta, r0)), Trans(BT, BK, k))))
  {
    hide ScaledKK, Mul, E, At, Load, LoadVec, ScaleRows, Trans;
    forall i, m | 0 <= i < BT && 0 <= m < BT
      ensures ScaledKK(hd, k0 + BK, r0 + i, r0 + m) == ScaledKK(hd, k0, r0 + i, r0 + m)
        + E(Mul(BT, BK, BT, ScaleRows(BT, BK, Load(BT, BK, hd.k, r0, k0), LoadVec(BT, hd.beta, r0)),
                Trans(BT, BK, Load(BT, BK, hd.k, r0, k0))), i, m)
    {
      ScaledKKStep(hd, BT, BK, r0, k0, i, m);
    }
  }

  lemma AccumulateNone(hd: Head, BT: nat, r0: nat)
    ensures Accumulated(hd, BT, r0, 0, Zeros(BT, BT))
  {
  }

  /** b_A * exp(b_g[:, None] - b_g[None, :]) */
  function DecayTile(expo: Expo, BT: nat, a: Mat, gs: Vec): (r: Mat) {
    Tab(BT, BT, (i, m) => E(a, i, m) * expo(At(gs, i) - At(gs, m)))
  }

  /** where(m_A, b_A, 0): strictly below the diagonal and inside the sequence. */
  function MaskStrict(BT: nat, a: Mat, r0: nat, T: nat): (r: Mat) {
    Tab(BT, BT, (i, m) => if i > m && r0 + i < T && r0 + m < T then E(a, i, m) else 0.0)
  }

  lemma MaskedIsChunkA(expo: Expo, hd: Head, g: Vec, BT: nat, r0: nat, n: nat, a: Mat)
    requires Shaped(hd) && hd.K <= n && Accumulated(hd, BT, r0, n, a)
    ensures MaskStrict(BT, DecayTile(expo, BT, a, LoadVec(BT, g, r0)), r0, hd.T)
         == ChunkA(expo, hd, g, r0, Rows(hd.T, r0, BT), BT)
  {
    var l, r := MaskStrict(BT, DecayTile(expo, BT, a, LoadVec(BT, g, r0)), r0, hd.T),
        ChunkA(expo, hd, g, r0, Rows(hd.T, r0, BT), BT);
    hide At, ScaledKK, E;
    forall i, m | 0 <= i < BT && 0 <= m < BT ensures E(l, i, m) == E(r, i, m) {
      ScaledKKTail(hd, n, r0 + i, r0 + m);
      ScaledKKIs(hd, hd.K, r0 + i, r0 + m);
    }
    MatExt(l, r, BT, BT);
  }

  lemma ScaledKKIs(hd: Head, n: nat, t: int, u: int)
    ensures ScaledKK(hd, n, t, u) == Sum(n, c => E(hd.k, t, c) * At(hd.beta, t) * E(hd.k, u, c))
  {
  }

  /** Program (chunk i_t, head h) over the views of one sequence. */
  method Program(expo: Expo, hd: Head, g: Vec, A: array3<real>, bos: nat, h: nat, iT: nat, BT: nat, BK: nat)
    requires Shaped(hd) && BK > 0
    requires bos + hd.T <= A.Length0 && h < A.Length1 && A.Length2 == BT && iT * BT < hd.T
    modifies A
    ensures forall t, hh, j :: In3(A, t, hh, j) ==>
      A[t, hh, j] == if Covered(bos, hd.T, h, iT * BT, 0, BT, BT, t, hh, j)
        then E(ChunkA(expo, hd, g, iT * BT, Rows(hd.T, iT * BT, BT), BT), t - bos - iT * BT, j)
        else old(A[t, hh, j])
  {
    hide Accumulated, Mul, Add, ScaleRows, Trans, ChunkA, MaskStrict, DecayTile;
    var r0 := iT * BT;
    var beta := LoadVec(BT, hd.beta, r0);
    var a := Zeros(BT, BT);
    AccumulateNone(hd, BT, r0);
    for iK := 0 to Cdiv(hd.K, BK)
      invariant Accumulated(hd, BT, r0, iK * BK, a)
      modifies {}
    {
      var k := Load(BT, BK, hd.k, r0, iK * BK);
      var kb := ScaleRows(BT, BK, k, beta);
      Accumulate(hd, BT, BK, r0, iK * BK, a);
      a := Add(BT, BT, a, Mul(BT, BK, BT, kb, Trans(BT, BK, k)));
      assert (iK + 1) * BK == iK * BK + BK;
    }
    CdivCovers(hd.K, BK);
    var gs := LoadVec(BT, g, r0);
    var decayed := DecayTile(expo, BT, a, gs);
    var masked := MaskStrict(BT, decayed, r0, hd.T);
    MaskedIsChunkA(expo, hd, g, BT, r0, Cdiv(hd.K, BK) * BK, a);
    StoreBlock(A, bos, hd.T, h, r0, 0, BT, BT, masked);
  }
}
