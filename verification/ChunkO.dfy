/** triton_kernels/chunk_o.py: one program writes a tile of outputs of one chunk. */
module ChunkO {
  import opened Sums
  import opened Matrices
  import opened Recurrence
  import opened ChunkTheorem
  import opened Tiles
  import opened Buffers

  /** Masked attention weight of row m on row i of the chunk. */
  function Weight(expo: Expo, hd: Head, g: Vec, r0: int, i: int, m: int): real {
    if i >= m && r0 + i < hd.T && r0 + m < hd.T
    then RowDot(hd.K, hd.q, r0 + i, hd.k, r0 + m) * expo(At(g, r0 + i) - At(g, r0 + m)) else 0.0
  }

  /** Output of row i, channel j, from the chunk's snapshot s and the new values vn. */
  function OutputAt(expo: Expo, hd: Head, g: Vec, scale: real, BT: nat, r0: int, s: Mat, vn: Mat, i: int,
                    j: int): real {
    RowDot(hd.K, hd.q, r0 + i, s, j) * expo(At(g, r0 + i)) * scale
      + Sum(BT, m => Weight(expo, hd, g, r0, i, m) * E(vn, r0 + m, j)) * scale
  }

  /** b_A * exp(b_g[:, None] - b_g[None, :]), then where(m_A, b_A, 0). */
  function WeightTile(expo: Expo, T: int, g: Vec, BT: nat, r0: int, a: Mat): (r: Mat) {
    var gs := LoadVec(BT, g, r0);
    Tab(BT, BT, (i, m) => if i >= m && r0 + i < T && r0 + m < T then E(a, i, m) * expo(At(gs, i) - At(gs, m)) else 0.0)
  }

  lemma WeightTileAt(expo: Expo, hd: Head, g: Vec, BT: nat, r0: nat, a: Mat, i: nat, m: nat)
    requires ReadOut(hd.K, BT, BT, hd.q, hd.k, r0, r0, a) && i < BT && m < BT
    ensures E(WeightTile(expo, hd.T, g, BT, r0, a), i, m) == Weight(expo, hd, g, r0, i, m)
  {
    hide RowDot;
  }

  /** b_o * exp(b_g)[:, None] * scale + dot(b_A, b_v) * scale */
  function OutputTile(expo: Expo, g: Vec, scale: real, BT: nat, BV: nat, r0: int, bo: Mat, a: Mat, bv: Mat): (r: Mat) {
    var decay := VTab(BT, i => expo(At(LoadVec(BT, g, r0), i)));
    Add(BT, BV, Scale(BT, BV, scale, ScaleRows(BT, BV, bo, decay)), Scale(BT, BV, scale, Mul(BT, BT, BV, a, bv)))
  }

  lemma OutputTileIs(expo: Expo, g: Vec, scale: real, BT: nat, BV: nat, r0: nat, bo: Mat, a: Mat, bv: Mat, i: nat,
                     l: nat)
    requires i < BT && l < BV
    ensures E(OutputTile(expo, g, scale, BT, BV, r0, bo, a, bv), i, l)
         == E(bo, i, l) * expo(At(g, r0 + i)) * scale + Sum(BT, m => E(a, i, m) * E(bv, m, l)) * scale
  {
    hide E, At;
    var decay := VTab(BT, i => expo(At(LoadVec(BT, g, r0), i)));
    var rows, prod := ScaleRows(BT, BV, bo, decay), Mul(BT, BT, BV, a, bv);
    assert At(LoadVec(BT, g, r0), i) == At(g, r0 + i) && At(decay, i) == expo(At(g, r0 + i));
    assert E(rows, i, l) == E(bo, i, l) * At(decay, i);
    assert E(prod, i, l) == Sum(BT, m => E(a, i, m) * E(bv, m, l));
  }

  lemma OutputTileAt(expo: Expo, hd: Head, g: Vec, scale: real, BT: nat, BV: nat, r0: nat, v0: nat, s: Mat, vn: Mat,
                     bo: Mat, a: Mat, i: nat, l: nat)
    requires ReadOut(hd.K, BT, BV, hd.q, s, r0, v0, bo) && ReadOut(hd.K, BT, BT, hd.q, hd.k, r0, r0, a)
    requires i < BT && l < BV
    ensures E(OutputTile(expo, g, scale, BT, BV, r0, bo, WeightTile(expo, hd.T, g, BT, r0, a),
                         Load(BT, BV, vn, r0, v0)), i, l)
         == OutputAt(expo, hd, g, scale, BT, r0, s, vn, i, v0 + l)
  {
    hide RowDot, Weight, WeightTile, OutputTile, E, Load;
    var wt, bv := WeightTile(expo, hd.T, g, BT, r0, a), Load(BT, BV, vn, r0, v0);
    OutputTileIs(expo, g, scale, BT, BV, r0, bo, wt, bv, i, l);
    forall m | 0 <= m < BT ensures E(wt, i, m) * E(bv, m, l) == Weight(expo, hd, g, r0, i, m) * E(vn, r0 + m, v0 + l) {
      WeightTileAt(expo, hd, g, BT, r0, a, i, m);
      LoadAt(BT, BV, vn, r0, v0, m, l);
    }
    SumExt(BT, m => E(wt, i, m) * E(bv, m, l), m => Weight(expo, hd, g, r0, i, m) * E(vn, r0 + m, v0 + l));
  }

  lemma ReadNone(BT: nat, BV: nat, w: Mat, s: Mat, r0: nat, v0: nat)
    ensures ReadOut(0, BT, BV, w, s, r0, v0, Zeros(BT, BV))
  {
  }

  /** The tile a program computes from its snapshot s and its new values vn. */
  method ComputeTile(expo: Expo, hd: Head, g: Vec, scale: real, s: Mat, vn: Mat, r0: nat, v0: nat, BT: nat, BK: nat,
                     BV: nat)
    returns (out: Mat)
    requires Shaped(hd) && BK > 0
    ensures forall i, l :: 0 <= i < BT && 0 <= l < BV ==>
      E(out, i, l) == OutputAt(expo, hd, g, scale, BT, r0, s, vn, i, v0 + l)
  {
    hide E, Load, ReadOut, ReadTile, OutputTile, WeightTile, OutputAt, Shaped;
    var bo, a := Zeros(BT, BV), Zeros(BT, BT);
    ReadNone(BT, BV, hd.q, s, r0, v0);
    ReadNone(BT, BT, hd.q, hd.k, r0, r0);
    for iK := 0 to Cdiv(hd.K, BK)
      invariant ReadOut(iK * BK, BT, BV, hd.q, s, r0, v0, bo) && ReadOut(iK * BK, BT, BT, hd.q, hd.k, r0, r0, a)
    {
      var k0 := iK * BK;
      ReadNext(BT, BK, BV, hd.q, s, r0, v0, k0, bo);
      ReadNext(BT, BK, BT, hd.q, hd.k, r0, r0, k0, a);
      bo := Add(BT, BV, bo, ReadTile(BT, BK, BV, hd.q, r0, k0, Load(BV, BK, s, v0, k0)));
      a := Add(BT, BT, a, ReadTile(BT, BK, BT, hd.q, r0, k0, Load(BT, BK, hd.k, r0, k0)));
      assert (iK + 1) * BK == k0 + BK;
    }
    CdivCovers(hd.K, BK);
    assert Dim(hd.q, hd.T, hd.K) by { ShapedQuery(hd); }
    ReadSkip(hd.K, hd.T, BT, BV, hd.q, s, r0, v0, Cdiv(hd.K, BK) * BK, hd.K, bo);
    ReadSkip(hd.K, hd.T, BT, BT, hd.q, hd.k, r0, r0, Cdiv(hd.K, BK) * BK, hd.K, a);
    var weights := WeightTile(expo, hd.T, g, BT, r0, a);
    out := OutputTile(expo, g, scale, BT, BV, r0, bo, weights, Load(BT, BV, vn, r0, v0));
    forall i, l | 0 <= i < BT && 0 <= l < BV
      ensures E(out, i, l) == OutputAt(expo, hd, g, scale, BT, r0, s, vn, i, v0 + l)
    {
      OutputTileAt(expo, hd, g, scale, BT, BV, r0, v0, s, vn, bo, a, i, l);
    }
  }

  /** Program (value tile i_v, chunk i_t of its sequence, head h); iTg is the chunk's global index. */
  method Program(expo: Expo, hd: Head, g: Vec, scale: real, vNew: array3<real>, hs: array4<real>, o: array3<real>,
                 bos: nat, iTg: nat, h: nat, iV: nat, iT: nat, BT: nat, BK: nat, BV: nat)
    requires Shaped(hd) && BK > 0 && o != vNew
    requires bos + hd.T <= vNew.Length0 && h < vNew.Length1
    requires iTg < hs.Length0 && h < hs.Length1
    requires bos + hd.T <= o.Length0 && h < o.Length1
    modifies o
    ensures var r0 := iT * BT;
      forall t, hh, j :: In3(o, t, hh, j) ==>
        o[t, hh, j] == if Covered(bos, hd.T, h, r0, iV * BV, BT, BV, t, hh, j)
          then OutputAt(expo, hd, g, scale, BT, r0, StateView(hs, iTg, h), View(vNew, bos, hd.T, h), t - bos - r0, j)
          else old(o[t, hh, j])
  {
    hide E, OutputAt, Shaped, StateView, View;
    var r0, v0 := iT * BT, iV * BV;
    var vn, s := View(vNew, bos, hd.T, h), StateView(hs, iTg, h);
    var out := ComputeTile(expo, hd, g, scale, s, vn, r0, v0, BT, BK, BV);
    StoreBlock(o, bos, hd.T, h, r0, v0, BT, BV, out);
  }

  lemma ShapedQuery(hd: Head)
    requires Shaped(hd)
    ensures Dim(hd.q, hd.T, hd.K)
  {
  }
}
