/** triton_kernels/wy_fast.py: one program writes the w and u rows of one chunk from the inverse tile. */
module WyFast {
  import opened Sums
  import opened Matrices
  import opened Recurrence
  import opened ChunkTheorem
  import opened Tiles
  import opened Buffers

  /** A product computed one column tile at a time is the whole product. */
  lemma ColumnTile(BT: nat, n: nat, N: nat, b: Mat, whole: Mat, tile: Mat, c0: nat, i: nat, j: nat)
    requires i < BT && c0 <= j < N && j - c0 < n
    requires forall m :: 0 <= m < BT ==> E(tile, m, j - c0) == E(whole, m, j)
    ensures E(Mul(BT, BT, n, b, tile), i, j - c0) == E(Mul(BT, BT, N, b, whole), i, j)
  {
    SumExt(BT, k => E(b, i, k) * E(tile, k, j - c0), k => E(b, i, k) * E(whole, k, j));
  }

  /** b_v * b_beta[:, None] */
  function ValueTile(hd: Head, BT: nat, BV: nat, r0: int, c0: int): (r: Mat) {
    ScaleRows(BT, BV, Load(BT, BV, hd.v, r0, c0), LoadVec(BT, hd.beta, r0))
  }

  /** b_k * b_beta[:, None] * b_g[:, None], where b_g is the exponential of the loaded sums. */
  function KeyTile(expo: Expo, hd: Head, g: Vec, BT: nat, BK: nat, r0: int, c0: int): (r: Mat) {
    var gs := LoadVec(BT, g, r0);
    var decay := VTab(BT, i => expo(At(gs, i)));
    ScaleRows(BT, BK, ScaleRows(BT, BK, Load(BT, BK, hd.k, r0, c0), LoadVec(BT, hd.beta, r0)), decay)
  }

  lemma ValueTileAt(hd: Head, BT: nat, BV: nat, r0: nat, c0: nat, m: nat, l: nat)
    requires Shaped(hd) && m < BT && l < BV && c0 + l < hd.V
    ensures E(ValueTile(hd, BT, BV, r0, c0), m, l) == E(ScaledValues(hd, r0, BT), m, c0 + l)
  {
  }

  lemma KeyTileAt(expo: Expo, hd: Head, g: Vec, BT: nat, BK: nat, r0: nat, c0: nat, m: nat, l: nat)
    requires Shaped(hd) && m < BT && l < BK && c0 + l < hd.K
    ensures E(KeyTile(expo, hd, g, BT, BK, r0, c0), m, l) == E(ScaledKeys(expo, hd, g, r0, BT), m, c0 + l)
  {
  }


  /** Program (chunk i_t, head h): u = Ai (beta v) and w = Ai (beta exp(g) k) on the chunk's rows. */
  method Program(expo: Expo, hd: Head, g: Vec, Ai: array3<real>, w: array3<real>, u: array3<real>,
                 bos: nat, h: nat, iT: nat, BT: nat, BK: nat, BV: nat)
    requires Shaped(hd) && BK > 0 && BV > 0 && Ai != w && Ai != u && w != u
    requires bos + hd.T <= Ai.Length0 && h < Ai.Length1
    requires bos + hd.T <= w.Length0 && h < w.Length1 && w.Length2 == hd.K
    requires bos + hd.T <= u.Length0 && h < u.Length1 && u.Length2 == hd.V
    modifies w, u
    ensures var r0, b := iT * BT, Load(BT, BT, View(Ai, bos, hd.T, h), iT * BT, 0);
      && (forall t, hh, j :: In3(u, t, hh, j) ==>
            u[t, hh, j] == if Covered(bos, hd.T, h, r0, 0, BT, hd.V, t, hh, j)
              then E(Mul(BT, BT, hd.V, b, ScaledValues(hd, r0, BT)), t - bos - r0, j) else old(u[t, hh, j]))
      && (forall t, hh, j :: In3(w, t, hh, j) ==>
            w[t, hh, j] == if Covered(bos, hd.T, h, r0, 0, BT, hd.K, t, hh, j)
              then E(Mul(BT, BT, hd.K, b, ScaledKeys(expo, hd, g, r0, BT)), t - bos - r0, j) else old(w[t, hh, j]))
  {
    hide Mul, ValueTile, KeyTile, ScaledValues, ScaledKeys, Shaped;
    var r0 := iT * BT;
    var b := Load(BT, BT, View(Ai, bos, hd.T, h), r0, 0);
    ghost var wholeU := Mul(BT, BT, hd.V, b, ScaledValues(hd, r0, BT));
    ghost var wholeW := Mul(BT, BT, hd.K, b, ScaledKeys(expo, hd, g, r0, BT));
    for iV := 0 to Cdiv(hd.V, BV)
      modifies u
      invariant forall t, hh, j :: In3(u, t, hh, j) ==>
        u[t, hh, j] == if Covered(bos, hd.T, h, r0, 0, BT, iV * BV, t, hh, j) then E(wholeU, t - bos - r0, j)
          else old(u[t, hh, j])
    {
      var vb := ValueTile(hd, BT, BV, r0, iV * BV);
      var tile := Mul(BT, BT, BV, b, vb);
      forall i, j | 0 <= i < BT && iV * BV <= j < iV * BV + BV && j < hd.V
        ensures E(tile, i, j - iV * BV) == E(wholeU, i, j)
      {
        forall m | 0 <= m < BT ensures E(vb, m, j - iV * BV) == E(ScaledValues(hd, r0, BT), m, j) {
          ValueTileAt(hd, BT, BV, r0, iV * BV, m, j - iV * BV);
        }
        ColumnTile(BT, BV, hd.V, b, ScaledValues(hd, r0, BT), vb, iV * BV, i, j);
      }
      StoreBlock(u, bos, hd.T, h, r0, iV * BV, BT, BV, tile);
      assert (iV + 1) * BV == iV * BV + BV;
    }
    CdivCovers(hd.V, BV);
    for iK := 0 to Cdiv(hd.K, BK)
      modifies w
      invariant forall t, hh, j :: In3(w, t, hh, j) ==>
        w[t, hh, j] == if Covered(bos, hd.T, h, r0, 0, BT, iK * BK, t, hh, j) then E(wholeW, t - bos - r0, j)
          else old(w[t, hh, j])
    {
      var kb := KeyTile(expo, hd, g, BT, BK, r0, iK * BK);
      var tile := Mul(BT, BT, BK, b, kb);
      forall i, j | 0 <= i < BT && iK * BK <= j < iK * BK + BK && j < hd.K
        ensures E(tile, i, j - iK * BK) == E(wholeW, i, j)
      {
        forall m | 0 <= m < BT ensures E(kb, m, j - iK * BK) == E(ScaledKeys(expo, hd, g, r0, BT), m, j) {
          KeyTileAt(expo, hd, g, BT, BK, r0, iK * BK, m, j - iK * BK);
        }
        ColumnTile(BT, BK, hd.K, b, ScaledKeys(expo, hd, g, r0, BT), kb, iK * BK, i, j);
      }
      StoreBlock(w, bos, hd.T, h, r0, iK * BK, BT, BK, tile);
      assert (iK + 1) * BK == iK * BK + BK;
    }
    CdivCovers(hd.K, BK);
  }
}
