/**
 triton_kernels/chunk_delta_h.py: one program carries BV rows of one head's state across all chunks of
 a sequence, storing the state at the start of every chunk, the new values and the final state.
 */
module ChunkDeltaH {
  import opened Sums
  import opened Matrices
  import opened Recurrence
  import opened ChunkTheorem
  import opened Tiles
  import opened Buffers

  const LANES := 64  // key channels per state tile

  /** New value of token t in row j: u minus w read out against the state before the chunk. */
  function NewAt(K: nat, w: Mat, u: Mat, s: Mat, t: int, j: int): real {
    E(u, t, j) - RowDot(K, w, t, s, j)
  }

  /** Last token of the chunk at r0. */
  function LastToken(T: int, r0: int, BT: int): int {
    (if r0 + BT < T then r0 + BT else T) - 1
  }

  /** Decay from token t to the end of its chunk; zero past the end of the sequence. */
  function Carry(expo: Expo, T: int, g: Vec, r0: int, BT: int, t: int): real {
    if t < T then expo(At(g, LastToken(T, r0, BT)) - At(g, t)) else 0.0
  }

  /** The state after the chunk at r0: decayed, plus every new value times its key. */
  function NextState(expo: Expo, hd: Head, g: Vec, w: Mat, u: Mat, BT: nat, r0: int, s: Mat): (r: Mat) {
    Tab(hd.V, hd.K, (j, c) => E(s, j, c) * expo(At(g, LastToken(hd.T, r0, BT)))
      + Sum(BT, m => E(hd.k, r0 + m, c) * (NewAt(hd.K, w, u, s, r0 + m, j) * Carry(expo, hd.T, g, r0, BT, r0 + m))))
  }

  /** The state before chunk c. */
  function StateBefore(expo: Expo, hd: Head, g: Vec, w: Mat, u: Mat, BT: nat, s0: Mat, c: nat): Mat {
    if c == 0 then s0
    else NextState(expo, hd, g, w, u, BT, (c - 1) * BT, StateBefore(expo, hd, g, w, u, BT, s0, c - 1))
  }

  // ----- one state tile across one chunk -----

  /** b_h = b_h * exp(g_last) + trans(dot(b_k, b_v)) */
  function UpdateTile(BT: nat, BV: nat, hd: Head, r0: nat, k0: nat, d: real, b: Mat, scaled: Mat): (r: Mat) {
    Add(BV, LANES, Scale(BV, LANES, d, b),
        Trans(LANES, BV, Mul(LANES, BT, BV, Trans(BT, LANES, Load(BT, LANES, hd.k, r0, k0)), scaled)))
  }

  lemma UpdateTileAt(BT: nat, BV: nat, hd: Head, r0: nat, k0: nat, d: real, s: Mat, v0: nat, scaled: Mat, l: nat,
                     c: nat)
    requires l < BV && c < LANES
    ensures E(UpdateTile(BT, BV, hd, r0, k0, d, Load(BV, LANES, s, v0, k0), scaled), l, c)
         == E(s, v0 + l, k0 + c) * d + Sum(BT, m => E(hd.k, r0 + m, k0 + c) * E(scaled, m, l))
  {
    hide E, Load, Trans, Mul;
    var kb, b := Load(BT, LANES, hd.k, r0, k0), Load(BV, LANES, s, v0, k0);
    var kt := Trans(BT, LANES, kb);
    forall m | 0 <= m < BT ensures E(kt, c, m) == E(hd.k, r0 + m, k0 + c) {
      LoadAt(BT, LANES, hd.k, r0, k0, m, c);
      TransAt(BT, LANES, kb, c, m);
    }
    SumExt(BT, m => E(kt, c, m) * E(scaled, m, l), m => E(hd.k, r0 + m, k0 + c) * E(scaled, m, l));
    MulEntry(LANES, BT, BV, kt, scaled, c, l);
    RowColIs(BT, kt, scaled, c, l);
    TransAt(LANES, BV, Mul(LANES, BT, BV, kt, scaled), l, c);
    LoadAt(BV, LANES, s, v0, k0, l, c);
  }

  /** The rows of new values, each carried to the end of the chunk. */
  ghost predicate Carried(expo: Expo, hd: Head, g: Vec, w: Mat, u: Mat, BT: nat, BV: nat, r0: nat, v0: nat, s: Mat,
                          scaled: Mat) {
    forall m, l :: 0 <= m < BT && 0 <= l < BV ==>
      E(scaled, m, l) == NewAt(hd.K, w, u, s, r0 + m, v0 + l) * Carry(expo, hd.T, g, r0, BT, r0 + m)
  }

  lemma NewBeyond(V: nat, K: nat, T: nat, w: Mat, u: Mat, s: Mat, t: int, j: int)
    requires Dim(s, V, K) && Dim(u, T, V) && j >= V
    ensures NewAt(K, w, u, s, t, j) == 0.0
  {
    forall c ensures E(s, j, c) == 0.0 {}
    SumZero(K, c => E(w, t, c) * E(s, j, c));
  }

  lemma NextTile(expo: Expo, hd: Head, g: Vec, w: Mat, u: Mat, BT: nat, BV: nat, r0: nat, v0: nat, k0: nat, s: Mat,
                 scaled: Mat)
    requires Shaped(hd) && Dim(s, hd.V, hd.K) && Dim(u, hd.T, hd.V)
    requires Carried(expo, hd, g, w, u, BT, BV, r0, v0, s, scaled)
    ensures UpdateTile(BT, BV, hd, r0, k0, expo(At(g, LastToken(hd.T, r0, BT))), Load(BV, LANES, s, v0, k0), scaled)
         == Load(BV, LANES, NextState(expo, hd, g, w, u, BT, r0, s), v0, k0)
  {
    var d := expo(At(g, LastToken(hd.T, r0, BT)));
    var x := UpdateTile(BT, BV, hd, r0, k0, d, Load(BV, LANES, s, v0, k0), scaled);
    var y := Load(BV, LANES, NextState(expo, hd, g, w, u, BT, r0, s), v0, k0);
    hide E, UpdateTile, NextState, Carried, Shaped, Load;
    forall l, c | 0 <= l < BV && 0 <= c < LANES ensures E(x, l, c) == E(y, l, c) {
      LoadAt(BV, LANES, NextState(expo, hd, g, w, u, BT, r0, s), v0, k0, l, c);
      NextTileAt(expo, hd, g, w, u, BT, BV, r0, v0, k0, s, scaled, l, c);
    }
    UpdateTileDim(BT, BV, hd, r0, k0, d, Load(BV, LANES, s, v0, k0), scaled);
    LoadDim(BV, LANES, NextState(expo, hd, g, w, u, BT, r0, s), v0, k0);
    MatExt(x, y, BV, LANES);
  }

  lemma UpdateTileDim(BT: nat, BV: nat, hd: Head, r0: nat, k0: nat, d: real, b: Mat, scaled: Mat)
    ensures Dim(UpdateTile(BT, BV, hd, r0, k0, d, b, scaled), BV, LANES)
  {
  }

  lemma LoadDim(m: nat, n: nat, x: Mat, r0: int, c0: int)
    ensures Dim(Load(m, n, x, r0, c0), m, n)
  {
  }

  lemma StateBeyond(expo: Expo, hd: Head, g: Vec, w: Mat, u: Mat, BT: nat, r0: nat, s: Mat, j: nat, c: nat)
    requires Dim(s, hd.V, hd.K) && (j >= hd.V || c >= hd.K)
    ensures E(s, j, c) == 0.0 && E(NextState(expo, hd, g, w, u, BT, r0, s), j, c) == 0.0
  {
  }

  lemma FedBeyond(expo: Expo, hd: Head, g: Vec, w: Mat, u: Mat, BT: nat, BV: nat, r0: nat, v0: nat, s: Mat, scaled: Mat,
                  l: nat, c: nat, m: nat)
    requires Shaped(hd) && Dim(s, hd.V, hd.K) && Dim(u, hd.T, hd.V) && l < BV && m < BT
    requires Carried(expo, hd, g, w, u, BT, BV, r0, v0, s, scaled) && (v0 + l >= hd.V || c >= hd.K)
    ensures E(hd.k, r0 + m, c) * E(scaled, m, l) == 0.0
  {
    hide E, NewAt, Carry;
    if c >= hd.K {
      BeyondColumns(hd.k, hd.T, hd.K, r0 + m, c);
    } else {
      NewBeyond(hd.V, hd.K, hd.T, w, u, s, r0 + m, v0 + l);
      assert E(scaled, m, l) == NewAt(hd.K, w, u, s, r0 + m, v0 + l) * Carry(expo, hd.T, g, r0, BT, r0 + m);
    }
  }

  lemma NextTileAt(expo: Expo, hd: Head, g: Vec, w: Mat, u: Mat, BT: nat, BV: nat, r0: nat, v0: nat, k0: nat, s: Mat,
                   scaled: Mat, l: nat, c: nat)
    requires Shaped(hd) && Dim(s, hd.V, hd.K) && Dim(u, hd.T, hd.V) && l < BV && c < LANES
    requires Carried(expo, hd, g, w, u, BT, BV, r0, v0, s, scaled)
    ensures E(UpdateTile(BT, BV, hd, r0, k0, expo(At(g, LastToken(hd.T, r0, BT))), Load(BV, LANES, s, v0, k0), scaled),
              l, c)
         == E(NextState(expo, hd, g, w, u, BT, r0, s), v0 + l, k0 + c)
  {
    hide E, NewAt, Carry, NextState, UpdateTile, Shaped, Load, At, LastToken;
    UpdateTileAt(BT, BV, hd, r0, k0, expo(At(g, LastToken(hd.T, r0, BT))), s, v0, scaled, l, c);
    var f := m => E(hd.k, r0 + m, k0 + c) * E(scaled, m, l);
    if v0 + l < hd.V && k0 + c < hd.K {
      NextStateAt(expo, hd, g, w, u, BT, r0, s, v0 + l, k0 + c);
      SumExt(BT, f, m => E(hd.k, r0 + m, k0 + c)
                           * (NewAt(hd.K, w, u, s, r0 + m, v0 + l) * Carry(expo, hd.T, g, r0, BT, r0 + m)));
    } else {
      forall m | 0 <= m < BT ensures f(m) == 0.0 {
        FedBeyond(expo, hd, g, w, u, BT, BV, r0, v0, s, scaled, l, k0 + c, m);
      }
      SumZero(BT, f);
      StateBeyond(expo, hd, g, w, u, BT, r0, s, v0 + l, k0 + c);
    }
  }

  lemma NextStateAt(expo: Expo, hd: Head, g: Vec, w: Mat, u: Mat, BT: nat, r0: nat, s: Mat, j: nat, c: nat)
    requires j < hd.V && c < hd.K
    ensures E(NextState(expo, hd, g, w, u, BT, r0, s), j, c) == E(s, j, c) * expo(At(g, LastToken(hd.T, r0, BT)))
      + Sum(BT, m => E(hd.k, r0 + m, c) * (NewAt(hd.K, w, u, s, r0 + m, j) * Carry(expo, hd.T, g, r0, BT, r0 + m)))
  {
    hide NewAt, Carry;
  }

  // ----- the program -----

  /** The register tiles b_h1..b_h4 hold rows v0.. of s; tiles past K are not in use. */
  ghost predicate Tiles4(K: nat, BV: nat, s: Mat, v0: nat, b1: Mat, b2: Mat, b3: Mat, b4: Mat) {
    && b1 == Load(BV, LANES, s, v0, 0)
    && (K > 64 ==> b2 == Load(BV, LANES, s, v0, 64))
    && (K > 128 ==> b3 == Load(BV, LANES, s, v0, 128))
    && (K > 192 ==> b4 == Load(BV, LANES, s, v0, 192))
  }

  method LoadState(K: nat, BV: nat, s: Mat, v0: nat) returns (b1: Mat, b2: Mat, b3: Mat, b4: Mat)
    ensures Tiles4(K, BV, s, v0, b1, b2, b3, b4)
  {
    b1, b2, b3, b4 := Load(BV, LANES, s, v0, 0), [], [], [];
    if K > 64 { b2 := Load(BV, LANES, s, v0, 64); }
    if K > 128 { b3 := Load(BV, LANES, s, v0, 128); }
    if K > 192 { b4 := Load(BV, LANES, s, v0, 192); }
  }

  /** Up to four boundary-checked stores put the rows back. */
  method StoreTiles(a: array4<real>, slot: nat, h: nat, BV: nat, ghost s: Mat, v0: nat, b1: Mat, b2: Mat, b3: Mat,
                    b4: Mat)
    requires slot < a.Length0 && h < a.Length1 && a.Length3 <= 256
    requires Tiles4(a.Length3, BV, s, v0, b1, b2, b3, b4)
    modifies a
    ensures forall x, hh, i, j :: In4(a, x, hh, i, j) ==>
      a[x, hh, i, j] == if x == slot && hh == h && v0 <= i < v0 + BV then E(s, i, j) else old(a[x, hh, i, j])
  {
    hide E, Load;
    var K := a.Length3;
    forall c0: nat, i: nat, j: nat | i < BV && j < LANES
      ensures E(Load(BV, LANES, s, v0, c0), i, j) == E(s, v0 + i, c0 + j)
    {
      LoadAt(BV, LANES, s, v0, c0, i, j);
    }
    StoreState(a, slot, h, v0, 0, BV, LANES, b1);
    if K > 64 { StoreState(a, slot, h, v0, 64, BV, LANES, b2); }
    if K > 128 { StoreState(a, slot, h, v0, 128, BV, LANES, b3); }
    if K > 192 { StoreState(a, slot, h, v0, 192, BV, LANES, b4); }
  }

  /** b_v = w h^T, one 64-channel tile after another. */
  method ReadState(K: nat, T: nat, BT: nat, BV: nat, w: Mat, ghost s: Mat, r0: nat, v0: nat, b1: Mat, b2: Mat, b3: Mat,
                   b4: Mat)
    returns (bv: Mat)
    requires K <= 256 && Dim(w, T, K) && Tiles4(K, BV, s, v0, b1, b2, b3, b4)
    ensures ReadOut(K, BT, BV, w, s, r0, v0, bv)
  {
    hide ReadOut, ReadTile, Load, Dim;
    bv := ReadTile(BT, LANES, BV, w, r0, 0, b1);
    ReadFirst(BT, LANES, BV, w, s, r0, v0);
    ghost var n := 64;
    if K > 64 {
      ReadNext(BT, LANES, BV, w, s, r0, v0, n, bv);
      bv := Add(BT, BV, bv, ReadTile(BT, LANES, BV, w, r0, 64, b2));
      n := 128;
    }
    if K > 128 {
      ReadNext(BT, LANES, BV, w, s, r0, v0, n, bv);
      bv := Add(BT, BV, bv, ReadTile(BT, LANES, BV, w, r0, 128, b3));
      n := 192;
    }
    if K > 192 {
      ReadNext(BT, LANES, BV, w, s, r0, v0, n, bv);
      bv := Add(BT, BV, bv, ReadTile(BT, LANES, BV, w, r0, 192, b4));
      n := 256;
    }
    ReadSkip(K, T, BT, BV, w, s, r0, v0, n, K, bv);
  }

  /** b_v minus the read-out is the new value of every row. */
  ghost predicate NewTile(K: nat, BT: nat, BV: nat, w: Mat, u: Mat, s: Mat, r0: nat, v0: nat, b: Mat) {
    forall i, l :: 0 <= i < BT && 0 <= l < BV ==> E(b, i, l) == NewAt(K, w, u, s, r0 + i, v0 + l)
  }

  lemma SubtractReadOut(K: nat, BT: nat, BV: nat, w: Mat, u: Mat, s: Mat, r0: nat, v0: nat, bv: Mat)
    requires ReadOut(K, BT, BV, w, s, r0, v0, bv)
    ensures NewTile(K, BT, BV, w, u, s, r0, v0, Sub(BT, BV, Load(BT, BV, u, r0, v0), bv))
  {
    hide RowDot;
  }

  /** where(m_t, exp(b_g_last - b_g), 0) */
  function CarryVec(expo: Expo, T: int, g: Vec, BT: nat, r0: nat): (r: Vec) {
    var gs, last := LoadVec(BT, g, r0), At(g, LastToken(T, r0, BT));
    VTab(BT, m => if r0 + m < T then expo(last - At(gs, m)) else 0.0)
  }

  lemma CarryRows(expo: Expo, hd: Head, g: Vec, w: Mat, u: Mat, BT: nat, BV: nat, r0: nat, v0: nat, s: Mat, b: Mat)
    requires NewTile(hd.K, BT, BV, w, u, s, r0, v0, b)
    ensures Carried(expo, hd, g, w, u, BT, BV, r0, v0, s, ScaleRows(BT, BV, b, CarryVec(expo, hd.T, g, BT, r0)))
  {
    hide NewAt;
  }

  method UpdateTiles(expo: Expo, hd: Head, ghost g: Vec, ghost w: Mat, ghost u: Mat, BT: nat, BV: nat, r0: nat, v0: nat,
                     ghost s: Mat, d: real, scaled: Mat, b1: Mat, b2: Mat, b3: Mat, b4: Mat)
    returns (c1: Mat, c2: Mat, c3: Mat, c4: Mat)
    requires Shaped(hd) && Dim(s, hd.V, hd.K) && Dim(u, hd.T, hd.V) && Tiles4(hd.K, BV, s, v0, b1, b2, b3, b4)
    requires Carried(expo, hd, g, w, u, BT, BV, r0, v0, s, scaled) && d == expo(At(g, LastToken(hd.T, r0, BT)))
    ensures Tiles4(hd.K, BV, NextState(expo, hd, g, w, u, BT, r0, s), v0, c1, c2, c3, c4)
  {
    hide Carried, UpdateTile, NextState, Load, Shaped, Dim, At;
    c1, c2, c3, c4 := UpdateTile(BT, BV, hd, r0, 0, d, b1, scaled), [], [], [];
    NextTile(expo, hd, g, w, u, BT, BV, r0, v0, 0, s, scaled);
    if hd.K > 64 {
      c2 := UpdateTile(BT, BV, hd, r0, 64, d, b2, scaled);
      NextTile(expo, hd, g, w, u, BT, BV, r0, v0, 64, s, scaled);
    }
    if hd.K > 128 {
      c3 := UpdateTile(BT, BV, hd, r0, 128, d, b3, scaled);
      NextTile(expo, hd, g, w, u, BT, BV, r0, v0, 128, s, scaled);
    }
    if hd.K > 192 {
      c4 := UpdateTile(BT, BV, hd, r0, 192, d, b4, scaled);
      NextTile(expo, hd, g, w, u, BT, BV, r0, v0, 192, s, scaled);
    }
  }

  /** New value of token t in row j, given the state before the token's chunk. */
  function NewValueAt(expo: Expo, hd: Head, g: Vec, w: Mat, u: Mat, BT: nat, s0: Mat, t: nat, j: int): real
    requires BT > 0
  {
    NewAt(hd.K, w, u, StateBefore(expo, hd, g, w, u, BT, s0, t / BT), t, j)
  }

  /** Program (value tile i_v, sequence n and head h). h0 and ht may be the same buffer. */
  method Program(expo: Expo, hd: Head, g: Vec, w: array3<real>, u: array3<real>, hs: array4<real>, vNew: array3<real>,
                 h0: array4<real>, ht: array4<real>, bos: nat, boh: nat, n: nat, h: nat, iV: nat, BT: nat, BV: nat)
    requires Shaped(hd) && hd.K <= 256 && BT > 0
    requires vNew != w && vNew != u && hs != h0 && hs != ht
    requires bos + hd.T <= w.Length0 && h < w.Length1 && w.Length2 == hd.K
    requires bos + hd.T <= u.Length0 && h < u.Length1 && u.Length2 == hd.V
    requires bos + hd.T <= vNew.Length0 && h < vNew.Length1 && vNew.Length2 == hd.V
    requires boh + Cdiv(hd.T, BT) <= hs.Length0 && h < hs.Length1 && hs.Length2 == hd.V && hs.Length3 == hd.K
    requires n < h0.Length0 && h < h0.Length1 && h0.Length2 == hd.V && h0.Length3 == hd.K
    requires n < ht.Length0 && h < ht.Length1 && ht.Length2 == hd.V && ht.Length3 == hd.K
    modifies hs, vNew, ht
    ensures var wv, uv, s0 := View(w, bos, hd.T, h), View(u, bos, hd.T, h), old(StateView(h0, n, h));
      && (forall x, hh, i, j :: In4(hs, x, hh, i, j) ==>
            hs[x, hh, i, j] == if hh == h && boh <= x < boh + Cdiv(hd.T, BT) && iV * BV <= i < iV * BV + BV
            then E(StateBefore(expo, hd, g, wv, uv, BT, s0, x - boh), i, j) else old(hs[x, hh, i, j]))
      && (forall t, hh, j :: In3(vNew, t, hh, j) ==>
            vNew[t, hh, j] == if Covered(bos, hd.T, h, 0, iV * BV, hd.T, BV, t, hh, j)
            then NewValueAt(expo, hd, g, wv, uv, BT, s0, t - bos, j) else old(vNew[t, hh, j]))
      && (forall x, hh, i, j :: In4(ht, x, hh, i, j) ==>
            ht[x, hh, i, j] == if x == n && hh == h && iV * BV <= i < iV * BV + BV
            then E(StateBefore(expo, hd, g, wv, uv, BT, s0, Cdiv(hd.T, BT)), i, j) else old(ht[x, hh, i, j]))
  {
    hide E, Load, NextState, Tiles4, ReadOut, NewTile, Carried, Shaped, NewAt, Sub, ScaleRows, CarryVec, StateBefore;
    var v0 := iV * BV;
    var wv, uv, s0 := View(w, bos, hd.T, h), View(u, bos, hd.T, h), StateView(h0, n, h);
    var b1, b2, b3, b4 := LoadState(hd.K, BV, s0, v0);
    ghost var s := s0;
    assert s0 == StateBefore(expo, hd, g, wv, uv, BT, s0, 0) by { FirstState(expo, hd, g, wv, uv, BT, s0); }
    for iT := 0 to Cdiv(hd.T, BT)
      modifies hs, vNew
      invariant s == StateBefore(expo, hd, g, wv, uv, BT, s0, iT) && Dim(s, hd.V, hd.K)
      invariant Tiles4(hd.K, BV, s, v0, b1, b2, b3, b4)
      invariant forall x, hh, i, j :: In4(hs, x, hh, i, j) ==>
        hs[x, hh, i, j] == if hh == h && boh <= x < boh + iT && v0 <= i < v0 + BV
        then E(StateBefore(expo, hd, g, wv, uv, BT, s0, x - boh), i, j) else old(hs[x, hh, i, j])
      invariant forall t, hh, j :: In3(vNew, t, hh, j) ==>
        vNew[t, hh, j] == if Covered(bos, hd.T, h, 0, v0, iT * BT, BV, t, hh, j)
        then NewValueAt(expo, hd, g, wv, uv, BT, s0, t - bos, j) else old(vNew[t, hh, j])
    {
      var r0 := iT * BT;
      StoreTiles(hs, boh + iT, h, BV, s, v0, b1, b2, b3, b4);
      var bv := ReadState(hd.K, hd.T, BT, BV, wv, s, r0, v0, b1, b2, b3, b4);
      SubtractReadOut(hd.K, BT, BV, wv, uv, s, r0, v0, bv);
      bv := Sub(BT, BV, Load(BT, BV, uv, r0, v0), bv);
      forall i, l | 0 <= i < BT && 0 <= l < BV && r0 + i < hd.T
        ensures E(bv, i, l) == NewValueAt(expo, hd, g, wv, uv, BT, s0, r0 + i, v0 + l)
      {
        NewTileAt(hd.K, BT, BV, wv, uv, s, r0, v0, bv, i, l);
        ChunkOf(BT, iT, r0 + i);
      }
      StoreBlock(vNew, bos, hd.T, h, r0, v0, BT, BV, bv);
      assert (iT + 1) * BT == r0 + BT;
      var last := At(g, LastToken(hd.T, r0, BT));
      CarryRows(expo, hd, g, wv, uv, BT, BV, r0, v0, s, bv);
      bv := ScaleRows(BT, BV, bv, CarryVec(expo, hd.T, g, BT, r0));
      b1, b2, b3, b4 := UpdateTiles(expo, hd, g, wv, uv, BT, BV, r0, v0, s, expo(last), bv, b1, b2, b3, b4);
      StepState(expo, hd, g, wv, uv, BT, s0, iT);
      s := NextState(expo, hd, g, wv, uv, BT, r0, s);
    }
    CdivCovers(hd.T, BT);
    StoreTiles(ht, n, h, BV, s, v0, b1, b2, b3, b4);
  }

  lemma FirstState(expo: Expo, hd: Head, g: Vec, w: Mat, u: Mat, BT: nat, s0: Mat)
    ensures StateBefore(expo, hd, g, w, u, BT, s0, 0) == s0
  {
  }

  lemma StepState(expo: Expo, hd: Head, g: Vec, w: Mat, u: Mat, BT: nat, s0: Mat, c: nat)
    ensures StateBefore(expo, hd, g, w, u, BT, s0, c + 1)
         == NextState(expo, hd, g, w, u, BT, c * BT, StateBefore(expo, hd, g, w, u, BT, s0, c))
    ensures Dim(StateBefore(expo, hd, g, w, u, BT, s0, c + 1), hd.V, hd.K)
  {
    hide E, NewAt, Carry;
  }

  lemma NewTileAt(K: nat, BT: nat, BV: nat, w: Mat, u: Mat, s: Mat, r0: nat, v0: nat, b: Mat, i: nat, l: nat)
    requires NewTile(K, BT, BV, w, u, s, r0, v0, b) && i < BT && l < BV
    ensures E(b, i, l) == NewAt(K, w, u, s, r0 + i, v0 + l)
  {
    hide E, NewAt;
  }
}
