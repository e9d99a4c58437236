/**
 triton_kernels/fused_recurrent_packed_decode.py: one program advances BV rows of one head's state by one
 token. It unpacks query, key and value from a row of mixed_qkv, normalizes query and key, evaluates gate
 and beta, and takes one step of the recurrence on the token's slot of the state pool.
 */
module PackedDecode {
  import opened Sums
  import opened Matrices
  import opened Recurrence
  import opened Tiles
  import opened Buffers

  /** The real functions the kernel calls besides exp. */
  datatype Maths = Maths(log: real -> real, sqrt: real -> real)

  ghost predicate IsSqrt(sqrt: real -> real) {
    forall x :: x > 0.0 ==> sqrt(x) > 0.0 && sqrt(x) * sqrt(x) == x
  }

  /** A launch's inputs: rows of H query heads, H key heads and HV value heads, the gate projections a and b,
      the per-head gate parameters, and each row's slot in the state pool, negative for none. */
  datatype Packed = Packed(H: nat, HV: nat, K: nat, V: nat, mixed: Mat, a: Mat, b: Mat, aLog: Vec, dtBias: Vec,
                           slots: seq<int>, threshold: real, normalize: bool)

  predicate ValidPacked(p: Packed) {
    0 < p.H <= p.HV
  }

  /** The key head that value head h shares. */
  function KeyHead(p: Packed, h: nat): nat
    requires ValidPacked(p)
  {
    h / (p.HV / p.H)
  }

  // ----- what a packed row means -----

  const NORM_EPS := 0.000001

  /** x divided by its norm, kept away from zero by the epsilon. */
  function Normalized(mt: Maths, K: nat, x: Vec): (r: Vec)
    requires mt.sqrt(Sum(K, c => At(x, c) * At(x, c)) + NORM_EPS) != 0.0
    ensures |r| == K
  {
    VTab(K, c => At(x, c) / mt.sqrt(Sum(K, c => At(x, c) * At(x, c)) + NORM_EPS))
  }

  function Softplus(expo: Expo, mt: Maths, threshold: real, x: real): real {
    if x <= threshold then mt.log(1.0 + expo(x)) else x
  }

  function Sigmoid(expo: Expo, x: real): real
    requires 1.0 + expo(-x) != 0.0
  {
    1.0 / (1.0 + expo(-x))
  }

  /** n channels of a row from column off on. */
  function Slice(row: Mat, i: nat, off: nat, n: nat): (r: Vec)
    ensures |r| == n
  {
    VTab(n, c => E(row, i, off + c))
  }

  function QueryOf(p: Packed, n: nat, h: nat): Vec
    requires ValidPacked(p)
  {
    Slice(p.mixed, n, KeyHead(p, h) * p.K, p.K)
  }

  function KeyOf(p: Packed, n: nat, h: nat): Vec
    requires ValidPacked(p)
  {
    Slice(p.mixed, n, p.H * p.K + KeyHead(p, h) * p.K, p.K)
  }

  function ValueOf(p: Packed, n: nat, h: nat): Vec
    requires ValidPacked(p)
  {
    Slice(p.mixed, n, 2 * p.H * p.K + h * p.V, p.V)
  }

  function LogDecayOf(expo: Expo, mt: Maths, p: Packed, n: nat, h: nat): real {
    -expo(At(p.aLog, h)) * Softplus(expo, mt, p.threshold, E(p.a, n, h) + At(p.dtBias, h))
  }

  /** A query or key as the recurrence sees it. */
  ghost function Prepared(mt: Maths, p: Packed, x: Vec): (r: Vec)
    requires IsSqrt(mt.sqrt) && |x| == p.K
    ensures |r| == p.K
  {
    NormPositive(mt, p.K, x);
    if p.normalize then Normalized(mt, p.K, x) else x
  }

  /** Value head h of row n as a one-token head of the recurrence. */
  ghost function TokenHead(expo: Expo, mt: Maths, p: Packed, n: nat, h: nat): (hd: Head)
    requires IsExp(expo) && IsSqrt(mt.sqrt) && ValidPacked(p)
    ensures Shaped(hd) && hd.T == 1 && hd.K == p.K && hd.V == p.V
  {
    Head(1, p.K, p.V, [Prepared(mt, p, QueryOf(p, n, h))], [Prepared(mt, p, KeyOf(p, n, h))],
         [ValueOf(p, n, h)], [Sigmoid(expo, E(p.b, n, h))], [LogDecayOf(expo, mt, p, n, h)])
  }

  lemma {:induction false} SquaresNotNegative(n: nat, x: Vec)
    ensures Sum(n, c => At(x, c) * At(x, c)) >= 0.0
  {
    if n > 0 { SquaresNotNegative(n - 1, x); }
  }

  lemma NormPositive(mt: Maths, n: nat, x: Vec)
    requires IsSqrt(mt.sqrt)
    ensures mt.sqrt(Sum(n, c => At(x, c) * At(x, c)) + NORM_EPS) > 0.0
  {
    SquaresNotNegative(n, x);
  }

  // ----- what the program evaluates -----

  /** A masked load: BK lanes of which those past K are zero. */
  function Lanes(BK: nat, K: nat, row: Mat, n: nat, off: nat): Vec {
    VTab(BK, c => if c < K then E(row, n, off + c) else 0.0)
  }

  /** The sum over all lanes is the sum over the K channels. */
  lemma LaneSquares(BK: nat, K: nat, lanes: Vec, x: Vec)
    requires K <= BK && forall c :: 0 <= c < BK ==> At(lanes, c) == if c < K then At(x, c) else 0.0
    ensures Sum(BK, c => At(lanes, c) * At(lanes, c)) == Sum(K, c => At(x, c) * At(x, c))
  {
    hide At;
    var f := c => At(lanes, c) * At(lanes, c);
    forall c | K <= c < BK ensures f(c) == 0.0 { assert At(lanes, c) == 0.0; }
    SumTail(K, BK, f);
    SumExt(K, f, c => At(x, c) * At(x, c));
  }

  method NormalizeLanes(mt: Maths, BK: nat, K: nat, lanes: Vec, ghost x: Vec) returns (r: Vec)
    requires IsSqrt(mt.sqrt) && K <= BK && |x| == K
    requires forall c :: 0 <= c < BK ==> At(lanes, c) == if c < K then At(x, c) else 0.0
    ensures mt.sqrt(Sum(K, c => At(x, c) * At(x, c)) + NORM_EPS) != 0.0
    ensures forall c :: 0 <= c < K ==> At(r, c) == At(Normalized(mt, K, x), c)
  {
    hide At, Sum;
    LaneSquares(BK, K, lanes, x);
    NormPositive(mt, K, x);
    var norm := mt.sqrt(Sum(BK, c => At(lanes, c) * At(lanes, c)) + NORM_EPS);
    r := VTab(BK, c => At(lanes, c) / norm);
  }

  /** A masked load of K channels from column off on, normalized if the launch asks for it. */
  method LoadChannels(mt: Maths, p: Packed, n: nat, off: nat, BK: nat, ghost x: Vec) returns (r: Vec)
    requires IsSqrt(mt.sqrt) && p.K <= BK && x == Slice(p.mixed, n, off, p.K)
    ensures r == Prepared(mt, p, x)
  {
    hide Sum, E, Normalized;
    var lanes := Lanes(BK, p.K, p.mixed, n, off);
    if p.normalize { lanes := NormalizeLanes(mt, BK, p.K, lanes, x); }
    r := VTab(p.K, c => At(lanes, c));
    VecExt(p.K, r, Prepared(mt, p, x));
  }

  /** The loads, the optional normalization, the gate and beta of one program. */
  method Evaluate(expo: Expo, mt: Maths, p: Packed, n: nat, h: nat, BK: nat) returns (hd: Head)
    requires IsExp(expo) && IsSqrt(mt.sqrt) && ValidPacked(p) && p.K <= BK
    ensures hd == TokenHead(expo, mt, p, n, h)
  {
    hide Sum, E, At, Normalized, Prepared, KeyHead, IsSqrt, Slice;
    var q := LoadChannels(mt, p, n, KeyHead(p, h) * p.K, BK, QueryOf(p, n, h));
    var k := LoadChannels(mt, p, n, p.H * p.K + KeyHead(p, h) * p.K, BK, KeyOf(p, n, h));
    var v := Slice(p.mixed, n, 2 * p.H * p.K + h * p.V, p.V);
    var x := E(p.a, n, h) + At(p.dtBias, h);
    var softplus := if x <= p.threshold then mt.log(1.0 + expo(x)) else x;
    var g := -expo(At(p.aLog, h)) * softplus;
    var beta := 1.0 / (1.0 + expo(-E(p.b, n, h)));
    hd := Head(1, p.K, p.V, [q], [k], [v], [beta], [g]);
    assert beta == Sigmoid(expo, E(p.b, n, h));
    assert g == LogDecayOf(expo, mt, p, n, h);
  }

  lemma VecExt(n: nat, x: Vec, y: Vec)
    requires |x| == n == |y| && forall c :: 0 <= c < n ==> At(x, c) == At(y, c)
    ensures x == y
  {
    forall c | 0 <= c < n ensures x[c] == y[c] { assert At(x, c) == At(y, c); }
  }

  // ----- one step on a state tile -----

  /** b_v = (b_v - sum(b_h * b_k, 1)) * beta on an already decayed state tile. */
  function NewColumn(hd: Head, BK: nat, BV: nat, v0: int, b: Mat): (r: Vec) {
    VTab(BV, l => (E(hd.v, 0, v0 + l) - Sum(BK, c => E(b, l, c) * E(hd.k, 0, c))) * At(hd.beta, 0))
  }

  /** b_h += b_v[:, None] * b_k[None, :] */
  function Rank1(hd: Head, BK: nat, BV: nat, b: Mat, x: Vec): (r: Mat) {
    Tab(BV, BK, (l, c) => E(b, l, c) + At(x, l) * E(hd.k, 0, c))
  }

  /** sum(b_h * b_q, 1) with the query scaled first. */
  function ReadColumn(hd: Head, scale: real, BK: nat, BV: nat, b: Mat): (r: Mat) {
    Tab(1, BV, (z, l) => Sum(BK, c => E(b, l, c) * (E(hd.q, 0, c) * scale)))
  }

  lemma NewColumnAt(expo: Expo, hd: Head, BK: nat, BV: nat, v0: nat, s: Mat, l: nat)
    requires Shaped(hd) && hd.K <= BK && l < BV
    ensures At(NewColumn(hd, BK, BV, v0, Scale(BV, BK, expo(At(hd.logDecay, 0)), Load(BV, BK, s, v0, 0))), l)
         == NewValue(expo, hd, v0 + l, Row(s, v0 + l), 0)
  {
    hide E, At, Scale, Load, Row, Shaped, NewColumn;
    var d := expo(At(hd.logDecay, 0));
    var b := Scale(BV, BK, d, Load(BV, BK, s, v0, 0));
    var f, h := c => E(b, l, c) * E(hd.k, 0, c), c => At(Row(s, v0 + l), c) * d * E(hd.k, 0, c);
    NewColumnIs(hd, BK, BV, v0, b, l);
    forall c | 0 <= c < BK ensures f(c) == h(c) { DecayedAt(BV, BK, d, s, v0, l, c); }
    forall c | hd.K <= c < BK ensures h(c) == 0.0 { KeyBeyond(hd, c); }
    SumExt(BK, f, h);
    SumTail(hd.K, BK, h);
    Flip(E(hd.v, 0, v0 + l) - Sum(hd.K, h), At(hd.beta, 0));
  }

  lemma Flip(x: real, y: real)
    ensures x * y == y * x
  {
  }

  lemma NewColumnIs(hd: Head, BK: nat, BV: nat, v0: nat, b: Mat, l: nat)
    requires l < BV
    ensures At(NewColumn(hd, BK, BV, v0, b), l)
         == (E(hd.v, 0, v0 + l) - Sum(BK, c => E(b, l, c) * E(hd.k, 0, c))) * At(hd.beta, 0)
  {
  }

  lemma KeyBeyond(hd: Head, c: int)
    requires Shaped(hd) && c >= hd.K
    ensures E(hd.k, 0, c) == 0.0 && E(hd.q, 0, c) == 0.0
  {
  }

  lemma DecayedAt(BV: nat, BK: nat, d: real, s: Mat, v0: nat, l: nat, c: nat)
    requires l < BV && c < BK
    ensures E(Scale(BV, BK, d, Load(BV, BK, s, v0, 0)), l, c) == At(Row(s, v0 + l), c) * d
  {
    LoadAt(BV, BK, s, v0, 0, l, c);
    RowAt(s, v0 + l, c);
    hide Load, Row, At;
    assert E(Scale(BV, BK, d, Load(BV, BK, s, v0, 0)), l, c) == E(Load(BV, BK, s, v0, 0), l, c) * d;
  }

  lemma RowAt(s: Mat, i: int, c: int)
    ensures At(Row(s, i), c) == E(s, i, c)
  {
  }

  /** The updated tile holds the recurrence's next state rows. */
  lemma Rank1At(expo: Expo, hd: Head, BK: nat, BV: nat, v0: nat, s: Mat, l: nat, c: nat)
    requires Shaped(hd) && hd.K <= BK && l < BV && c < hd.K
    ensures var b := Scale(BV, BK, expo(At(hd.logDecay, 0)), Load(BV, BK, s, v0, 0));
            E(Rank1(hd, BK, BV, b, NewColumn(hd, BK, BV, v0, b)), l, c)
              == At(StepRow(expo, hd, v0 + l, Row(s, v0 + l), 0), c)
  {
    NewColumnAt(expo, hd, BK, BV, v0, s, l);
    DecayedAt(BV, BK, expo(At(hd.logDecay, 0)), s, v0, l, c);
    hide NewColumn, Load, Scale, NewValue;
  }

  lemma ReadColumnAt(expo: Expo, hd: Head, scale: real, BK: nat, BV: nat, v0: nat, s: Mat, b: Mat, l: nat)
    requires Shaped(hd) && hd.K <= BK && l < BV
    requires forall c :: 0 <= c < hd.K ==> E(b, l, c) == At(StepRow(expo, hd, v0 + l, Row(s, v0 + l), 0), c)
    ensures E(ReadColumn(hd, scale, BK, BV, b), 0, l) == Output(expo, hd, scale, v0 + l, Row(s, v0 + l), 0)
  {
    hide *;
    var next := RowState(expo, hd, v0 + l, Row(s, v0 + l), 1);
    OneStep(expo, hd, v0 + l, Row(s, v0 + l));
    OutputIs(expo, hd, scale, v0 + l, Row(s, v0 + l));
    ReadColumnIs(hd, scale, BK, BV, b, l);
    var f, h := c => E(b, l, c) * (E(hd.q, 0, c) * scale), c => At(next, c) * (E(hd.q, 0, c) * scale);
    forall c | hd.K <= c < BK ensures f(c) == 0.0 { KeyBeyond(hd, c); }
    SumTail(hd.K, BK, f);
    SumExt(hd.K, f, h);
  }

  lemma OutputIs(expo: Expo, hd: Head, scale: real, j: int, s: Vec)
    ensures Output(expo, hd, scale, j, s, 0)
         == Sum(hd.K, c => At(RowState(expo, hd, j, s, 1), c) * (E(hd.q, 0, c) * scale))
  {
    hide RowState, E, At;
  }

  lemma ReadColumnIs(hd: Head, scale: real, BK: nat, BV: nat, b: Mat, l: nat)
    requires l < BV
    ensures E(ReadColumn(hd, scale, BK, BV, b), 0, l) == Sum(BK, c => E(b, l, c) * (E(hd.q, 0, c) * scale))
  {
  }

  lemma OneStep(expo: Expo, hd: Head, j: int, s: Vec)
    ensures RowState(expo, hd, j, s, 1) == StepRow(expo, hd, j, s, 0)
  {
    assert RowState(expo, hd, j, s, 0) == s;
  }

  /** The recurrence step of the program on the slot's state tile, stored in place when h0 is ht. */
  method StepTile(expo: Expo, hd: Head, scale: real, o: array3<real>, h0: array4<real>, ht: array4<real>,
                  slot: nat, n: nat, h: nat, iV: nat, BK: nat, BV: nat)
    requires Shaped(hd) && hd.T == 1 && hd.K <= BK
    requires n < o.Length0 && h < o.Length1 && o.Length2 == hd.V
    requires slot < h0.Length0 && h < h0.Length1 && h0.Length2 == hd.V && h0.Length3 == hd.K
    requires slot < ht.Length0 && h < ht.Length1 && ht.Length2 == hd.V && ht.Length3 == hd.K
    modifies o, ht
    ensures forall t, hh, j :: In3(o, t, hh, j) && !Covered(n, 1, h, 0, iV * BV, 1, BV, t, hh, j) ==>
      o[t, hh, j] == old(o[t, hh, j])
    ensures forall j :: 0 <= j < hd.V && iV * BV <= j < iV * BV + BV ==>
      o[n, h, j] == Output(expo, hd, scale, j, old(Row(StateView(h0, slot, h), j)), 0)
    ensures forall x, hh, i, c :: In4(ht, x, hh, i, c) ==>
      ht[x, hh, i, c] == if x == slot && hh == h && iV * BV <= i < iV * BV + BV
        then At(RowState(expo, hd, i, old(Row(StateView(h0, slot, h), i)), 1), c) else old(ht[x, hh, i, c])
  {
    hide E, At, Load, Scale, NewColumn, Rank1, ReadColumn, Output, RowState, StepRow, Shaped, Row;
    var v0 := iV * BV;
    var s := StateView(h0, slot, h);
    var b := Load(BV, BK, s, v0, 0);
    b := Scale(BV, BK, expo(At(hd.logDecay, 0)), b);
    var x := NewColumn(hd, BK, BV, v0, b);
    b := Rank1(hd, BK, BV, b, x);
    var out := ReadColumn(hd, scale, BK, BV, b);
    forall l, c | 0 <= l < BV && 0 <= c < hd.K
      ensures E(b, l, c) == At(RowState(expo, hd, v0 + l, Row(s, v0 + l), 1), c)
    {
      Rank1At(expo, hd, BK, BV, v0, s, l, c);
      OneStep(expo, hd, v0 + l, Row(s, v0 + l));
    }
    forall l | 0 <= l < BV ensures E(out, 0, l) == Output(expo, hd, scale, v0 + l, Row(s, v0 + l), 0) {
      OneStep(expo, hd, v0 + l, Row(s, v0 + l));
      ReadColumnAt(expo, hd, scale, BK, BV, v0, s, b, l);
    }
    StoreBlock(o, n, 1, h, 0, v0, 1, BV, out);
    StoreState(ht, slot, h, v0, 0, BV, BK, b);
  }

  /** Program (value tile i_v, batch row n, value head h). h0 and ht may be the same state pool. */
  method Program(expo: Expo, mt: Maths, p: Packed, scale: real, o: array3<real>, h0: array4<real>, ht: array4<real>,
                 n: nat, h: nat, iV: nat, BK: nat, BV: nat)
    requires IsExp(expo) && IsSqrt(mt.sqrt) && ValidPacked(p) && p.K <= BK && n < |p.slots|
    requires n < o.Length0 && h < o.Length1 && o.Length2 == p.V
    requires p.slots[n] < h0.Length0 && h < h0.Length1 && h0.Length2 == p.V && h0.Length3 == p.K
    requires p.slots[n] < ht.Length0 && h < ht.Length1 && ht.Length2 == p.V && ht.Length3 == p.K
    modifies o, ht
    ensures forall t, hh, j :: In3(o, t, hh, j) && !Covered(n, 1, h, 0, iV * BV, 1, BV, t, hh, j) ==>
      o[t, hh, j] == old(o[t, hh, j])
    ensures var hd, slot := TokenHead(expo, mt, p, n, h), p.slots[n];
      && (forall j :: 0 <= j < p.V && iV * BV <= j < iV * BV + BV ==>
            o[n, h, j] == if slot < 0 then 0.0 else Output(expo, hd, scale, j, old(Row(StateView(h0, slot, h), j)), 0))
      && (forall x, hh, i, c :: In4(ht, x, hh, i, c) ==>
            ht[x, hh, i, c] == if slot >= 0 && x == slot && hh == h && iV * BV <= i < iV * BV + BV
              then At(RowState(expo, hd, i, old(Row(StateView(h0, slot, h), i)), 1), c) else old(ht[x, hh, i, c]))
  {
    hide E, At, Output, RowState, Row, TokenHead;
    var slot := p.slots[n];
    if slot < 0 {
      var zero := Zeros(1, BV);
      StoreBlock(o, n, 1, h, 0, iV * BV, 1, BV, zero);
      return;
    }
    var hd := Evaluate(expo, mt, p, n, h, BK);
    StepTile(expo, hd, scale, o, h0, ht, slot, n, h, iV, BK, BV);
  }
}
