/**
 The launch of the state kernel over a packed batch: value tiles by sequences by heads, in any order,
 with the initial and the final states in two buffers or in one.
 */
module StateLaunch {
  import opened Sums
  import opened Matrices
  import opened Recurrence
  import opened Tiles
  import opened Buffers
  import opened Layout
  import opened Launches
  import ChunkDeltaH

  type States = seq<seq<Mat>>

  function E4(x: States, s: int, h: int, i: int, j: int): real {
    if 0 <= s < |x| && 0 <= h < |x[s]| then E(x[s][h], i, j) else 0.0
  }

  ghost function Cells4(a: array4<real>): (r: States)
    reads a
    ensures |r| == a.Length0 && forall s :: 0 <= s < a.Length0 ==> |r[s]| == a.Length1
    ensures forall s, h {:trigger r[s][h]} :: 0 <= s < a.Length0 && 0 <= h < a.Length1 ==>
      Dim(r[s][h], a.Length2, a.Length3)
    ensures forall s, h, i, j {:trigger E4(r, s, h, i, j)} ::
      E4(r, s, h, i, j) == if In4(a, s, h, i, j) then a[s, h, i, j] else 0.0
  {
    seq(a.Length0, s requires 0 <= s < a.Length0 reads a =>
      seq(a.Length1, h requires 0 <= h < a.Length1 reads a => StateView(a, s, h)))
  }

  lemma StateViewIs(a: array4<real>, s: nat, h: nat)
    requires s < a.Length0 && h < a.Length1
    ensures Cells4(a)[s][h] == StateView(a, s, h)
  {
    var x, y := Cells4(a)[s][h], StateView(a, s, h);
    forall i, j | 0 <= i < a.Length2 && 0 <= j < a.Length3 ensures E(x, i, j) == E(y, i, j) {
      assert E4(Cells4(a), s, h, i, j) == a[s, h, i, j];
    }
    MatExt(x, y, a.Length2, a.Length3);
  }

  /** The strided view of a buffer's contents. */
  ghost function ViewOf(b: Batch, C: nat, x: Cube, n: nat, h: nat): (r: Mat)
    requires ValidBatch(b) && n < Sequences(b)
  {
    Tab(SeqLen(b, n), C, (t, j) => E3(x, b.cu[n] + t, h, j))
  }

  lemma ViewIs(b: Batch, C: nat, a: array3<real>, n: nat, h: nat)
    requires ValidBatch(b) && n < Sequences(b) && h < b.H && Holds(b, a, C)
    ensures View(a, b.cu[n], SeqLen(b, n), h) == ViewOf(b, C, Cells(a), n, h)
  {
    var x, y := View(a, b.cu[n], SeqLen(b, n), h), ViewOf(b, C, Cells(a), n, h);
    forall i, j | 0 <= i < SeqLen(b, n) && 0 <= j < C ensures E(x, i, j) == E(y, i, j) {
      ViewEntry(b, C, a, n, h, i, j);
    }
    MatExt(x, y, SeqLen(b, n), C);
  }

  // ----- what one row's results are -----

  /** Inputs of the state kernel: w, u and the initial states. */
  datatype Inputs = Inputs(w: Cube, u: Cube, s0: States)

  ghost function Carried(expo: Expo, b: Batch, BT: nat, x: Inputs, n: nat, h: nat, c: nat): Mat
    requires ValidBatch(b) && n < Sequences(b) && n < |x.s0| && h < |x.s0[n]|
  {
    ChunkDeltaH.StateBefore(expo, HeadOf(b, n, h), SumsOf(b, n, h), ViewOf(b, b.K, x.w, n, h),
                            ViewOf(b, b.V, x.u, n, h), BT, x.s0[n][h], c)
  }

  ghost function Fresh(expo: Expo, b: Batch, BT: nat, x: Inputs, n: nat, h: nat, t: nat, j: nat): real
    requires ValidBatch(b) && BT > 0 && n < Sequences(b) && n < |x.s0| && h < |x.s0[n]|
  {
    ChunkDeltaH.NewValueAt(expo, HeadOf(b, n, h), SumsOf(b, n, h), ViewOf(b, b.K, x.w, n, h), ViewOf(b, b.V, x.u, n, h),
                           BT, x.s0[n][h], t, j)
  }

  /** Value row j of head h of sequence n is finished: snapshots, new values and final state. */
  ghost predicate RowDone(expo: Expo, b: Batch, BT: nat, x: Inputs, hs: States, vn: Cube, ht: States, n: nat, h: nat,
                          j: nat)
    requires ValidBatch(b) && BT > 0 && n < Sequences(b) && n < |x.s0| && h < |x.s0[n]|
  {
    && (forall c: nat, k: nat :: c < NumChunks(b, BT, n) && k < b.K ==>
          E4(hs, ChunkOffset(b, BT, n) + c, h, j, k) == E(Carried(expo, b, BT, x, n, h, c), j, k))
    && (forall t: nat :: t < SeqLen(b, n) ==> E3(vn, b.cu[n] + t, h, j) == Fresh(expo, b, BT, x, n, h, t, j))
    && (forall k: nat :: k < b.K ==> E4(ht, n, h, j, k) == E(Carried(expo, b, BT, x, n, h, NumChunks(b, BT, n)), j, k))
  }

  /** A program: value tile, sequence, head. */
  type StatePid = (nat, nat, nat)

  ghost predicate InTile(BV: nat, iV: nat, j: int) {
    iV * BV <= j < iV * BV + BV
  }

  /** Two contents of the output buffers differ at most in one program's places. */
  ghost predicate RowsKept(b: Batch, BT: nat, BV: nat, hs: States, hs': States, vn: Cube, vn': Cube, ht: States,
                           ht': States, p: StatePid)
    requires ValidBatch(b) && BT > 0 && p.1 < Sequences(b)
  {
    var (iV, n, h) := p;
    && (forall s, hh, i, k ::
          !(hh == h && 0 <= s - ChunkOffset(b, BT, n) < NumChunks(b, BT, n) && InTile(BV, iV, i)) ==>
          E4(hs', s, hh, i, k) == E4(hs, s, hh, i, k))
    && (forall t, hh, j :: !(hh == h && b.cu[n] <= t < b.cu[n + 1] && InTile(BV, iV, j)) ==>
          E3(vn', t, hh, j) == E3(vn, t, hh, j))
    && (forall s, hh, i, k :: !(s == n && hh == h && InTile(BV, iV, i)) ==> E4(ht', s, hh, i, k) == E4(ht, s, hh, i, k))
  }

  /** Snapshots of different sequences live in different slots. */
  lemma {:induction false} SlotsDisjoint(b: Batch, BT: nat, n: nat, m: nat)
    requires ValidBatch(b) && BT > 0 && n < m <= Sequences(b)
    ensures ChunkOffset(b, BT, n) + NumChunks(b, BT, n) <= ChunkOffset(b, BT, m)
  {
    if n < m - 1 { SlotsDisjoint(b, BT, n, m - 1); }
  }

  lemma RowKept(expo: Expo, b: Batch, BT: nat, BV: nat, x: Inputs, hs: States, hs': States, vn: Cube, vn': Cube,
                ht: States, ht': States,
                p: StatePid, n: nat, h: nat, j: nat)
    requires ValidBatch(b) && BT > 0 && p.1 < Sequences(b) && n < Sequences(b) && n < |x.s0| && h < |x.s0[n]|
    requires RowsKept(b, BT, BV, hs, hs', vn, vn', ht, ht', p) && RowDone(expo, b, BT, x, hs, vn, ht, n, h, j)
    requires !(InTile(BV, p.0, j) && n == p.1 && h == p.2)
    ensures RowDone(expo, b, BT, x, hs', vn', ht', n, h, j)
  {
    hide Carried, Fresh, E3, E4;
    if n < p.1 { SlotsDisjoint(b, BT, n, p.1); } else if p.1 < n { SlotsDisjoint(b, BT, p.1, n); }
    forall c: nat, k: nat | c < NumChunks(b, BT, n) && k < b.K
      ensures E4(hs', ChunkOffset(b, BT, n) + c, h, j, k) == E(Carried(expo, b, BT, x, n, h, c), j, k)
    {
      assert E4(hs', ChunkOffset(b, BT, n) + c, h, j, k) == E4(hs, ChunkOffset(b, BT, n) + c, h, j, k);
    }
    forall t: nat | t < SeqLen(b, n) ensures E3(vn', b.cu[n] + t, h, j) == Fresh(expo, b, BT, x, n, h, t, j) {
      assert E3(vn', b.cu[n] + t, h, j) == E3(vn, b.cu[n] + t, h, j);
    }
    forall k: nat | k < b.K ensures E4(ht', n, h, j, k) == E(Carried(expo, b, BT, x, n, h, NumChunks(b, BT, n)), j, k) {
      assert E4(ht', n, h, j, k) == E4(ht, n, h, j, k);
    }
  }

  // ----- rows of the state never mix -----

  lemma {:induction false} RowLocal(expo: Expo, hd: Head, g: Vec, w: Mat, u: Mat, BT: nat, s: Mat, s': Mat, c: nat,
                                    j: nat)
    requires j < hd.V && forall k :: 0 <= k < hd.K ==> E(s, j, k) == E(s', j, k)
    ensures forall k :: 0 <= k < hd.K ==>
      E(ChunkDeltaH.StateBefore(expo, hd, g, w, u, BT, s, c), j, k)
        == E(ChunkDeltaH.StateBefore(expo, hd, g, w, u, BT, s', c), j, k)
    ensures forall t :: ChunkDeltaH.NewAt(hd.K, w, u, ChunkDeltaH.StateBefore(expo, hd, g, w, u, BT, s, c), t, j)
                     == ChunkDeltaH.NewAt(hd.K, w, u, ChunkDeltaH.StateBefore(expo, hd, g, w, u, BT, s', c), t, j)
  {
    hide E, ChunkDeltaH.NewAt, ChunkDeltaH.NextState, ChunkDeltaH.Carry;
    var x, y := ChunkDeltaH.StateBefore(expo, hd, g, w, u, BT, s, c),
        ChunkDeltaH.StateBefore(expo, hd, g, w, u, BT, s', c);
    if c > 0 {
      RowLocal(expo, hd, g, w, u, BT, s, s', c - 1, j);
      var r0 := (c - 1) * BT;
      var p, q := ChunkDeltaH.StateBefore(expo, hd, g, w, u, BT, s, c - 1),
          ChunkDeltaH.StateBefore(expo, hd, g, w, u, BT, s', c - 1);
      forall k | 0 <= k < hd.K ensures E(x, j, k) == E(y, j, k) {
        ChunkDeltaH.NextStateAt(expo, hd, g, w, u, BT, r0, p, j, k);
        ChunkDeltaH.NextStateAt(expo, hd, g, w, u, BT, r0, q, j, k);
        SumExt(BT, m => E(hd.k, r0 + m, k)
                 * (ChunkDeltaH.NewAt(hd.K, w, u, p, r0 + m, j) * ChunkDeltaH.Carry(expo, hd.T, g, r0, BT, r0 + m)),
               m => E(hd.k, r0 + m, k)
                 * (ChunkDeltaH.NewAt(hd.K, w, u, q, r0 + m, j) * ChunkDeltaH.Carry(expo, hd.T, g, r0, BT, r0 + m)));
      }
    }
    forall t ensures ChunkDeltaH.NewAt(hd.K, w, u, x, t, j) == ChunkDeltaH.NewAt(hd.K, w, u, y, t, j) {
      NewAtLocal(hd.K, w, u, x, y, t, j);
    }
  }

  lemma NewAtLocal(K: nat, w: Mat, u: Mat, x: Mat, y: Mat, t: int, j: nat)
    requires forall k :: 0 <= k < K ==> E(x, j, k) == E(y, j, k)
    ensures ChunkDeltaH.NewAt(K, w, u, x, t, j) == ChunkDeltaH.NewAt(K, w, u, y, t, j)
  {
    hide E;
    SumExt(K, c => E(w, t, c) * E(x, j, c), c => E(w, t, c) * E(y, j, c));
  }

  lemma RowDoneLocal(expo: Expo, b: Batch, BT: nat, x: Inputs, x': Inputs, hs: States, vn: Cube, ht: States, n: nat,
                     h: nat, j: nat)
    requires ValidBatch(b) && BT > 0 && n < Sequences(b) && h < b.H && j < b.V
    requires n < |x.s0| && h < |x.s0[n]| && n < |x'.s0| && h < |x'.s0[n]| && x.w == x'.w && x.u == x'.u
    requires forall k: nat :: k < b.K ==> E4(x.s0, n, h, j, k) == E4(x'.s0, n, h, j, k)
    requires RowDone(expo, b, BT, x, hs, vn, ht, n, h, j)
    ensures RowDone(expo, b, BT, x', hs, vn, ht, n, h, j)
  {
    hide E, ChunkDeltaH.NewAt, ChunkDeltaH.StateBefore, HeadOf, SumsOf, ViewOf, E3;
    HeadShape(b, n, h);
    var hd, g, wv, uv := HeadOf(b, n, h), SumsOf(b, n, h), ViewOf(b, b.K, x.w, n, h), ViewOf(b, b.V, x.u, n, h);
    forall k | 0 <= k < hd.K ensures E(x.s0[n][h], j, k) == E(x'.s0[n][h], j, k) {
      assert E4(x.s0, n, h, j, k) == E4(x'.s0, n, h, j, k);
    }
    forall c: nat
      ensures forall k: nat :: k < b.K ==>
        E(Carried(expo, b, BT, x, n, h, c), j, k) == E(Carried(expo, b, BT, x', n, h, c), j, k)
      ensures forall t: int :: ChunkDeltaH.NewAt(b.K, wv, uv, Carried(expo, b, BT, x, n, h, c), t, j)
                            == ChunkDeltaH.NewAt(b.K, wv, uv, Carried(expo, b, BT, x', n, h, c), t, j)
    {
      RowLocal(expo, hd, g, wv, uv, BT, x.s0[n][h], x'.s0[n][h], c, j);
    }
    forall t: nat | t < SeqLen(b, n) ensures Fresh(expo, b, BT, x, n, h, t, j) == Fresh(expo, b, BT, x', n, h, t, j) {
      assert Fresh(expo, b, BT, x, n, h, t, j)
          == ChunkDeltaH.NewAt(b.K, wv, uv, Carried(expo, b, BT, x, n, h, t / BT), t, j);
    }
  }

  ghost predicate HoldsStates(b: Batch, a: array4<real>, slots: nat)
    requires ValidBatch(b)
  {
    slots <= a.Length0 && a.Length1 == b.H && a.Length2 == b.V && a.Length3 == b.K
  }

  /** What the state kernel needs of its buffers. */
  ghost predicate StateBuffers(b: Batch, BT: nat, w: array3<real>, u: array3<real>, hs: array4<real>,
                               vNew: array3<real>,
                               h0: array4<real>, ht: array4<real>)
    requires ValidBatch(b) && BT > 0
  {
    && vNew != w && vNew != u && hs != h0 && hs != ht && b.K <= 256
    && Holds(b, w, b.K) && Holds(b, u, b.V) && Holds(b, vNew, b.V)
    && HoldsStates(b, hs, ChunkOffset(b, BT, Sequences(b))) && HoldsStates(b, h0, Sequences(b))
    && HoldsStates(b, ht, Sequences(b))
  }

  method RunState(expo: Expo, b: Batch, w: array3<real>, u: array3<real>, hs: array4<real>, vNew: array3<real>,
                  h0: array4<real>, ht: array4<real>, BT: nat, BV: nat, iV: nat, n: nat, h: nat)
    requires ValidBatch(b) && BT > 0 && StateBuffers(b, BT, w, u, hs, vNew, h0, ht) && n < Sequences(b) && h < b.H
    modifies hs, vNew, ht
    ensures forall j: nat :: j < b.V && InTile(BV, iV, j) ==>
      RowDone(expo, b, BT, Inputs(Cells(w), Cells(u), old(Cells4(h0))), Cells4(hs), Cells(vNew), Cells4(ht), n, h, j)
    ensures RowsKept(b, BT, BV, old(Cells4(hs)), Cells4(hs), old(Cells(vNew)), Cells(vNew), old(Cells4(ht)), Cells4(ht),
                     (iV, n, h))
  {
    hide E, HeadOf, SumsOf, ViewOf, View, StateView, ChunkDeltaH.StateBefore, ChunkDeltaH.NewValueAt;
    SlotsDisjoint(b, BT, n, Sequences(b));
    HeadShape(b, n, h);
    ViewIs(b, b.K, w, n, h);
    ViewIs(b, b.V, u, n, h);
    StateViewIs(h0, n, h);
    ghost var x := Inputs(Cells(w), Cells(u), Cells4(h0));
    ChunkDeltaH.Program(expo, HeadOf(b, n, h), SumsOf(b, n, h), w, u, hs, vNew, h0, ht, b.cu[n], ChunkOffset(b, BT, n),
                        n, h, iV, BT, BV);
    forall j: nat | j < b.V && InTile(BV, iV, j)
      ensures RowDone(expo, b, BT, x, Cells4(hs), Cells(vNew), Cells4(ht), n, h, j)
    {
      forall c: nat, k: nat | c < NumChunks(b, BT, n) && k < b.K
        ensures E4(Cells4(hs), ChunkOffset(b, BT, n) + c, h, j, k) == E(Carried(expo, b, BT, x, n, h, c), j, k)
      { assert In4(hs, ChunkOffset(b, BT, n) + c, h, j, k); }
      forall t: nat | t < SeqLen(b, n) ensures E3(Cells(vNew), b.cu[n] + t, h, j) == Fresh(expo, b, BT, x, n, h, t, j)
      { assert In3(vNew, b.cu[n] + t, h, j); }
      forall k: nat | k < b.K
        ensures E4(Cells4(ht), n, h, j, k) == E(Carried(expo, b, BT, x, n, h, NumChunks(b, BT, n)), j, k)
      { assert In4(ht, n, h, j, k); }
    }
  }

  /** A schedule of the state grid: each program at most once. */
  ghost predicate StateGrid(b: Batch, order: seq<StatePid>)
    requires ValidBatch(b)
  {
    && (forall p :: p in order ==> p.1 < Sequences(b) && p.2 < b.H)
    && (forall x, y :: 0 <= x < y < |order| ==> order[x] != order[y])
  }

  /** Row j of head h of sequence n belongs to a program of the schedule. */
  ghost predicate RowScheduled(BV: nat, order: seq<StatePid>, n: nat, h: nat, j: nat)
    requires BV > 0
  {
    (j / BV, n, h) in order
  }

  lemma TileOfRow(BV: nat, iV: nat, j: nat)
    requires BV > 0
    ensures InTile(BV, iV, j) <==> j / BV == iV
  {
    if InTile(BV, iV, j) { ChunkOf(BV, iV, j); }
    assert j == (j / BV) * BV + j % BV;
  }

  ghost predicate InitialRow(b: Batch, x: Inputs, now: States, n: nat, h: nat, j: nat) {
    forall k: nat :: k < b.K ==> E4(now, n, h, j, k) == E4(x.s0, n, h, j, k)
  }

  lemma InitialKept(b: Batch, BT: nat, BV: nat, x: Inputs, hs: States, hs': States, vn: Cube, vn': Cube, ht: States,
                    ht': States,
                    p: StatePid, n: nat, h: nat, j: nat)
    requires ValidBatch(b) && BT > 0 && p.1 < Sequences(b) && RowsKept(b, BT, BV, hs, hs', vn, vn', ht, ht', p)
    requires InitialRow(b, x, ht, n, h, j) && !(InTile(BV, p.0, j) && n == p.1 && h == p.2)
    ensures InitialRow(b, x, ht', n, h, j)
  {
    hide E4;
    forall k: nat | k < b.K ensures E4(ht', n, h, j, k) == E4(x.s0, n, h, j, k) {
      assert E4(ht', n, h, j, k) == E4(ht, n, h, j, k);
    }
  }

  method LaunchState(expo: Expo, b: Batch, w: array3<real>, u: array3<real>, hs: array4<real>, vNew: array3<real>,
                     h0: array4<real>, ht: array4<real>, BT: nat, BV: nat, order: seq<StatePid>)
    requires ValidBatch(b) && BT > 0 && BV > 0 && StateBuffers(b, BT, w, u, hs, vNew, h0, ht) && StateGrid(b, order)
    modifies hs, vNew, ht
    ensures forall n: nat, h: nat, j: nat ::
      n < Sequences(b) && h < b.H && j < b.V && RowScheduled(BV, order, n, h, j) ==>
      RowDone(expo, b, BT, Inputs(Cells(w), Cells(u), old(Cells4(h0))), Cells4(hs), Cells(vNew), Cells4(ht), n, h, j)
  {
    hide RowDone, RowsKept, InTile, InitialRow, HeadOf;
    ghost var x := Inputs(Cells(w), Cells(u), Cells4(h0));
    assert forall n: nat, h: nat, j: nat :: InitialRow(b, x, Cells4(h0), n, h, j) by { Unchanged(b, x); }
    for y := 0 to |order|
      modifies hs, vNew, ht
      invariant forall n: nat, h: nat, j: nat ::
        n < Sequences(b) && h < b.H && j < b.V && RowScheduled(BV, order[..y], n, h, j) ==>
        RowDone(expo, b, BT, x, Cells4(hs), Cells(vNew), Cells4(ht), n, h, j)
      invariant forall n: nat, h: nat, j: nat ::
        n < Sequences(b) && h < b.H && j < b.V && !RowScheduled(BV, order[..y], n, h, j) ==>
        InitialRow(b, x, Cells4(h0), n, h, j)
    {
      var (iV, n, h) := order[y];
      assert order[y] in order && order[..y + 1] == order[..y] + [(iV, n, h)];
      ghost var now := Inputs(Cells(w), Cells(u), Cells4(h0));
      ghost var hs0, vn0, ht0 := Cells4(hs), Cells(vNew), Cells4(ht);
      RunState(expo, b, w, u, hs, vNew, h0, ht, BT, BV, iV, n, h);
      forall n': nat, h': nat, j: nat | n' < Sequences(b) && h' < b.H && j < b.V
        ensures RowScheduled(BV, order[..y + 1], n', h', j) ==>
          RowDone(expo, b, BT, x, Cells4(hs), Cells(vNew), Cells4(ht), n', h', j)
        ensures !RowScheduled(BV, order[..y + 1], n', h', j) ==> InitialRow(b, x, Cells4(h0), n', h', j)
      {
        TileOfRow(BV, iV, j);
        if n' == n && h' == h && j / BV == iV {
          assert (iV, n, h) !in order[..y];
          FinishRow(expo, b, BT, now, x, Cells4(hs), Cells(vNew), Cells4(ht), n, h, j);
        } else {
          if RowScheduled(BV, order[..y], n', h', j) {
            RowKept(expo, b, BT, BV, x, hs0, Cells4(hs), vn0, Cells(vNew), ht0, Cells4(ht), (iV, n, h), n', h', j);
          } else if h0 == ht {
            InitialKept(b, BT, BV, x, hs0, Cells4(hs), vn0, Cells(vNew), ht0, Cells4(ht), (iV, n, h), n', h', j);
          }
        }
      }
    }
    assert order[..|order|] == order;
  }

  lemma Unchanged(b: Batch, x: Inputs)
    ensures forall n: nat, h: nat, j: nat :: InitialRow(b, x, x.s0, n, h, j)
  {
  }

  lemma FinishRow(expo: Expo, b: Batch, BT: nat, now: Inputs, x: Inputs, hs: States, vn: Cube, ht: States, n: nat,
                  h: nat, j: nat)
    requires ValidBatch(b) && BT > 0 && n < Sequences(b) && h < b.H && j < b.V
    requires n < |x.s0| && h < |x.s0[n]| && n < |now.s0| && h < |now.s0[n]| && x.w == now.w && x.u == now.u
    requires InitialRow(b, x, now.s0, n, h, j) && RowDone(expo, b, BT, now, hs, vn, ht, n, h, j)
    ensures RowDone(expo, b, BT, x, hs, vn, ht, n, h, j)
  {
    hide RowDone, E4;
    RowDoneLocal(expo, b, BT, now, x, hs, vn, ht, n, h, j);
  }
}
