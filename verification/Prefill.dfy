/**
 The whole chunked prefill: five launches over a packed batch of sequences, checked against the
 token-by-token recurrence, and what that implies for resuming from a stored state.
 */
module Prefill {
  import opened Matrices
  import opened Recurrence
  import opened ChunkTheorem
  import opened Tiles
  import opened Buffers
  import opened Layout
  import opened Refinement
  import opened Launches
  import opened StateLaunch
  import ChunkDeltaH
  import ChunkO

  // ----- launch 5: outputs -----

  /** A program: value tile, global chunk index, head. */
  type OutPid = (nat, nat, nat)

  ghost function ChunkOutput(expo: Expo, b: Batch, scale: real, BT: nat, hs: States, vn: Cube, n: nat, c: nat, h: nat,
                             i: int, j: nat): real
    requires ValidBatch(b) && BT > 0 && IsChunk(b, BT, n, c)
    requires ChunkOffset(b, BT, n) + c < |hs| && h < |hs[ChunkOffset(b, BT, n) + c]|
  {
    ChunkO.OutputAt(expo, HeadOf(b, n, h), SumsOf(b, n, h), scale, BT, c * BT, hs[ChunkOffset(b, BT, n) + c][h],
                    ViewOf(b, b.V, vn, n, h), i, j)
  }

  ghost predicate OutDone(expo: Expo, b: Batch, scale: real, BT: nat, hs: States, vn: Cube, o: Cube, n: nat, c: nat,
                          h: nat, j: nat)
    requires ValidBatch(b) && BT > 0 && IsChunk(b, BT, n, c)
    requires ChunkOffset(b, BT, n) + c < |hs| && h < |hs[ChunkOffset(b, BT, n) + c]|
  {
    forall t :: InChunk(b, BT, n, c, t) ==>
      E3(o, t, h, j) == ChunkOutput(expo, b, scale, BT, hs, vn, n, c, h, t - ChunkStart(b, BT, n, c), j)
  }

  ghost predicate OutKept(b: Batch, BT: nat, BV: nat, o: Cube, o': Cube, iV: nat, n: nat, c: nat, h: nat)
    requires ValidBatch(b) && n < Sequences(b)
  {
    forall t, hh, j :: !(hh == h && InChunk(b, BT, n, c, t) && InTile(BV, iV, j)) ==>
      E3(o', t, hh, j) == E3(o, t, hh, j)
  }

  method RunOut(expo: Expo, b: Batch, scale: real, vNew: array3<real>, hs: array4<real>, o: array3<real>, BT: nat,
                BK: nat, BV: nat,
                iV: nat, n: nat, c: nat, h: nat)
    requires ValidBatch(b) && BT > 0 && BK > 0 && BV > 0 && o != vNew && Holds(b, vNew, b.V) && Holds(b, o, b.V)
    requires HoldsStates(b, hs, ChunkOffset(b, BT, Sequences(b))) && IsChunk(b, BT, n, c) && h < b.H
    modifies o
    ensures ChunkOffset(b, BT, n) + c < hs.Length0
    ensures forall j: nat :: j < b.V && InTile(BV, iV, j) ==>
      OutDone(expo, b, scale, BT, Cells4(hs), Cells(vNew), Cells(o), n, c, h, j)
    ensures OutKept(b, BT, BV, old(Cells(o)), Cells(o), iV, n, c, h)
  {
    hide E, HeadOf, SumsOf, ViewOf, View, StateView, ChunkO.OutputAt, Cells, Cells4, ChunkOffset, IsExp, E3;
    SlotsDisjoint(b, BT, n, Sequences(b));
    ChunkStarts(SeqLen(b, n), BT, c);
    HeadShape(b, n, h);
    ghost var slot := ChunkOffset(b, BT, n) + c;
    ViewIs(b, b.V, vNew, n, h);
    StateViewIs(hs, slot, h);
    ghost var was := Cells(o);
    ChunkO.Program(expo, HeadOf(b, n, h), SumsOf(b, n, h), scale, vNew, hs, o, b.cu[n], ChunkOffset(b, BT, n) + c, h,
                   iV, c, BT, BK, BV);
    assert OutKept(b, BT, BV, was, Cells(o), iV, n, c, h);
    forall j: nat | j < b.V && InTile(BV, iV, j)
      ensures OutDone(expo, b, scale, BT, Cells4(hs), Cells(vNew), Cells(o), n, c, h, j)
    {
      forall t | InChunk(b, BT, n, c, t)
        ensures E3(Cells(o), t, h, j)
             == ChunkOutput(expo, b, scale, BT, Cells4(hs), Cells(vNew), n, c, h, t - ChunkStart(b, BT, n, c), j)
      {
        assert In3(o, t, h, j);
      }
    }
  }

  ghost predicate OutGrid(b: Batch, BT: nat, order: seq<OutPid>)
    requires ValidBatch(b) && BT > 0
  {
    forall p :: p in order ==> p.1 < |ChunkIndices(b, BT, Sequences(b))| && p.2 < b.H
  }

  ghost predicate OutScheduled(b: Batch, BT: nat, BV: nat, order: seq<OutPid>, n: nat, c: nat, h: nat, j: nat)
    requires ValidBatch(b) && BT > 0 && BV > 0
  {
    IsChunk(b, BT, n, c) && h < b.H && j < b.V && (j / BV, ChunkOffset(b, BT, n) + c, h) in order
  }

  lemma OutStep(expo: Expo, b: Batch, scale: real, BT: nat, BV: nat, hs: States, vn: Cube, o: Cube, o': Cube, iV: nat,
                n: nat, c: nat, h: nat, n': nat, c': nat, h': nat, j: nat)
    requires ValidBatch(b) && BT > 0 && BV > 0 && IsChunk(b, BT, n, c) && IsChunk(b, BT, n', c')
    requires ChunkOffset(b, BT, n') + c' < |hs| && h' < |hs[ChunkOffset(b, BT, n') + c']|
    requires !(n' == n && c' == c && h' == h && j / BV == iV)
    ensures OutKept(b, BT, BV, o, o', iV, n, c, h) && OutDone(expo, b, scale, BT, hs, vn, o, n', c', h', j) ==>
      OutDone(expo, b, scale, BT, hs, vn, o', n', c', h', j)
  {
    hide ChunkOutput, E3;
    TileOfRow(BV, iV, j);
    if OutKept(b, BT, BV, o, o', iV, n, c, h) {
      forall t | InChunk(b, BT, n', c', t) ensures E3(o', t, h', j) == E3(o, t, h', j) {
        if h == h' && InChunk(b, BT, n, c, t) { OneChunk(b, BT, n, c, n', c', t); }
      }
    }
  }

  lemma OutScheduledNext(b: Batch, BT: nat, BV: nat, order: seq<OutPid>, iV: nat, n: nat, c: nat, h: nat,
                         n': nat, c': nat, h': nat, j: nat)
    requires ValidBatch(b) && BT > 0 && BV > 0 && IsChunk(b, BT, n, c)
    ensures OutScheduled(b, BT, BV, order + [(iV, ChunkOffset(b, BT, n) + c, h)], n', c', h', j) ==>
      && (OutScheduled(b, BT, BV, order, n', c', h', j) || (n' == n && c' == c && h' == h && j / BV == iV))
      && ChunkOffset(b, BT, n') + c' < ChunkOffset(b, BT, Sequences(b))
  {
    hide ChunkIndices, NumChunks;
    ChunkListed(b, BT, Sequences(b), n, c);
    if OutScheduled(b, BT, BV, order + [(iV, ChunkOffset(b, BT, n) + c, h)], n', c', h', j) {
      ChunkListed(b, BT, Sequences(b), n', c');
    }
  }

  lemma OutScheduledNone(b: Batch, BT: nat, BV: nat)
    requires ValidBatch(b) && BT > 0 && BV > 0
    ensures forall n: nat, c: nat, h: nat, j: nat :: !OutScheduled(b, BT, BV, [], n, c, h, j)
  {
  }

  lemma OutScheduledChunk(b: Batch, BT: nat, BV: nat, order: seq<OutPid>)
    requires ValidBatch(b) && BT > 0 && BV > 0
    ensures forall n: nat, c: nat, h: nat, j: nat :: OutScheduled(b, BT, BV, order, n, c, h, j) ==>
      IsChunk(b, BT, n, c) && h < b.H && j < b.V
  {
  }

  method LaunchOut(expo: Expo, b: Batch, scale: real, vNew: array3<real>, hs: array4<real>, o: array3<real>, BT: nat,
                   BK: nat, BV: nat,
                   order: seq<OutPid>)
    requires ValidBatch(b) && BT > 0 && BK > 0 && BV > 0 && o != vNew && Holds(b, vNew, b.V) && Holds(b, o, b.V)
    requires HoldsStates(b, hs, ChunkOffset(b, BT, Sequences(b))) && OutGrid(b, BT, order)
    modifies o
    ensures forall n: nat, c: nat, h: nat, j: nat :: OutScheduled(b, BT, BV, order, n, c, h, j) ==>
      ChunkOffset(b, BT, n) + c < hs.Length0
      && OutDone(expo, b, scale, BT, Cells4(hs), Cells(vNew), Cells(o), n, c, h, j)
  {
    hide OutDone, OutKept, InTile, HeadOf, ChunkIndices, OutScheduled, ChunkOffset, NumChunks;
    OutScheduledNone(b, BT, BV);
    for x := 0 to |order|
      modifies o
      invariant forall n: nat, c: nat, h: nat, j: nat :: OutScheduled(b, BT, BV, order[..x], n, c, h, j) ==>
        IsChunk(b, BT, n, c) && h < b.H && ChunkOffset(b, BT, n) + c < hs.Length0
        && OutDone(expo, b, scale, BT, Cells4(hs), Cells(vNew), Cells(o), n, c, h, j)
    {
      var (iV, i, h) := order[x];
      assert order[x] in order && order[..x + 1] == order[..x] + [(iV, i, h)];
      OnlyChunksListed(b, BT, Sequences(b), i);
      var (n, c) := ChunkIndices(b, BT, Sequences(b))[i];
      ghost var before := Cells(o);
      RunOut(expo, b, scale, vNew, hs, o, BT, BK, BV, iV, n, c, h);
      ghost var sofar := order[..x + 1];
      OutScheduledChunk(b, BT, BV, sofar);
      forall n': nat, c': nat, h': nat, j: nat | OutScheduled(b, BT, BV, sofar, n', c', h', j)
        ensures IsChunk(b, BT, n', c') && h' < b.H && ChunkOffset(b, BT, n') + c' < hs.Length0
        ensures OutDone(expo, b, scale, BT, Cells4(hs), Cells(vNew), Cells(o), n', c', h', j)
      {
        OutScheduledNext(b, BT, BV, order[..x], iV, n, c, h, n', c', h', j);
        TileOfRow(BV, iV, j);
        if !(n' == n && c' == c && h' == h && j / BV == iV) {
          OutStep(expo, b, scale, BT, BV, Cells4(hs), Cells(vNew), before, Cells(o), iV, n, c, h, n', c', h', j);
        }
      }
    }
    OutScheduledChunk(b, BT, BV, order);
    assert order[..|order|] == order;
  }

  // ----- the five launches together -----

  /** w and u of one head satisfy the chunk equations once the first three launches are done. */
  lemma WUHolds(expo: Expo, b: Batch, m: nat, a: Cube, ai: Cube, w: Cube, u: Cube, n: nat, h: nat)
    requires ValidBatch(b) && m > 0 && n < Sequences(b) && h < b.H
    requires forall c: nat :: IsChunk(b, 4 * m, n, c) ==>
      KktDone(expo, b, 4 * m, a, n, c, h) && TrilDone(b, m, a, ai, n, c, h) && WyDone(expo, b, 4 * m, ai, w, u, n, c, h)
    ensures WU(expo, HeadOf(b, n, h), SumsOf(b, n, h), 4 * m, ViewOf(b, b.K, w, n, h), ViewOf(b, b.V, u, n, h))
  {
    hide KktDone, TrilDone, WyDone, ChunkWU;
    var hd, g := HeadOf(b, n, h), SumsOf(b, n, h);
    forall c: nat | c * (4 * m) < hd.T
      ensures exists t :: ChunkWU(expo, hd, g, 4 * m, ViewOf(b, b.K, w, n, h), ViewOf(b, b.V, u, n, h), c, t)
    {
      ChunkCounted(b, 4 * m, n, c);
      ChunkWUHolds(expo, b, m, a, ai, w, u, n, c, h);
    }
  }

  lemma ChunkCounted(b: Batch, BT: nat, n: nat, c: nat)
    requires ValidBatch(b) && BT > 0 && n < Sequences(b) && c * BT < SeqLen(b, n)
    ensures IsChunk(b, BT, n, c)
  {
    CdivCovers(SeqLen(b, n), BT);
    if c >= NumChunks(b, BT, n) {
      if c > NumChunks(b, BT, n) { ChunkGap(BT, NumChunks(b, BT, n), c); }
      assert false;
    }
  }

  lemma ChunkWUHolds(expo: Expo, b: Batch, m: nat, a: Cube, ai: Cube, w: Cube, u: Cube, n: nat, c: nat, h: nat)
    requires ValidBatch(b) && m > 0 && IsChunk(b, 4 * m, n, c)
    requires KktDone(expo, b, 4 * m, a, n, c, h) && TrilDone(b, m, a, ai, n, c, h)
    requires WyDone(expo, b, 4 * m, ai, w, u, n, c, h)
    ensures ChunkWU(expo, HeadOf(b, n, h), SumsOf(b, n, h), 4 * m, ViewOf(b, b.K, w, n, h), ViewOf(b, b.V, u, n, h),
                    c, TileOf(b, 4 * m, 4 * m, ai, n, c, h))
  {
    hide HeadOf, SumsOf, ChunkA, ScaledKeys, ScaledValues, InvertsRows, E, TileOf, ViewOf, Mul, RowCol;
    HeadShape(b, n, h);
    var BT, r0, L := 4 * m, c * (4 * m), ChunkRows(b, 4 * m, n, c);
    var hd, g, t := HeadOf(b, n, h), SumsOf(b, n, h), TileOf(b, BT, BT, ai, n, c, h);
    var vals, keys := ScaledValues(hd, r0, BT), ScaledKeys(expo, hd, g, r0, BT);
    forall i, j | 0 <= i < L && 0 <= j < hd.V
      ensures E(ViewOf(b, b.V, u, n, h), r0 + i, j) == RowCol(BT, t, vals, i, j)
    {
      RowOfTile(b, BT, b.V, u, n, c, h, i, j);
      MulEntry(BT, BT, b.V, t, vals, i, j);
    }
    forall i, j | 0 <= i < L && 0 <= j < hd.K
      ensures E(ViewOf(b, b.K, w, n, h), r0 + i, j) == RowCol(BT, t, keys, i, j)
    {
      RowOfTile(b, BT, b.K, w, n, c, h, i, j);
      MulEntry(BT, BT, b.K, t, keys, i, j);
    }
  }

  lemma RowOfTile(b: Batch, BT: nat, C: nat, x: Cube, n: nat, c: nat, h: nat, i: nat, j: nat)
    requires ValidBatch(b) && n < Sequences(b) && i < ChunkRows(b, BT, n, c) && j < C
    ensures E(ViewOf(b, C, x, n, h), c * BT + i, j) == E(TileOf(b, BT, C, x, n, c, h), i, j)
  {
    hide E3;
    var t := c * BT + i;
    assert b.cu[n] + t == ChunkStart(b, BT, n, c) + i && i < BT && t < SeqLen(b, n);
    ViewOfAt(b, C, x, n, h, t, j);
    TileOfAt(b, BT, C, x, n, c, h, i, j);
  }

  lemma ViewOfAt(b: Batch, C: nat, x: Cube, n: nat, h: nat, t: nat, j: nat)
    requires ValidBatch(b) && n < Sequences(b) && t < SeqLen(b, n) && j < C
    ensures E(ViewOf(b, C, x, n, h), t, j) == E3(x, b.cu[n] + t, h, j)
  {
    hide E, E3;
  }

  lemma TileOfAt(b: Batch, BT: nat, C: nat, x: Cube, n: nat, c: nat, h: nat, i: nat, j: nat)
    requires ValidBatch(b) && n < Sequences(b) && i < BT && j < C && ChunkStart(b, BT, n, c) + i < b.cu[n + 1]
    ensures E(TileOf(b, BT, C, x, n, c, h), i, j) == E3(x, ChunkStart(b, BT, n, c) + i, h, j)
  {
    hide E, E3;
  }

  /** The gate kernel ran: g holds the per-chunk running sums of the log decays. */
  ghost predicate GatesSummed(b: Batch, BT: nat)
    requires ValidBatch(b)
  {
    forall n: nat, h: nat :: n < Sequences(b) && h < b.H ==> ChunkCumulative(HeadOf(b, n, h), SumsOf(b, n, h), BT)
  }

  /** What the row lemmas below assume of one head of one sequence. */
  ghost predicate HeadReady(expo: Expo, b: Batch, BT: nat, x: Inputs, n: nat, h: nat)
    requires ValidBatch(b)
  {
    && IsExp(expo) && BT > 0 && n < Sequences(b) && h < b.H && n < |x.s0| && h < |x.s0[n]|
    && ChunkCumulative(HeadOf(b, n, h), SumsOf(b, n, h), BT)
    && WU(expo, HeadOf(b, n, h), SumsOf(b, n, h), BT, ViewOf(b, b.K, x.w, n, h), ViewOf(b, b.V, x.u, n, h))
  }

  /** Row j of head h of sequence n of the recurrence run from the initial states. */
  ghost function RunRow(expo: Expo, b: Batch, s0: States, n: nat, h: nat, j: nat, t: nat): Vec
    requires ValidBatch(b) && n < Sequences(b) && n < |s0| && h < |s0[n]|
  {
    RowState(expo, HeadOf(b, n, h), j, Row(s0[n][h], j), t)
  }

  lemma CarriedIsRun(expo: Expo, b: Batch, BT: nat, x: Inputs, n: nat, h: nat, j: nat, c: nat)
    requires ValidBatch(b) && HeadReady(expo, b, BT, x, n, h) && j < b.V && c <= NumChunks(b, BT, n)
    ensures IsRow(b.K, Carried(expo, b, BT, x, n, h, c), j,
                  RunRow(expo, b, x.s0, n, h, j, Consumed(SeqLen(b, n), BT, c)))
    ensures c < NumChunks(b, BT, n) ==> Consumed(SeqLen(b, n), BT, c) == c * BT
    ensures c == NumChunks(b, BT, n) ==> Consumed(SeqLen(b, n), BT, c) == SeqLen(b, n)
  {
    hide E, At, HeadOf, SumsOf, ViewOf, WU, RowState, Row, ChunkCumulative, ChunkDeltaH.StateBefore;
    HeadShape(b, n, h);
    var s0 := x.s0[n][h];
    InitialIsRow(b.K, s0, j);
    StateIsRecurrence(expo, HeadOf(b, n, h), SumsOf(b, n, h), BT, ViewOf(b, b.K, x.w, n, h), ViewOf(b, b.V, x.u, n, h),
                      s0, Row(s0, j), c, j);
    CdivCovers(SeqLen(b, n), BT);
    if c < NumChunks(b, BT, n) { ChunkStarts(SeqLen(b, n), BT, c); }
  }

  lemma InitialIsRow(K: nat, s: Mat, j: nat)
    ensures IsRow(K, s, j, Row(s, j))
  {
  }

  lemma TokenIndex(BT: nat, t: nat, T: nat)
    requires BT > 0 && t < T
    ensures t == t / BT * BT + t % BT && t / BT * BT < T && t % BT < Rows(T, t / BT * BT, BT) <= BT
  {
  }

  lemma FreshIsUpdate(expo: Expo, b: Batch, BT: nat, x: Inputs, n: nat, h: nat, j: nat, t: nat)
    requires ValidBatch(b) && HeadReady(expo, b, BT, x, n, h) && j < b.V && t < SeqLen(b, n)
    ensures Fresh(expo, b, BT, x, n, h, t, j) == Update(expo, HeadOf(b, n, h), j, Row(x.s0[n][h], j), t)
  {
    hide E, At, HeadOf, SumsOf, ViewOf, WU, RowState, Row, Update, ChunkCumulative, ChunkDeltaH.StateBefore,
      ChunkDeltaH.NewAt, IsRow;
    SomeChunk(b, BT, n, t);
    TokenIndex(BT, t, SeqLen(b, n));
    var c, i := t / BT, t % BT;
    CarriedIsRun(expo, b, BT, x, n, h, j, c);
    HeadShape(b, n, h);
    NewAtIsUpdate(expo, HeadOf(b, n, h), SumsOf(b, n, h), BT, ViewOf(b, b.K, x.w, n, h), ViewOf(b, b.V, x.u, n, h), c,
                  Carried(expo, b, BT, x, n, h, c), Row(x.s0[n][h], j), i, j);
  }

  /** The trace of one row: snapshots, updates and final state. */
  ghost predicate RowIsTrace(expo: Expo, b: Batch, BT: nat, s0: States, hs: States, vn: Cube, ht: States, n: nat,
                             h: nat, j: nat)
    requires ValidBatch(b) && BT > 0 && n < Sequences(b) && n < |s0| && h < |s0[n]|
  {
    && (forall c: nat, k: nat :: IsChunk(b, BT, n, c) && k < b.K ==>
          E4(hs, ChunkOffset(b, BT, n) + c, h, j, k) == At(RunRow(expo, b, s0, n, h, j, c * BT), k))
    && (forall t: nat :: t < SeqLen(b, n) ==>
          E3(vn, b.cu[n] + t, h, j) == Update(expo, HeadOf(b, n, h), j, Row(s0[n][h], j), t))
    && (forall k: nat :: k < b.K ==> E4(ht, n, h, j, k) == At(RunRow(expo, b, s0, n, h, j, SeqLen(b, n)), k))
  }

  lemma RowTrace(expo: Expo, b: Batch, BT: nat, x: Inputs, hs: States, vn: Cube, ht: States, n: nat, h: nat, j: nat)
    requires ValidBatch(b) && HeadReady(expo, b, BT, x, n, h) && j < b.V && RowDone(expo, b, BT, x, hs, vn, ht, n, h, j)
    ensures RowIsTrace(expo, b, BT, x.s0, hs, vn, ht, n, h, j)
  {
    hide E, At, HeadOf, RunRow, Row, Update, E3, E4, WU, ChunkCumulative, IsExp, Carried, Fresh;
    forall c: nat, k: nat | IsChunk(b, BT, n, c) && k < b.K
      ensures E4(hs, ChunkOffset(b, BT, n) + c, h, j, k) == At(RunRow(expo, b, x.s0, n, h, j, c * BT), k)
    {
      CarriedIsRun(expo, b, BT, x, n, h, j, c);
    }
    forall t: nat | t < SeqLen(b, n)
      ensures E3(vn, b.cu[n] + t, h, j) == Update(expo, HeadOf(b, n, h), j, Row(x.s0[n][h], j), t)
    {
      FreshIsUpdate(expo, b, BT, x, n, h, j, t);
    }
    CarriedIsRun(expo, b, BT, x, n, h, j, NumChunks(b, BT, n));
  }

  /** The output of one token of one row. */
  lemma RowOutputs(expo: Expo, b: Batch, scale: real, BT: nat, x: Inputs, hs: States, vn: Cube, ht: States, o: Cube,
                   n: nat, h: nat, j: nat, t: nat)
    requires ValidBatch(b) && HeadReady(expo, b, BT, x, n, h) && j < b.V && t < SeqLen(b, n)
    requires IsChunk(b, BT, n, t / BT)
    requires ChunkOffset(b, BT, n) + t / BT < |hs| && h < |hs[ChunkOffset(b, BT, n) + t / BT]|
    requires OutDone(expo, b, scale, BT, hs, vn, o, n, t / BT, h, j)
    requires RowIsTrace(expo, b, BT, x.s0, hs, vn, ht, n, h, j)
    ensures E3(o, b.cu[n] + t, h, j) == Output(expo, HeadOf(b, n, h), scale, j, Row(x.s0[n][h], j), t)
  {
    hide E, At, HeadOf, SumsOf, ViewOf, RowState, Update, Row, E3, Output, ChunkCumulative, WU, ChunkO.OutputAt,
      RowIsTrace, OutDone,
      ChunkOffset, IsChunk, IsRow, Rows, IsExp;
    HeadShape(b, n, h);
    TokenIndex(BT, t, SeqLen(b, n));
    var c, i := t / BT, t % BT;
    var s, v, r := hs[ChunkOffset(b, BT, n) + c][h], ViewOf(b, b.V, vn, n, h), Row(x.s0[n][h], j);
    SnapshotRow(expo, b, BT, x.s0, hs, vn, ht, n, h, j, c);
    NewValuesRow(expo, b, BT, x.s0, hs, vn, ht, n, h, j);
    OutputIsRecurrence(expo, HeadOf(b, n, h), SumsOf(b, n, h), scale, BT, c, s, v, r, i, j);
    OutAt(expo, b, scale, BT, hs, vn, o, n, c, h, j, i);
  }

  lemma SnapshotRow(expo: Expo, b: Batch, BT: nat, s0: States, hs: States, vn: Cube, ht: States, n: nat, h: nat, j: nat,
                    c: nat)
    requires ValidBatch(b) && BT > 0 && n < Sequences(b) && n < |s0| && h < |s0[n]| && IsChunk(b, BT, n, c)
    requires ChunkOffset(b, BT, n) + c < |hs| && h < |hs[ChunkOffset(b, BT, n) + c]|
    requires RowIsTrace(expo, b, BT, s0, hs, vn, ht, n, h, j)
    ensures IsRow(b.K, hs[ChunkOffset(b, BT, n) + c][h], j,
                  RowState(expo, HeadOf(b, n, h), j, Row(s0[n][h], j), c * BT))
  {
    hide E, At, HeadOf, RowState, Row, Update, E3;
    assert RunRow(expo, b, s0, n, h, j, c * BT) == RowState(expo, HeadOf(b, n, h), j, Row(s0[n][h], j), c * BT);
    forall k | 0 <= k < b.K
      ensures E(hs[ChunkOffset(b, BT, n) + c][h], j, k) == At(RunRow(expo, b, s0, n, h, j, c * BT), k)
    {
      assert E4(hs, ChunkOffset(b, BT, n) + c, h, j, k) == E(hs[ChunkOffset(b, BT, n) + c][h], j, k);
    }
  }

  lemma NewValuesRow(expo: Expo, b: Batch, BT: nat, s0: States, hs: States, vn: Cube, ht: States, n: nat, h: nat,
                     j: nat)
    requires ValidBatch(b) && BT > 0 && n < Sequences(b) && n < |s0| && h < |s0[n]| && j < b.V
    requires RowIsTrace(expo, b, BT, s0, hs, vn, ht, n, h, j)
    ensures forall t :: 0 <= t < SeqLen(b, n) ==>
      E(ViewOf(b, b.V, vn, n, h), t, j) == Update(expo, HeadOf(b, n, h), j, Row(s0[n][h], j), t)
  {
    hide E, HeadOf, Row, Update, E3, ViewOf;
    forall t | 0 <= t < SeqLen(b, n)
      ensures E(ViewOf(b, b.V, vn, n, h), t, j) == Update(expo, HeadOf(b, n, h), j, Row(s0[n][h], j), t)
    {
      ViewOfAt(b, b.V, vn, n, h, t, j);
    }
  }

  lemma OutAt(expo: Expo, b: Batch, scale: real, BT: nat, hs: States, vn: Cube, o: Cube, n: nat, c: nat, h: nat, j: nat,
              i: nat)
    requires ValidBatch(b) && BT > 0 && IsChunk(b, BT, n, c) && i < BT && c * BT + i < SeqLen(b, n)
    requires ChunkOffset(b, BT, n) + c < |hs| && h < |hs[ChunkOffset(b, BT, n) + c]|
    requires OutDone(expo, b, scale, BT, hs, vn, o, n, c, h, j)
    ensures E3(o, b.cu[n] + (c * BT + i), h, j) == ChunkOutput(expo, b, scale, BT, hs, vn, n, c, h, i, j)
  {
    hide E3, ChunkOutput;
    assert InChunk(b, BT, n, c, b.cu[n] + (c * BT + i));
  }

  /** Schedules of the five launches. */
  datatype Schedules = Schedules(kkt: seq<ChunkPid>, tril: seq<ChunkPid>, wy: seq<ChunkPid>, state: seq<StatePid>,
                                 out: seq<OutPid>)

  /** Each kernel has its own channel and value tiles: the key product, w and u, the state, the outputs. */
  datatype Tiling = Tiling(kktBK: nat, wyBK: nat, wyBV: nat, stateBV: nat, outBK: nat, outBV: nat)

  predicate Tiled(z: Tiling) {
    z.kktBK > 0 && z.wyBK > 0 && z.wyBV > 0 && z.stateBV > 0 && z.outBK > 0 && z.outBV > 0
  }

  /** Each launch runs every program of its grid, in any order; the state programs once each. */
  ghost predicate FullSchedules(b: Batch, BT: nat, z: Tiling, s: Schedules)
    requires ValidBatch(b) && BT > 0 && Tiled(z)
  {
    && ChunkGrid(b, BT, s.kkt) && ChunkGrid(b, BT, s.tril) && ChunkGrid(b, BT, s.wy) && StateGrid(b, s.state)
    && OutGrid(b, BT, s.out)
    && (forall n: nat, c: nat, h: nat :: IsChunk(b, BT, n, c) && h < b.H ==>
          Scheduled(b, BT, s.kkt, n, c, h) && Scheduled(b, BT, s.tril, n, c, h) && Scheduled(b, BT, s.wy, n, c, h))
    && (forall n: nat, h: nat, j: nat :: n < Sequences(b) && h < b.H && j < b.V ==>
          RowScheduled(z.stateBV, s.state, n, h, j))
    && (forall n: nat, c: nat, h: nat, j: nat :: IsChunk(b, BT, n, c) && h < b.H && j < b.V ==>
          OutScheduled(b, BT, z.outBV, s.out, n, c, h, j))
  }

  /** The recurrence's results, row by row: the trace and the output of every token. */
  ghost predicate RowRefined(expo: Expo, b: Batch, scale: real, BT: nat, s0: States, hs: States, vn: Cube, ht: States,
                             o: Cube,
                             n: nat, h: nat, j: nat)
    requires ValidBatch(b) && BT > 0 && n < Sequences(b) && n < |s0| && h < |s0[n]|
  {
    && RowIsTrace(expo, b, BT, s0, hs, vn, ht, n, h, j)
    && forall t: nat :: t < SeqLen(b, n) ==>
          E3(o, b.cu[n] + t, h, j) == Output(expo, HeadOf(b, n, h), scale, j, Row(s0[n][h], j), t)
  }

  lemma RowRefines(expo: Expo, b: Batch, scale: real, BT: nat, x: Inputs, hs: States, vn: Cube, ht: States, o: Cube,
                   n: nat, h: nat, j: nat)
    requires ValidBatch(b) && HeadReady(expo, b, BT, x, n, h) && j < b.V && RowDone(expo, b, BT, x, hs, vn, ht, n, h, j)
    requires |hs| >= ChunkOffset(b, BT, Sequences(b)) && forall i :: 0 <= i < |hs| ==> |hs[i]| == b.H
    requires forall c: nat :: IsChunk(b, BT, n, c) && ChunkOffset(b, BT, n) + c < |hs| ==>
      OutDone(expo, b, scale, BT, hs, vn, o, n, c, h, j)
    ensures RowRefined(expo, b, scale, BT, x.s0, hs, vn, ht, o, n, h, j)
  {
    hide RowIsTrace, RowDone, OutDone, E3, Output, HeadOf, WU, ChunkCumulative, Row, IsExp, ChunkOffset, NumChunks;
    RowTrace(expo, b, BT, x, hs, vn, ht, n, h, j);
    SlotsDisjoint(b, BT, n, Sequences(b));
    forall t: nat | t < SeqLen(b, n)
      ensures E3(o, b.cu[n] + t, h, j) == Output(expo, HeadOf(b, n, h), scale, j, Row(x.s0[n][h], j), t)
    {
      SomeChunk(b, BT, n, t);
      RowOutputs(expo, b, scale, BT, x, hs, vn, ht, o, n, h, j, t);
    }
  }

  /** The prefill refines the recurrence, with each kernel's own tiles. The block of the triangular inverse
      is m, so a chunk has 4 m tokens. h0 and ht may be one buffer. */
  method Run(expo: Expo, b: Batch, scale: real, m: nat, z: Tiling, s: Schedules,
             A: array3<real>, Ai: array3<real>, w: array3<real>, u: array3<real>, hs: array4<real>, vNew: array3<real>,
             h0: array4<real>, ht: array4<real>, o: array3<real>)
    requires IsExp(expo) && ValidBatch(b) && m > 0 && Tiled(z) && FullSchedules(b, 4 * m, z, s) && GatesSummed(b, 4 * m)
    requires A != Ai && Ai != w && Ai != u && w != u && o != vNew
    requires Holds(b, A, 4 * m) && Holds(b, Ai, 4 * m) && Holds(b, o, b.V)
    requires StateBuffers(b, 4 * m, w, u, hs, vNew, h0, ht)
    requires forall n: nat, c: nat, h: nat :: IsChunk(b, 4 * m, n, c) && h < b.H ==>
      UpperClear(b, m, Cells(Ai), n, c, h)
    modifies A, Ai, w, u, hs, vNew, ht, o
    ensures forall n: nat, h: nat, j: nat :: n < Sequences(b) && h < b.H && j < b.V ==>
      RowRefined(expo, b, scale, 4 * m, old(Cells4(h0)), Cells4(hs), Cells(vNew), Cells4(ht), Cells(o), n, h, j)
  {
    hide KktDone, TrilDone, WyDone, UpperClear, LowerTile, RowDone, OutDone, HeadOf, SumsOf, RowRefined, Scheduled,
      RowScheduled, OutScheduled,
      ChunkGrid, StateGrid, OutGrid, ChunkCumulative, WU, IsExp, ChunkIndices, ChunkOffset, NumChunks;
    LaunchKkt(expo, b, A, 4 * m, z.kktBK, s.kkt);
    ghost var a := Cells(A);
    forall n: nat, c: nat, h: nat | IsChunk(b, 4 * m, n, c) && h < b.H
      ensures KktDone(expo, b, 4 * m, a, n, c, h) && LowerTile(b, m, a, n, c, h)
    {
      assert Scheduled(b, 4 * m, s.kkt, n, c, h);
      LowerFromKkt(expo, b, m, a, n, c, h);
    }
    LaunchTril(b, m, A, Ai, s.tril);
    ghost var ai := Cells(Ai);
    forall n: nat, c: nat, h: nat | IsChunk(b, 4 * m, n, c) && h < b.H ensures TrilDone(b, m, a, ai, n, c, h) {
      assert Scheduled(b, 4 * m, s.tril, n, c, h);
    }
    LaunchWy(expo, b, Ai, w, u, 4 * m, z.wyBK, z.wyBV, s.wy);
    ghost var x := Inputs(Cells(w), Cells(u), Cells4(h0));
    forall n: nat, c: nat, h: nat | IsChunk(b, 4 * m, n, c) && h < b.H
      ensures WyDone(expo, b, 4 * m, ai, x.w, x.u, n, c, h)
    {
      assert Scheduled(b, 4 * m, s.wy, n, c, h);
    }
    LaunchState(expo, b, w, u, hs, vNew, h0, ht, 4 * m, z.stateBV, s.state);
    LaunchOut(expo, b, scale, vNew, hs, o, 4 * m, z.outBK, z.outBV, s.out);
    forall n: nat, h: nat, j: nat | n < Sequences(b) && h < b.H && j < b.V
      ensures RowRefined(expo, b, scale, 4 * m, x.s0, Cells4(hs), Cells(vNew), Cells4(ht), Cells(o), n, h, j)
    {
      Ready(expo, b, m, a, ai, x, n, h);
      assert RowScheduled(z.stateBV, s.state, n, h, j);
      RowRefines(expo, b, scale, 4 * m, x, Cells4(hs), Cells(vNew), Cells4(ht), Cells(o), n, h, j);
    }
  }

  lemma LowerFromKkt(expo: Expo, b: Batch, m: nat, a: Cube, n: nat, c: nat, h: nat)
    requires ValidBatch(b) && m > 0 && IsChunk(b, 4 * m, n, c)
    ensures KktDone(expo, b, 4 * m, a, n, c, h) ==> LowerTile(b, m, a, n, c, h)
  {
    hide TileOf, Expected;
    ExpectedLower(expo, b, 4 * m, n, c, h);
  }

  lemma Ready(expo: Expo, b: Batch, m: nat, a: Cube, ai: Cube, x: Inputs, n: nat, h: nat)
    requires IsExp(expo) && ValidBatch(b) && m > 0 && n < Sequences(b) && h < b.H && n < |x.s0| && h < |x.s0[n]|
    requires GatesSummed(b, 4 * m)
    requires forall c: nat :: IsChunk(b, 4 * m, n, c) ==>
      KktDone(expo, b, 4 * m, a, n, c, h) && TrilDone(b, m, a, ai, n, c, h)
      && WyDone(expo, b, 4 * m, ai, x.w, x.u, n, c, h)
    ensures HeadReady(expo, b, 4 * m, x, n, h)
  {
    hide KktDone, TrilDone, WyDone, HeadOf, SumsOf, ViewOf, WU, ChunkCumulative;
    WUHolds(expo, b, m, a, ai, x.w, x.u, n, h);
  }
}
