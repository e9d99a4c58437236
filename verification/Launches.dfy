/**
 The launches of the three kernels that prepare w and u, over a packed batch. A launch runs the
 programs of its grid in an arbitrary order; each finishes its own chunk and keeps what others have
 finished. What a buffer holds is stated on `Cells`, its contents as a value.
 */
module Launches {
  import opened Sums
  import opened Matrices
  import opened Recurrence
  import opened ChunkTheorem
  import opened Tiles
  import opened TriangularInverse
  import opened Buffers
  import opened Layout
  import opened Refinement
  import ChunkScaledDotKkt
  import SolveTril
  import WyFast

  /** A program of the chunk grids: its global chunk index and its head. */
  type ChunkPid = (nat, nat)

  /** A schedule of the chunk grid: programs of the grid in any order. */
  ghost predicate ChunkGrid(b: Batch, BT: nat, order: seq<ChunkPid>)
    requires ValidBatch(b) && BT > 0
  {
    forall p :: p in order ==> p.0 < |ChunkIndices(b, BT, Sequences(b))| && p.1 < b.H
  }

  /** The program of chunk c of sequence n and head h is in the schedule. */
  ghost predicate Scheduled(b: Batch, BT: nat, order: seq<ChunkPid>, n: nat, c: nat, h: nat)
    requires ValidBatch(b) && BT > 0
  {
    IsChunk(b, BT, n, c) && h < b.H && (ChunkOffset(b, BT, n) + c, h) in order
  }

  /** Scheduling one more program, of chunk c of sequence n and head h, adds just its own chunk. */
  lemma ScheduledNext(b: Batch, BT: nat, order: seq<ChunkPid>, n: nat, c: nat, h: nat, n': nat, c': nat, h': nat)
    requires ValidBatch(b) && BT > 0 && IsChunk(b, BT, n, c)
    ensures Scheduled(b, BT, order + [(ChunkOffset(b, BT, n) + c, h)], n', c', h') ==>
      Scheduled(b, BT, order, n', c', h') || (n' == n && c' == c && h' == h)
  {
    if IsChunk(b, BT, n', c') {
      ChunkListed(b, BT, Sequences(b), n, c);
      ChunkListed(b, BT, Sequences(b), n', c');
    }
  }

  /** A [token, head, C] buffer large enough for the batch. */
  ghost predicate Holds(b: Batch, a: array3<real>, C: nat)
    requires ValidBatch(b)
  {
    (forall i :: 0 <= i < |b.cu| ==> b.cu[i] <= a.Length0) && a.Length1 == b.H && a.Length2 == C
  }

  // ----- contents as values -----

  ghost function Cells(a: array3<real>): (r: Cube)
    reads a
    ensures forall t, h, j {:trigger E3(r, t, h, j)} :: E3(r, t, h, j) == if In3(a, t, h, j) then a[t, h, j] else 0.0
  {
    seq(a.Length0, t requires 0 <= t < a.Length0 reads a =>
      seq(a.Length1, h requires 0 <= h < a.Length1 reads a =>
        seq(a.Length2, j requires 0 <= j < a.Length2 reads a => a[t, h, j])))
  }

  /** The rows of chunk c of sequence n, head h, C columns wide; zero past the end of the sequence. */
  ghost function TileOf(b: Batch, BT: nat, C: nat, x: Cube, n: nat, c: nat, h: nat): (r: Mat)
    requires ValidBatch(b) && n < Sequences(b)
  {
    var start := ChunkStart(b, BT, n, c);
    Tab(BT, C, (i, j) => if start + i < b.cu[n + 1] then E3(x, start + i, h, j) else 0.0)
  }

  /** The two contents differ at most in the rows of one chunk and head. */
  ghost predicate Kept(b: Batch, BT: nat, x: Cube, y: Cube, n: nat, c: nat, h: nat)
    requires ValidBatch(b) && n < Sequences(b)
  {
    forall t, hh, j :: !(hh == h && InChunk(b, BT, n, c, t)) ==> E3(y, t, hh, j) == E3(x, t, hh, j)
  }

  /** Storing into one chunk leaves every other chunk's tile as it was. */
  lemma TileKept(b: Batch, BT: nat, C: nat, x: Cube, y: Cube, n: nat, c: nat, h: nat, n': nat, c': nat, h': nat)
    requires ValidBatch(b) && n < Sequences(b) && n' < Sequences(b) && Kept(b, BT, x, y, n, c, h)
    requires !(n' == n && c' == c && h' == h)
    ensures TileOf(b, BT, C, y, n', c', h') == TileOf(b, BT, C, x, n', c', h')
  {
    var p, q := TileOf(b, BT, C, y, n', c', h'), TileOf(b, BT, C, x, n', c', h');
    forall i, j | 0 <= i < BT && 0 <= j < C ensures E(p, i, j) == E(q, i, j) {
      var t := ChunkStart(b, BT, n', c') + i;
      if t < b.cu[n' + 1] && h == h' && InChunk(b, BT, n, c, t) {
        OneChunk(b, BT, n, c, n', c', t);
      }
    }
    MatExt(p, q, BT, C);
  }

  /** A block load of a chunk through the strided view is the chunk's tile. */
  lemma LoadIsTile(b: Batch, BT: nat, C: nat, a: array3<real>, n: nat, c: nat, h: nat)
    requires ValidBatch(b) && n < Sequences(b) && h < b.H && Holds(b, a, C)
    ensures Load(BT, C, View(a, b.cu[n], SeqLen(b, n), h), c * BT, 0) == TileOf(b, BT, C, Cells(a), n, c, h)
  {
    var v, x := View(a, b.cu[n], SeqLen(b, n), h), Cells(a);
    var p, q := Load(BT, C, v, c * BT, 0), TileOf(b, BT, C, x, n, c, h);
    forall i, j | 0 <= i < BT && 0 <= j < C ensures E(p, i, j) == E(q, i, j) {
      LoadAt(BT, C, v, c * BT, 0, i, j);
      ViewEntry(b, C, a, n, h, c * BT + i, j);
    }
    MatExt(p, q, BT, C);
  }

  lemma ViewEntry(b: Batch, C: nat, a: array3<real>, n: nat, h: nat, t: nat, j: nat)
    requires ValidBatch(b) && n < Sequences(b) && h < b.H && Holds(b, a, C) && j < C
    ensures E(View(a, b.cu[n], SeqLen(b, n), h), t, j)
         == if t < SeqLen(b, n) then E3(Cells(a), b.cu[n] + t, h, j) else 0.0
  {
    assert In3(a, b.cu[n] + t, h, j) <==> b.cu[n] + t < a.Length0;
  }

  // ----- launch 1: A -----

  /** Rows of chunk c inside sequence n. */
  function ChunkRows(b: Batch, BT: nat, n: nat, c: nat): int
    requires ValidBatch(b) && n < Sequences(b)
  {
    Rows(SeqLen(b, n), c * BT, BT)
  }

  function Expected(expo: Expo, b: Batch, BT: nat, n: nat, c: nat, h: nat): Mat
    requires ValidBatch(b) && n < Sequences(b)
  {
    ChunkA(expo, HeadOf(b, n, h), SumsOf(b, n, h), c * BT, ChunkRows(b, BT, n, c), BT)
  }

  ghost predicate KktDone(expo: Expo, b: Batch, BT: nat, x: Cube, n: nat, c: nat, h: nat)
    requires ValidBatch(b) && n < Sequences(b)
  {
    TileOf(b, BT, BT, x, n, c, h) == Expected(expo, b, BT, n, c, h)
  }

  lemma ChunkAOutside(expo: Expo, hd: Head, g: Vec, r0: nat, L: int, BT: nat, i: nat, j: nat)
    requires i < BT && j < BT && (L <= i || i <= j)
    ensures E(ChunkA(expo, hd, g, r0, L, BT), i, j) == 0.0
  {
  }

  lemma ChunkADim(expo: Expo, hd: Head, g: Vec, r0: nat, L: int, BT: nat)
    ensures Dim(ChunkA(expo, hd, g, r0, L, BT), BT, BT)
  {
  }

  /** A buffer whose rows of the chunk hold the first rows of w holds the tile w. */
  lemma TileFromRows(b: Batch, BT: nat, C: nat, x: Cube, n: nat, c: nat, h: nat, w: Mat)
    requires ValidBatch(b) && n < Sequences(b) && Dim(w, BT, C)
    requires forall t, j :: InChunk(b, BT, n, c, t) && 0 <= j < C ==>
      E3(x, t, h, j) == E(w, t - ChunkStart(b, BT, n, c), j)
    requires forall i, j :: ChunkRows(b, BT, n, c) <= i < BT && 0 <= i && 0 <= j < C ==> E(w, i, j) == 0.0
    ensures TileOf(b, BT, C, x, n, c, h) == w
  {
    var p := TileOf(b, BT, C, x, n, c, h);
    forall i, j | 0 <= i < BT && 0 <= j < C ensures E(p, i, j) == E(w, i, j) {
      var t := ChunkStart(b, BT, n, c) + i;
      if t < b.cu[n + 1] { assert InChunk(b, BT, n, c, t); }
    }
    MatExt(p, w, BT, C);
  }

  /** One program: it finishes its own chunk and touches nothing else. */
  method RunKkt(expo: Expo, b: Batch, A: array3<real>, BT: nat, BK: nat, n: nat, c: nat, h: nat)
    requires ValidBatch(b) && BT > 0 && BK > 0 && Holds(b, A, BT) && IsChunk(b, BT, n, c) && h < b.H
    modifies A
    ensures KktDone(expo, b, BT, Cells(A), n, c, h) && Kept(b, BT, old(Cells(A)), Cells(A), n, c, h)
  {
    hide ChunkA, E, HeadOf, SumsOf, TileOf;
    ChunkStarts(SeqLen(b, n), BT, c);
    HeadShape(b, n, h);
    var hd, g := HeadOf(b, n, h), SumsOf(b, n, h);
    ChunkScaledDotKkt.Program(expo, hd, g, A, b.cu[n], h, c, BT, BK);
    ghost var w, x := Expected(expo, b, BT, n, c, h), Cells(A);
    forall t, j | InChunk(b, BT, n, c, t) && 0 <= j < BT
      ensures E3(x, t, h, j) == E(w, t - ChunkStart(b, BT, n, c), j)
    {
      assert In3(A, t, h, j);
    }
    forall i, j | ChunkRows(b, BT, n, c) <= i < BT && 0 <= i && 0 <= j < BT ensures E(w, i, j) == 0.0 {
      ChunkAOutside(expo, hd, g, c * BT, ChunkRows(b, BT, n, c), BT, i, j);
    }
    ChunkADim(expo, hd, g, c * BT, ChunkRows(b, BT, n, c), BT);
    TileFromRows(b, BT, BT, x, n, c, h, w);
  }

  lemma HeadShape(b: Batch, n: nat, h: nat)
    requires ValidBatch(b) && n < Sequences(b)
    ensures Shaped(HeadOf(b, n, h)) && HeadOf(b, n, h).T == SeqLen(b, n) && HeadOf(b, n, h).K == b.K
    ensures HeadOf(b, n, h).V == b.V
  {
  }

  method LaunchKkt(expo: Expo, b: Batch, A: array3<real>, BT: nat, BK: nat, order: seq<ChunkPid>)
    requires ValidBatch(b) && BT > 0 && BK > 0 && Holds(b, A, BT) && ChunkGrid(b, BT, order)
    modifies A
    ensures forall n: nat, c: nat, h: nat :: Scheduled(b, BT, order, n, c, h) ==>
      KktDone(expo, b, BT, Cells(A), n, c, h)
  {
    hide TileOf, Expected, ChunkIndices, Kept;
    for x := 0 to |order|
      modifies A
      invariant forall n: nat, c: nat, h: nat :: Scheduled(b, BT, order[..x], n, c, h) ==>
        IsChunk(b, BT, n, c) && h < b.H && KktDone(expo, b, BT, Cells(A), n, c, h)
    {
      var (i, h) := order[x];
      assert order[x] in order && order[..x + 1] == order[..x] + [(i, h)];
      OnlyChunksListed(b, BT, Sequences(b), i);
      var (n, c) := ChunkIndices(b, BT, Sequences(b))[i];
      ghost var before := Cells(A);
      RunKkt(expo, b, A, BT, BK, n, c, h);
      forall n': nat, c': nat, h': nat | Scheduled(b, BT, order[..x + 1], n', c', h')
        ensures IsChunk(b, BT, n', c') && h' < b.H && KktDone(expo, b, BT, Cells(A), n', c', h')
      {
        if !Scheduled(b, BT, order[..x], n', c', h') { ScheduledNext(b, BT, order[..x], n, c, h, n', c', h'); }
        if !(n' == n && c' == c && h' == h) { TileKept(b, BT, BT, before, Cells(A), n, c, h, n', c', h'); }
      }
    }
    assert order[..|order|] == order;
  }

  // ----- launch 2: the inverse -----

  /** The A kernel's output meets the inverse kernel's demand. */
  lemma ExpectedLower(expo: Expo, b: Batch, BT: nat, n: nat, c: nat, h: nat)
    requires ValidBatch(b) && n < Sequences(b)
    ensures StrictlyLower(BT, Expected(expo, b, BT, n, c, h))
  {
    var x := Expected(expo, b, BT, n, c, h);
    hide E, HeadOf, SumsOf, ChunkA;
    forall i, j | 0 <= i <= j < BT ensures E(x, i, j) == 0.0 {
      ChunkAOutside(expo, HeadOf(b, n, h), SumsOf(b, n, h), c * BT, ChunkRows(b, BT, n, c), BT, i, j);
    }
  }

  ghost predicate TrilDone(b: Batch, m: nat, a: Cube, x: Cube, n: nat, c: nat, h: nat)
    requires ValidBatch(b) && n < Sequences(b)
  {
    SolveTril.Inverse(4 * m, ChunkRows(b, 4 * m, n, c), TileOf(b, 4 * m, 4 * m, a, n, c, h),
                      TileOf(b, 4 * m, 4 * m, x, n, c, h))
  }

  ghost predicate UpperClear(b: Batch, m: nat, x: Cube, n: nat, c: nat, h: nat)
    requires ValidBatch(b) && n < Sequences(b)
  {
    SolveTril.UpperZero(m, TileOf(b, 4 * m, 4 * m, x, n, c, h), ChunkRows(b, 4 * m, n, c))
  }

  ghost predicate LowerTile(b: Batch, m: nat, a: Cube, n: nat, c: nat, h: nat)
    requires ValidBatch(b) && n < Sequences(b)
  {
    StrictlyLower(4 * m, TileOf(b, 4 * m, 4 * m, a, n, c, h))
  }

  method RunTril(b: Batch, m: nat, A: array3<real>, Ai: array3<real>, n: nat, c: nat, h: nat)
    requires ValidBatch(b) && m > 0 && A != Ai && Holds(b, A, 4 * m) && Holds(b, Ai, 4 * m)
    requires IsChunk(b, 4 * m, n, c) && h < b.H
    requires LowerTile(b, m, Cells(A), n, c, h) && UpperClear(b, m, Cells(Ai), n, c, h)
    modifies Ai
    ensures TrilDone(b, m, Cells(A), Cells(Ai), n, c, h) && UpperClear(b, m, Cells(Ai), n, c, h)
    ensures Kept(b, 4 * m, old(Cells(Ai)), Cells(Ai), n, c, h)
  {
    hide E, Load, TileOf, StrictlyLower, SolveTril.Inverse, SolveTril.UpperZero;
    ChunkStarts(SeqLen(b, n), 4 * m, c);
    LoadIsTile(b, 4 * m, 4 * m, A, n, c, h);
    LoadIsTile(b, 4 * m, 4 * m, Ai, n, c, h);
    SolveTril.Program(m, A, Ai, b.cu[n], SeqLen(b, n), h, c);
    LoadIsTile(b, 4 * m, 4 * m, Ai, n, c, h);
  }

  lemma TrilKept(b: Batch, m: nat, a: Cube, x: Cube, y: Cube, n: nat, c: nat, h: nat, n': nat, c': nat, h': nat)
    requires ValidBatch(b) && n < Sequences(b) && n' < Sequences(b) && Kept(b, 4 * m, x, y, n, c, h)
    requires !(n' == n && c' == c && h' == h)
    ensures TrilDone(b, m, a, x, n', c', h') ==> TrilDone(b, m, a, y, n', c', h')
    ensures UpperClear(b, m, x, n', c', h') ==> UpperClear(b, m, y, n', c', h')
  {
    hide TileOf, SolveTril.Inverse, SolveTril.UpperZero;
    TileKept(b, 4 * m, 4 * m, x, y, n, c, h, n', c', h');
  }

  method LaunchTril(b: Batch, m: nat, A: array3<real>, Ai: array3<real>, order: seq<ChunkPid>)
    requires ValidBatch(b) && m > 0 && A != Ai && Holds(b, A, 4 * m) && Holds(b, Ai, 4 * m)
    requires ChunkGrid(b, 4 * m, order)
    requires forall n: nat, c: nat, h: nat :: IsChunk(b, 4 * m, n, c) && h < b.H ==>
      LowerTile(b, m, Cells(A), n, c, h) && UpperClear(b, m, Cells(Ai), n, c, h)
    modifies Ai
    ensures forall n: nat, c: nat, h: nat :: Scheduled(b, 4 * m, order, n, c, h) ==>
      TrilDone(b, m, Cells(A), Cells(Ai), n, c, h)
  {
    hide ChunkIndices, Kept, LowerTile, TrilDone, UpperClear;
    for x := 0 to |order|
      modifies Ai
      invariant forall n: nat, c: nat, h: nat :: IsChunk(b, 4 * m, n, c) && h < b.H ==>
        UpperClear(b, m, Cells(Ai), n, c, h)
      invariant forall n: nat, c: nat, h: nat :: Scheduled(b, 4 * m, order[..x], n, c, h) ==>
        IsChunk(b, 4 * m, n, c) && h < b.H && TrilDone(b, m, Cells(A), Cells(Ai), n, c, h)
    {
      var (i, h) := order[x];
      assert order[x] in order && order[..x + 1] == order[..x] + [(i, h)];
      OnlyChunksListed(b, 4 * m, Sequences(b), i);
      var (n, c) := ChunkIndices(b, 4 * m, Sequences(b))[i];
      ghost var before := Cells(Ai);
      RunTril(b, m, A, Ai, n, c, h);
      forall n': nat, c': nat, h': nat | IsChunk(b, 4 * m, n', c') && h' < b.H
        ensures UpperClear(b, m, Cells(Ai), n', c', h')
        ensures Scheduled(b, 4 * m, order[..x + 1], n', c', h') ==> TrilDone(b, m, Cells(A), Cells(Ai), n', c', h')
      {
        if Scheduled(b, 4 * m, order[..x + 1], n', c', h') && !Scheduled(b, 4 * m, order[..x], n', c', h') {
          ScheduledNext(b, 4 * m, order[..x], n, c, h, n', c', h');
        }
        if !(n' == n && c' == c && h' == h) { TrilKept(b, m, Cells(A), before, Cells(Ai), n, c, h, n', c', h'); }
      }
    }
    assert order[..|order|] == order;
  }

  // ----- launch 3: w and u -----

  /** Tiles of u and w are the inverse tile times the scaled values and keys. */
  ghost predicate WyDone(expo: Expo, b: Batch, BT: nat, ai: Cube, w: Cube, u: Cube, n: nat, c: nat, h: nat)
    requires ValidBatch(b) && n < Sequences(b)
  {
    var t, hd := TileOf(b, BT, BT, ai, n, c, h), HeadOf(b, n, h);
    && TileOf(b, BT, b.V, u, n, c, h) == Mul(BT, BT, b.V, t, ScaledValues(hd, c * BT, BT))
    && TileOf(b, BT, b.K, w, n, c, h) == Mul(BT, BT, b.K, t, ScaledKeys(expo, hd, SumsOf(b, n, h), c * BT, BT))
  }

  lemma PastRows(b: Batch, BT: nat, C: nat, x: Cube, n: nat, c: nat, h: nat, y: Mat, i: nat, j: nat)
    requires ValidBatch(b) && n < Sequences(b) && ChunkRows(b, BT, n, c) <= i < BT && j < C
    ensures E(Mul(BT, BT, C, TileOf(b, BT, BT, x, n, c, h), y), i, j) == 0.0
  {
    var t := TileOf(b, BT, BT, x, n, c, h);
    forall k | 0 <= k < BT ensures E(t, i, k) * E(y, k, j) == 0.0 {
      assert E(t, i, k) == 0.0;
    }
    SumZero(BT, k => E(t, i, k) * E(y, k, j));
  }

  method RunWy(expo: Expo, b: Batch, Ai: array3<real>, w: array3<real>, u: array3<real>, BT: nat, BK: nat, BV: nat,
               n: nat, c: nat, h: nat)
    requires ValidBatch(b) && BT > 0 && BK > 0 && BV > 0 && Ai != w && Ai != u && w != u
    requires Holds(b, Ai, BT) && Holds(b, w, b.K) && Holds(b, u, b.V) && IsChunk(b, BT, n, c) && h < b.H
    modifies w, u
    ensures WyDone(expo, b, BT, Cells(Ai), Cells(w), Cells(u), n, c, h)
    ensures Kept(b, BT, old(Cells(w)), Cells(w), n, c, h) && Kept(b, BT, old(Cells(u)), Cells(u), n, c, h)
  {
    hide E, Load, TileOf, Mul, HeadOf, SumsOf, ScaledKeys, ScaledValues;
    ChunkStarts(SeqLen(b, n), BT, c);
    HeadShape(b, n, h);
    var hd, g := HeadOf(b, n, h), SumsOf(b, n, h);
    WyFast.Program(expo, hd, g, Ai, w, u, b.cu[n], h, c, BT, BK, BV);
    LoadIsTile(b, BT, BT, Ai, n, c, h);
    ghost var t := TileOf(b, BT, BT, Cells(Ai), n, c, h);
    ghost var vals, keys := ScaledValues(hd, c * BT, BT), ScaledKeys(expo, hd, g, c * BT, BT);
    ghost var uu, ww := Mul(BT, BT, b.V, t, vals), Mul(BT, BT, b.K, t, keys);
    forall tok, j | InChunk(b, BT, n, c, tok) && 0 <= j < b.V
      ensures E3(Cells(u), tok, h, j) == E(uu, tok - ChunkStart(b, BT, n, c), j) { assert In3(u, tok, h, j); }
    forall tok, j | InChunk(b, BT, n, c, tok) && 0 <= j < b.K
      ensures E3(Cells(w), tok, h, j) == E(ww, tok - ChunkStart(b, BT, n, c), j) { assert In3(w, tok, h, j); }
    forall i, j | ChunkRows(b, BT, n, c) <= i < BT && 0 <= i && 0 <= j < b.V ensures E(uu, i, j) == 0.0 {
      PastRows(b, BT, b.V, Cells(Ai), n, c, h, vals, i, j);
    }
    forall i, j | ChunkRows(b, BT, n, c) <= i < BT && 0 <= i && 0 <= j < b.K ensures E(ww, i, j) == 0.0 {
      PastRows(b, BT, b.K, Cells(Ai), n, c, h, keys, i, j);
    }
    MulDims(BT, BT, b.V, t, vals);
    MulDims(BT, BT, b.K, t, keys);
    TileFromRows(b, BT, b.V, Cells(u), n, c, h, uu);
    TileFromRows(b, BT, b.K, Cells(w), n, c, h, ww);
  }

  method LaunchWy(expo: Expo, b: Batch, Ai: array3<real>, w: array3<real>, u: array3<real>, BT: nat, BK: nat, BV: nat,
                  order: seq<ChunkPid>)
    requires ValidBatch(b) && BT > 0 && BK > 0 && BV > 0 && Ai != w && Ai != u && w != u
    requires Holds(b, Ai, BT) && Holds(b, w, b.K) && Holds(b, u, b.V) && ChunkGrid(b, BT, order)
    modifies w, u
    ensures forall n: nat, c: nat, h: nat :: Scheduled(b, BT, order, n, c, h) ==>
      WyDone(expo, b, BT, Cells(Ai), Cells(w), Cells(u), n, c, h)
  {
    hide TileOf, ChunkIndices, Kept, Mul, ScaledKeys, ScaledValues, HeadOf, SumsOf;
    for x := 0 to |order|
      modifies w, u
      invariant forall n: nat, c: nat, h: nat :: Scheduled(b, BT, order[..x], n, c, h) ==>
        IsChunk(b, BT, n, c) && h < b.H && WyDone(expo, b, BT, Cells(Ai), Cells(w), Cells(u), n, c, h)
    {
      var (i, h) := order[x];
      assert order[x] in order && order[..x + 1] == order[..x] + [(i, h)];
      OnlyChunksListed(b, BT, Sequences(b), i);
      var (n, c) := ChunkIndices(b, BT, Sequences(b))[i];
      ghost var w0, u0 := Cells(w), Cells(u);
      RunWy(expo, b, Ai, w, u, BT, BK, BV, n, c, h);
      forall n': nat, c': nat, h': nat | Scheduled(b, BT, order[..x + 1], n', c', h')
        ensures IsChunk(b, BT, n', c') && h' < b.H && WyDone(expo, b, BT, Cells(Ai), Cells(w), Cells(u), n', c', h')
      {
        if !Scheduled(b, BT, order[..x], n', c', h') { ScheduledNext(b, BT, order[..x], n, c, h, n', c', h'); }
        if !(n' == n && c' == c && h' == h) {
          TileKept(b, BT, b.V, u0, Cells(u), n, c, h, n', c', h');
          TileKept(b, BT, b.K, w0, Cells(w), n, c, h, n', c', h');
        }
      }
    }
    assert order[..|order|] == order;
  }
}
