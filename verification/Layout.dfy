/**
 How a packed batch of sequences is laid out: cu_seqlens, the chunk tables and the flat addresses.
 Distinct programs write disjoint places, every token belongs to exactly one chunk, and the snapshot a
 chunk's output program reads is the one its state program wrote.
 */
module Layout {
  import opened Matrices
  import opened Recurrence
  import opened Tiles

  type Cube = seq<Mat>

  function E3(x: Cube, t: int, h: int, c: int): real {
    if 0 <= t < |x| then E(x[t], h, c) else 0.0
  }

  /** The inputs of a prefill over packed sequences: H value heads share Hg key heads. g is the
      per-chunk running sum of logDecay. */
  datatype Batch = Batch(cu: seq<nat>, H: nat, Hg: nat, K: nat, V: nat,
                         q: Cube, k: Cube, v: Cube, beta: Mat, logDecay: Mat, g: Mat)

  ghost predicate ValidBatch(b: Batch) {
    && |b.cu| >= 1 && 0 < b.Hg <= b.H
    && forall i, j :: 0 <= i <= j < |b.cu| ==> b.cu[i] <= b.cu[j]
  }

  function Sequences(b: Batch): nat
    requires ValidBatch(b)
  {
    |b.cu| - 1
  }

  function SeqLen(b: Batch, n: nat): nat
    requires ValidBatch(b) && n < Sequences(b)
  {
    b.cu[n + 1] - b.cu[n]
  }

  /** The pointer offsets of every kernel: head h of sequence n, its keys shared by H / Hg heads. */
  function HeadOf(b: Batch, n: nat, h: nat): (hd: Head)
    requires ValidBatch(b) && n < Sequences(b)
    ensures Shaped(hd) && hd.T == SeqLen(b, n) && hd.K == b.K && hd.V == b.V
  {
    var bos, T, hk := b.cu[n], SeqLen(b, n), h / (b.H / b.Hg);
    Head(T, b.K, b.V,
         Tab(T, b.K, (t, c) => E3(b.q, bos + t, hk, c)), Tab(T, b.K, (t, c) => E3(b.k, bos + t, hk, c)),
         Tab(T, b.V, (t, c) => E3(b.v, bos + t, h, c)),
         VTab(T, t => E(b.beta, bos + t, h)), VTab(T, t => E(b.logDecay, bos + t, h)))
  }

  function SumsOf(b: Batch, n: nat, h: nat): (g: Vec)
    requires ValidBatch(b) && n < Sequences(b)
  {
    var bos := b.cu[n];
    VTab(SeqLen(b, n), t => E(b.g, bos + t, h))
  }

  // ----- chunk tables -----

  function NumChunks(b: Batch, BT: nat, n: nat): nat
    requires ValidBatch(b) && n < Sequences(b) && BT > 0
  {
    Cdiv(SeqLen(b, n), BT)
  }

  /** chunk_offsets: the number of chunks in the sequences before n. */
  function ChunkOffset(b: Batch, BT: nat, n: nat): nat
    requires ValidBatch(b) && n <= Sequences(b) && BT > 0
  {
    if n == 0 then 0 else ChunkOffset(b, BT, n - 1) + NumChunks(b, BT, n - 1)
  }

  /** chunk_indices: (sequence, chunk) pairs of the first n sequences in order. */
  function ChunkIndices(b: Batch, BT: nat, n: nat): seq<(nat, nat)>
    requires ValidBatch(b) && n <= Sequences(b) && BT > 0
  {
    if n == 0 then []
    else ChunkIndices(b, BT, n - 1) + seq(NumChunks(b, BT, n - 1),
                                          c requires 0 <= c < NumChunks(b, BT, n - 1) => (n - 1, c))
  }

  ghost predicate IsChunk(b: Batch, BT: nat, n: nat, c: nat)
    requires ValidBatch(b) && BT > 0
  {
    n < Sequences(b) && c < NumChunks(b, BT, n)
  }

  /** The two tables agree: chunk c of sequence n is listed at global index offset(n) + c. */
  lemma {:induction false} ChunkListed(b: Batch, BT: nat, N: nat, n: nat, c: nat)
    requires ValidBatch(b) && n < N <= Sequences(b) && BT > 0 && c < NumChunks(b, BT, n)
    ensures ChunkOffset(b, BT, n) + c < ChunkOffset(b, BT, N) == |ChunkIndices(b, BT, N)|
    ensures ChunkIndices(b, BT, N)[ChunkOffset(b, BT, n) + c] == (n, c)
  {
    IndicesLength(b, BT, N - 1);
    if n < N - 1 { ChunkListed(b, BT, N - 1, n, c); }
  }

  lemma {:induction false} IndicesLength(b: Batch, BT: nat, N: nat)
    requires ValidBatch(b) && N <= Sequences(b) && BT > 0
    ensures |ChunkIndices(b, BT, N)| == ChunkOffset(b, BT, N)
  {
    if N > 0 { IndicesLength(b, BT, N - 1); }
  }

  /** Nothing but chunks is listed, and each at its own place. */
  lemma {:induction false} OnlyChunksListed(b: Batch, BT: nat, N: nat, i: nat)
    requires ValidBatch(b) && N <= Sequences(b) && BT > 0 && i < |ChunkIndices(b, BT, N)|
    ensures var (n, c) := ChunkIndices(b, BT, N)[i];
            n < N && IsChunk(b, BT, n, c) && i == ChunkOffset(b, BT, n) + c
  {
    IndicesLength(b, BT, N - 1);
    if i < |ChunkIndices(b, BT, N - 1)| { OnlyChunksListed(b, BT, N - 1, i); }
  }

  /** First token of chunk c, and the token after its last. */
  function ChunkStart(b: Batch, BT: nat, n: nat, c: nat): int
    requires ValidBatch(b) && n < Sequences(b)
  {
    b.cu[n] + c * BT
  }

  ghost predicate InChunk(b: Batch, BT: nat, n: nat, c: nat, t: int)
    requires ValidBatch(b) && n < Sequences(b)
  {
    ChunkStart(b, BT, n, c) <= t < ChunkStart(b, BT, n, c) + BT && t < b.cu[n + 1]
  }

  /** A token lies in at most one chunk, so programs of different chunks store to different rows. */
  lemma OneChunk(b: Batch, BT: nat, n: nat, c: nat, n': nat, c': nat, t: int)
    requires ValidBatch(b) && n < Sequences(b) && n' < Sequences(b)
    requires InChunk(b, BT, n, c, t) && InChunk(b, BT, n', c', t)
    ensures n == n' && c == c'
  {
    if c < c' { ChunkGap(BT, c, c'); }
    if c' < c { ChunkGap(BT, c', c); }
  }

  /** Every packed token lies in a listed chunk of some sequence. */
  lemma SomeChunk(b: Batch, BT: nat, n: nat, t: nat)
    requires ValidBatch(b) && BT > 0 && n < Sequences(b) && t < SeqLen(b, n)
    ensures IsChunk(b, BT, n, t / BT) && InChunk(b, BT, n, t / BT, b.cu[n] + t)
  {
    var c, r := t / BT, t % BT;
    assert t == c * BT + r;
    CdivCovers(SeqLen(b, n), BT);
    if c >= NumChunks(b, BT, n) {
      if c > NumChunks(b, BT, n) { ChunkGap(BT, NumChunks(b, BT, n), c); }
      assert false;
    }
  }

  // ----- flat addresses -----

  /** Address of entry (t, h, j) of a row-major [., H, C] tensor. */
  function Flat(H: nat, C: nat, t: int, h: int, j: int): int {
    (t * H + h) * C + j
  }

  /** The kernels' base pointer plus row stride lands on the entry of the view. */
  lemma BlockPointer(H: nat, C: nat, bos: nat, h: nat, i: nat, j: nat)
    ensures (bos * H + h) * C + i * (H * C) + j == Flat(H, C, bos + i, h, j)
  {
    assert i * (H * C) == (i * H) * C;
    assert (bos * H + h) * C + (i * H) * C == (bos * H + h + i * H) * C;
    assert bos * H + i * H == (bos + i) * H;
  }

  lemma DigitsUnique(n: nat, a: int, x: int, b: int, y: int)
    requires 0 <= x < n && 0 <= y < n && a * n + x == b * n + y
    ensures a == b && x == y
  {
    assert (a - b) * n == y - x && (b - a) * n == x - y;
    if a < b { AtLeast(b - a, n); }
    if b < a { AtLeast(a - b, n); }
  }

  lemma AtLeast(d: int, n: nat)
    requires d >= 1
    ensures d * n >= n
  {
  }

  /** Different entries have different addresses. */
  lemma FlatInjective(H: nat, C: nat, t: int, h: int, j: int, t': int, h': int, j': int)
    requires 0 <= h < H && 0 <= h' < H && 0 <= j < C && 0 <= j' < C
    requires Flat(H, C, t, h, j) == Flat(H, C, t', h', j')
    ensures t == t' && h == h' && j == j'
  {
    DigitsUnique(C, t * H + h, j, t' * H + h', j');
    DigitsUnique(H, t, h, t', h');
  }

  /** The state program's snapshot pointer for chunk c and the output program's pointer for the same
      global chunk are one address. */
  lemma SnapshotAddress(b: Batch, BT: nat, n: nat, c: nat, i: nat, H: nat, h: nat, V: nat, K: nat)
    requires ValidBatch(b) && BT > 0 && IsChunk(b, BT, n, c)
    requires i < |ChunkIndices(b, BT, Sequences(b))| && ChunkIndices(b, BT, Sequences(b))[i] == (n, c)
    ensures (ChunkOffset(b, BT, n) * H + h) * (V * K) + c * (H * (V * K)) == (i * H + h) * (V * K)
  {
    OnlyChunksListed(b, BT, Sequences(b), i);
    BlockPointer(H, V * K, ChunkOffset(b, BT, n), h, c, 0);
  }
}
