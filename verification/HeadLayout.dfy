/**
 Which entries of the packed tensors a head of a sequence is made of. Value heads share key heads in
 consecutive groups, and every other tensor is read at the sequence's own token and head.
 */
module HeadLayout {
  import opened Matrices
  import opened Recurrence
  import opened Layout
  import opened Launches

  // ----- sharing by consecutive groups -----

  function Copies(x: Vec, n: nat): (r: Mat)
    ensures |r| == n
  {
    if n == 0 then [] else Copies(x, n - 1) + [x]
  }

  /** Each row listed G times in a row. */
  function Spread(heads: Mat, G: nat): (r: Mat)
    ensures |r| == |heads| * G
  {
    if heads == [] then [] else Spread(heads[..|heads| - 1], G) + Copies(heads[|heads| - 1], G)
  }

  function SpreadAll(x: Cube, G: nat): (r: Cube)
    ensures |r| == |x| && forall t :: 0 <= t < |x| ==> r[t] == Spread(x[t], G)
  {
    seq(|x|, t requires 0 <= t < |x| => Spread(x[t], G))
  }

  /** The batch with a key head of its own for every value head. */
  function Unshared(b: Batch, G: nat): Batch {
    b.(Hg := b.H, q := SpreadAll(b.q, G), k := SpreadAll(b.k, G))
  }

  /** H value heads share Hg key heads, G to each, and every token has Hg rows of keys and queries. */
  ghost predicate Grouped(b: Batch, G: nat) {
    && 0 < G && b.H == b.Hg * G
    && (forall t :: 0 <= t < |b.q| ==> |b.q[t]| == b.Hg) && (forall t :: 0 <= t < |b.k| ==> |b.k[t]| == b.Hg)
  }

  lemma {:induction false} CopiesAt(x: Vec, n: nat, i: nat)
    requires i < n
    ensures Copies(x, n)[i] == x
  {
    if i < n - 1 { CopiesAt(x, n - 1, i); }
  }

  lemma MemberBelow(g: nat, r: nat, n: nat, G: nat)
    requires g < n && r < G
    ensures g * G + r < n * G && (g < n - 1 ==> g * G + r < (n - 1) * G) && (n - 1) * G + G == n * G
  {
    assert (g + 1) * G <= n * G;
    if g < n - 1 { assert (g + 1) * G <= (n - 1) * G; }
  }

  /** Member r of group g. */
  lemma {:induction false} SpreadAt(heads: Mat, G: nat, g: nat, r: nat)
    requires g < |heads| && r < G
    ensures g * G + r < |heads| * G && Spread(heads, G)[g * G + r] == heads[g]
  {
    MemberBelow(g, r, |heads|, G);
    if g < |heads| - 1 {
      SpreadAt(heads[..|heads| - 1], G, g, r);
    } else {
      CopiesAt(heads[g], G, r);
    }
  }

  /** Value head g G + r reads key head g: the kernels' division finds the group. */
  lemma GroupOf(H: nat, Hg: nat, G: nat, g: nat, r: nat)
    requires Hg > 0 && G > 0 && H == Hg * G && g < Hg && r < G
    ensures H / Hg == G && (g * G + r) / (H / Hg) == g && g * G + r < H
  {
    Quotient(H, Hg, G, 0);
    Quotient(g * G + r, G, g, r);
    MemberBelow(g, r, Hg, G);
  }

  lemma Quotient(n: nat, d: nat, q: nat, r: nat)
    requires d > 0 && n == q * d + r && r < d
    ensures n / d == q
  {
    DigitsUnique(d, n / d, n % d, q, r);
  }

  /** The shared row of a token is the row the unshared batch lists for the value head itself. */
  lemma SharedRow(x: Cube, H: nat, Hg: nat, G: nat, t: int, h: nat, c: int)
    requires 0 < G && 0 < Hg && H == Hg * G && h < H && forall u :: 0 <= u < |x| ==> |x[u]| == Hg
    ensures H / Hg > 0 && E3(SpreadAll(x, G), t, h, c) == E3(x, t, h / (H / Hg), c)
  {
    Quotient(H, Hg, G, 0);
    var g, r := h / G, h % G;
    assert h == g * G + r;
    if g >= Hg { MemberBelow(Hg, 0, g + 1, G); assert false; }
    if 0 <= t < |x| { SpreadAt(x[t], G, g, r); }
  }

  /** Sharing key heads is listing each of them once for every value head of its group. */
  lemma SharingIsSpreading(b: Batch, G: nat, n: nat, h: nat)
    requires ValidBatch(b) && Grouped(b, G) && n < Sequences(b) && h < b.H
    ensures ValidBatch(Unshared(b, G)) && Unshared(b, G).Hg == Unshared(b, G).H
    ensures HeadOf(Unshared(b, G), n, h) == HeadOf(b, n, h)
  {
    var u := Unshared(b, G);
    var x, y := HeadOf(u, n, h), HeadOf(b, n, h);
    hide E3;
    HeadShape(u, n, h);
    HeadShape(b, n, h);
    forall t, c | 0 <= t < x.T && 0 <= c < x.K ensures E(x.q, t, c) == E(y.q, t, c) && E(x.k, t, c) == E(y.k, t, c) {
      SharedRow(b.q, b.H, b.Hg, G, b.cu[n] + t, h, c);
      SharedRow(b.k, b.H, b.Hg, G, b.cu[n] + t, h, c);
    }
    MatExt(x.q, y.q, x.T, x.K);
    MatExt(x.k, y.k, x.T, x.K);
    SameOthers(b, u, n, h);
  }

  lemma SameOthers(b: Batch, u: Batch, n: nat, h: nat)
    requires ValidBatch(b) && ValidBatch(u) && n < Sequences(b) && u == b.(Hg := u.Hg, q := u.q, k := u.k)
    ensures HeadOf(u, n, h).v == HeadOf(b, n, h).v && HeadOf(u, n, h).beta == HeadOf(b, n, h).beta
    ensures HeadOf(u, n, h).logDecay == HeadOf(b, n, h).logDecay
  {
  }

  // ----- flat addresses -----

  /** What a row-major [N, H, C] tensor at address 0 of mem holds. */
  ghost predicate Stored(x: Cube, N: nat, H: nat, C: nat, mem: int -> real) {
    forall t, h, c :: 0 <= t < N && 0 <= h < H && 0 <= c < C ==> E3(x, t, h, c) == mem(Flat(H, C, t, h, c))
  }

  /** The same for an [N, H] tensor. */
  ghost predicate StoredFlat(x: Mat, N: nat, H: nat, mem: int -> real) {
    forall t, h :: 0 <= t < N && 0 <= h < H ==> E(x, t, h) == mem(t * H + h)
  }

  /** The tensors of a batch in memory. */
  datatype Memory = Memory(q: int -> real, k: int -> real, v: int -> real, beta: int -> real, logDecay: int -> real,
                           g: int -> real)

  ghost predicate InMemory(b: Batch, N: nat, m: Memory) {
    && Stored(b.q, N, b.Hg, b.K, m.q) && Stored(b.k, N, b.Hg, b.K, m.k) && Stored(b.v, N, b.H, b.V, m.v)
    && StoredFlat(b.beta, N, b.H, m.beta) && StoredFlat(b.logDecay, N, b.H, m.logDecay) && StoredFlat(b.g, N, b.H, m.g)
  }

  /** Entry (bos + t, h, c) lies t strides past the base pointer of token bos and head h. */
  lemma CubeAddress(x: Cube, N: nat, H: nat, C: nat, mem: int -> real, bos: nat, h: nat, t: nat, c: nat)
    requires Stored(x, N, H, C, mem) && bos + t < N && h < H && c < C
    ensures E3(x, bos + t, h, c) == mem((bos * H + h) * C + t * (H * C) + c)
  {
    hide E3;
    BlockPointer(H, C, bos, h, t, c);
  }

  lemma RowAddress(x: Mat, N: nat, H: nat, mem: int -> real, bos: nat, h: nat, t: nat)
    requires StoredFlat(x, N, H, mem) && bos + t < N && h < H
    ensures E(x, bos + t, h) == mem(bos * H + h + t * H)
  {
    hide E;
    assert (bos + t) * H + h == bos * H + h + t * H;
  }

  lemma TokenInside(b: Batch, n: nat, t: nat, N: nat)
    requires ValidBatch(b) && n < Sequences(b) && t < SeqLen(b, n) && b.cu[|b.cu| - 1] <= N
    ensures b.cu[n] + t < N
  {
    assert b.cu[n + 1] <= b.cu[|b.cu| - 1];
  }

  /** Queries and keys of value head g G + r are the rows of key head g, at the kernels' base pointer
      (bos Hg + h / (H / Hg)) K with a stride of Hg K between tokens. */
  lemma SharedAddresses(b: Batch, N: nat, m: Memory, G: nat, n: nat, g: nat, r: nat, t: nat, c: nat)
    requires ValidBatch(b) && n < Sequences(b) && t < SeqLen(b, n) && b.cu[|b.cu| - 1] <= N && InMemory(b, N, m)
    requires 0 < G && b.H == b.Hg * G && g < b.Hg && r < G && c < b.K
    ensures var hd, bos, h := HeadOf(b, n, g * G + r), b.cu[n], g * G + r;
      && h < b.H && b.H / b.Hg > 0 && h / (b.H / b.Hg) == g
      && E(hd.q, t, c) == m.q((bos * b.Hg + h / (b.H / b.Hg)) * b.K + t * (b.Hg * b.K) + c)
      && E(hd.k, t, c) == m.k((bos * b.Hg + h / (b.H / b.Hg)) * b.K + t * (b.Hg * b.K) + c)
  {
    hide HeadOf, E, E3, Stored, StoredFlat;
    var bos, h := b.cu[n], g * G + r;
    GroupOf(b.H, b.Hg, G, g, r);
    TokenInside(b, n, t, N);
    KeyEntry(b, n, h, g, t, c);
    CubeAddress(b.q, N, b.Hg, b.K, m.q, bos, g, t, c);
    CubeAddress(b.k, N, b.Hg, b.K, m.k, bos, g, t, c);
  }

  lemma KeyEntry(b: Batch, n: nat, h: nat, g: nat, t: nat, c: nat)
    requires ValidBatch(b) && n < Sequences(b) && t < SeqLen(b, n) && c < b.K && b.H / b.Hg > 0 && g == h / (b.H / b.Hg)
    ensures E(HeadOf(b, n, h).q, t, c) == E3(b.q, b.cu[n] + t, g, c)
    ensures E(HeadOf(b, n, h).k, t, c) == E3(b.k, b.cu[n] + t, g, c)
  {
    hide E3;
  }

  /** Values, beta, log decays and their sums are read at the head itself: base bos H + h, stride H. */
  lemma OwnAddresses(b: Batch, N: nat, m: Memory, n: nat, h: nat, t: nat, j: nat)
    requires ValidBatch(b) && n < Sequences(b) && t < SeqLen(b, n) && b.cu[|b.cu| - 1] <= N && InMemory(b, N, m)
    requires h < b.H && j < b.V
    ensures var hd, bos := HeadOf(b, n, h), b.cu[n];
      && E(hd.v, t, j) == m.v((bos * b.H + h) * b.V + t * (b.H * b.V) + j)
      && At(hd.beta, t) == m.beta(bos * b.H + h + t * b.H)
      && At(hd.logDecay, t) == m.logDecay(bos * b.H + h + t * b.H)
      && At(SumsOf(b, n, h), t) == m.g(bos * b.H + h + t * b.H)
  {
    hide HeadOf, SumsOf, E, E3, At, Stored, StoredFlat;
    var bos := b.cu[n];
    TokenInside(b, n, t, N);
    OwnEntries(b, n, h, t, j);
    CubeAddress(b.v, N, b.H, b.V, m.v, bos, h, t, j);
    RowAddress(b.beta, N, b.H, m.beta, bos, h, t);
    RowAddress(b.logDecay, N, b.H, m.logDecay, bos, h, t);
    RowAddress(b.g, N, b.H, m.g, bos, h, t);
  }

  lemma OwnEntries(b: Batch, n: nat, h: nat, t: nat, j: nat)
    requires ValidBatch(b) && n < Sequences(b) && t < SeqLen(b, n) && j < b.V
    ensures E(HeadOf(b, n, h).v, t, j) == E3(b.v, b.cu[n] + t, h, j)
    ensures At(HeadOf(b, n, h).beta, t) == E(b.beta, b.cu[n] + t, h)
    ensures At(HeadOf(b, n, h).logDecay, t) == E(b.logDecay, b.cu[n] + t, h)
    ensures At(SumsOf(b, n, h), t) == E(b.g, b.cu[n] + t, h)
  {
    hide E3;
  }
}
