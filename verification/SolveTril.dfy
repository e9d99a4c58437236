/**
 triton_kernels/solve_tril.py: one program inverts I + A for one chunk. The kernel's block size is 16
 and its chunk 64; here the block size is n and the chunk 4 n.
 */
module SolveTril {
  import opened Sums
  import opened Matrices
  import opened Recurrence
  import opened ChunkTheorem
  import opened TriangularInverse
  import opened Tiles
  import opened Buffers

  /** -where(m_A, block, 0): the strictly lower part, negated. */
  function NegStrict(n: nat, a: Mat): (r: Mat) {
    Tab(n, n, (p, q) => if p > q then -E(a, p, q) else 0.0)
  }

  /** The negated row of A times the rows so far, added to the negated row itself. */
  function SubstituteRow(n: nat, row: Vec, b: Mat): (r: Vec) {
    VTab(n, q => At(row, q) + Sum(n, m => At(row, m) * E(b, m, q)))
  }

  /** where((o_i == p)[:, None], row, b) */
  function ReplaceRow(n: nat, b: Mat, p: int, row: Vec): (r: Mat) {
    Tab(n, n, (i, q) => if i == p then At(row, q) else E(b, i, q))
  }

  /** Rows below `done` are substituted, the others still hold -A. */
  ghost predicate Progress(n: nat, a: Mat, b: Mat, done: int) {
    && Dim(b, n, n)
    && (forall p :: 0 <= p < n && p < done ==> SubstitutedRow(n, a, b, p))
    && (forall p, q :: done <= p < n && 0 <= p && 0 <= q < n ==> E(b, p, q) == -E(a, p, q))
  }

  /** A row depends only on the rows above it. */
  lemma SubstitutedStable(n: nat, a: Mat, b: Mat, b': Mat, p: nat)
    requires StrictlyLower(n, a) && p < n && SubstitutedRow(n, a, b, p)
    requires forall m, q :: 0 <= m <= p && 0 <= q < n ==> E(b', m, q) == E(b, m, q)
    ensures SubstitutedRow(n, a, b', p)
  {
    forall q | 0 <= q < n ensures E(b', p, q) == -E(a, p, q) + Sum(n, m => -E(a, p, m) * E(b', m, q)) {
      forall m | 0 <= m < n ensures -E(a, p, m) * E(b', m, q) == -E(a, p, m) * E(b, m, q) {
        SameProduct(n, a, b, b', p, m, q);
      }
      hide E;
      SumExt(n, m => -E(a, p, m) * E(b', m, q), m => -E(a, p, m) * E(b, m, q));
    }
  }

  lemma SameProduct(n: nat, a: Mat, b: Mat, b': Mat, p: nat, m: nat, q: nat)
    requires StrictlyLower(n, a) && p < n && m < n && q < n
    requires m < p ==> E(b', m, q) == E(b, m, q)
    ensures -E(a, p, m) * E(b', m, q) == -E(a, p, m) * E(b, m, q)
  {
    hide E;
    if m >= p { assert E(a, p, m) == 0.0; }
  }

  /** Rows 0 and 1 need no substitution: this is why the loops may start at local row 2. */
  lemma FirstRows(n: nat, a: Mat)
    requires StrictlyLower(n, a)
    ensures Progress(n, a, NegStrict(n, a), 2)
  {
    var b := NegStrict(n, a);
    forall p, q | 0 <= p < n && 0 <= q < n ensures E(b, p, q) == -E(a, p, q) {
      assert p <= q ==> E(a, p, q) == 0.0;
    }
    forall p | 0 <= p < n && p < 2 ensures SubstitutedRow(n, a, b, p) {
      forall q | 0 <= q < n ensures E(b, p, q) == -E(a, p, q) + Sum(n, m => -E(a, p, m) * E(b, m, q)) {
        forall m | 0 <= m < n ensures -E(a, p, m) * E(b, m, q) == 0.0 {
          FirstProduct(n, a, p, m, q);
        }
        hide E;
        SumZero(n, m => -E(a, p, m) * E(b, m, q));
      }
    }
  }

  lemma FirstProduct(n: nat, a: Mat, p: nat, m: nat, q: nat)
    requires StrictlyLower(n, a) && p < 2 && p < n && m < n && q < n
    ensures -E(a, p, m) * E(NegStrict(n, a), m, q) == 0.0
  {
    if m >= p {
      assert E(a, p, m) == 0.0;
    } else {
      assert E(NegStrict(n, a), m, q) == 0.0;
    }
  }

  /** One pass of the loop substitutes row p. */
  lemma NextRow(n: nat, a: Mat, b: Mat, p: nat, row: Vec)
    requires StrictlyLower(n, a) && p < n && Progress(n, a, b, p)
    requires forall q :: 0 <= q < n ==> At(row, q) == -E(a, p, q)
    ensures Progress(n, a, ReplaceRow(n, b, p, SubstituteRow(n, row, b)), p + 1)
  {
    var next := SubstituteRow(n, row, b);
    var b' := ReplaceRow(n, b, p, next);
    forall i | 0 <= i < p ensures SubstitutedRow(n, a, b', i) {
      SubstitutedStable(n, a, b, b', i);
    }
    forall q | 0 <= q < n ensures E(b', p, q) == -E(a, p, q) + Sum(n, m => -E(a, p, m) * E(b', m, q)) {
      NewEntry(n, a, b, p, row, q);
    }
  }

  lemma NewEntry(n: nat, a: Mat, b: Mat, p: nat, row: Vec, q: nat)
    requires StrictlyLower(n, a) && p < n && q < n
    requires forall q :: 0 <= q < n ==> At(row, q) == -E(a, p, q)
    ensures var b' := ReplaceRow(n, b, p, SubstituteRow(n, row, b));
            E(b', p, q) == -E(a, p, q) + Sum(n, m => -E(a, p, m) * E(b', m, q))
  {
    var b' := ReplaceRow(n, b, p, SubstituteRow(n, row, b));
    forall m | 0 <= m < n ensures -E(a, p, m) * E(b', m, q) == At(row, m) * E(b, m, q) {
      SameProduct(n, a, b, b', p, m, q);
    }
    assert E(b', p, q) == At(row, q) + Sum(n, m => At(row, m) * E(b, m, q));
    hide E, At;
    SumExt(n, m => -E(a, p, m) * E(b', m, q), m => At(row, m) * E(b, m, q));
  }

  /** Rows of A that were not loaded are zero, so they are substituted as they stand. */
  lemma ZeroRows(n: nat, a: Mat, b: Mat, done: int)
    requires StrictlyLower(n, a) && Progress(n, a, b, done)
    requires forall p, q :: done <= p < n && 0 <= p && 0 <= q < n ==> E(a, p, q) == 0.0
    ensures forall p :: 0 <= p < n ==> SubstitutedRow(n, a, b, p)
  {
    forall p | 0 <= p < n && p >= done ensures SubstitutedRow(n, a, b, p) {
      forall q | 0 <= q < n ensures E(b, p, q) == -E(a, p, q) + Sum(n, m => -E(a, p, m) * E(b, m, q)) {
        assert E(a, p, q) == 0.0;
        forall m | 0 <= m < n ensures -E(a, p, m) * E(b, m, q) == 0.0 {
          assert E(a, p, m) == 0.0;
        }
        hide E;
        SumZero(n, m => -E(a, p, m) * E(b, m, q));
      }
    }
  }

  function Min(a: int, b: int): int { if a < b then a else b }

  /** The substitution loop of one diagonal block, o being the block's offset in the chunk. */
  method DiagonalBlock(n: nat, a: Mat, T: nat, r0: nat, o: nat) returns (b: Mat)
    requires |a| == T && StrictlyLower(n, Block(n, a, r0 + o, o))
    ensures Dim(b, n, n) && Mul(n, n, n, UnitLower(n, Block(n, a, r0 + o, o)), b) == Id(n)
  {
    hide Mul, UnitLower, Id, ReplaceRow, SubstituteRow, NegStrict, Progress, StrictlyLower, SubstitutedRow;
    ghost var blk := Block(n, a, r0 + o, o);
    b := NegStrict(n, Block(n, a, r0 + o, o));
    FirstRows(n, blk);
    var i := o + 2;
    while i < Min(o + n, T - r0)
      invariant o + 2 <= i
      invariant Progress(n, blk, b, i - o)
    {
      var row := VTab(n, q => -E(a, r0 + i, o + q));
      NextRow(n, blk, b, i - o, row);
      row := SubstituteRow(n, row, b);
      b := ReplaceRow(n, b, i - o, row);
      i := i + 1;
    }
    forall p, q | i - o <= p < n && 0 <= p && 0 <= q < n ensures E(blk, p, q) == 0.0 {
      assert E(blk, p, q) == E(a, r0 + o + p, o + q);
    }
    ZeroRows(n, blk, b, i - o);
    SubstitutionInverts(n, blk, b);
    b := Add(n, n, b, Id(n));
  }

  /** The chunk's tile of A is strictly lower triangular, as the A kernel writes it. */
  ghost predicate LowerChunk(n: nat, a: Mat, r0: nat) {
    StrictlyLower(4 * n, Load(4 * n, 4 * n, a, r0, 0))
  }

  lemma BlockOfChunk(n: nat, a: Mat, r0: nat, b0: nat, c0: nat)
    requires b0 + n <= 4 * n && c0 + n <= 4 * n
    ensures Block(n, Load(4 * n, 4 * n, a, r0, 0), b0, c0) == Block(n, a, r0 + b0, c0)
  {
    var x, y := Block(n, Load(4 * n, 4 * n, a, r0, 0), b0, c0), Block(n, a, r0 + b0, c0);
    forall p, q | 0 <= p < n && 0 <= q < n ensures E(x, p, q) == E(y, p, q) {
      assert E(x, p, q) == E(Load(4 * n, 4 * n, a, r0, 0), b0 + p, c0 + q);
    }
    MatExt(x, y, n, n);
  }

  lemma LowerBlock(n: nat, a: Mat, r0: nat, o: nat)
    requires LowerChunk(n, a, r0) && o + n <= 4 * n
    ensures StrictlyLower(n, Block(n, a, r0 + o, o))
  {
    var blk := Block(n, a, r0 + o, o);
    forall i, j | 0 <= i <= j < n ensures E(blk, i, j) == 0.0 {
      assert E(Load(4 * n, 4 * n, a, r0, 0), o + i, o + j) == 0.0;
    }
  }

  /** All ten blocks, as the program computes them before storing. */
  method ComputeBlocks(n: nat, a: Mat, T: nat, r0: nat) returns (t: TenBlocks)
    requires |a| == T && LowerChunk(n, a, r0)
    ensures BlockDims(n, t)
    ensures DiagonalBlocks(n, Load(4 * n, 4 * n, a, r0, 0), t) && LowerBlocks(n, Load(4 * n, 4 * n, a, r0, 0), t)
  {
    hide Mul, UnitLower, Id, Block, Load, StrictlyLower, Neg, Add, E, Dim;
    LowerBlock(n, a, r0, 0);
    LowerBlock(n, a, r0, n);
    LowerBlock(n, a, r0, 2 * n);
    LowerBlock(n, a, r0, 3 * n);
    var b11 := DiagonalBlock(n, a, T, r0, 0);
    var b22 := DiagonalBlock(n, a, T, r0, n);
    var b33 := DiagonalBlock(n, a, T, r0, 2 * n);
    var b44 := DiagonalBlock(n, a, T, r0, 3 * n);
    var a21, a31, a32 := Block(n, a, r0 + n, 0), Block(n, a, r0 + 2 * n, 0), Block(n, a, r0 + 2 * n, n);
    var a41, a42, a43 := Block(n, a, r0 + 3 * n, 0), Block(n, a, r0 + 3 * n, n), Block(n, a, r0 + 3 * n, 2 * n);
    var b21 := Neg(n, n, Times(n, Times(n, b22, a21), b11));
    var b32 := Neg(n, n, Times(n, Times(n, b33, a32), b22));
    var b43 := Neg(n, n, Times(n, Times(n, b44, a43), b33));
    var b31 := Neg(n, n, Times(n, b33, Add(n, n, Times(n, a31, b11), Times(n, a32, b21))));
    var b42 := Neg(n, n, Times(n, b44, Add(n, n, Times(n, a42, b22), Times(n, a43, b32))));
    var b41 := Neg(n, n, Times(n, b44, Add(n, n, Add(n, n, Times(n, a41, b11), Times(n, a42, b21)),
                                           Times(n, a43, b31))));
    t := TenBlocks(b11, b22, b33, b44, b21, b32, b43, b31, b42, b41);
    BlocksOfChunk(n, a, r0, t);
  }

  /** The same blocks read out of the chunk's whole tile. */
  lemma BlocksOfChunk(n: nat, a: Mat, r0: nat, t: TenBlocks)
    requires Dim(t.b11, n, n) && Dim(t.b22, n, n) && Dim(t.b33, n, n) && Dim(t.b44, n, n)
    requires Times(n, UnitLower(n, Block(n, a, r0 + 0, 0)), t.b11) == Id(n)
    requires Times(n, UnitLower(n, Block(n, a, r0 + n, n)), t.b22) == Id(n)
    requires Times(n, UnitLower(n, Block(n, a, r0 + 2 * n, 2 * n)), t.b33) == Id(n)
    requires Times(n, UnitLower(n, Block(n, a, r0 + 3 * n, 3 * n)), t.b44) == Id(n)
    requires LowerFormulas(n, t, Block(n, a, r0 + n, 0), Block(n, a, r0 + 2 * n, 0), Block(n, a, r0 + 2 * n, n),
                           Block(n, a, r0 + 3 * n, 0), Block(n, a, r0 + 3 * n, n), Block(n, a, r0 + 3 * n, 2 * n))
    ensures BlockDims(n, t)
    ensures DiagonalBlocks(n, Load(4 * n, 4 * n, a, r0, 0), t) && LowerBlocks(n, Load(4 * n, 4 * n, a, r0, 0), t)
  {
    hide Mul, UnitLower, Id, Block, Load, Neg, Add, Dim;
    BlockOfChunk(n, a, r0, 0, 0);
    BlockOfChunk(n, a, r0, n, n);
    BlockOfChunk(n, a, r0, 2 * n, 2 * n);
    BlockOfChunk(n, a, r0, 3 * n, 3 * n);
    BlockOfChunk(n, a, r0, n, 0);
    BlockOfChunk(n, a, r0, 2 * n, 0);
    BlockOfChunk(n, a, r0, 2 * n, n);
    BlockOfChunk(n, a, r0, 3 * n, 0);
    BlockOfChunk(n, a, r0, 3 * n, n);
    BlockOfChunk(n, a, r0, 3 * n, 2 * n);
    forall x ensures Dim(Neg(n, n, x), n, n) { NegDim(n, x); }
  }

  lemma NegDim(n: nat, x: Mat)
    ensures Dim(Neg(n, n, x), n, n)
  {
  }

  /** Is entry (i, j) of the chunk in one of the ten blocks on or below the block diagonal? */
  ghost predicate InTenBlocks(n: nat, i: int, j: int) {
    Corner(n, j) <= Corner(n, i)
  }

  /** The ten boundary-checked stores; blocks above the diagonal are left alone. */
  method StoreBlocks(n: nat, t: TenBlocks, Ai: array3<real>, bos: nat, T: nat, h: nat, r0: nat)
    requires bos + T <= Ai.Length0 && h < Ai.Length1 && Ai.Length2 == 4 * n
    modifies Ai
    ensures forall tok, hh, j :: In3(Ai, tok, hh, j) ==>
      Ai[tok, hh, j] == if Covered(bos, T, h, r0, 0, 4 * n, 4 * n, tok, hh, j) && InTenBlocks(n, tok - bos - r0, j)
        then E(Pick(n, t, Corner(n, tok - bos - r0), Corner(n, j)),
               tok - bos - r0 - Corner(n, tok - bos - r0), j - Corner(n, j))
        else old(Ai[tok, hh, j])
  {
    hide E;
    StoreBlock(Ai, bos, T, h, r0, 0, n, n, t.b11);
    StoreBlock(Ai, bos, T, h, r0 + n, n, n, n, t.b22);
    StoreBlock(Ai, bos, T, h, r0 + 2 * n, 2 * n, n, n, t.b33);
    StoreBlock(Ai, bos, T, h, r0 + 3 * n, 3 * n, n, n, t.b44);
    StoreBlock(Ai, bos, T, h, r0 + n, 0, n, n, t.b21);
    StoreBlock(Ai, bos, T, h, r0 + 2 * n, 0, n, n, t.b31);
    StoreBlock(Ai, bos, T, h, r0 + 2 * n, n, n, n, t.b32);
    StoreBlock(Ai, bos, T, h, r0 + 3 * n, 0, n, n, t.b41);
    StoreBlock(Ai, bos, T, h, r0 + 3 * n, n, n, n, t.b42);
    StoreBlock(Ai, bos, T, h, r0 + 3 * n, 2 * n, n, n, t.b43);
  }

  /** Before the program runs, the blocks of its tile above the block diagonal hold zero. */
  ghost predicate UpperZero(n: nat, x: Mat, L: int) {
    forall i, j :: 0 <= i < L && 0 <= j < 4 * n && !InTenBlocks(n, i, j) ==> E(x, i, j) == 0.0
  }

  /** The tile b inverts the first L rows of I + a from both sides. */
  ghost predicate Inverse(m: nat, L: int, a: Mat, b: Mat) {
    && InvertsRows(m, L, a, b)
    && forall i, j :: 0 <= i < L && 0 <= j < L ==> RowCol(m, UnitLower(m, a), b, i, j) == if i == j then 1.0 else 0.0
  }

  /** A tile that agrees with the full inverse on its first L rows inverts those rows. */
  lemma LeadingRows(m: nat, L: int, a: Mat, g: Mat, b: Mat)
    requires L <= m && StrictlyLower(m, a)
    requires Mul(m, m, m, UnitLower(m, a), g) == Id(m) && Mul(m, m, m, g, UnitLower(m, a)) == Id(m)
    requires forall i, j :: 0 <= i < L && 0 <= j < m ==> E(b, i, j) == E(g, i, j)
    ensures Inverse(m, L, a, b)
  {
    hide E, UnitLower, Mul, Id, RowCol, StrictlyLower;
    var u := UnitLower(m, a);
    IdDim(m);
    forall i, j | 0 <= i < L && 0 <= j < m ensures RowCol(m, b, u, i, j) == if i == j then 1.0 else 0.0 {
      MulEntry(m, m, m, g, u, i, j);
      SameRow(m, b, g, u, i, j);
    }
    forall i, j | 0 <= i < L && 0 <= j < L ensures RowCol(m, u, b, i, j) == if i == j then 1.0 else 0.0 {
      MulEntry(m, m, m, u, g, i, j);
      LowerRow(m, a, b, i, j);
      LowerRow(m, a, g, i, j);
      SumExt(i, k => E(a, i, k) * E(b, k, j), k => E(a, i, k) * E(g, k, j));
    }
  }

  lemma SameRow(m: nat, b: Mat, g: Mat, u: Mat, i: nat, j: nat)
    requires forall k :: 0 <= k < m ==> E(b, i, k) == E(g, i, k)
    ensures RowCol(m, b, u, i, j) == RowCol(m, g, u, i, j)
  {
    hide E;
    SumExt(m, k => E(b, i, k) * E(u, k, j), k => E(g, i, k) * E(u, k, j));
  }

  lemma AssembleEntry(n: nat, t: TenBlocks, i: nat, j: nat)
    requires i < 4 * n && j < 4 * n
    ensures InTenBlocks(n, i, j) ==>
      E(Assemble(n, t), i, j) == E(Pick(n, t, Corner(n, i), Corner(n, j)), i - Corner(n, i), j - Corner(n, j))
    ensures !InTenBlocks(n, i, j) ==> E(Assemble(n, t), i, j) == 0.0
  {
  }

  /** Program (chunk i_t, head h). */
  method Program(n: nat, A: array3<real>, Ai: array3<real>, bos: nat, T: nat, h: nat, iT: nat)
    requires A != Ai && A.Length2 == 4 * n && Ai.Length2 == 4 * n
    requires bos + T <= A.Length0 && h < A.Length1 && bos + T <= Ai.Length0 && h < Ai.Length1
    requires iT * (4 * n) < T
    requires LowerChunk(n, View(A, bos, T, h), iT * (4 * n))
    requires UpperZero(n, Load(4 * n, 4 * n, View(Ai, bos, T, h), iT * (4 * n), 0), Rows(T, iT * (4 * n), 4 * n))
    modifies Ai
    ensures UpperZero(n, Load(4 * n, 4 * n, View(Ai, bos, T, h), iT * (4 * n), 0), Rows(T, iT * (4 * n), 4 * n))
    ensures var r0 := iT * (4 * n);
            Inverse(4 * n, Rows(T, r0, 4 * n), Load(4 * n, 4 * n, View(A, bos, T, h), r0, 0),
                    Load(4 * n, 4 * n, View(Ai, bos, T, h), r0, 0))
    ensures forall t, hh, j :: In3(Ai, t, hh, j) && !Covered(bos, T, h, iT * (4 * n), 0, 4 * n, 4 * n, t, hh, j) ==>
      Ai[t, hh, j] == old(Ai[t, hh, j])
  {
    hide E, Inverse, Mul, UnitLower, Id, StrictlyLower, Pick, Assemble, Corner, DiagonalBlocks, LowerFormulas,
      LowerBlocks, BlockDims;
    var r0 := iT * (4 * n);
    var a := View(A, bos, T, h);
    ghost var chunk, before := Load(4 * n, 4 * n, a, r0, 0), Load(4 * n, 4 * n, View(Ai, bos, T, h), r0, 0);
    var t := ComputeBlocks(n, a, T, r0);
    StoreBlocks(n, t, Ai, bos, T, h, r0);
    ghost var L, b := Rows(T, r0, 4 * n), Load(4 * n, 4 * n, View(Ai, bos, T, h), r0, 0);
    forall i, j | 0 <= i < L && 0 <= j < 4 * n
      ensures E(b, i, j) == E(Assemble(n, t), i, j)
      ensures !InTenBlocks(n, i, j) ==> E(b, i, j) == 0.0
    {
      LoadAt(4 * n, 4 * n, View(Ai, bos, T, h), r0, 0, i, j);
      assert E(before, i, j) == old(E(View(Ai, bos, T, h), r0 + i, j));
      AssembleEntry(n, t, i, j);
      assert In3(Ai, bos + r0 + i, h, j);
      assert old(E(View(Ai, bos, T, h), r0 + i, j)) == old(Ai[bos + r0 + i, h, j]);
    }
    AssembledInverts(n, chunk, t);
    LeadingRows(4 * n, L, chunk, Assemble(n, t), b);
  }
}
