/**
 Inverting a unit lower triangular matrix by forward substitution inside the four diagonal blocks and
 block products below them: why the ten blocks together are the inverse, from both sides. The block
 size n is 16 in the kernel; nothing depends on that.
 */
module TriangularInverse {
  import opened Sums
  import opened Matrices
  import opened ChunkTheorem
  import opened Tiles

  ghost predicate StrictlyLower(n: nat, a: Mat) {
    forall i, j :: 0 <= i <= j < n ==> E(a, i, j) == 0.0
  }

  /** The n x n block whose corner is at (r0, c0); what a boundary-checked block load reads. */
  function Block(n: nat, x: Mat, r0: int, c0: int): (b: Mat) {
    Load(n, n, x, r0, c0)
  }

  // ----- one diagonal block -----

  /** Row p obeys the substitution: row = -a_row - a_row N. */
  ghost predicate SubstitutedRow(n: nat, a: Mat, nl: Mat, p: int) {
    forall q :: 0 <= q < n ==> E(nl, p, q) == -E(a, p, q) + Sum(n, m => -E(a, p, m) * E(nl, m, q))
  }

  /** When every row is substituted, N + I is a right inverse of I + a. */
  lemma SubstitutionInverts(n: nat, a: Mat, nl: Mat)
    requires forall p :: 0 <= p < n ==> SubstitutedRow(n, a, nl, p)
    ensures Mul(n, n, n, UnitLower(n, a), Add(n, n, nl, Id(n))) == Id(n)
  {
    hide E, UnitLower, Add, Id;
    var l := Mul(n, n, n, UnitLower(n, a), Add(n, n, nl, Id(n)));
    IdDim(n);
    forall p, q | 0 <= p < n && 0 <= q < n ensures E(l, p, q) == E(Id(n), p, q) {
      assert SubstitutedRow(n, a, nl, p);
      SubstitutionAt(n, a, nl, p, q);
    }
    MatExt(l, Id(n), n, n);
  }

  lemma IdDim(n: nat)
    ensures Dim(Id(n), n, n)
    ensures forall p, q :: 0 <= p < n && 0 <= q < n ==> E(Id(n), p, q) == if p == q then 1.0 else 0.0
  {
  }

  lemma SubstitutionAt(n: nat, a: Mat, nl: Mat, p: nat, q: nat)
    requires p < n && q < n
    requires E(nl, p, q) == -E(a, p, q) + Sum(n, m => -E(a, p, m) * E(nl, m, q))
    ensures Sum(n, m => E(UnitLower(n, a), p, m) * E(Add(n, n, nl, Id(n)), m, q)) == if p == q then 1.0 else 0.0
  {
    // (I + a)(N + I) = I (N + I) + a N + a I, entry by entry
    hide E, UnitLower, Add, Id;
    SumsOfProduct(n, a, nl, p, q);
    PlusIdAt(n, nl, p, q);
    var neg, an := m => -E(a, p, m) * E(nl, m, q), m => E(a, p, m) * E(nl, m, q);
    forall m | 0 <= m < n ensures neg(m) == -1.0 * an(m) { NegProduct(E(a, p, m), E(nl, m, q)); }
    SumFactor(n, neg, -1.0, an);
  }

  lemma PlusIdAt(n: nat, nl: Mat, p: nat, q: nat)
    requires p < n && q < n
    ensures E(Add(n, n, nl, Id(n)), p, q) == E(nl, p, q) + if p == q then 1.0 else 0.0
  {
  }

  lemma SumsOfProduct(n: nat, a: Mat, nl: Mat, p: nat, q: nat)
    requires p < n && q < n
    ensures Sum(n, m => E(UnitLower(n, a), p, m) * E(Add(n, n, nl, Id(n)), m, q))
         == E(Add(n, n, nl, Id(n)), p, q) + Sum(n, m => E(a, p, m) * E(nl, m, q)) + E(a, p, q)
  {
    hide *;
    var u, d := UnitLower(n, a), Add(n, n, nl, Id(n));
    var id := m => if m == p then E(d, m, q) else 0.0;
    var an, aI := m => E(a, p, m) * E(nl, m, q), m => if m == q then E(a, p, m) else 0.0;
    var rest := m => 1.0 * an(m) + 1.0 * aI(m);
    var f := m => E(u, p, m) * E(d, m, q);
    forall m | 0 <= m < n ensures f(m) == 1.0 * id(m) + 1.0 * rest(m) {
      ProductTerm(n, a, nl, p, q, m);
    }
    SumCombine(n, f, 1.0, id, 1.0, rest);
    SumCombine(n, rest, 1.0, an, 1.0, aI);
    SumSingle(n, p, id);
    SumSingle(n, q, aI);
  }

  lemma NegProduct(x: real, y: real)
    ensures -x * y == -1.0 * (x * y)
  {
  }

  lemma ProductTerm(n: nat, a: Mat, nl: Mat, p: nat, q: nat, m: nat)
    requires p < n && q < n && m < n
    ensures E(UnitLower(n, a), p, m) * E(Add(n, n, nl, Id(n)), m, q)
         == (if m == p then E(Add(n, n, nl, Id(n)), m, q) else 0.0)
            + E(a, p, m) * E(nl, m, q) + (if m == q then E(a, p, m) else 0.0)
  {
    Expand(if p == m then 1.0 else 0.0, E(a, p, m), E(nl, m, q), if m == q then 1.0 else 0.0);
  }

  lemma Expand(i: real, x: real, y: real, k: real)
    ensures (i + x) * (y + k) == i * (y + k) + x * y + x * k
  {
  }

  // ----- blocks below the diagonal -----

  /** -(D R) completes the block equation U X + R = 0 whenever U D = I. */
  lemma BelowDiagonal(n: nat, u: Mat, d: Mat, r: Mat)
    requires Mul(n, n, n, u, d) == Id(n) && Dim(r, n, n)
    ensures Mul(n, n, n, u, Neg(n, n, Mul(n, n, n, d, r))) == Neg(n, n, r)
  {
    hide *;
    MulNegRight(n, n, n, u, Mul(n, n, n, d, r));
    MulAssoc(n, n, n, n, u, d, r);
    MulIdLeft(n, n, r);
  }

  lemma SumBlocks(n: nat, f: int -> real)
    ensures Sum(4 * n, f) == Sum(n, f) + Sum(n, l => f(n + l)) + Sum(n, l => f(2 * n + l)) + Sum(n, l => f(3 * n + l))
  {
    SumSplit(n, n, f);
    SumSplit(2 * n, n, f);
    SumSplit(3 * n, n, f);
  }

  /** A full row-times-column is four block row-times-columns. */
  lemma RowColBlocks(n: nat, x: Mat, y: Mat, r0: nat, c0: nat, p: nat, q: nat)
    requires p < n && q < n
    ensures RowCol(4 * n, x, y, r0 + p, c0 + q)
         == RowCol(n, Block(n, x, r0, 0), Block(n, y, 0, c0), p, q)
          + RowCol(n, Block(n, x, r0, n), Block(n, y, n, c0), p, q)
          + RowCol(n, Block(n, x, r0, 2 * n), Block(n, y, 2 * n, c0), p, q)
          + RowCol(n, Block(n, x, r0, 3 * n), Block(n, y, 3 * n, c0), p, q)
  {
    hide *;
    var f := k => E(x, r0 + p, k) * E(y, k, c0 + q);
    RowColIs(4 * n, x, y, r0 + p, c0 + q);
    SumBlocks(n, f);
    BlockRowCol(n, x, y, r0, 0, c0, p, q, f);
    BlockRowCol(n, x, y, r0, n, c0, p, q, l => f(n + l));
    BlockRowCol(n, x, y, r0, 2 * n, c0, p, q, l => f(2 * n + l));
    BlockRowCol(n, x, y, r0, 3 * n, c0, p, q, l => f(3 * n + l));
  }

  lemma BlockRowCol(n: nat, x: Mat, y: Mat, r0: nat, b0: nat, c0: nat, p: nat, q: nat, f: int -> real)
    requires p < n && q < n
    requires forall l :: 0 <= l < n ==> f(l) == E(x, r0 + p, b0 + l) * E(y, b0 + l, c0 + q)
    ensures Sum(n, f) == RowCol(n, Block(n, x, r0, b0), Block(n, y, b0, c0), p, q)
  {
    hide E;
    var xb, yb := Block(n, x, r0, b0), Block(n, y, b0, c0);
    var g := l => E(xb, p, l) * E(yb, l, q);
    forall l | 0 <= l < n ensures f(l) == g(l) {
      assert E(xb, p, l) == E(x, r0 + p, b0 + l);
      assert E(yb, l, q) == E(y, b0 + l, c0 + q);
    }
    RowColIs(n, xb, yb, p, q);
    SumExt(n, f, g);
  }

  // ----- a right inverse is a left inverse -----

  /** I + a is injective: row by row the products determine the factor. */
  lemma RowDetermined(n: nat, a: Mat, x: Mat, y: Mat, i: nat, j: nat)
    requires StrictlyLower(n, a) && i < n
    requires forall m :: 0 <= m < i ==> E(x, m, j) == E(y, m, j)
    requires RowCol(n, UnitLower(n, a), x, i, j) == RowCol(n, UnitLower(n, a), y, i, j)
    ensures E(x, i, j) == E(y, i, j)
  {
    LowerRow(n, a, x, i, j);
    LowerRow(n, a, y, i, j);
    SumExt(i, m => E(a, i, m) * E(x, m, j), m => E(a, i, m) * E(y, m, j));
  }

  lemma LowerRow(n: nat, a: Mat, x: Mat, i: nat, j: nat)
    requires StrictlyLower(n, a) && i < n
    ensures RowCol(n, UnitLower(n, a), x, i, j) == Sum(i, m => E(a, i, m) * E(x, m, j)) + E(x, i, j)
  {
    hide *;
    var f := m => E(UnitLower(n, a), i, m) * E(x, m, j);
    forall m | 0 <= m < n
      ensures f(m) == if m < i then E(a, i, m) * E(x, m, j) else if m == i then E(x, i, j) else 0.0
    {
      UnitLowerEntry(n, a, i, m);
    }
    SumTail(i + 1, n, f);
    SumLast(i, f);
    SumExt(i, f, m => E(a, i, m) * E(x, m, j));
    RowColIs(n, UnitLower(n, a), x, i, j);
  }

  lemma UnitLowerEntry(n: nat, a: Mat, i: nat, m: nat)
    requires StrictlyLower(n, a) && i < n && m < n
    ensures E(UnitLower(n, a), i, m) == if m < i then E(a, i, m) else if m == i then 1.0 else 0.0
  {
  }

  lemma {:induction false} RowsDetermined(n: nat, a: Mat, x: Mat, y: Mat, i: nat)
    requires StrictlyLower(n, a) && i <= n
    requires forall p, q :: 0 <= p < n && 0 <= q < n ==>
      RowCol(n, UnitLower(n, a), x, p, q) == RowCol(n, UnitLower(n, a), y, p, q)
    ensures forall p, q :: 0 <= p < i && 0 <= q < n ==> E(x, p, q) == E(y, p, q)
  {
    hide E, RowCol, UnitLower;
    if i > 0 {
      var r := i - 1;
      RowsDetermined(n, a, x, y, r);
      forall q | 0 <= q < n ensures E(x, r, q) == E(y, r, q) {
        RowDetermined(n, a, x, y, r, q);
      }
    }
  }

  lemma LeftFromRight(n: nat, a: Mat, g: Mat)
    requires StrictlyLower(n, a) && Dim(g, n, n)
    requires Mul(n, n, n, UnitLower(n, a), g) == Id(n)
    ensures Mul(n, n, n, g, UnitLower(n, a)) == Id(n)
  {
    hide E, RowCol, UnitLower, Mul, Id, Dim, StrictlyLower;
    var u := UnitLower(n, a);
    var gu := Mul(n, n, n, g, u);
    UnitLowerDim(n, a);
    IdDim(n);
    calc {
      Mul(n, n, n, u, gu);
      { MulAssoc(n, n, n, n, u, g, u); }
      Mul(n, n, n, Id(n), u);
      { MulIdLeft(n, n, u); }
      u;
      { MulIdRight(n, n, u); }
      Mul(n, n, n, u, Id(n));
    }
    forall p, q | 0 <= p < n && 0 <= q < n ensures RowCol(n, u, gu, p, q) == RowCol(n, u, Id(n), p, q) {
      MulEntry(n, n, n, u, gu, p, q);
      MulEntry(n, n, n, u, Id(n), p, q);
    }
    RowsDetermined(n, a, gu, Id(n), n);
    MulDims(n, n, n, g, u);
    MatExt(gu, Id(n), n, n);
  }

  lemma UnitLowerDim(n: nat, a: Mat)
    ensures Dim(UnitLower(n, a), n, n)
  {
  }

  // ----- putting the ten blocks together -----

  /** The ten stored blocks, named by block row and block column counted from 1. */
  datatype TenBlocks = TenBlocks(b11: Mat, b22: Mat, b33: Mat, b44: Mat, b21: Mat, b32: Mat, b43: Mat,
                                 b31: Mat, b42: Mat, b41: Mat)

  /** The block holding row offset r0 and column offset c0; none above the diagonal. */
  function Pick(n: nat, t: TenBlocks, r0: int, c0: int): Mat {
    if r0 == 0 then (if c0 == 0 then t.b11 else [])
    else if r0 == n then (if c0 == 0 then t.b21 else if c0 == n then t.b22 else [])
    else if r0 == 2 * n then (if c0 == 0 then t.b31 else if c0 == n then t.b32 else if c0 == 2 * n then t.b33 else [])
    else (if c0 == 0 then t.b41 else if c0 == n then t.b42 else if c0 == 2 * n then t.b43 else t.b44)
  }

  /** Offset of the block that index i falls into. */
  function Corner(n: nat, i: int): int {
    if i < n then 0 else if i < 2 * n then n else if i < 3 * n then 2 * n else 3 * n
  }

  function Assemble(n: nat, t: TenBlocks): (g: Mat) {
    Tab(4 * n, 4 * n, (i, j) => E(Pick(n, t, Corner(n, i), Corner(n, j)), i - Corner(n, i), j - Corner(n, j)))
  }

  ghost predicate BlockDims(n: nat, t: TenBlocks) {
    && Dim(t.b11, n, n) && Dim(t.b22, n, n) && Dim(t.b33, n, n) && Dim(t.b44, n, n) && Dim(t.b21, n, n)
    && Dim(t.b32, n, n) && Dim(t.b43, n, n) && Dim(t.b31, n, n) && Dim(t.b42, n, n) && Dim(t.b41, n, n)
  }

  /** Each diagonal block inverts its own block of I + a. */
  ghost predicate DiagonalBlocks(n: nat, a: Mat, t: TenBlocks) {
    && Mul(n, n, n, UnitLower(n, Block(n, a, 0, 0)), t.b11) == Id(n)
    && Mul(n, n, n, UnitLower(n, Block(n, a, n, n)), t.b22) == Id(n)
    && Mul(n, n, n, UnitLower(n, Block(n, a, 2 * n, 2 * n)), t.b33) == Id(n)
    && Mul(n, n, n, UnitLower(n, Block(n, a, 3 * n, 3 * n)), t.b44) == Id(n)
  }

  function Times(n: nat, x: Mat, y: Mat): Mat {
    Mul(n, n, n, x, y)
  }

  /** The six block formulas below the diagonal, grouped as the kernel groups them. */
  ghost predicate LowerFormulas(n: nat, t: TenBlocks, a21: Mat, a31: Mat, a32: Mat, a41: Mat, a42: Mat, a43: Mat) {
    && t.b21 == Neg(n, n, Times(n, Times(n, t.b22, a21), t.b11))
    && t.b32 == Neg(n, n, Times(n, Times(n, t.b33, a32), t.b22))
    && t.b43 == Neg(n, n, Times(n, Times(n, t.b44, a43), t.b33))
    && t.b31 == Neg(n, n, Times(n, t.b33, Add(n, n, Times(n, a31, t.b11), Times(n, a32, t.b21))))
    && t.b42 == Neg(n, n, Times(n, t.b44, Add(n, n, Times(n, a42, t.b22), Times(n, a43, t.b32))))
    && t.b41 == Neg(n, n, Times(n, t.b44, Add(n, n, Add(n, n, Times(n, a41, t.b11), Times(n, a42, t.b21)),
                                              Times(n, a43, t.b31))))
  }

  ghost predicate LowerBlocks(n: nat, a: Mat, t: TenBlocks) {
    LowerFormulas(n, t, Block(n, a, n, 0), Block(n, a, 2 * n, 0), Block(n, a, 2 * n, n),
                  Block(n, a, 3 * n, 0), Block(n, a, 3 * n, n), Block(n, a, 3 * n, 2 * n))
  }

  ghost predicate Cornered(n: nat, r0: int) {
    r0 == 0 || r0 == n || r0 == 2 * n || r0 == 3 * n
  }

  lemma BlockAt(n: nat, x: Mat, r0: int, c0: int, p: nat, q: nat)
    requires p < n && q < n
    ensures E(Block(n, x, r0, c0), p, q) == E(x, r0 + p, c0 + q)
  {
  }

  lemma BlockDim(n: nat, x: Mat, r0: int, c0: int)
    ensures Dim(Block(n, x, r0, c0), n, n)
  {
  }

  lemma AssembleAt(n: nat, t: TenBlocks, r0: nat, c0: nat, p: nat, q: nat)
    requires Cornered(n, r0) && Cornered(n, c0) && p < n && q < n
    ensures E(Assemble(n, t), r0 + p, c0 + q) == E(Pick(n, t, r0, c0), p, q)
  {
    hide Pick;
    assert Corner(n, r0 + p) == r0 && Corner(n, c0 + q) == c0;
  }

  lemma PickDim(n: nat, t: TenBlocks, r0: nat, c0: nat)
    requires Cornered(n, r0) && Cornered(n, c0) && BlockDims(n, t) && n > 0
    ensures r0 >= c0 ==> Dim(Pick(n, t, r0, c0), n, n)
    ensures r0 < c0 ==> Pick(n, t, r0, c0) == []
  {
    hide Dim;
  }

  lemma BlockOfAssembled(n: nat, t: TenBlocks, r0: nat, c0: nat)
    requires Cornered(n, r0) && Cornered(n, c0) && BlockDims(n, t) && n > 0
    ensures r0 >= c0 ==> Block(n, Assemble(n, t), r0, c0) == Pick(n, t, r0, c0)
    ensures r0 < c0 ==> forall p, q :: 0 <= p < n && 0 <= q < n ==> E(Block(n, Assemble(n, t), r0, c0), p, q) == 0.0
  {
    hide Block, Assemble, Pick, E, Dim, BlockDims;
    var b := Block(n, Assemble(n, t), r0, c0);
    forall p, q | 0 <= p < n && 0 <= q < n ensures E(b, p, q) == E(Pick(n, t, r0, c0), p, q) {
      BlockAt(n, Assemble(n, t), r0, c0, p, q);
      AssembleAt(n, t, r0, c0, p, q);
    }
    PickDim(n, t, r0, c0);
    BlockDim(n, Assemble(n, t), r0, c0);
    if r0 >= c0 {
      MatExt(b, Pick(n, t, r0, c0), n, n);
    } else {
      forall p, q ensures E([], p, q) == 0.0 { EmptyAt(p, q); }
    }
  }

  lemma EmptyAt(p: int, q: int)
    ensures E([], p, q) == 0.0
  {
  }

  lemma UnitLowerAt(n: nat, a: Mat, i: nat, j: nat)
    requires i < n && j < n
    ensures E(UnitLower(n, a), i, j) == E(a, i, j) + if i == j then 1.0 else 0.0
  {
  }

  lemma BlockOfUnitLower(n: nat, a: Mat, r0: nat, c0: nat)
    requires Cornered(n, r0) && Cornered(n, c0) && StrictlyLower(4 * n, a)
    ensures r0 == c0 ==> Block(n, UnitLower(4 * n, a), r0, c0) == UnitLower(n, Block(n, a, r0, c0))
    ensures r0 > c0 ==> Block(n, UnitLower(4 * n, a), r0, c0) == Block(n, a, r0, c0)
    ensures r0 < c0 ==> forall p, q :: 0 <= p < n && 0 <= q < n ==>
      E(Block(n, UnitLower(4 * n, a), r0, c0), p, q) == 0.0
  {
    hide Block, UnitLower, E, Dim;
    var u := UnitLower(4 * n, a);
    var b, ab := Block(n, u, r0, c0), Block(n, a, r0, c0);
    forall p, q | 0 <= p < n && 0 <= q < n
      ensures E(b, p, q) == E(ab, p, q) + if r0 + p == c0 + q then 1.0 else 0.0
      ensures E(UnitLower(n, ab), p, q) == E(ab, p, q) + if p == q then 1.0 else 0.0
      ensures r0 < c0 ==> E(ab, p, q) == 0.0
    {
      BlockAt(n, u, r0, c0, p, q);
      BlockAt(n, a, r0, c0, p, q);
      UnitLowerAt(4 * n, a, r0 + p, c0 + q);
      UnitLowerAt(n, ab, p, q);
    }
    BlockDim(n, u, r0, c0);
    BlockDim(n, a, r0, c0);
    UnitLowerDim(n, ab);
    if r0 == c0 {
      MatExt(b, UnitLower(n, ab), n, n);
    } else if r0 > c0 {
      MatExt(b, ab, n, n);
    }
  }

  // ----- the assembled matrix inverts I + a -----

  /** A block below the diagonal cancels the blocks already placed in its column: one, two or three of them. */
  lemma BelowOne(n: nat, u: Mat, d: Mat, x: Mat, a1: Mat, g1: Mat, p: nat, q: nat)
    requires Times(n, u, d) == Id(n) && p < n && q < n
    requires x == Neg(n, n, Times(n, Times(n, d, a1), g1))
    ensures RowCol(n, u, x, p, q) == -RowCol(n, a1, g1, p, q)
  {
    hide E, Neg, RowCol, Mul, Dim, Id;
    MulAssoc(n, n, n, n, d, a1, g1);
    MulDims(n, n, n, a1, g1);
    BelowDiagonal(n, u, d, Times(n, a1, g1));
    MulEntry(n, n, n, u, x, p, q);
    NegAt(n, Times(n, a1, g1), p, q);
    MulEntry(n, n, n, a1, g1, p, q);
  }

  lemma BelowTwo(n: nat, u: Mat, d: Mat, x: Mat, a1: Mat, g1: Mat, a2: Mat, g2: Mat, p: nat, q: nat)
    requires Times(n, u, d) == Id(n) && p < n && q < n
    requires x == Neg(n, n, Times(n, d, Add(n, n, Times(n, a1, g1), Times(n, a2, g2))))
    ensures RowCol(n, u, x, p, q) == -(RowCol(n, a1, g1, p, q) + RowCol(n, a2, g2, p, q))
  {
    hide E, Neg, RowCol, Mul, Dim, Add, Id;
    var r := Add(n, n, Times(n, a1, g1), Times(n, a2, g2));
    AddAt(n, Times(n, a1, g1), Times(n, a2, g2), p, q);
    BelowDiagonal(n, u, d, r);
    MulEntry(n, n, n, u, x, p, q);
    NegAt(n, r, p, q);
    MulEntry(n, n, n, a1, g1, p, q);
    MulEntry(n, n, n, a2, g2, p, q);
  }

  lemma BelowThree(n: nat, u: Mat, d: Mat, x: Mat, a1: Mat, g1: Mat, a2: Mat, g2: Mat, a3: Mat, g3: Mat, p: nat, q: nat)
    requires Times(n, u, d) == Id(n) && p < n && q < n
    requires x == Neg(n, n, Times(n, d, Add(n, n, Add(n, n, Times(n, a1, g1), Times(n, a2, g2)), Times(n, a3, g3))))
    ensures RowCol(n, u, x, p, q) == -(RowCol(n, a1, g1, p, q) + RowCol(n, a2, g2, p, q) + RowCol(n, a3, g3, p, q))
  {
    hide E, Neg, RowCol, Mul, Dim, Add, Id;
    var two := Add(n, n, Times(n, a1, g1), Times(n, a2, g2));
    var r := Add(n, n, two, Times(n, a3, g3));
    AddAt(n, Times(n, a1, g1), Times(n, a2, g2), p, q);
    AddAt(n, two, Times(n, a3, g3), p, q);
    BelowDiagonal(n, u, d, r);
    MulEntry(n, n, n, u, x, p, q);
    NegAt(n, r, p, q);
    MulEntry(n, n, n, a1, g1, p, q);
    MulEntry(n, n, n, a2, g2, p, q);
    MulEntry(n, n, n, a3, g3, p, q);
  }

  lemma NegAt(n: nat, x: Mat, p: nat, q: nat)
    requires p < n && q < n
    ensures E(Neg(n, n, x), p, q) == -E(x, p, q)
  {
  }

  lemma AddAt(n: nat, x: Mat, y: Mat, p: nat, q: nat)
    requires p < n && q < n
    ensures Dim(Add(n, n, x, y), n, n)
    ensures E(Add(n, n, x, y), p, q) == E(x, p, q) + E(y, p, q)
  {
  }

  /** What block (b0) of block row r0 of I + a contributes against block column c0 of the assembled matrix. */
  function Contribution(n: nat, a: Mat, t: TenBlocks, r0: nat, b0: nat, c0: nat, p: int, q: int): real {
    if b0 > r0 || c0 > b0 then 0.0
    else if b0 == r0 then RowCol(n, UnitLower(n, Block(n, a, r0, r0)), Pick(n, t, r0, c0), p, q)
    else RowCol(n, Block(n, a, r0, b0), Pick(n, t, b0, c0), p, q)
  }

  lemma BlockProduct(n: nat, a: Mat, t: TenBlocks, r0: nat, b0: nat, c0: nat, p: nat, q: nat)
    requires Cornered(n, r0) && Cornered(n, b0) && Cornered(n, c0) && p < n && q < n
    requires StrictlyLower(4 * n, a) && BlockDims(n, t)
    ensures RowCol(n, Block(n, UnitLower(4 * n, a), r0, b0), Block(n, Assemble(n, t), b0, c0), p, q)
         == Contribution(n, a, t, r0, b0, c0, p, q)
  {
    hide Pick, Block, UnitLower, Assemble, E, RowCol, BlockDims, Dim;
    var x, y := Block(n, UnitLower(4 * n, a), r0, b0), Block(n, Assemble(n, t), b0, c0);
    BlockOfUnitLower(n, a, r0, b0);
    BlockOfAssembled(n, t, b0, c0);
    if b0 > r0 || c0 > b0 {
      SumZero(n, k => E(x, p, k) * E(y, k, q));
      RowColIs(n, x, y, p, q);
    }
  }

  lemma Contributions(n: nat, a: Mat, t: TenBlocks, r0: nat, c0: nat, p: nat, q: nat)
    requires Cornered(n, r0) && Cornered(n, c0) && p < n && q < n
    requires DiagonalBlocks(n, a, t) && LowerBlocks(n, a, t)
    ensures Contribution(n, a, t, r0, 0, c0, p, q) + Contribution(n, a, t, r0, n, c0, p, q)
          + Contribution(n, a, t, r0, 2 * n, c0, p, q) + Contribution(n, a, t, r0, 3 * n, c0, p, q)
         == if r0 == c0 && p == q then 1.0 else 0.0
  {
    hide Block, UnitLower, E, RowCol, Mul, Add, Neg, Id;
    var u2, u3, u4 := UnitLower(n, Block(n, a, n, n)), UnitLower(n, Block(n, a, 2 * n, 2 * n)),
        UnitLower(n, Block(n, a, 3 * n, 3 * n));
    var a21, a31, a32 := Block(n, a, n, 0), Block(n, a, 2 * n, 0), Block(n, a, 2 * n, n);
    var a41, a42, a43 := Block(n, a, 3 * n, 0), Block(n, a, 3 * n, n), Block(n, a, 3 * n, 2 * n);
    if r0 == c0 {
      MulEntry(n, n, n, UnitLower(n, Block(n, a, r0, r0)), Pick(n, t, r0, r0), p, q);
      IdDim(n);
    } else if r0 == n {
      if c0 == 0 { BelowOne(n, u2, t.b22, t.b21, a21, t.b11, p, q); }
    } else if r0 == 2 * n {
      if c0 == n { BelowOne(n, u3, t.b33, t.b32, a32, t.b22, p, q); }
      if c0 == 0 { BelowTwo(n, u3, t.b33, t.b31, a31, t.b11, a32, t.b21, p, q); }
    } else if r0 == 3 * n {
      if c0 == 2 * n { BelowOne(n, u4, t.b44, t.b43, a43, t.b33, p, q); }
      if c0 == n { BelowTwo(n, u4, t.b44, t.b42, a42, t.b22, a43, t.b32, p, q); }
      if c0 == 0 { BelowThree(n, u4, t.b44, t.b41, a41, t.b11, a42, t.b21, a43, t.b31, p, q); }
    }
  }

  lemma AssembledEntry(n: nat, a: Mat, t: TenBlocks, i: nat, j: nat)
    requires i < 4 * n && j < 4 * n
    requires StrictlyLower(4 * n, a) && BlockDims(n, t) && DiagonalBlocks(n, a, t) && LowerBlocks(n, a, t)
    ensures RowCol(4 * n, UnitLower(4 * n, a), Assemble(n, t), i, j) == if i == j then 1.0 else 0.0
  {
    hide Block, UnitLower, E, RowCol, Mul, Add, Neg, Assemble, Pick, Contribution, BlockDims, DiagonalBlocks,
      LowerBlocks, StrictlyLower;
    var u, g := UnitLower(4 * n, a), Assemble(n, t);
    var r0, c0 := Corner(n, i), Corner(n, j);
    var p, q := i - r0, j - c0;
    RowColBlocks(n, u, g, r0, c0, p, q);
    BlockProduct(n, a, t, r0, 0, c0, p, q);
    BlockProduct(n, a, t, r0, n, c0, p, q);
    BlockProduct(n, a, t, r0, 2 * n, c0, p, q);
    BlockProduct(n, a, t, r0, 3 * n, c0, p, q);
    Contributions(n, a, t, r0, c0, p, q);
  }

  /** The ten blocks are the two-sided inverse of I + a. */
  lemma AssembledInverts(n: nat, a: Mat, t: TenBlocks)
    requires StrictlyLower(4 * n, a) && BlockDims(n, t) && DiagonalBlocks(n, a, t) && LowerBlocks(n, a, t)
    ensures Mul(4 * n, 4 * n, 4 * n, UnitLower(4 * n, a), Assemble(n, t)) == Id(4 * n)
    ensures Mul(4 * n, 4 * n, 4 * n, Assemble(n, t), UnitLower(4 * n, a)) == Id(4 * n)
  {
    var m, u, g := 4 * n, UnitLower(4 * n, a), Assemble(n, t);
    hide Block, UnitLower, E, RowCol, Mul, Add, Neg, Pick, BlockDims, DiagonalBlocks, LowerBlocks, StrictlyLower, Id,
      Dim, Assemble;
    IdDim(m);
    MulDims(m, m, m, u, g);
    forall i, j | 0 <= i < m && 0 <= j < m ensures E(Mul(m, m, m, u, g), i, j) == E(Id(m), i, j) {
      AssembledEntry(n, a, t, i, j);
      MulEntry(m, m, m, u, g, i, j);
    }
    MatExt(Mul(m, m, m, u, g), Id(m), m, m);
    AssembleDim(n, t);
    LeftFromRight(m, a, g);
  }

  lemma AssembleDim(n: nat, t: TenBlocks)
    ensures Dim(Assemble(n, t), 4 * n, 4 * n)
  {
  }
}
