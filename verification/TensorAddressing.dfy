/**
 src/vt/tensor.cpp: strided tensors. Contiguous construction with its overflow checks, Offset as an
 order-preserving bijection onto [0, Numel), View, and chains of Slices. Where the code checks for int64
 overflow, so does the model; where it multiplies or adds unchecked, leaving int64 is an outcome of its own,
 with its exact condition. Addresses are in bytes and unbounded.
 */
module TensorAddressing {
  import opened Options

  const INT64_MAX := 0x7FFF_FFFF_FFFF_FFFF
  const INT64_MIN := -0x8000_0000_0000_0000
  const MAX_RANK := 4

  /** `esize` is the element size of the dtype. */
  datatype Tensor = Tensor(data: int, esize: nat, shape: seq<int>, stride: seq<int>)

  /** The result of an operation that may fail a check, or run into an unchecked int64 overflow. */
  datatype Attempt<T> = Value(value: T) | Fails | Overflows

  predicate InInt64(x: int) {
    INT64_MIN <= x <= INT64_MAX
  }

  predicate Positive(shape: seq<int>) {
    forall d :: 0 <= d < |shape| ==> shape[d] > 0
  }

  function Product(shape: seq<int>): int {
    if shape == [] then 1 else shape[0] * Product(shape[1..])
  }

  /** Row-major strides: the sizes of what lies behind each dimension. */
  function Strides(shape: seq<int>): (r: seq<int>)
    ensures |r| == |shape|
  {
    if shape == [] then [] else [Product(shape[1..])] + Strides(shape[1..])
  }

  predicate InBounds(shape: seq<int>, idx: seq<int>) {
    |idx| == |shape| && forall d :: 0 <= d < |idx| ==> 0 <= idx[d] < shape[d]
  }

  function OffsetOf(stride: seq<int>, idx: seq<int>): int
    requires |stride| == |idx|
  {
    if idx == [] then 0 else idx[0] * stride[0] + OffsetOf(stride[1..], idx[1..])
  }

  lemma MulPositive(a: int, b: int)
    requires a > 0 && b > 0
    ensures a * b >= a && a * b >= b
  {
  }

  lemma {:induction false} ProductPositive(shape: seq<int>)
    requires Positive(shape)
    ensures Product(shape) > 0
  {
    if shape != [] {
      ProductPositive(shape[1..]);
      MulPositive(shape[0], Product(shape[1..]));
    }
  }

  lemma SuffixProduct(shape: seq<int>, d: nat)
    requires Positive(shape) && d < |shape|
    ensures Product(shape[d..]) == shape[d] * Product(shape[d + 1..])
    ensures 0 < Product(shape[d + 1..]) <= Product(shape[d..])
  {
    assert shape[d..][1..] == shape[d + 1..];
    ProductPositive(shape[d + 1..]);
    MulPositive(shape[d], Product(shape[d + 1..]));
  }

  lemma {:induction false} SuffixBelow(shape: seq<int>, d: nat)
    requires Positive(shape) && d <= |shape|
    ensures 0 < Product(shape[d..]) <= Product(shape)
    decreases d
  {
    if d == 0 {
      assert shape[0..] == shape;
      ProductPositive(shape);
    } else {
      SuffixBelow(shape, d - 1);
      SuffixProduct(shape, d - 1);
    }
  }

  /** C++ division truncates toward zero. */
  function TruncDiv(n: nat, d: int): int
    requires d != 0
  {
    if d > 0 then n / d else -(n / -d)
  }

  /** MulFits: the product stays within int64, for a non-negative accumulator. */
  predicate MulFits(acc: int, dim: int) {
    dim == 0 || acc <= TruncDiv(INT64_MAX, dim)
  }

  lemma FitsExactly(acc: int, dim: int)
    requires acc > 0 && dim > 0
    ensures MulFits(acc, dim) <==> acc * dim <= INT64_MAX
  {
    var q, r := INT64_MAX / dim, INT64_MAX % dim;
    assert INT64_MAX == dim * q + r;
    if acc <= q { assert acc * dim <= q * dim; } else { assert acc * dim >= (q + 1) * dim; }
  }

  /** A negative dimension is refused, save the least int64 behind a zero: the quotient truncates to zero. */
  lemma FitsNegative(acc: int, dim: int)
    requires 0 <= acc && INT64_MIN <= dim < 0
    ensures MulFits(acc, dim) <==> acc == 0 && dim == INT64_MIN
  {
    if dim > INT64_MIN { assert INT64_MAX / -dim >= 1 by { QuotientAtLeast(INT64_MAX, -dim); } }
  }

  lemma QuotientAtLeast(n: int, d: int)
    requires 0 < d <= n
    ensures n / d >= 1
  {
  }

  lemma SuffixStrides(shape: seq<int>, d: nat)
    requires d < |shape|
    ensures Strides(shape[d..]) == [Product(shape[d + 1..])] + Strides(shape[d + 1..])
  {
    assert shape[d..][1..] == shape[d + 1..];
  }

  // ----- the operations -----

  method AllPositive(shape: seq<int>) returns (r: bool)
    ensures r <==> Positive(shape)
  {
    for i := 0 to |shape|
      invariant forall d :: 0 <= d < i ==> shape[d] > 0
    {
      if shape[i] <= 0 { return false; }
    }
    r := true;
  }

  /** One step of the stride loop: the check fails exactly when the size so far leaves int64. */
  lemma NextStride(shape: seq<int>, d: nat, acc: int)
    requires Positive(shape) && d < |shape| && acc == Product(shape[d + 1..])
    ensures MulFits(acc, shape[d]) <==> Product(shape[d..]) <= INT64_MAX
    ensures acc * shape[d] == Product(shape[d..]) <= Product(shape)
    ensures Strides(shape[d..]) == [acc] + Strides(shape[d + 1..])
  {
    SuffixProduct(shape, d);
    FitsExactly(acc, shape[d]);
    SuffixBelow(shape, d);
    SuffixStrides(shape, d);
    hide Product, Strides, MulFits;
  }

  lemma NoDimensions(shape: seq<int>)
    ensures Product(shape[|shape|..]) == 1 && Strides(shape[|shape|..]) == []
  {
  }

  /** Contiguous: None is a failed check (rank, a dimension, or int64 overflow). */
  method Contiguous(data: int, esize: nat, shape: seq<int>) returns (t: Option<Tensor>)
    ensures t.Some? <==> 1 <= |shape| <= 4 && Positive(shape) && Product(shape) <= 0x7FFF_FFFF_FFFF_FFFF
    ensures t.Some? ==> t.value == Tensor(data, esize, shape, Strides(shape))
  {
    if |shape| < 1 || |shape| > MAX_RANK { return None; }
    var positive := AllPositive(shape);
    if !positive { return None; }
    hide Product, Strides, MulFits, Positive;
    NoDimensions(shape);
    var acc, stride := 1, [];
    for d := |shape| downto 0
      invariant acc == Product(shape[d..]) <= INT64_MAX && stride == Strides(shape[d..])
    {
      NextStride(shape, d, acc);
      stride := [acc] + stride;
      if !MulFits(acc, shape[d]) { return None; }
      acc := acc * shape[d];
    }
    assert shape[0..] == shape;
    t := Some(Tensor(data, esize, shape, stride));
  }

  lemma {:induction false} ProductSnoc(shape: seq<int>, x: int)
    ensures Product(shape + [x]) == Product(shape) * x
  {
    if shape == [] {
      assert [x][1..] == [];
      assert [] + [x] == [x];
    } else {
      ProductSnoc(shape[1..], x);
      assert (shape + [x])[1..] == shape[1..] + [x];
      MulAssociates(shape[0], Product(shape[1..]), x);
    }
  }

  lemma MulAssociates(a: int, b: int, c: int)
    ensures a * (b * c) == a * b * c
  {
  }

  predicate Int64s(shape: seq<int>) {
    forall d :: 0 <= d < |shape| ==> INT64_MIN <= shape[d] <= INT64_MAX
  }

  /** Numel of any tensor, hand-built ones included: None is a failed overflow check. */
  method Numel(t: Tensor) returns (n: Option<int>)
    requires Int64s(t.shape)
    ensures n.Some? ==> n.value == Product(t.shape) && 0 <= n.value <= INT64_MAX
    ensures Positive(t.shape) ==> n.Some? == (Product(t.shape) <= INT64_MAX)
    ensures n.Some? && n.value > 0 ==> Positive(t.shape)
    ensures (exists d :: 0 <= d < |t.shape| && INT64_MIN < t.shape[d] < 0) ==> n.None?
  {
    var acc := 1;
    for d := 0 to |t.shape|
      invariant acc == Product(t.shape[..d]) && 0 <= acc <= INT64_MAX
      invariant acc > 0 ==> forall k :: 0 <= k < d ==> t.shape[k] > 0
      invariant forall k :: 0 <= k < d ==> t.shape[k] >= 0 || t.shape[k] == INT64_MIN
    {
      NextProduct(t.shape, d, acc);
      if !MulFits(acc, t.shape[d]) { return None; }
      acc := acc * t.shape[d];
    }
    assert t.shape[..|t.shape|] == t.shape;
    n := Some(acc);
  }

  /** One step of Numel's loop. */
  lemma NextProduct(shape: seq<int>, d: nat, acc: int)
    requires Int64s(shape) && d < |shape| && acc == Product(shape[..d]) && 0 <= acc <= INT64_MAX
    ensures acc * shape[d] == Product(shape[..d + 1])
    ensures MulFits(acc, shape[d]) ==>
      0 <= acc * shape[d] <= INT64_MAX && (shape[d] >= 0 || (acc == 0 && shape[d] == INT64_MIN))
    ensures acc * shape[d] > 0 && MulFits(acc, shape[d]) ==> acc > 0 && shape[d] > 0
    ensures Positive(shape) && Product(shape) <= INT64_MAX ==> MulFits(acc, shape[d])
  {
    assert shape[..d + 1] == shape[..d] + [shape[d]];
    ProductSnoc(shape[..d], shape[d]);
    CheckedStep(acc, shape[d]);
    if Positive(shape) {
      PrefixBelow(shape, d);
      PrefixBelow(shape, d + 1);
    }
    hide Product, MulFits;
  }

  lemma CheckedStep(acc: int, dim: int)
    requires INT64_MIN <= dim <= INT64_MAX && 0 <= acc <= INT64_MAX
    ensures MulFits(acc, dim) ==> 0 <= acc * dim <= INT64_MAX && (dim >= 0 || (acc == 0 && dim == INT64_MIN))
    ensures acc * dim > 0 && MulFits(acc, dim) ==> acc > 0 && dim > 0
    ensures acc > 0 && dim > 0 && acc * dim <= INT64_MAX ==> MulFits(acc, dim)
  {
    if dim < 0 { FitsNegative(acc, dim); }
    else if acc > 0 && dim > 0 { FitsExactly(acc, dim); MulPositive(acc, dim); }
    hide MulFits;
  }

  lemma {:induction false} PrefixBelow(shape: seq<int>, d: nat)
    requires Positive(shape) && d <= |shape|
    ensures 0 < Product(shape[..d]) <= Product(shape)
    decreases |shape| - d
  {
    if d == |shape| {
      assert shape[..d] == shape;
      ProductPositive(shape);
    } else {
      PrefixBelow(shape, d + 1);
      assert shape[..d + 1] == shape[..d] + [shape[d]];
      ProductSnoc(shape[..d], shape[d]);
      ProductPositive(shape[..d]);
      MulPositive(Product(shape[..d]), shape[d]);
    }
  }

  /** The size behind dimension d leaves int64, after the scan from the back has found d's stride right. */
  predicate SizeOverflows(t: Tensor, d: nat)
    requires |t.stride| == |t.shape| && d < |t.shape|
  {
    t.stride[d..] == Strides(t.shape[d..]) && !InInt64(Product(t.shape[d..]))
  }

  predicate ScanOverflows(t: Tensor)
    requires |t.stride| == |t.shape|
  {
    exists d: nat :: d < |t.shape| && SizeOverflows(t, d)
  }

  /** IsContiguous: the strides are exactly the row-major ones. The size it keeps is multiplied unchecked. */
  method IsContiguous(t: Tensor) returns (r: Attempt<bool>)
    requires |t.stride| == |t.shape|
    ensures r == if ScanOverflows(t) then Overflows else Value(t.stride == Strides(t.shape))
  {
    hide Product, Strides;
    var acc := 1;
    NoDimensions(t.shape);
    for d := |t.shape| downto 0
      invariant acc == Product(t.shape[d..]) && t.stride[d..] == Strides(t.shape[d..])
      invariant forall k: nat :: d <= k < |t.shape| ==> !SizeOverflows(t, k)
    {
      ScanStep(t, d);
      if t.stride[d] != acc { return Value(false); }
      acc := acc * t.shape[d];
      if !InInt64(acc) {
        assert SizeOverflows(t, d);
        return Overflows;
      }
    }
    assert t.shape[0..] == t.shape && t.stride[0..] == t.stride;
    r := Value(true);
  }

  /** One step of the scan: a wrong stride at d settles the answer, a right one extends the match. */
  lemma ScanStep(t: Tensor, d: nat)
    requires |t.stride| == |t.shape| && d < |t.shape| && t.stride[d + 1..] == Strides(t.shape[d + 1..])
    ensures Product(t.shape[d..]) == t.shape[d] * Product(t.shape[d + 1..])
    ensures t.stride[d] == Product(t.shape[d + 1..]) <==> t.stride[d..] == Strides(t.shape[d..])
    ensures t.stride[d] != Product(t.shape[d + 1..]) ==>
      t.stride != Strides(t.shape) && forall k: nat :: k <= d ==> !SizeOverflows(t, k)
  {
    assert t.shape[d..][1..] == t.shape[d + 1..] && t.stride[d..] == [t.stride[d]] + t.stride[d + 1..];
    StrideAt(t.shape, d);
    forall k: nat | k <= d ensures Strides(t.shape[k..])[d - k] == Product(t.shape[d + 1..]) {
      StrideAt(t.shape[k..], d - k);
      assert t.shape[k..][d - k + 1..] == t.shape[d + 1..];
    }
    forall k: nat | k <= d && t.stride[d] != Product(t.shape[d + 1..]) ensures !SizeOverflows(t, k) {
      assert t.stride[k..][d - k] == t.stride[d];
    }
  }

  /** Tensors made by Contiguous are scanned without overflow. */
  lemma ScanFits(t: Tensor)
    requires |t.stride| == |t.shape| && Positive(t.shape) && Product(t.shape) <= INT64_MAX
    ensures !ScanOverflows(t)
  {
    forall d: nat | d < |t.shape| ensures !SizeOverflows(t, d) { SuffixBelow(t.shape, d); }
  }

  lemma {:induction false} StrideAt(shape: seq<int>, d: nat)
    requires d < |shape|
    ensures Strides(shape)[d] == Product(shape[d + 1..])
  {
    if d > 0 {
      StrideAt(shape[1..], d - 1);
      assert shape[1..][d..] == shape[d + 1..];
    }
  }

  /** View: another shape of the same size over the same bytes. */
  method View(t: Tensor, newShape: seq<int>) returns (v: Attempt<Tensor>)
    requires Int64s(t.shape) && |t.stride| == |t.shape|
    ensures v.Value? <==>
      t.stride == Strides(t.shape) && 1 <= |newShape| <= 4 && Positive(newShape) && Positive(t.shape)
                          && Product(newShape) == Product(t.shape) <= INT64_MAX
    ensures v.Value? ==> v.value == Tensor(t.data, t.esize, newShape, Strides(newShape))
    ensures v.Overflows? <==> ScanOverflows(t)
  {
    if Positive(t.shape) && Product(t.shape) <= INT64_MAX { ScanFits(t); }
    var c := IsContiguous(t);
    if c.Overflows? { return Overflows; }
    if !c.value { return Fails; }
    var made := Contiguous(t.data, t.esize, newShape);
    if made.None? { return Fails; }
    DimensionsFit(newShape);
    var n := Numel(made.value);
    var m := Numel(t);
    ProductPositive(newShape);
    if n.None? || m.None? || n != m { return Fails; }
    v := Value(made.value);
  }

  lemma {:induction false} DimensionsFit(shape: seq<int>)
    requires Positive(shape) && Product(shape) <= INT64_MAX
    ensures Int64s(shape)
  {
    forall d | 0 <= d < |shape| ensures shape[d] <= INT64_MAX {
      SuffixBelow(shape, d);
      SuffixProduct(shape, d);
      MulPositive(shape[d], Product(shape[d + 1..]));
    }
  }

  /** Slice: dimension dim restricted to [start, stop). The element offset is multiplied unchecked. */
  function Slice(t: Tensor, dim: int, start: int, stop: int): (s: Attempt<Tensor>)
    requires |t.stride| == |t.shape|
  {
    if !(0 <= dim < |t.shape| && 0 <= start < stop <= t.shape[dim]) then Fails
    else if !InInt64(start * t.stride[dim]) then Overflows
    else Value(t.(shape := t.shape[dim := stop - start], data := t.data + start * t.stride[dim] * t.esize))
  }

  /** The sum leaves int64 at dimension d, the indices up to d being in range. */
  predicate SumOverflows(t: Tensor, idx: seq<int>, d: nat)
    requires |t.stride| == |t.shape| == |idx| && d < |idx|
  {
    && (forall k :: 0 <= k <= d ==> 0 <= idx[k] < t.shape[k])
    && (!InInt64(idx[d] * t.stride[d]) || !InInt64(OffsetOf(t.stride[..d + 1], idx[..d + 1])))
  }

  predicate OffsetOverflows(t: Tensor, idx: seq<int>)
    requires |t.stride| == |t.shape|
  {
    |idx| == |t.shape| && exists d: nat :: d < |idx| && SumOverflows(t, idx, d)
  }

  /** Offset: the element offset of an index; an index out of range fails, unless the sum has overflowed before. */
  method Offset(t: Tensor, idx: seq<int>) returns (off: Attempt<int>)
    requires |t.stride| == |t.shape|
    ensures off == if OffsetOverflows(t, idx) then Overflows
                   else if InBounds(t.shape, idx) then Value(OffsetOf(t.stride, idx)) else Fails
  {
    if |idx| != |t.shape| { return Fails; }
    var acc := 0;
    for d := 0 to |idx|
      invariant forall k :: 0 <= k < d ==> 0 <= idx[k] < t.shape[k]
      invariant acc == OffsetOf(t.stride[..d], idx[..d])
      invariant forall k: nat :: k < d ==> !SumOverflows(t, idx, k)
    {
      if idx[d] < 0 || idx[d] >= t.shape[d] { return Fails; }
      OffsetNext(t.stride, idx, d);
      hide OffsetOf;
      acc := acc + idx[d] * t.stride[d];
      if !InInt64(idx[d] * t.stride[d]) || !InInt64(acc) {
        assert SumOverflows(t, idx, d);
        return Overflows;
      }
    }
    assert t.stride[..|idx|] == t.stride && idx[..|idx|] == idx;
    off := Value(acc);
  }

  lemma OffsetNext(stride: seq<int>, idx: seq<int>, d: nat)
    requires |stride| == |idx| && d < |idx|
    ensures OffsetOf(stride[..d + 1], idx[..d + 1]) == OffsetOf(stride[..d], idx[..d]) + idx[d] * stride[d]
  {
    OffsetSnoc(stride[..d], idx[..d], stride[d], idx[d]);
    assert stride[..d + 1] == stride[..d] + [stride[d]] && idx[..d + 1] == idx[..d] + [idx[d]];
  }

  lemma {:induction false} OffsetSnoc(stride: seq<int>, idx: seq<int>, x: int, i: int)
    requires |stride| == |idx|
    ensures OffsetOf(stride + [x], idx + [i]) == OffsetOf(stride, idx) + i * x
  {
    if idx == [] {
      assert stride + [x] == [x] && idx + [i] == [i] && [x][1..] == [] && [i][1..] == [];
    } else {
      OffsetSnoc(stride[1..], idx[1..], x, i);
      assert (stride + [x])[1..] == stride[1..] + [x] && (idx + [i])[1..] == idx[1..] + [i];
    }
  }

  /** What the first d indices can add up to in a row-major tensor. */
  lemma {:induction false} PrefixOffset(shape: seq<int>, idx: seq<int>, d: nat)
    requires Positive(shape) && |idx| == |shape| && d <= |shape| && forall k :: 0 <= k < d ==> 0 <= idx[k] < shape[k]
    ensures 0 <= OffsetOf(Strides(shape)[..d], idx[..d]) <= Product(shape) - Product(shape[d..])
    ensures d > 0 ==> 0 <= idx[d - 1] * Strides(shape)[d - 1] <= Product(shape)
  {
    hide Product, Strides, OffsetOf;
    if d == 0 {
      assert shape[0..] == shape;
      EmptyOffset(Strides(shape)[..0], idx[..0]);
    } else {
      PrefixOffset(shape, idx, d - 1);
      OffsetNext(Strides(shape), idx, d - 1);
      StrideAt(shape, d - 1);
      SuffixProduct(shape, d - 1);
      SuffixBelow(shape, d - 1);
      OneDigit(idx[d - 1], shape[d - 1], Product(shape[d..]));
    }
  }

  lemma EmptyOffset(stride: seq<int>, idx: seq<int>)
    requires stride == [] && idx == []
    ensures OffsetOf(stride, idx) == 0
  {
  }

  lemma OneDigit(i: int, s: int, p: int)
    requires 0 <= i < s && p > 0
    ensures 0 <= i * p <= s * p - p
  {
    assert (i + 1) * p <= s * p;
  }

  /** Row-major strides of a size within int64 never overflow, on any shape within the root's. */
  lemma RowMajorFits(root: seq<int>, t: Tensor, idx: seq<int>)
    requires Positive(root) && Product(root) <= INT64_MAX && t.stride == Strides(root) && |t.shape| == |root|
    requires forall d :: 0 <= d < |root| ==> t.shape[d] <= root[d]
    ensures !OffsetOverflows(t, idx)
  {
    hide Product, Strides, OffsetOf;
    if |idx| == |t.shape| {
      forall d: nat | d < |idx| ensures !SumOverflows(t, idx, d) {
        if forall k :: 0 <= k <= d ==> 0 <= idx[k] < t.shape[k] {
          PrefixOffset(root, idx, d + 1);
          SuffixBelow(root, d + 1);
        }
      }
    }
  }

  // ----- Offset is a bijection onto [0, Numel) -----

  lemma DigitBelow(i: int, s: int, p: int, r: int)
    requires 0 <= i < s && 0 <= r < p
    ensures 0 <= i * p + r < s * p && (i * p + r) / p == i && (i * p + r) % p == r
  {
    assert (i + 1) * p <= s * p;
    assert 0 <= i * p;
    DivUnique(i * p + r, p, i, r);
  }

  lemma DivUnique(n: int, d: int, q: int, r: int)
    requires d > 0 && n == q * d + r && 0 <= r < d
    ensures n / d == q && n % d == r
  {
    var x := q - n / d;
    assert n == n / d * d + n % d;
    assert x * d == n % d - r;
    MulSign(x, d);
  }

  lemma MulSign(x: int, d: int)
    requires d > 0
    ensures (x >= 1 ==> x * d >= d) && (x <= -1 ==> x * d <= -d)
  {
  }

  /** Every in-range index has its own offset, and it lies in [0, Numel). */
  lemma {:induction false} OffsetInRange(shape: seq<int>, idx: seq<int>)
    requires Positive(shape) && InBounds(shape, idx)
    ensures 0 <= OffsetOf(Strides(shape), idx) < Product(shape)
    ensures Unflatten(shape, OffsetOf(Strides(shape), idx)) == idx
  {
    if shape != [] {
      ProductPositive(shape[1..]);
      OffsetInRange(shape[1..], idx[1..]);
      assert Strides(shape)[1..] == Strides(shape[1..]);
      DigitBelow(idx[0], shape[0], Product(shape[1..]), OffsetOf(Strides(shape[1..]), idx[1..]));
    }
  }

  /** The index at row-major position k. */
  function Unflatten(shape: seq<int>, k: int): (idx: seq<int>)
    requires Positive(shape)
    ensures |idx| == |shape|
  {
    if shape == [] then [] else
      ProductPositive(shape[1..]);
      [k / Product(shape[1..])] + Unflatten(shape[1..], k % Product(shape[1..]))
  }

  lemma OffsetHead(p: int, stride: seq<int>, i: int, idx: seq<int>)
    requires |stride| == |idx|
    ensures OffsetOf([p] + stride, [i] + idx) == i * p + OffsetOf(stride, idx)
  {
    assert ([p] + stride)[1..] == stride && ([i] + idx)[1..] == idx;
  }

  lemma QuotientBelow(k: int, s: int, p: int)
    requires p > 0 && 0 <= k < s * p
    ensures 0 <= k / p < s
  {
    MulMonotone(s, k / p, p);
  }

  lemma MulMonotone(a: int, b: int, p: int)
    requires p > 0
    ensures a <= b ==> a * p <= b * p
  {
  }

  /** Every position in [0, Numel) is the offset of one in-range index. */
  lemma {:induction false} OffsetOnto(shape: seq<int>, k: int)
    requires Positive(shape) && 0 <= k < Product(shape)
    ensures InBounds(shape, Unflatten(shape, k)) && OffsetOf(Strides(shape), Unflatten(shape, k)) == k
  {
    hide Product, Strides, Unflatten, OffsetOf;
    if shape == [] {
      NoIndex(k);
    } else {
      var p, rest := Product(shape[1..]), shape[1..];
      ProductPositive(rest);
      Heads(shape, k);
      QuotientBelow(k, shape[0], p);
      OffsetOnto(rest, k % p);
      OffsetHead(p, Strides(rest), k / p, Unflatten(rest, k % p));
      assert k == k / p * p + k % p;
    }
  }

  lemma NoIndex(k: int)
    requires 0 <= k < Product([])
    ensures InBounds([], Unflatten([], k)) && OffsetOf(Strides([]), Unflatten([], k)) == k
  {
  }

  lemma Heads(shape: seq<int>, k: int)
    requires Positive(shape) && shape != []
    ensures var p, rest := Product(shape[1..]), shape[1..];
            && p > 0 && Product(shape) == shape[0] * p && Strides(shape) == [p] + Strides(rest)
            && Unflatten(shape, k) == [k / p] + Unflatten(rest, k % p)
  {
    ProductPositive(shape[1..]);
  }

  predicate LexLess(a: seq<int>, b: seq<int>)
    requires |a| == |b|
  {
    a != [] && (a[0] < b[0] || (a[0] == b[0] && LexLess(a[1..], b[1..])))
  }

  lemma LeadDecides(i: int, j: int, p: int, r: int, q: int)
    requires 0 <= r < p && 0 <= q < p
    ensures i * p + r < j * p + q <==> i < j || (i == j && r < q)
  {
    if i < j { assert (i + 1) * p <= j * p; }
    if j < i { assert (j + 1) * p <= i * p; }
  }

  /** Offsets order indices lexicographically. */
  lemma {:induction false} OffsetKeepsOrder(shape: seq<int>, a: seq<int>, b: seq<int>)
    requires Positive(shape) && InBounds(shape, a) && InBounds(shape, b)
    ensures LexLess(a, b) <==> OffsetOf(Strides(shape), a) < OffsetOf(Strides(shape), b)
  {
    if shape != [] {
      OffsetKeepsOrder(shape[1..], a[1..], b[1..]);
      OffsetInRange(shape[1..], a[1..]);
      OffsetInRange(shape[1..], b[1..]);
      assert Strides(shape)[1..] == Strides(shape[1..]);
      LeadDecides(a[0], b[0], Product(shape[1..]), OffsetOf(Strides(shape[1..]), a[1..]),
                  OffsetOf(Strides(shape[1..]), b[1..]));
    }
  }

  // ----- views and slices -----

  function AddressOf(t: Tensor, idx: seq<int>): int
    requires |t.stride| == |t.shape| == |idx|
  {
    t.data + OffsetOf(t.stride, idx) * t.esize
  }

  /** A view keeps every element's row-major position. */
  lemma ViewKeepsPosition(t: Tensor, v: Tensor, k: int)
    requires Positive(t.shape) && Positive(v.shape) && t.stride == Strides(t.shape) && v.stride == Strides(v.shape)
    requires v.data == t.data && v.esize == t.esize && Product(v.shape) == Product(t.shape) && 0 <= k < Product(t.shape)
    ensures AddressOf(v, Unflatten(v.shape, k)) == AddressOf(t, Unflatten(t.shape, k))
  {
    OffsetOnto(t.shape, k);
    OffsetOnto(v.shape, k);
  }

  /** The parent's index of a slice's element. */
  function Shifted(idx: seq<int>, dim: nat, start: int): (r: seq<int>)
    requires dim < |idx|
    ensures |r| == |idx|
  {
    idx[dim := idx[dim] + start]
  }

  lemma {:induction false} OffsetShifted(stride: seq<int>, idx: seq<int>, dim: nat, start: int)
    requires |stride| == |idx| && dim < |idx|
    ensures OffsetOf(stride, Shifted(idx, dim, start)) == OffsetOf(stride, idx) + start * stride[dim]
  {
    var moved := Shifted(idx, dim, start);
    if dim == 0 {
      assert moved[1..] == idx[1..];
    } else {
      OffsetShifted(stride[1..], idx[1..], dim - 1, start);
      assert moved[1..] == Shifted(idx[1..], dim - 1, start);
    }
  }

  /** Element idx of a slice is element idx shifted of its parent, which is in the parent's range. */
  lemma SliceInParent(t: Tensor, dim: nat, start: int, stop: int, idx: seq<int>)
    requires |t.stride| == |t.shape| && Slice(t, dim, start, stop).Value?
    requires InBounds(Slice(t, dim, start, stop).value.shape, idx)
    ensures InBounds(t.shape, Shifted(idx, dim, start))
    ensures AddressOf(Slice(t, dim, start, stop).value, idx) == AddressOf(t, Shifted(idx, dim, start))
  {
    OffsetShifted(t.stride, idx, dim, start);
    var o, m, e := OffsetOf(t.stride, idx), start * t.stride[dim], t.esize;
    assert (o + m) * e == o * e + m * e;
  }

  /** A slice holds exactly the parent's elements with start <= index < stop in its dimension, each once. */
  lemma SliceCovers(t: Tensor, dim: nat, start: int, stop: int, idx: seq<int>)
    requires |t.stride| == |t.shape| == |idx| && Slice(t, dim, start, stop).Value?
    ensures InBounds(Slice(t, dim, start, stop).value.shape, Shifted(idx, dim, -start))
        <==> InBounds(t.shape, idx) && start <= idx[dim] < stop
    ensures Shifted(Shifted(idx, dim, -start), dim, start) == idx
  {
    var s, j := Slice(t, dim, start, stop).value, Shifted(idx, dim, -start);
    assert forall d :: 0 <= d < |idx| && d != dim ==> s.shape[d] == t.shape[d] && j[d] == idx[d];
    assert s.shape[dim] == stop - start && j[dim] == idx[dim] - start;
  }

  /** A slice is refused exactly for a bad dimension or range. */
  lemma SliceFails(t: Tensor, dim: int, start: int, stop: int)
    requires |t.stride| == |t.shape|
    ensures Slice(t, dim, start, stop).Fails? <==>
      dim < 0 || dim >= |t.shape| || start < 0 || stop <= start || stop > t.shape[dim]
    ensures Slice(t, dim, start, stop).Overflows? ==> !InInt64(start * t.stride[dim])
  {
  }

  /** A cut is one Slice call. */
  datatype Cut = Cut(dim: nat, start: int, stop: int)

  function SliceAll(t: Tensor, cuts: seq<Cut>): (s: Attempt<Tensor>)
    requires |t.stride| == |t.shape|
    ensures s.Value? ==>
      |s.value.stride| == |s.value.shape| == |t.shape| && s.value.stride == t.stride && s.value.esize == t.esize
    decreases |cuts|
  {
    if cuts == [] then Value(t)
    else
      var s := Slice(t, cuts[0].dim, cuts[0].start, cuts[0].stop);
      if s.Value? then SliceAll(s.value, cuts[1..]) else s
  }

  /** No chain of slices of a contiguous tensor overflows, and neither does an offset into its result. */
  lemma {:induction false} ChainFits(root: seq<int>, t: Tensor, cuts: seq<Cut>, idx: seq<int>)
    requires Positive(root) && Product(root) <= INT64_MAX && t.stride == Strides(root) && |t.shape| == |root|
    requires forall d :: 0 <= d < |root| ==> t.shape[d] <= root[d]
    ensures !SliceAll(t, cuts).Overflows?
    ensures SliceAll(t, cuts).Value? ==> !OffsetOverflows(SliceAll(t, cuts).value, idx)
    decreases |cuts|
  {
    hide Product, Strides, OffsetOverflows;
    if cuts == [] {
      RowMajorFits(root, t, idx);
    } else {
      var c := cuts[0];
      SliceFits(root, t, c.dim, c.start, c.stop);
      var s := Slice(t, c.dim, c.start, c.stop);
      if s.Value? { ChainFits(root, s.value, cuts[1..], idx); }
    }
  }

  lemma SliceFits(root: seq<int>, t: Tensor, dim: int, start: int, stop: int)
    requires Positive(root) && Product(root) <= INT64_MAX && t.stride == Strides(root) && |t.shape| == |root|
    requires forall d :: 0 <= d < |root| ==> t.shape[d] <= root[d]
    ensures !Slice(t, dim, start, stop).Overflows?
  {
    hide Product, Strides;
    if 0 <= dim < |t.shape| && 0 <= start < stop <= t.shape[dim] {
      StrideAt(root, dim);
      SuffixProduct(root, dim);
      SuffixBelow(root, dim);
      OneDigit(start, root[dim], Product(root[dim + 1..]));
    }
  }

  /** The root's index of an element of a chain of slices. */
  function RootIndex(t: Tensor, cuts: seq<Cut>, idx: seq<int>): (r: seq<int>)
    requires |t.stride| == |t.shape| == |idx| && SliceAll(t, cuts).Value?
    ensures |r| == |idx|
    decreases |cuts|
  {
    if cuts == [] then idx
    else
      var c := cuts[0];
      Shifted(RootIndex(Slice(t, c.dim, c.start, c.stop).value, cuts[1..], idx), c.dim, c.start)
  }

  /** Any chain of slices stays inside its root: each element is one of the root's, at the same address. */
  lemma {:induction false} ChainInRoot(t: Tensor, cuts: seq<Cut>, idx: seq<int>)
    requires |t.stride| == |t.shape| == |idx| && SliceAll(t, cuts).Value?
    requires InBounds(SliceAll(t, cuts).value.shape, idx)
    ensures InBounds(t.shape, RootIndex(t, cuts, idx))
    ensures AddressOf(SliceAll(t, cuts).value, idx) == AddressOf(t, RootIndex(t, cuts, idx))
    decreases |cuts|
  {
    if cuts != [] {
      var c := cuts[0];
      var s := Slice(t, c.dim, c.start, c.stop).value;
      ChainInRoot(s, cuts[1..], idx);
      SliceInParent(t, c.dim, c.start, c.stop, RootIndex(s, cuts[1..], idx));
    }
  }

  lemma ShiftInjective(x: seq<int>, y: seq<int>, dim: nat, start: int)
    requires |x| == |y| && dim < |x| && Shifted(x, dim, start) == Shifted(y, dim, start)
    ensures x == y
  {
    forall d | 0 <= d < |x| ensures x[d] == y[d] {
      assert Shifted(x, dim, start)[d] == Shifted(y, dim, start)[d];
    }
  }

  lemma {:induction false} RootIndexInjective(t: Tensor, cuts: seq<Cut>, a: seq<int>, b: seq<int>)
    requires |t.stride| == |t.shape| == |a| == |b| && SliceAll(t, cuts).Value?
    requires RootIndex(t, cuts, a) == RootIndex(t, cuts, b)
    ensures a == b
    decreases |cuts|
  {
    if cuts != [] {
      var c := cuts[0];
      var s := Slice(t, c.dim, c.start, c.stop).value;
      var x, y := RootIndex(s, cuts[1..], a), RootIndex(s, cuts[1..], b);
      ShiftInjective(x, y, c.dim, c.start);
      RootIndexInjective(s, cuts[1..], a, b);
    }
  }

  /** Distinct elements of a chain of slices of a contiguous tensor occupy disjoint bytes inside the tensor. */
  lemma ChainDisjoint(t: Tensor, cuts: seq<Cut>, a: seq<int>, b: seq<int>)
    requires Positive(t.shape) && t.stride == Strides(t.shape) && SliceAll(t, cuts).Value? && t.esize > 0
    requires InBounds(SliceAll(t, cuts).value.shape, a) && InBounds(SliceAll(t, cuts).value.shape, b) && a != b
    ensures var x, y := AddressOf(SliceAll(t, cuts).value, a), AddressOf(SliceAll(t, cuts).value, b);
            && t.data <= x && x + t.esize <= t.data + Product(t.shape) * t.esize
            && (x + t.esize <= y || y + t.esize <= x)
  {
    ChainInRoot(t, cuts, a);
    ChainInRoot(t, cuts, b);
    var i, j := RootIndex(t, cuts, a), RootIndex(t, cuts, b);
    if i == j { RootIndexInjective(t, cuts, a, b); }
    OffsetInRange(t.shape, i);
    OffsetInRange(t.shape, j);
    Apart(OffsetOf(t.stride, i), OffsetOf(t.stride, j), Product(t.shape), t.esize);
  }

  lemma Apart(x: int, y: int, n: int, e: nat)
    requires 0 <= x < n && 0 <= y < n && x != y
    ensures 0 <= x * e && x * e + e <= n * e && (x * e + e <= y * e || y * e + e <= x * e)
  {
    assert (x + 1) * e <= n * e;
    if x < y { assert (x + 1) * e <= y * e; } else { assert (y + 1) * e <= x * e; }
  }
}
