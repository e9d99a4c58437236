/**
 src/vt/arena.cpp: the per-step bump allocator. Tensors handed out since the last Reset lie in disjoint
 bytes of the slab, at 64-byte-aligned offsets, and no size computation wraps.
 */
module StepArena {
  import opened Options
  import opened TensorAddressing

  const SIZE_MAX := 0xFFFF_FFFF_FFFF_FFFF
  const ALIGN := 64

  /** The least multiple of 64 not below n. */
  function AlignUp(n: int): (r: int)
    ensures r % 64 == 0 && n <= r < n + 64
  {
    (n + ALIGN - 1) / ALIGN * ALIGN
  }

  /** One past a contiguous tensor's last byte. */
  function End(t: Tensor): int {
    t.data + Product(t.shape) * t.esize
  }

  /** A tensor the arena made: row-major, non-empty, aligned, within [base, base + used). */
  predicate Placed(t: Tensor, base: int, used: nat) {
    && Positive(t.shape) && t.stride == Strides(t.shape) && t.esize > 0
    && base <= t.data && (t.data - base) % ALIGN == 0 && End(t) <= base + used
  }

  class Arena {
    const base: int
    const capacity: nat
    var used: nat
    var highWater: nat
    ghost var live: seq<Tensor>  // allocated since the last Reset, in order

    ghost predicate Valid()
      reads this
    {
      && used % ALIGN == 0 && used <= highWater <= capacity <= SIZE_MAX
      && (forall i :: 0 <= i < |live| ==> Placed(live[i], base, used))
      && (forall i, j :: 0 <= i < j < |live| ==> End(live[i]) <= live[j].data)
    }

    constructor (base: int, capacity: nat)
      requires capacity <= SIZE_MAX
      ensures Valid() && this.base == base && this.capacity == capacity && live == [] && used == 0 == highWater
    {
      this.base, this.capacity := base, capacity;
      used, highWater, live := 0, 0, [];
    }

    /** Alloc: None is a failed check, and then nothing has changed. */
    method Alloc(esize: nat, shape: seq<int>) returns (r: Option<Tensor>)
      requires Valid() && esize > 0
      modifies this
      ensures Valid()
      ensures r.Some? <==> 1 <= |shape| <= MAX_RANK && Positive(shape) && Product(shape) <= INT64_MAX
                           && Product(shape) <= (SIZE_MAX - 63) / esize
                           && AlignUp(Product(shape) * esize) <= capacity - old(used)
      ensures r.None? ==> used == old(used) && highWater == old(highWater) && live == old(live)
      ensures r.Some? ==>
        && r.value == Tensor(base + old(used), esize, shape, Strides(shape))
        && live == old(live) + [r.value]
        && used == old(used) + AlignUp(Product(shape) * esize)
        && highWater == (if used > old(highWater) then used else old(highWater))
        && Product(shape) * esize + 63 <= SIZE_MAX
    {
      hide Product, Strides;
      var t := Contiguous(0, esize, shape);
      if t.None? { return None; }
      ProductPositive(shape);
      DimensionsFit(shape);
      var numel := Numel(t.value);
      if numel.value > (SIZE_MAX - 63) / esize { return None; }
      NoWrap(numel.value, esize);
      hide AlignUp;
      var bytes := AlignUp(numel.value * esize);
      if bytes > capacity - used { return None; }
      r := Some(t.value.(data := base + used));
      FreshPlaced(r.value, base, used, bytes);
      used := used + bytes;
      if used > highWater { highWater := used; }
      live := live + [r.value];
    }

    /** Reset rewinds; the high-water mark stays. */
    method Reset()
      requires Valid()
      modifies this
      ensures Valid() && used == 0 && live == [] && highWater == old(highWater)
    {
      used, live := 0, [];
    }
  }

  lemma FreshPlaced(t: Tensor, base: int, used: nat, bytes: int)
    requires Positive(t.shape) && t.stride == Strides(t.shape) && t.esize > 0 && t.data == base + used
    requires used % ALIGN == 0
    requires bytes == AlignUp(Product(t.shape) * t.esize)
    ensures bytes >= 0 && Placed(t, base, used + bytes) && (used + bytes) % ALIGN == 0
  {
    ProductPositive(t.shape);
    hide Product, Strides;
    assert Product(t.shape) * t.esize >= 0;
  }

  lemma NoWrap(n: nat, esize: nat)
    requires esize > 0 && n <= (SIZE_MAX - 63) / esize
    ensures 0 <= n * esize && n * esize + 63 <= SIZE_MAX
  {
    var q := (SIZE_MAX - 63) / esize;
    assert q * esize <= SIZE_MAX - 63;
    MulMonotone(n, q, esize);
  }

  /** Any elements reached through any slices of two tensors allocated since the last Reset occupy disjoint bytes of
      the slab. */
  lemma LiveDisjoint(arena: Arena, i: nat, j: nat, cuts: seq<Cut>, cuts': seq<Cut>, a: seq<int>, b: seq<int>)
    requires arena.Valid() && i < j < |arena.live|
    requires SliceAll(arena.live[i], cuts).Value? && InBounds(SliceAll(arena.live[i], cuts).value.shape, a)
    requires SliceAll(arena.live[j], cuts').Value? && InBounds(SliceAll(arena.live[j], cuts').value.shape, b)
    ensures var x, y := AddressOf(SliceAll(arena.live[i], cuts).value,
                                  a), AddressOf(SliceAll(arena.live[j], cuts').value, b);
            && arena.base <= x && x + arena.live[i].esize <= y && y + arena.live[j].esize <= arena.base + arena.capacity
  {
    ElementInside(arena.live[i], cuts, a);
    ElementInside(arena.live[j], cuts', b);
  }

  lemma ElementInside(t: Tensor, cuts: seq<Cut>, a: seq<int>)
    requires Positive(t.shape) && t.stride == Strides(t.shape) && SliceAll(t, cuts).Value? && t.esize > 0
    requires InBounds(SliceAll(t, cuts).value.shape, a)
    ensures var x := AddressOf(SliceAll(t, cuts).value, a); t.data <= x && x + t.esize <= End(t)
  {
    ChainInRoot(t, cuts, a);
    var i := RootIndex(t, cuts, a);
    OffsetInRange(t.shape, i);
    Within(OffsetOf(t.stride, i), Product(t.shape), t.esize);
    hide SliceAll, RootIndex, OffsetOf, Product, Strides;
  }

  lemma Within(o: int, n: int, e: nat)
    requires 0 <= o < n
    ensures 0 <= o * e && o * e + e <= n * e
  {
    assert (o + 1) * e <= n * e;
  }
}
