/**
 Device buffers and the two ways kernels touch them: reading a strided view and storing a block with
 boundary checks. A [token, head, channel] tensor is an array3, a [slot, head, row, channel] tensor
 an array4.
 */
module Buffers {
  import opened Matrices

  /** The rows of one head for the T tokens from bos on. */
  function View(a: array3<real>, bos: nat, T: nat, h: nat): (r: Mat)
    requires bos + T <= a.Length0 && h < a.Length1
    reads a
    ensures Dim(r, T, a.Length2)
    ensures forall i, j {:trigger E(r, i, j)} :: 0 <= i < T && 0 <= j < a.Length2 ==> E(r, i, j) == a[bos + i, h, j]
  {
    seq(T, i requires 0 <= i < T reads a => seq(a.Length2, j requires 0 <= j < a.Length2 reads a => a[bos + i, h, j]))
  }

  /** Does the m x n block store at (r0, c0) of the view (bos, T, h) write entry (t, hh, j)? */
  ghost predicate Covered(bos: int, T: int, h: int, r0: int, c0: int, m: int, n: int, t: int, hh: int, j: int) {
    hh == h && 0 <= t - bos - r0 < m && t - bos < T && 0 <= j - c0 < n
  }

  ghost predicate In3(a: array3<real>, t: int, h: int, j: int) {
    0 <= t < a.Length0 && 0 <= h < a.Length1 && 0 <= j < a.Length2
  }

  method StoreBlock(a: array3<real>, bos: nat, T: nat, h: nat, r0: nat, c0: nat, m: nat, n: nat, x: Mat)
    requires bos + T <= a.Length0 && h < a.Length1
    modifies a
    ensures forall t, hh, j :: In3(a, t, hh, j) ==>
      a[t, hh, j] == if Covered(bos, T, h, r0, c0, m, n, t, hh, j) then E(x, t - bos - r0, j - c0) else old(a[t, hh, j])
  {
    forall t, j | bos + r0 <= t < bos + r0 + m && t < bos + T && c0 <= j < c0 + n && j < a.Length2 {
      a[t, h, j] := E(x, t - bos - r0, j - c0);
    }
  }

  /** One head's state of one slot: value rows by key channels. */
  function StateView(a: array4<real>, slot: nat, h: nat): (r: Mat)
    requires slot < a.Length0 && h < a.Length1
    reads a
    ensures Dim(r, a.Length2, a.Length3)
    ensures forall i, j {:trigger E(r, i, j)} :: 0 <= i < a.Length2 && 0 <= j < a.Length3 ==>
      E(r, i, j) == a[slot, h, i, j]
  {
    seq(a.Length2, i requires 0 <= i < a.Length2 reads a =>
      seq(a.Length3, j requires 0 <= j < a.Length3 reads a => a[slot, h, i, j]))
  }

  ghost predicate In4(a: array4<real>, s: int, h: int, i: int, j: int) {
    0 <= s < a.Length0 && 0 <= h < a.Length1 && 0 <= i < a.Length2 && 0 <= j < a.Length3
  }

  method StoreState(a: array4<real>, slot: nat, h: nat, r0: nat, c0: nat, m: nat, n: nat, x: Mat)
    requires slot < a.Length0 && h < a.Length1
    modifies a
    ensures forall s, hh, i, j :: In4(a, s, hh, i, j) ==>
      a[s, hh, i, j] == if s == slot && hh == h && r0 <= i < r0 + m && c0 <= j < c0 + n then E(x, i - r0, j - c0)
                        else old(a[s, hh, i, j])
  {
    forall i, j | r0 <= i < r0 + m && i < a.Length2 && c0 <= j < c0 + n && j < a.Length3 {
      a[slot, h, i, j] := E(x, i - r0, j - c0);
    }
  }
}
