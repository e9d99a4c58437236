/**
 The gated delta rule, one token at a time: the simple form that every other kernel refines.

 Rows of the state (one row per value channel) evolve independently, so the recurrence is stated
 for one row. `expo` stands for the exponential; all that is ever used of it is `IsExp`.
 */
module Recurrence {
  import opened Sums
  import opened Matrices

  type Expo = real -> real

  ghost predicate AddsUp(expo: Expo, a: real, b: real) {
    expo(a + b) == expo(a) * expo(b)
  }

  ghost predicate IsExp(expo: Expo) {
    && (forall a, b :: AddsUp(expo, a, b))
    && (forall a :: expo(a) > 0.0)
  }

  lemma ExpAdd(expo: Expo, a: real, b: real, c: real)
    requires IsExp(expo) && c == a + b
    ensures expo(c) == expo(a) * expo(b)
    ensures expo(c) > 0.0
  {
    assert AddsUp(expo, a, b);
  }

  lemma ExpZero(expo: Expo)
    requires IsExp(expo)
    ensures expo(0.0) == 1.0
  {
    ExpAdd(expo, 0.0, 0.0, 0.0);
    UnitSquare(expo(0.0));
  }

  lemma UnitSquare(x: real)
    requires x == x * x && x > 0.0
    ensures x == 1.0
  {
    assert x * (x - 1.0) == 0.0;
  }

  /** What one value head reads for one sequence: T tokens, K key channels, V value channels.
      `logDecay[t]` is the log of the decay applied at token t. */
  datatype Head = Head(T: nat, K: nat, V: nat, q: Mat, k: Mat, v: Mat, beta: Vec, logDecay: Vec)

  /** The tensors of a head have the sizes it declares, so reads past token T give zero. */
  ghost predicate Shaped(hd: Head) {
    && Dim(hd.q, hd.T, hd.K) && Dim(hd.k, hd.T, hd.K) && Dim(hd.v, hd.T, hd.V)
    && |hd.beta| == hd.T && |hd.logDecay| == hd.T
  }

  function VTab(n: nat, f: int -> real): (r: Vec)
    ensures |r| == n
    ensures forall i {:trigger At(r, i)} :: At(r, i) == if 0 <= i < n then f(i) else 0.0
  {
    seq(n, i requires 0 <= i < n => f(i))
  }

  function Row(x: Mat, i: int): Vec {
    if 0 <= i < |x| then x[i] else []
  }

  /** The update value the delta rule writes for token t into value row j, from state row s. */
  function NewValue(expo: Expo, hd: Head, j: int, s: Vec, t: int): real {
    var decay := expo(At(hd.logDecay, t));
    At(hd.beta, t) * (E(hd.v, t, j) - Sum(hd.K, c => At(s, c) * decay * E(hd.k, t, c)))
  }

  function StepRow(expo: Expo, hd: Head, j: int, s: Vec, t: int): Vec {
    var decay := expo(At(hd.logDecay, t));
    var x := NewValue(expo, hd, j, s, t);
    VTab(hd.K, c => At(s, c) * decay + x * E(hd.k, t, c))
  }

  /** State row j after t tokens, starting from row s0. */
  function RowState(expo: Expo, hd: Head, j: int, s0: Vec, t: nat): Vec {
    if t == 0 then s0 else StepRow(expo, hd, j, RowState(expo, hd, j, s0, t - 1), t - 1)
  }

  /** Output of value row j at token t: the updated state row read out with the scaled query. */
  function Output(expo: Expo, hd: Head, scale: real, j: int, s0: Vec, t: nat): real {
    var s := RowState(expo, hd, j, s0, t + 1);
    Sum(hd.K, c => At(s, c) * (E(hd.q, t, c) * scale))
  }

  /** The update value of token t in a run from s0. */
  function Update(expo: Expo, hd: Head, j: int, s0: Vec, t: nat): real {
    NewValue(expo, hd, j, RowState(expo, hd, j, s0, t), t)
  }
}
