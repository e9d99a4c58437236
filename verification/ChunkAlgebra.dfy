/**
 One chunk of the gated delta rule in closed form: the linear algebra behind the chunked prefill.
 */
module ChunkAlgebra {
  import opened Sums
  import opened Matrices
  import opened Recurrence

  /** Log decay accumulated over the first i tokens of the chunk that starts at token r0. */
  function Cum(g: Vec, r0: int, i: int): real {
    if i <= 0 then 0.0 else At(g, r0 + i - 1)
  }

  /** g is the running sum of the log decays over the L tokens from r0 on. */
  ghost predicate Cumulative(hd: Head, g: Vec, r0: nat, L: nat) {
    forall i :: 0 <= i < L ==> CumulativeAt(hd, g, r0, i)
  }

  ghost predicate CumulativeAt(hd: Head, g: Vec, r0: int, i: int) {
    At(g, r0 + i) == Cum(g, r0, i) + At(hd.logDecay, r0 + i)
  }

  /** What a feed of token m has decayed to when the first i tokens are done. */
  function Faded(expo: Expo, g: Vec, r0: int, i: int, y: int -> real): int -> real {
    m => expo(Cum(g, r0, i) - Cum(g, r0, m + 1)) * y(m)
  }

  /** Token m turns a(m) into a(m + 1) by decaying it and feeding y(m). */
  ghost predicate Fed(expo: Expo, hd: Head, r0: int, a: int -> real, y: int -> real, m: int) {
    a(m + 1) == expo(At(hd.logDecay, r0 + m)) * a(m) + y(m)
  }

  /** Any quantity that decays and is fed once per token has this closed form. */
  lemma {:induction false} ClosedForm(expo: Expo, hd: Head, g: Vec, r0: nat, L: nat, i: nat,
                                      a: int -> real, y: int -> real)
    requires IsExp(expo) && Cumulative(hd, g, r0, L) && i <= L
    requires forall m :: 0 <= m < L ==> Fed(expo, hd, r0, a, y, m)
    ensures a(i) == expo(Cum(g, r0, i)) * a(0) + Sum(i, Faded(expo, g, r0, i, y))
    decreases i
  {
    hide Faded, Sum, Cum, Cumulative, IsExp, At;
    if i == 0 {
      ClosedBase(expo, g, r0, a(0), y);
    } else {
      var n := i - 1;
      ClosedForm(expo, hd, g, r0, L, n, a, y);
      FadeStep(expo, hd, g, r0, L, n, y);
      assert Fed(expo, hd, r0, a, y, n);
      var sn, si := Sum(n, Faded(expo, g, r0, n, y)), Sum(i, Faded(expo, g, r0, i, y));
      var d, en, ei := expo(At(hd.logDecay, r0 + n)), expo(Cum(g, r0, n)), expo(Cum(g, r0, i));
      ClosedStep(a(i), d, a(n), en, a(0), sn, y(n), ei, si);
    }
  }

  lemma ClosedBase(expo: Expo, g: Vec, r0: nat, a0: real, y: int -> real)
    requires IsExp(expo)
    ensures a0 == expo(Cum(g, r0, 0)) * a0 + Sum(0, Faded(expo, g, r0, 0, y))
  {
    LastTerm(expo, Cum(g, r0, 0), a0);
  }

  lemma FadeStep(expo: Expo, hd: Head, g: Vec, r0: nat, L: nat, n: nat, y: int -> real)
    requires IsExp(expo) && Cumulative(hd, g, r0, L) && n < L
    ensures expo(Cum(g, r0, n + 1)) == expo(Cum(g, r0, n)) * expo(At(hd.logDecay, r0 + n))
    ensures Sum(n, Faded(expo, g, r0, n + 1, y)) == expo(At(hd.logDecay, r0 + n)) * Sum(n, Faded(expo, g, r0, n, y))
    ensures Sum(n + 1, Faded(expo, g, r0, n + 1, y))
         == expo(At(hd.logDecay, r0 + n)) * Sum(n, Faded(expo, g, r0, n, y)) + y(n)
  {
    var l := At(hd.logDecay, r0 + n);
    var before, after := Faded(expo, g, r0, n, y), Faded(expo, g, r0, n + 1, y);
    assert CumulativeAt(hd, g, r0, n);
    ExpAdd(expo, Cum(g, r0, n), l, Cum(g, r0, n + 1));
    forall m | 0 <= m < n ensures after(m) == expo(l) * before(m) {
      Decayed(expo, Cum(g, r0, n), l, Cum(g, r0, m + 1), y(m), Cum(g, r0, n + 1) - Cum(g, r0, m + 1));
    }
    SumFactor(n, after, expo(l), before);
    assert after(n) == y(n) by { LastTerm(expo, Cum(g, r0, n + 1) - Cum(g, r0, n + 1), y(n)); }
  }

  lemma Decayed(expo: Expo, cum: real, l: real, base: real, y: real, now: real)
    requires IsExp(expo) && now == cum + l - base
    ensures expo(now) * y == expo(l) * (expo(cum - base) * y)
  {
    ExpAdd(expo, cum - base, l, now);
    Rotate(expo(now), expo(cum - base), expo(l), y);
  }

  lemma Rotate(a: real, b: real, c: real, y: real)
    requires a == b * c
    ensures a * y == c * (b * y)
  {
  }

  lemma LastTerm(expo: Expo, d: real, y: real)
    requires IsExp(expo) && d == 0.0
    ensures expo(d) * y == y
  {
    ExpZero(expo);
  }

  lemma ClosedStep(ai: real, decay: real, an: real, en: real, a0: real, s: real, y: real, ei: real, si: real)
    requires ai == decay * an + y && an == en * a0 + s && ei == en * decay && si == decay * s + y
    ensures ai == ei * a0 + si
  {
  }

  // ----- the state inside a chunk -----

  /** A state row read out against z. */
  function Proj(n: nat, s: Vec, z: int -> real): real {
    Sum(n, c => At(s, c) * z(c))
  }

  function KeyProj(hd: Head, t: int, z: int -> real): real {
    Sum(hd.K, c => E(hd.k, t, c) * z(c))
  }

  /** The same read-out after m tokens of the chunk, and what token m feeds into it. */
  function Readout(expo: Expo, hd: Head, r0: nat, j: int, s0: Vec, z: int -> real): int -> real {
    (m: int) => if m < 0 then 0.0 else Proj(hd.K, RowState(expo, hd, j, s0, r0 + m), z)
  }

  function Feed(expo: Expo, hd: Head, r0: nat, j: int, s0: Vec, z: int -> real): int -> real {
    (m: int) => if m < 0 then 0.0 else Update(expo, hd, j, s0, r0 + m) * KeyProj(hd, r0 + m, z)
  }

  /** Every read-out of the state after i tokens of the chunk, in terms of the state at its start. */
  lemma ProjClosed(expo: Expo, hd: Head, g: Vec, r0: nat, L: nat, i: nat, j: int, s0: Vec, z: int -> real)
    requires IsExp(expo) && Cumulative(hd, g, r0, L) && i <= L
    ensures Proj(hd.K, RowState(expo, hd, j, s0, r0 + i), z)
         == expo(Cum(g, r0, i)) * Proj(hd.K, RowState(expo, hd, j, s0, r0), z)
            + Sum(i, Faded(expo, g, r0, i, Feed(expo, hd, r0, j, s0, z)))
  {
    hide RowState, Update, KeyProj, Proj;
    var a, y := Readout(expo, hd, r0, j, s0, z), Feed(expo, hd, r0, j, s0, z);
    forall m | 0 <= m < L ensures Fed(expo, hd, r0, a, y, m) {
      ReadoutFed(expo, hd, r0, j, s0, z, m);
    }
    ClosedForm(expo, hd, g, r0, L, i, a, y);
  }

  lemma ReadoutFed(expo: Expo, hd: Head, r0: nat, j: int, s0: Vec, z: int -> real, m: nat)
    ensures Fed(expo, hd, r0, Readout(expo, hd, r0, j, s0, z), Feed(expo, hd, r0, j, s0, z), m)
  {
    hide StepRow, NewValue, KeyProj, Proj;
    var a, y := Readout(expo, hd, r0, j, s0, z), Feed(expo, hd, r0, j, s0, z);
    var s := RowState(expo, hd, j, s0, r0 + m);
    assert RowState(expo, hd, j, s0, r0 + (m + 1)) == StepRow(expo, hd, j, s, r0 + m);
    assert a(m) == Proj(hd.K, s, z);
    assert a(m + 1) == Proj(hd.K, StepRow(expo, hd, j, s, r0 + m), z);
    assert Update(expo, hd, j, s0, r0 + m) == NewValue(expo, hd, j, s, r0 + m);
    assert y(m) == Update(expo, hd, j, s0, r0 + m) * KeyProj(hd, r0 + m, z);
    ProjStep(expo, hd, j, s, r0 + m, z);
  }

  lemma ProjStep(expo: Expo, hd: Head, j: int, s: Vec, t: int, z: int -> real)
    ensures Proj(hd.K, StepRow(expo, hd, j, s, t), z)
         == expo(At(hd.logDecay, t)) * Proj(hd.K, s, z) + NewValue(expo, hd, j, s, t) * KeyProj(hd, t, z)
  {
    hide E, At, StepRow, NewValue;
    var d, x := expo(At(hd.logDecay, t)), NewValue(expo, hd, j, s, t);
    var next := StepRow(expo, hd, j, s, t);
    var h, f, k := c => At(next, c) * z(c), c => At(s, c) * z(c), c => E(hd.k, t, c) * z(c);
    forall c | 0 <= c < hd.K ensures h(c) == d * f(c) + x * k(c) {
      StepAt(expo, hd, j, s, t, c);
      StepTerm(At(next, c), At(s, c), d, x, E(hd.k, t, c), z(c));
    }
    SumCombine(hd.K, h, d, f, x, k);
  }

  lemma StepAt(expo: Expo, hd: Head, j: int, s: Vec, t: int, c: nat)
    requires c < hd.K
    ensures At(StepRow(expo, hd, j, s, t), c)
         == At(s, c) * expo(At(hd.logDecay, t)) + NewValue(expo, hd, j, s, t) * E(hd.k, t, c)
  {
  }

  lemma StepTerm(n: real, s: real, d: real, x: real, k: real, z: real)
    requires n == s * d + x * k
    ensures n * z == d * (s * z) + x * (k * z)
  {
  }
}
