/**
 What one row of a decode launch means: the decay and the strength of its update are those of a gated
 delta rule, its normalized vectors have the stated length, and its packed parts are found where they were put.
 */
module DecodeInputs {
  import opened Sums
  import opened Matrices
  import opened Recurrence
  import opened PackedDecode
  import HeadLayout

  ghost predicate Increasing(expo: Expo) {
    forall a, b :: a < b ==> expo(a) < expo(b)
  }

  /** log undoes exp on the positive numbers. */
  ghost predicate IsLog(expo: Expo, log: real -> real) {
    forall x :: x > 0.0 ==> expo(log(x)) == x
  }

  lemma MulReal(x: real, y: real)
    requires x > 0.0
    ensures (x * y > 0.0 <==> y > 0.0) && (x * y < 0.0 <==> y < 0.0) && (x * y) / x == y
  {
  }

  /** The gate projection plus its bias. */
  function GateInput(p: Packed, n: nat, h: nat): real {
    E(p.a, n, h) + At(p.dtBias, h)
  }

  // ----- the gate -----

  /** The state never grows exactly when softplus is not negative. */
  lemma DecayBounds(expo: Expo, mt: Maths, p: Packed, n: nat, h: nat)
    requires IsExp(expo) && Increasing(expo)
    ensures var decay := expo(LogDecayOf(expo, mt, p, n, h));
      && 0.0 < decay
      && (decay <= 1.0 <==> Softplus(expo, mt, p.threshold, GateInput(p, n, h)) >= 0.0)
  {
    var rate, s := expo(At(p.aLog, h)), Softplus(expo, mt, p.threshold, GateInput(p, n, h));
    assert rate > 0.0 && LogDecayOf(expo, mt, p, n, h) == -rate * s;
    hide LogDecayOf, Softplus, GateInput, At, E, IsExp, Increasing;
    DecayIff(expo, rate, s, LogDecayOf(expo, mt, p, n, h));
  }

  lemma DecayIff(expo: Expo, rate: real, s: real, g: real)
    requires IsExp(expo) && Increasing(expo) && rate > 0.0 && g == -rate * s
    ensures 0.0 < expo(g) && (expo(g) <= 1.0 <==> s >= 0.0)
  {
    MulReal(rate, s);
    MulNeg(rate, s);
    ExpZero(expo);
    if s >= 0.0 {
      if g < 0.0 { assert expo(g) < expo(0.0); }
    } else {
      assert expo(0.0) < expo(g);
    }
  }

  lemma MulNeg(x: real, y: real)
    ensures -x * y == -(x * y)
  {
  }

  /** Softplus is not negative, for any threshold that is not. */
  lemma SoftplusNotNegative(expo: Expo, mt: Maths, threshold: real, x: real)
    requires IsExp(expo) && Increasing(expo) && IsLog(expo, mt.log) && threshold >= 0.0
    ensures Softplus(expo, mt, threshold, x) >= 0.0
  {
    ExpZero(expo);
    if x <= threshold {
      var l := mt.log(1.0 + expo(x));
      assert expo(l) == 1.0 + expo(x) > expo(0.0);
    }
  }

  /** The gate undone: minus the log decay over the head's rate is log(1 + exp(a + dt_bias)), past the threshold
      a + dt_bias itself. */
  lemma GateInverts(expo: Expo, mt: Maths, p: Packed, n: nat, h: nat)
    requires IsExp(expo) && IsLog(expo, mt.log)
    ensures var x, s := GateInput(p, n, h), -LogDecayOf(expo, mt, p, n, h) / expo(At(p.aLog, h));
      && (x <= p.threshold ==> expo(s) == 1.0 + expo(x))
      && (x > p.threshold ==> s == x)
  {
    var rate, s := expo(At(p.aLog, h)), Softplus(expo, mt, p.threshold, GateInput(p, n, h));
    assert rate > 0.0 && LogDecayOf(expo, mt, p, n, h) == -rate * s;
    MulReal(rate, s);
    MulNeg(rate, s);
    assert -LogDecayOf(expo, mt, p, n, h) / rate == s;
    assert 1.0 + expo(GateInput(p, n, h)) > 0.0;
  }

  /** The strength is a proper fraction with odds exp(b). */
  lemma SigmoidOdds(expo: Expo, x: real)
    requires IsExp(expo)
    ensures 1.0 + expo(-x) != 0.0
    ensures var beta := Sigmoid(expo, x); 0.0 < beta < 1.0 && beta == expo(x) * (1.0 - beta)
  {
    ExpZero(expo);
    ExpAdd(expo, x, -x, 0.0);
    Odds(expo(x), expo(-x), Sigmoid(expo, x));
  }

  lemma Odds(u: real, v: real, beta: real)
    requires u > 0.0 && v > 0.0 && u * v == 1.0 && beta == 1.0 / (1.0 + v)
    ensures 0.0 < beta < 1.0 && beta == u * (1.0 - beta)
  {
    assert beta * (1.0 + v) == 1.0;
    assert u * (beta * v) == beta * (u * v);
  }

  /** g is the log decay of a gate with this rate and input: the state fades by rate times softplus of x. */
  ghost predicate IsGate(expo: Expo, threshold: real, rate: real, x: real, g: real) {
    && 0.0 < expo(g) <= 1.0 && rate > 0.0
    && (x <= threshold ==> expo(-g / rate) == 1.0 + expo(x))
    && (x > threshold ==> -g / rate == x)
  }

  ghost predicate IsStrength(expo: Expo, x: real, beta: real) {
    0.0 < beta < 1.0 && beta == expo(x) * (1.0 - beta)
  }

  /** The decay and the strength of a row's token. */
  lemma TokenGates(expo: Expo, mt: Maths, p: Packed, n: nat, h: nat)
    requires IsExp(expo) && Increasing(expo) && IsLog(expo, mt.log) && IsSqrt(mt.sqrt) && ValidPacked(p)
    requires p.threshold >= 0.0
    ensures var hd := TokenHead(expo, mt, p, n, h);
      && IsGate(expo, p.threshold, expo(At(p.aLog, h)), E(p.a, n, h) + At(p.dtBias, h), At(hd.logDecay, 0))
      && IsStrength(expo, E(p.b, n, h), At(hd.beta, 0))
  {
    hide *;
    RowGate(expo, mt, p, n, h);
    RowStrength(expo, E(p.b, n, h));
    TokenParts(expo, mt, p, n, h);
  }

  lemma RowStrength(expo: Expo, x: real)
    requires IsExp(expo)
    ensures 1.0 + expo(-x) != 0.0 && IsStrength(expo, x, Sigmoid(expo, x))
  {
    SigmoidOdds(expo, x);
  }

  lemma RowGate(expo: Expo, mt: Maths, p: Packed, n: nat, h: nat)
    requires IsExp(expo) && Increasing(expo) && IsLog(expo, mt.log) && p.threshold >= 0.0
    ensures IsGate(expo, p.threshold, expo(At(p.aLog, h)), E(p.a, n, h) + At(p.dtBias, h),
                   LogDecayOf(expo, mt, p, n, h))
  {
    DecayBounds(expo, mt, p, n, h);
    SoftplusNotNegative(expo, mt, p.threshold, GateInput(p, n, h));
    GateInverts(expo, mt, p, n, h);
    assert expo(At(p.aLog, h)) > 0.0;
    hide LogDecayOf, Softplus, IsExp, IsLog, Increasing, At, E;
  }

  lemma TokenParts(expo: Expo, mt: Maths, p: Packed, n: nat, h: nat)
    requires IsExp(expo) && IsSqrt(mt.sqrt) && ValidPacked(p)
    ensures 1.0 + expo(-E(p.b, n, h)) != 0.0
    ensures At(TokenHead(expo, mt, p, n, h).beta, 0) == Sigmoid(expo, E(p.b, n, h))
    ensures At(TokenHead(expo, mt, p, n, h).logDecay, 0) == LogDecayOf(expo, mt, p, n, h)
  {
    hide LogDecayOf, Prepared, Slice, IsSqrt, KeyHead, E;
  }

  // ----- normalization -----

  function SquaredNorm(K: nat, x: Vec): real {
    Sum(K, c => At(x, c) * At(x, c))
  }

  /** A normalized vector points where the vector does; the square of its length is s / (s + 0.000001) for a
      vector of squared length s. */
  lemma NormalizedLength(mt: Maths, K: nat, x: Vec)
    requires IsSqrt(mt.sqrt)
    ensures mt.sqrt(SquaredNorm(K, x) + 0.000001) > 0.0
    ensures var r := Normalized(mt, K, x);
      && (forall c :: 0 <= c < K ==> At(r, c) * mt.sqrt(SquaredNorm(K, x) + 0.000001) == At(x, c))
      && SquaredNorm(K, r) * (SquaredNorm(K, x) + 0.000001) == SquaredNorm(K, x)
  {
    NormPositive(mt, K, x);
    SquaresNotNegative(K, x);
    var s, r := SquaredNorm(K, x), Normalized(mt, K, x);
    var l := mt.sqrt(s + 0.000001);
    assert l * l == s + 0.000001 && l > 0.0;
    forall c | 0 <= c < K ensures At(r, c) * l == At(x, c) { DivReal(At(r, c), At(x, c), l); }
    hide SquaredNorm, Normalized, IsSqrt, At;
    ScaledNorm(K, x, r, l);
    Flip(l * l, SquaredNorm(K, r));
  }

  /** r is x brought to its normalized length, pointing the same way. */
  ghost predicate IsNormalized(mt: Maths, K: nat, x: Vec, r: Vec) {
    && SquaredNorm(K, r) * (SquaredNorm(K, x) + 0.000001) == SquaredNorm(K, x)
    && forall c :: 0 <= c < K ==> At(r, c) * mt.sqrt(SquaredNorm(K, x) + 0.000001) == At(x, c)
  }

  /** The vectors of a row's token: query and key normalized exactly when the launch says so. */
  lemma TokenVectors(expo: Expo, mt: Maths, p: Packed, n: nat, h: nat)
    requires IsExp(expo) && IsSqrt(mt.sqrt) && ValidPacked(p)
    ensures var hd, q, k := TokenHead(expo, mt, p, n, h), QueryOf(p, n, h), KeyOf(p, n, h);
      && hd.v == [ValueOf(p, n, h)] && |hd.q| == 1 == |hd.k|
      && (p.normalize ==> IsNormalized(mt, p.K, q, hd.q[0]) && IsNormalized(mt, p.K, k, hd.k[0]))
      && (!p.normalize ==> hd.q[0] == q && hd.k[0] == k)
  {
    var q, k := QueryOf(p, n, h), KeyOf(p, n, h);
    hide Slice, KeyHead, LogDecayOf, Normalized, IsNormalized, IsSqrt, IsExp;
    RowNormalized(mt, p.K, q);
    RowNormalized(mt, p.K, k);
  }

  lemma RowNormalized(mt: Maths, K: nat, x: Vec)
    requires IsSqrt(mt.sqrt)
    ensures mt.sqrt(Sum(K, c => At(x, c) * At(x, c)) + NORM_EPS) > 0.0
    ensures IsNormalized(mt, K, x, Normalized(mt, K, x))
  {
    NormPositive(mt, K, x);
    NormalizedLength(mt, K, x);
    hide SquaredNorm, Normalized, IsSqrt, At, Sum;
  }

  lemma ScaledNorm(K: nat, x: Vec, r: Vec, l: real)
    requires forall c :: 0 <= c < K ==> At(r, c) * l == At(x, c)
    ensures SquaredNorm(K, x) == (l * l) * SquaredNorm(K, r)
  {
    hide Sum, At;
    forall c | 0 <= c < K ensures At(x, c) * At(x, c) == (l * l) * (At(r, c) * At(r, c)) {
      SquareOf(At(r, c), At(x, c), l);
    }
    SumFactor(K, c => At(x, c) * At(x, c), l * l, c => At(r, c) * At(r, c));
  }

  lemma DivReal(r: real, x: real, l: real)
    requires l > 0.0 && r == x / l
    ensures r * l == x
  {
  }

  lemma SquareOf(r: real, x: real, l: real)
    requires r * l == x
    ensures x * x == (l * l) * (r * r)
  {
    assert (r * l) * (r * l) == (l * l) * (r * r);
  }

  // ----- the packed row -----

  /** Rows one after another. */
  function Joined(rows: Mat): (r: Vec) {
    if rows == [] then [] else Joined(rows[..|rows| - 1]) + rows[|rows| - 1]
  }

  lemma {:induction false} JoinedAt(rows: Mat, n: nat, i: nat, c: nat)
    requires (forall x :: 0 <= x < |rows| ==> |rows[x]| == n) && i < |rows| && c < n
    ensures |Joined(rows)| == |rows| * n && i * n + c < |rows| * n && Joined(rows)[i * n + c] == rows[i][c]
  {
    JoinedLength(rows, n);
    JoinedLength(rows[..|rows| - 1], n);
    CellBelow(i, c, |rows|, n);
    if i < |rows| - 1 { JoinedAt(rows[..|rows| - 1], n, i, c); }
  }

  lemma {:induction false} JoinedLength(rows: Mat, n: nat)
    requires forall x :: 0 <= x < |rows| ==> |rows[x]| == n
    ensures |Joined(rows)| == |rows| * n
  {
    if rows != [] {
      JoinedLength(rows[..|rows| - 1], n);
      assert |rows| * n == (|rows| - 1) * n + n;
    }
  }

  lemma CellBelow(i: nat, c: nat, m: nat, n: nat)
    requires i < m && c < n
    ensures i * n + c < m * n && (m - 1) * n + n == m * n && (i < m - 1 ==> i * n + c < (m - 1) * n)
  {
    assert (i + 1) * n <= m * n;
    if i < m - 1 { assert (i + 1) * n <= (m - 1) * n; }
  }

  /** A row packed from H query heads, H key heads and HV value heads. */
  ghost predicate PackedFrom(p: Packed, n: nat, qs: Mat, ks: Mat, vs: Mat) {
    && Dim(qs, p.H, p.K) && Dim(ks, p.H, p.K) && Dim(vs, p.HV, p.V)
    && n < |p.mixed| && p.mixed[n] == Joined(qs) + Joined(ks) + Joined(vs)
  }

  /** Value head g G + r, member r of group g, unpacks to its group's query and key and to its own value. */
  lemma Unpacks(p: Packed, n: nat, G: nat, g: nat, r: nat, qs: Mat, ks: Mat, vs: Mat)
    requires ValidPacked(p) && PackedFrom(p, n, qs, ks, vs) && p.HV == p.H * G && g < p.H && r < G
    ensures var h := g * G + r;
      h < p.HV && QueryOf(p, n, h) == qs[g] && KeyOf(p, n, h) == ks[g] && ValueOf(p, n, h) == vs[h]
  {
    var q, k, v := Joined(qs), Joined(ks), Joined(vs);
    KeyHeadIs(p, G, g, r);
    JoinedLength(qs, p.K);
    JoinedLength(ks, p.K);
    ThreeParts(q, k, v);
    hide Joined, KeyHead, Slice;
    FirstPart(p, n, g * G + r, g, qs, k + v);
    SecondPart(p, n, g * G + r, g, q, ks, v);
    ThirdPart(p, n, g * G + r, q + k, vs);
  }

  lemma FirstPart(p: Packed, n: nat, h: nat, g: nat, qs: Mat, rest: Vec)
    requires ValidPacked(p) && n < |p.mixed| && p.mixed[n] == [] + Joined(qs) + rest
    requires Dim(qs, p.H, p.K) && g < p.H && KeyHead(p, h) == g
    ensures QueryOf(p, n, h) == qs[g]
  {
    hide Joined, KeyHead, Slice;
    PartAt(p.mixed, n, [], qs, rest, p.K, g);
  }

  lemma SecondPart(p: Packed, n: nat, h: nat, g: nat, q: Vec, ks: Mat, v: Vec)
    requires ValidPacked(p) && n < |p.mixed| && p.mixed[n] == q + Joined(ks) + v && |q| == p.H * p.K
    requires Dim(ks, p.H, p.K) && g < p.H && KeyHead(p, h) == g
    ensures KeyOf(p, n, h) == ks[g]
  {
    hide Joined, KeyHead, Slice;
    PartAt(p.mixed, n, q, ks, v, p.K, g);
  }

  lemma ThirdPart(p: Packed, n: nat, h: nat, keys: Vec, vs: Mat)
    requires ValidPacked(p) && n < |p.mixed| && p.mixed[n] == keys + Joined(vs) + [] && |keys| == p.H * p.K + p.H * p.K
    requires Dim(vs, p.HV, p.V) && h < p.HV
    ensures ValueOf(p, n, h) == vs[h]
  {
    hide Joined, Slice;
    PartAt(p.mixed, n, keys, vs, [], p.V, h);
    assert 2 * p.H * p.K == p.H * p.K + p.H * p.K;
  }

  lemma ThreeParts(q: Vec, k: Vec, v: Vec)
    ensures q + k + v == [] + q + (k + v) == (q + k) + v + [] && |q + k| == |q| + |k|
  {
    assert [] + q == q && (q + k) + v + [] == (q + k) + v;
    assert q + k + v == q + (k + v);
  }

  /** The i-th of the rows joined between before and after. */
  lemma PartAt(mixed: Mat, n: nat, before: Vec, rows: Mat, after: Vec, width: nat, i: nat)
    requires n < |mixed| && mixed[n] == before + Joined(rows) + after
    requires i < |rows| && forall x :: 0 <= x < |rows| ==> |rows[x]| == width
    ensures Slice(mixed, n, |before| + i * width, width) == rows[i]
  {
    hide Joined, Slice;
    JoinedLength(rows, width);
    forall c | 0 <= c < width ensures Slice(mixed, n, |before| + i * width, width)[c] == rows[i][c] {
      JoinedAt(rows, width, i, c);
      if width > 0 { CellBelow(i, width - 1, |rows|, width); }
      SliceAt(mixed, n, |before| + i * width, width, c);
    }
  }

  lemma SliceAt(row: Mat, i: nat, off: nat, n: nat, c: nat)
    requires i < |row| && off + n <= |row[i]| && c < n
    ensures Slice(row, i, off, n)[c] == row[i][off + c]
  {
    assert At(Slice(row, i, off, n), c) == E(row, i, off + c);
  }

  lemma KeyHeadIs(p: Packed, G: nat, g: nat, r: nat)
    requires ValidPacked(p) && p.HV == p.H * G && g < p.H && r < G
    ensures g * G + r < p.HV && KeyHead(p, g * G + r) == g
  {
    HeadLayout.GroupOf(p.HV, p.H, G, g, r);
  }
}
