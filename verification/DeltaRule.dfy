/**
 What one step of the recurrence is for: it fades the state, moves what the state answers for the token's key
 towards the token's value by the strength beta, and leaves the answers for keys at right angles alone.
 */
module DeltaRule {
  import opened Sums
  import opened Matrices
  import opened Recurrence

  /** What state row s answers for x. */
  function Answer(K: nat, s: Vec, x: Vec): real {
    Sum(K, c => At(s, c) * At(x, c))
  }

  function KeyRow(hd: Head, t: nat): Vec {
    VTab(hd.K, c => E(hd.k, t, c))
  }

  function QueryRow(hd: Head, t: nat): Vec {
    VTab(hd.K, c => E(hd.q, t, c))
  }

  lemma StepAt(expo: Expo, hd: Head, j: int, s: Vec, t: nat, c: nat)
    requires c < hd.K
    ensures At(StepRow(expo, hd, j, s, t), c)
         == expo(At(hd.logDecay, t)) * At(s, c) + NewValue(expo, hd, j, s, t) * At(KeyRow(hd, t), c)
  {
    hide NewValue, E;
    Commute(At(s, c), expo(At(hd.logDecay, t)));
  }

  lemma Commute(x: real, y: real)
    ensures x * y == y * x
  {
  }

  /** The answer after a step: the faded one, and the update as far as x points along the key. */
  lemma StepAnswer(expo: Expo, hd: Head, j: int, s: Vec, t: nat, x: Vec)
    ensures Answer(hd.K, StepRow(expo, hd, j, s, t), x)
         == expo(At(hd.logDecay, t)) * Answer(hd.K, s, x)
            + NewValue(expo, hd, j, s, t) * Answer(hd.K, KeyRow(hd, t), x)
  {
    hide StepRow, NewValue, KeyRow, At;
    var next, d, u := StepRow(expo, hd, j, s, t), expo(At(hd.logDecay, t)), NewValue(expo, hd, j, s, t);
    forall c | 0 <= c < hd.K
      ensures At(next, c) * At(x, c) == d * (At(s, c) * At(x, c)) + u * (At(KeyRow(hd, t), c) * At(x, c))
    {
      StepAt(expo, hd, j, s, t, c);
      Spread(d, At(s, c), u, At(KeyRow(hd, t), c), At(x, c));
    }
    SumCombine(hd.K, c => At(next, c) * At(x, c), d, c => At(s, c) * At(x, c), u, c => At(KeyRow(hd, t), c) * At(x, c));
  }

  lemma Spread(d: real, s: real, u: real, k: real, x: real)
    ensures (d * s + u * k) * x == d * (s * x) + u * (k * x)
  {
  }

  /** The update is the strength times the value's distance from the faded answer for the key. */
  lemma UpdateIsError(expo: Expo, hd: Head, j: int, s: Vec, t: nat)
    ensures NewValue(expo, hd, j, s, t)
         == At(hd.beta, t) * (E(hd.v, t, j) - expo(At(hd.logDecay, t)) * Answer(hd.K, s, KeyRow(hd, t)))
  {
    forall c | 0 <= c < hd.K ensures At(KeyRow(hd, t), c) == E(hd.k, t, c) { }
    hide E, At, KeyRow;
    var d := expo(At(hd.logDecay, t));
    forall c | 0 <= c < hd.K ensures At(s, c) * d * E(hd.k, t, c) == d * (At(s, c) * At(KeyRow(hd, t), c)) {
      Around(At(s, c), d, E(hd.k, t, c));
    }
    SumFactor(hd.K, c => At(s, c) * d * E(hd.k, t, c), d, c => At(s, c) * At(KeyRow(hd, t), c));
  }

  lemma Around(s: real, d: real, k: real)
    ensures s * d * k == d * (s * k)
  {
  }

  /** The delta rule: for a key of squared length n the answer moves the part beta n of the way to the value; with
      a unit key and full strength it becomes the value. Answers for vectors at right angles to the key only fade. */
  lemma StepMoves(expo: Expo, hd: Head, j: int, s: Vec, t: nat, x: Vec)
    ensures var k, d, beta, v := KeyRow(hd, t), expo(At(hd.logDecay, t)), At(hd.beta, t), E(hd.v, t, j);
            var next, faded, n := StepRow(expo, hd, j, s, t), d * Answer(hd.K, s, k), Answer(hd.K, k, k);
      && Answer(hd.K, next, k) == faded + beta * n * (v - faded)
      && (n == 1.0 && beta == 1.0 ==> Answer(hd.K, next, k) == v)
      && (Answer(hd.K, k, x) == 0.0 ==> Answer(hd.K, next, x) == d * Answer(hd.K, s, x))
  {
    hide E, At, StepRow, NewValue, KeyRow, Answer;
    var k := KeyRow(hd, t);
    StepAnswer(expo, hd, j, s, t, k);
    StepAnswer(expo, hd, j, s, t, x);
    UpdateIsError(expo, hd, j, s, t);
    var faded := expo(At(hd.logDecay, t)) * Answer(hd.K, s, k);
    Around(At(hd.beta, t), E(hd.v, t, j) - faded, Answer(hd.K, k, k));
    Around(At(hd.beta, t), Answer(hd.K, k, k), E(hd.v, t, j) - faded);
  }

  /** The output is the updated state's answer for the query, times the scale. */
  lemma OutputIsAnswer(expo: Expo, hd: Head, scale: real, j: int, s0: Vec, t: nat)
    ensures Output(expo, hd, scale, j, s0, t)
         == scale * Answer(hd.K, RowState(expo, hd, j, s0, t + 1), QueryRow(hd, t))
  {
    hide RowState, E;
    var s := RowState(expo, hd, j, s0, t + 1);
    forall c | 0 <= c < hd.K ensures At(s, c) * (E(hd.q, t, c) * scale) == scale * (At(s, c) * At(QueryRow(hd, t), c)) {
      Outward(At(s, c), E(hd.q, t, c), scale);
    }
    SumFactor(hd.K, c => At(s, c) * (E(hd.q, t, c) * scale), scale, c => At(s, c) * At(QueryRow(hd, t), c));
  }

  lemma Outward(s: real, q: real, scale: real)
    ensures s * (q * scale) == scale * (s * q)
  {
  }
}
