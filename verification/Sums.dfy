/** Finite sums over the reals, the one tool every matrix argument here is built from. */
module Sums {

  function Sum(n: nat, f: int -> real): real {
    if n == 0 then 0.0 else Sum(n - 1, f) + f(n - 1)
  }

  lemma {:induction false} SumExt(n: nat, f: int -> real, g: int -> real)
    requires forall i :: 0 <= i < n ==> f(i) == g(i)
    ensures Sum(n, f) == Sum(n, g)
  {
    if n > 0 { SumExt(n - 1, f, g); }
  }

  lemma {:induction false} SumZero(n: nat, f: int -> real)
    requires forall i :: 0 <= i < n ==> f(i) == 0.0
    ensures Sum(n, f) == 0.0
  {
    if n > 0 { SumZero(n - 1, f); }
  }

  /** Sums are linear. */
  lemma {:induction false} SumLinear(n: nat, a: real, f: int -> real, b: real, g: int -> real)
    ensures Sum(n, i => a * f(i) + b * g(i)) == a * Sum(n, f) + b * Sum(n, g)
  {
    if n > 0 { SumLinear(n - 1, a, f, b, g); }
  }

  lemma {:induction false} SumScale(n: nat, a: real, f: int -> real)
    ensures Sum(n, i => a * f(i)) == a * Sum(n, f)
  {
    if n > 0 { SumScale(n - 1, a, f); }
  }

  /** A double sum may be taken in either order. */
  lemma {:induction false} SumSwap(m: nat, n: nat, f: (int, int) -> real)
    ensures Sum(m, i => Sum(n, j => f(i, j))) == Sum(n, j => Sum(m, i => f(i, j)))
  {
    if m == 0 {
      SumZero(n, j => Sum(m, i => f(i, j)));
    } else {
      var rows := i => Sum(n, j => f(i, j));
      var rest := j => Sum(m - 1, i => f(i, j));
      var last := j => f(m - 1, j);
      calc {
        Sum(m, rows);
        Sum(m - 1, rows) + Sum(n, last);
        { SumSwap(m - 1, n, f); SumExt(m - 1, rows, i => Sum(n, j => f(i, j))); }
        Sum(n, rest) + Sum(n, last);
        { SumLinear(n, 1.0, rest, 1.0, last); }
        Sum(n, j => 1.0 * rest(j) + 1.0 * last(j));
        { SumExt(n, j => Sum(m, i => f(i, j)), j => 1.0 * rest(j) + 1.0 * last(j)); }
        Sum(n, j => Sum(m, i => f(i, j)));
      }
    }
  }

  /** Only the terms below n count when the rest vanish: how zero-padded tiles drop out. */
  lemma {:induction false} SumTail(n: nat, m: nat, f: int -> real)
    requires n <= m
    requires forall i :: n <= i < m ==> f(i) == 0.0
    ensures Sum(m, f) == Sum(n, f)
  {
    if m > n { SumTail(n, m - 1, f); }
  }

  lemma {:induction false} SumSplit(n: nat, m: nat, f: int -> real)
    ensures Sum(n + m, f) == Sum(n, f) + Sum(m, i => f(n + i))
  {
    if m > 0 {
      SumSplit(n, m - 1, f);
    }
  }

  /** A sum with one non-zero term. */
  lemma {:induction false} SumSingle(n: nat, k: nat, f: int -> real)
    requires k < n
    requires forall i :: 0 <= i < n && i != k ==> f(i) == 0.0
    ensures Sum(n, f) == f(k)
  {
    SumTail(k + 1, n, f);
    SumZero(k, f);
  }

  /** SumLinear for a summand that is only pointwise the combination. */
  lemma SumCombine(n: nat, h: int -> real, a: real, f: int -> real, b: real, g: int -> real)
    requires forall i :: 0 <= i < n ==> h(i) == a * f(i) + b * g(i)
    ensures Sum(n, h) == a * Sum(n, f) + b * Sum(n, g)
  {
    SumLinear(n, a, f, b, g);
    SumExt(n, h, i => a * f(i) + b * g(i));
  }

  lemma SumFactor(n: nat, h: int -> real, a: real, f: int -> real)
    requires forall i :: 0 <= i < n ==> h(i) == a * f(i)
    ensures Sum(n, h) == a * Sum(n, f)
  {
    SumScale(n, a, f);
    SumExt(n, h, i => a * f(i));
  }
}
