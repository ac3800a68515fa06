/** Finite sums of reals over an index range, and the laws the thermal model needs. */
module Sums {

  function Sum(f: nat -> real, n: nat): real {
    if n == 0 then 0.0 else Sum(f, n - 1) + f(n - 1)
  }

  lemma {:induction false} SumSame(f: nat -> real, g: nat -> real, n: nat)
    requires forall i: nat | i < n :: f(i) == g(i)
    ensures Sum(f, n) == Sum(g, n)
  {
    if n > 0 { SumSame(f, g, n - 1); }
  }

  lemma {:induction false} SumZero(f: nat -> real, n: nat)
    requires forall i: nat | i < n :: f(i) == 0.0
    ensures Sum(f, n) == 0.0
  {
    if n > 0 { SumZero(f, n - 1); }
  }

  lemma {:induction false} SumNonNegative(f: nat -> real, n: nat)
    requires forall i: nat | i < n :: f(i) >= 0.0
    ensures Sum(f, n) >= 0.0
  {
    if n > 0 { SumNonNegative(f, n - 1); }
  }

  /** h = f + c g, summed. */
  lemma {:induction false} SumLinear(f: nat -> real, g: nat -> real, c: real, h: nat -> real, n: nat)
    requires forall i: nat | i < n :: h(i) == f(i) + c * g(i)
    ensures Sum(h, n) == Sum(f, n) + c * Sum(g, n)
  {
    if n > 0 {
      SumLinear(f, g, c, h, n - 1);
      assert c * (Sum(g, n - 1) + g(n - 1)) == c * Sum(g, n - 1) + c * g(n - 1);
    }
  }

  /** h = f - g, summed. */
  lemma {:induction false} SumMinus(f: nat -> real, g: nat -> real, h: nat -> real, n: nat)
    requires forall i: nat | i < n :: h(i) == f(i) - g(i)
    ensures Sum(h, n) == Sum(f, n) - Sum(g, n)
  {
    if n > 0 { SumMinus(f, g, h, n - 1); }
  }

  /** h = f + q g, summed; s and t are the sums of f and g. */
  lemma {:induction false} SumMore(f: nat -> real, g: nat -> real, q: real, h: nat -> real, n: nat, s: real, t: real)
    requires (forall i: nat | i < n :: h(i) == f(i) + q * g(i)) && s == Sum(f, n) && t == Sum(g, n)
    ensures Sum(h, n) == s + q * t
  {
    if n > 0 {
      var u := Sum(g, n - 1);
      SumMore(f, g, q, h, n - 1, Sum(f, n - 1), u);
      Spread(q, u, g(n - 1));
    }
  }

  /** h = f - q g, summed; s and t are the sums of f and g. */
  lemma {:induction false} SumLess(f: nat -> real, g: nat -> real, q: real, h: nat -> real, n: nat, s: real, t: real)
    requires (forall i: nat | i < n :: h(i) == f(i) - q * g(i)) && s == Sum(f, n) && t == Sum(g, n)
    ensures Sum(h, n) == s - q * t
  {
    if n > 0 {
      var u := Sum(g, n - 1);
      SumLess(f, g, q, h, n - 1, Sum(f, n - 1), u);
      Spread(q, u, g(n - 1));
    }
  }

  lemma Spread(q: real, x: real, y: real)
    ensures q * (x + y) == q * x + q * y
  {
  }

  lemma {:induction false} SumScale(g: nat -> real, c: real, h: nat -> real, n: nat)
    requires forall i: nat | i < n :: h(i) == c * g(i)
    ensures Sum(h, n) == c * Sum(g, n)
  {
    if n > 0 {
      SumScale(g, c, h, n - 1);
      assert c * (Sum(g, n - 1) + g(n - 1)) == c * Sum(g, n - 1) + c * g(n - 1);
    }
  }

  /** A summand that vanishes everywhere except at k. */
  lemma {:induction false} SumSingle(f: nat -> real, k: nat, n: nat)
    requires k < n && forall i: nat | i < n && i != k :: f(i) == 0.0
    ensures Sum(f, n) == f(k)
  {
    if k == n - 1 { SumZero(f, n - 1); } else { SumSingle(f, k, n - 1); }
  }

  function RowOf(f: (nat, nat) -> real, i: nat): nat -> real { (j: nat) => f(i, j) }

  function ColumnOf(f: (nat, nat) -> real, j: nat): nat -> real { (i: nat) => f(i, j) }

  /** The order of a double sum does not matter; r and c are its row and column sums. */
  lemma {:induction false} SumSwap(f: (nat, nat) -> real, r: nat -> real, c: nat -> real, m: nat, n: nat)
    requires forall i: nat | i < m :: r(i) == Sum(RowOf(f, i), n)
    requires forall j: nat | j < n :: c(j) == Sum(ColumnOf(f, j), m)
    ensures Sum(r, m) == Sum(c, n)
  {
    if m == 0 {
      forall j: nat | j < n ensures c(j) == 0.0 { }
      SumZero(c, n);
    } else {
      var k: nat := m - 1;
      var c' := (j: nat) => Sum(ColumnOf(f, j), k);
      SumSwap(f, r, c', k, n);
      forall j: nat | j < n ensures c(j) == c'(j) + 1.0 * RowOf(f, k)(j) { }
      SumLinear(c', RowOf(f, k), 1.0, c, n);
    }
  }
}
