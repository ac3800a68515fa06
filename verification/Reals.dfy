/** Steps of nonlinear arithmetic over plain reals, one at a time. */
module Reals {

  lemma Associates(x: real, y: real, z: real)
    ensures (x * y) * z == x * (y * z)
  {
  }

  lemma Distributes(x: real, y: real, z: real)
    ensures x * (y + z) == x * y + x * z
  {
  }

  lemma ProductPositive(x: real, y: real)
    requires x > 0.0 && y > 0.0
    ensures x * y > 0.0
  {
  }

  lemma ProductNonNegative(x: real, y: real)
    requires x >= 0.0 && y >= 0.0
    ensures x * y >= 0.0
  {
  }

  lemma ScaleUp(x: real, y: real, m: real)
    requires x <= y && m >= 0.0
    ensures x * m <= y * m
  {
  }

  lemma ScaleStrictly(x: real, y: real, m: real)
    requires x < y && m > 0.0
    ensures x * m < y * m
  {
  }

  lemma CancelUp(x: real, y: real, m: real)
    requires x * m <= y * m && m > 0.0
    ensures x <= y
  {
    if y < x { ScaleStrictly(y, x, m); }
  }

  lemma CancelStrictly(x: real, y: real, m: real)
    requires x * m < y * m && m > 0.0
    ensures x < y
  {
    if y <= x { ScaleUp(y, x, m); }
  }

  lemma CancelFactor(x: real, y: real, m: real)
    requires x * m == y * m && m > 0.0
    ensures x == y
  {
    CancelUp(x, y, m);
    CancelUp(y, x, m);
  }

  lemma PositiveFactor(x: real, y: real, p: real)
    requires y > 0.0 && x * y == p && p > 0.0
    ensures x > 0.0
  {
    CancelStrictly(0.0, x, y);
  }

  lemma Cancels(x: real, y: real)
    requires y != 0.0
    ensures x / y * y == x
  {
  }

  /** A fraction of a whole. */
  lemma FractionOf(w: real, max: real, q: real)
    requires 0.0 <= w <= max && max > 0.0 && q * max == w
    ensures 0.0 <= q <= 1.0 && (q == 1.0 <==> w == max)
  {
    CancelUp(0.0, q, max);
    CancelUp(q, 1.0, max);
    if w == max { CancelFactor(q, 1.0, max); }
  }

  /** A quotient q = x / c below r, without the division. */
  lemma QuotientAtMost(x: real, c: real, q: real, r: real)
    requires c > 0.0 && q * c == x && q <= r
    ensures x <= r * c
  {
    ScaleUp(q, r, c);
  }

  /** A quotient q = x / c above r, without the division. */
  lemma QuotientAbove(x: real, c: real, q: real, r: real)
    requires c > 0.0 && q * c == x && r < q
    ensures r * c < x
  {
    ScaleStrictly(r, q, c);
  }

  /** Comparing with a quotient q = x / c, without the division. */
  lemma QuotientThreshold(r: real, x: real, c: real, q: real)
    requires c > 0.0 && q * c == x
    ensures r * c <= x <==> r <= q
  {
    if r * c <= x { CancelUp(r, q, c); }
    if r <= q { ScaleUp(r, q, c); }
  }

  lemma FloorThreshold(r: int, q: real)
    ensures r <= q.Floor <==> r as real <= q
  {
  }

  lemma Squares(c: real)
    requires c > 0.0
    ensures c * c / c == c
  {
    Cancels(c * c, c);
    CancelFactor(c * c / c, c, c);
  }
}
