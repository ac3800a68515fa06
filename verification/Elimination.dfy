/** Solving linear systems by elimination. The step matrices of the thermal solver have non-positive entries off the
    diagonal and positive row sums; elimination keeps both, so it never meets a zero pivot
    (the factorization in integrations/thermal_model/package_class.py). */
module Elimination {
  import opened Reals
  import opened Sums
  import opened ThermalNetwork

  type Matrix = (nat, nat) -> real

  /** Products of row a with y. */
  function Products(m: Matrix, a: nat, y: seq<real>): nat -> real { (b: nat) => m(a, b) * At(y, b) }

  function RowTimes(m: Matrix, a: nat, y: seq<real>, n: nat): real { Sum(Products(m, a, y), n) }

  ghost predicate Solves(m: Matrix, n: nat, r: seq<real>, y: seq<real>) {
    |y| == n && forall a: nat | a < n :: RowTimes(m, a, y, n) == At(r, a)
  }

  /** Non-positive off the diagonal, with positive row sums. */
  ghost predicate Dominant(m: Matrix, n: nat) {
    && (forall a: nat, b: nat | a < n && b < n && a != b :: m(a, b) <= 0.0)
    && (forall a: nat | a < n :: Sum(RowOf(m, a), n) > 0.0)
  }

  /** What row a owes to the last row k. */
  function Factor(m: Matrix, a: nat, k: nat): real { if m(k, k) != 0.0 then m(a, k) / m(k, k) else 0.0 }

  /** The matrix after eliminating row and column k. */
  function Reduced(m: Matrix, k: nat): Matrix { (a: nat, b: nat) => m(a, b) - Factor(m, a, k) * m(k, b) }

  function ReducedSide(m: Matrix, k: nat, r: seq<real>): (s: seq<real>)
    ensures |s| == k && forall a: nat | a < k :: At(s, a) == At(r, a) - Factor(m, a, k) * At(r, k)
  {
    seq(k, a requires 0 <= a < k => At(r, a) - Factor(m, a, k) * At(r, k))
  }

  /** Eliminate the last unknown, solve for the others, substitute back. */
  function Solution(m: Matrix, n: nat, r: seq<real>): (y: seq<real>)
    ensures |y| == n
  {
    if n == 0 then []
    else
      var k: nat := n - 1;
      var y := Solution(Reduced(m, k), k, ReducedSide(m, k, r));
      y + [if m(k, k) != 0.0 then (At(r, k) - RowTimes(m, k, y, k)) / m(k, k) else 0.0]
  }

  // ----- elimination keeps dominance -----------------------------------------------------------------------

  lemma PivotIsPositive(m: Matrix, k: nat)
    requires Dominant(m, k + 1)
    ensures m(k, k) > 0.0 && Sum(RowOf(m, k), k) == Sum(RowOf(m, k), k + 1) - m(k, k)
  {
    NonPositiveSum(RowOf(m, k), k);
    assert Sum(RowOf(m, k), k + 1) == Sum(RowOf(m, k), k) + RowOf(m, k)(k);
  }

  lemma FactorIsNonPositive(x: real, p: real, q: real)
    requires x <= 0.0 && p > 0.0 && q == x / p
    ensures q <= 0.0 && q * p == x
  {
    Cancels(x, p);
    if q > 0.0 { ProductPositive(q, p); }
  }

  lemma ProductOfNonPositive(x: real, y: real)
    requires x <= 0.0 && y <= 0.0
    ensures x * y >= 0.0
  {
    ProductNonNegative(-x, -y);
  }

  /** Row sum of the reduced matrix: s and t are the sums of rows a and k before, q the factor, p the pivot. */
  lemma ReducedSumIsPositive(s: real, t: real, q: real, p: real, x: real, reduced: real)
    requires s > 0.0 && t > 0.0 && q <= 0.0 && q * p == x && reduced == (s - x) - q * (t - p)
    ensures reduced > 0.0
  {
    assert q * (t - p) == q * t - q * p;
    ProductNonNegative(-q, t);
  }

  lemma ReducedRowSum(m: Matrix, a: nat, k: nat, q: real, s: real, t: real)
    requires q == Factor(m, a, k) && s == Sum(RowOf(m, a), k) && t == Sum(RowOf(m, k), k)
    ensures Sum(RowOf(Reduced(m, k), a), k) == s - q * t
  {
    SumLess(RowOf(m, a), RowOf(m, k), q, RowOf(Reduced(m, k), a), k, s, t);
  }

  lemma ReducedRowIsPositive(m: Matrix, a: nat, k: nat)
    requires Dominant(m, k + 1) && a < k
    ensures Sum(RowOf(Reduced(m, k), a), k) > 0.0
  {
    PivotIsPositive(m, k);
    var q, s, t := Factor(m, a, k), Sum(RowOf(m, a), k + 1), Sum(RowOf(m, k), k + 1);
    FactorIsNonPositive(m(a, k), m(k, k), q);
    assert Sum(RowOf(m, a), k) == s - m(a, k);
    ReducedRowSum(m, a, k, q, s - m(a, k), t - m(k, k));
    ReducedSumIsPositive(s, t, q, m(k, k), m(a, k), Sum(RowOf(Reduced(m, k), a), k));
  }

  lemma ReducedEntryIsNonPositive(m: Matrix, a: nat, b: nat, k: nat)
    requires Dominant(m, k + 1) && a < k && b < k && a != b
    ensures Reduced(m, k)(a, b) <= 0.0
  {
    PivotIsPositive(m, k);
    FactorIsNonPositive(m(a, k), m(k, k), Factor(m, a, k));
    ProductOfNonPositive(Factor(m, a, k), m(k, b));
  }

  lemma ReducedIsDominant(m: Matrix, k: nat)
    requires Dominant(m, k + 1)
    ensures Dominant(Reduced(m, k), k)
  {
    forall a: nat, b: nat | a < k && b < k && a != b ensures Reduced(m, k)(a, b) <= 0.0 {
      ReducedEntryIsNonPositive(m, a, b, k);
    }
    forall a: nat | a < k ensures Sum(RowOf(Reduced(m, k), a), k) > 0.0 { ReducedRowIsPositive(m, a, k); }
  }

  // ----- the solution solves -------------------------------------------------------------------------------

  lemma RowTimesLast(m: Matrix, a: nat, y: seq<real>, last: real)
    ensures RowTimes(m, a, y + [last], |y| + 1) == RowTimes(m, a, y, |y|) + m(a, |y|) * last
  {
    forall b: nat | b < |y| ensures Products(m, a, y + [last])(b) == Products(m, a, y)(b) {
      assert At(y + [last], b) == At(y, b);
    }
    SumSame(Products(m, a, y + [last]), Products(m, a, y), |y|);
  }

  lemma ReducedTimes(m: Matrix, a: nat, k: nat, y: seq<real>, q: real, t: real, u: real)
    requires q == Factor(m, a, k) && t == RowTimes(m, a, y, k) && u == RowTimes(m, k, y, k)
    ensures RowTimes(Reduced(m, k), a, y, k) == t - q * u
  {
    forall b: nat | b < k ensures Products(Reduced(m, k), a, y)(b) == Products(m, a, y)(b) - q * Products(m, k, y)(b) {
      EntryTimes(m(a, b), q, m(k, b), At(y, b));
    }
    SumLess(Products(m, a, y), Products(m, k, y), q, Products(Reduced(m, k), a, y), k, t, u);
  }

  lemma EntryTimes(x: real, q: real, z: real, y: real)
    ensures (x - q * z) * y == x * y - q * (z * y)
  {
    Associates(q, z, y);
  }

  /** Back substitution: t is row a times the other unknowns, u the last row times them. */
  lemma Substitutes(t: real, u: real, q: real, p: real, x: real, ra: real, rk: real, last: real)
    requires q * p == x && last * p == rk - u && t - q * u == ra - q * rk
    ensures t + x * last == ra
  {
    assert x * last == q * (last * p);
    assert q * (rk - u) == q * rk - q * u;
  }

  lemma SolvesRow(m: Matrix, k: nat, r: seq<real>, y: seq<real>, last: real, a: nat)
    requires |y| == k && m(k, k) != 0.0 && last * m(k, k) == At(r, k) - RowTimes(m, k, y, k) && a <= k
    requires a < k ==> RowTimes(Reduced(m, k), a, y, k) == At(r, a) - Factor(m, a, k) * At(r, k)
    ensures RowTimes(m, a, y + [last], k + 1) == At(r, a)
  {
    RowTimesLast(m, a, y, last);
    if a < k {
      ReducedTimes(m, a, k, y, Factor(m, a, k), RowTimes(m, a, y, k), RowTimes(m, k, y, k));
      Cancels(m(a, k), m(k, k));
      Substitutes(RowTimes(m, a, y, k), RowTimes(m, k, y, k), Factor(m, a, k), m(k, k), m(a, k), At(r, a), At(r, k),
                  last);
    }
  }

  lemma SolvesNext(m: Matrix, k: nat, r: seq<real>, y: seq<real>, last: real)
    requires m(k, k) != 0.0 && Solves(Reduced(m, k), k, ReducedSide(m, k, r), y)
    requires last == (At(r, k) - RowTimes(m, k, y, k)) / m(k, k)
    ensures Solves(m, k + 1, r, y + [last])
  {
    Cancels(At(r, k) - RowTimes(m, k, y, k), m(k, k));
    forall a: nat | a < k + 1 ensures RowTimes(m, a, y + [last], k + 1) == At(r, a) { SolvesRow(m, k, r, y, last, a); }
  }

  /** Every dominant system is solved by elimination, whatever the right-hand side. */
  lemma {:induction false} SolutionSolves(m: Matrix, n: nat, r: seq<real>)
    requires Dominant(m, n)
    ensures Solves(m, n, r, Solution(m, n, r))
  {
    if n > 0 {
      var k: nat := n - 1;
      PivotIsPositive(m, k);
      ReducedIsDominant(m, k);
      SolutionSolves(Reduced(m, k), k, ReducedSide(m, k, r));
      var y := Solution(Reduced(m, k), k, ReducedSide(m, k, r));
      SolvesNext(m, k, r, y, (At(r, k) - RowTimes(m, k, y, k)) / m(k, k));
    }
  }

  // ----- the step matrix of a network ----------------------------------------------------------------------

  function StepEntry(net: Net, dt: real, a: nat, b: nat): real {
    (if a == b then 1.0 else 0.0) + dt * net.cinv(a) * Entry(net, a, b)
  }

  /** I + dt C^-1 G. */
  function StepMatrix(net: Net, dt: real): Matrix { (a: nat, b: nat) => StepEntry(net, dt, a, b) }

  function Delta(a: nat, v: real): nat -> real { (b: nat) => if a == b then v else 0.0 }

  lemma StepRowIsProduct(net: Net, dt: real, x: seq<real>, a: nat)
    requires a < net.n
    ensures StepRow(net, dt, x, a) == RowTimes(StepMatrix(net, dt), a, x, net.n)
  {
    StepProductsSum(net, dt, x, a, dt * net.cinv(a));
    SumSingle(Delta(a, At(x, a)), a, net.n);
    RowOfTerms(net, x, a);
  }

  lemma StepProductsSum(net: Net, dt: real, x: seq<real>, a: nat, k: real)
    requires k == dt * net.cinv(a)
    ensures RowTimes(StepMatrix(net, dt), a, x, net.n)
         == Sum(Delta(a, At(x, a)), net.n) + k * Sum(RowOf(Terms(net, x), a), net.n)
  {
    forall b: nat | b < net.n
      ensures Products(StepMatrix(net, dt), a, x)(b) == Delta(a, At(x, a))(b) + k * RowOf(Terms(net, x), a)(b)
    {
      StepProductAt(net, dt, x, a, b, k);
    }
    SumLinear(Delta(a, At(x, a)), RowOf(Terms(net, x), a), k, Products(StepMatrix(net, dt), a, x), net.n);
  }

  lemma StepProductAt(net: Net, dt: real, x: seq<real>, a: nat, b: nat, k: real)
    requires k == dt * net.cinv(a)
    ensures Products(StepMatrix(net, dt), a, x)(b) == Delta(a, At(x, a))(b) + k * RowOf(Terms(net, x), a)(b)
  {
    StepProduct(if a == b then 1.0 else 0.0, k, Entry(net, a, b), At(x, b));
  }

  lemma StepProduct(d: real, k: real, e: real, x: real)
    ensures (d + k * e) * x == d * x + k * (e * x)
  {
    Associates(k, e, x);
  }

  function EntriesOf(net: Net, a: nat): nat -> real { (b: nat) => Entry(net, a, b) }

  lemma StepEntriesSum(net: Net, dt: real, a: nat, k: real)
    requires k == dt * net.cinv(a)
    ensures Sum(RowOf(StepMatrix(net, dt), a), net.n) == Sum(Delta(a, 1.0), net.n) + k * Sum(EntriesOf(net, a), net.n)
  {
    forall b: nat | b < net.n
      ensures RowOf(StepMatrix(net, dt), a)(b) == Delta(a, 1.0)(b) + k * EntriesOf(net, a)(b) { }
    SumLinear(Delta(a, 1.0), EntriesOf(net, a), k, RowOf(StepMatrix(net, dt), a), net.n);
  }

  lemma StepRowSum(net: Net, dt: real, a: nat)
    requires Physical(net) && a < net.n
    ensures Sum(RowOf(StepMatrix(net, dt), a), net.n) == 1.0 + dt * net.cinv(a) * net.conv(a)
  {
    MatrixIsLaplacian(net, a, a);
    SumSame((b: nat) => Entry(net, a, b), EntriesOf(net, a), net.n);
    StepEntriesSum(net, dt, a, dt * net.cinv(a));
    SumSingle(Delta(a, 1.0), a, net.n);
  }

  lemma ScaledSigns(k: real, conv: real, g: real)
    requires k > 0.0 && conv >= 0.0 && g >= 0.0
    ensures 1.0 + k * conv > 0.0 && k * (0.0 - g) <= 0.0
  {
    ProductNonNegative(k, conv);
    ProductNonNegative(k, g);
    assert k * (0.0 - g) == -(k * g);
  }

  lemma StepMatrixIsDominant(net: Net, dt: real)
    requires Physical(net) && dt > 0.0
    ensures Dominant(StepMatrix(net, dt), net.n)
  {
    forall a: nat, b: nat | a < net.n && b < net.n && a != b ensures StepMatrix(net, dt)(a, b) <= 0.0 {
      ProductPositive(dt, net.cinv(a));
      ScaledSigns(dt * net.cinv(a), 0.0, net.g(a, b));
    }
    forall a: nat | a < net.n ensures Sum(RowOf(StepMatrix(net, dt), a), net.n) > 0.0 {
      StepRowSum(net, dt, a);
      ProductPositive(dt, net.cinv(a));
      ScaledSigns(dt * net.cinv(a), net.conv(a), 0.0);
    }
  }
}
