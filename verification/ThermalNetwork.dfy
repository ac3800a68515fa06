/** The thermal RC network as a system of equations: heat balance and a discrete maximum principle
    for backward-Euler transients (integrations/thermal_model/package_class.py). */
module ThermalNetwork {
  import opened Reals
  import opened Sums

  function At(v: seq<real>, i: nat): real { if i < |v| then v[i] else 0.0 }

  /** n nodes; g(a, b) is the conductance between two of them, conv(a) the one to ambient, and
      cinv(a) the inverse of the capacitance, which is what the package stores. */
  datatype Net = Net(n: nat, g: (nat, nat) -> real, conv: nat -> real, cinv: nat -> real)

  ghost predicate Physical(net: Net) {
    && (forall a: nat, b: nat | a < net.n && b < net.n :: net.g(a, b) == net.g(b, a) && net.g(a, b) >= 0.0)
    && (forall a: nat | a < net.n :: net.g(a, a) == 0.0 && net.conv(a) >= 0.0 && net.cinv(a) > 0.0)
  }

  // ----- the assembled matrix -----------------------------------------------------------------------

  /** Row sum of conductances including convection. */
  function Diagonal(net: Net, a: nat): real { Sum((b: nat) => net.g(a, b), net.n) + net.conv(a) }

  /** Diagonal matrix of row sums minus the conductances. */
  function Entry(net: Net, a: nat, b: nat): real {
    (if a == b then Diagonal(net, a) else 0.0) - net.g(a, b)
  }

  function RowSum(net: Net, a: nat): real { Sum((b: nat) => Entry(net, a, b), net.n) }

  function ColumnSum(net: Net, b: nat): real { Sum((a: nat) => Entry(net, a, b), net.n) }

  /** The matrix applied to a temperature vector. */
  function Flow(net: Net, x: seq<real>, a: nat): real { Sum((b: nat) => Entry(net, a, b) * At(x, b), net.n) }

  /** The assembled matrix is a symmetric graph Laplacian plus convection. */
  lemma MatrixIsLaplacian(net: Net, a: nat, b: nat)
    requires Physical(net) && a < net.n && b < net.n
    ensures Entry(net, a, b) == Entry(net, b, a)
    ensures a != b ==> Entry(net, a, b) <= 0.0
    ensures Entry(net, a, a) >= 0.0
    ensures RowSum(net, a) == net.conv(a) && ColumnSum(net, a) == net.conv(a)
  {
    var g := (c: nat) => net.g(a, c);
    SumNonNegative(g, net.n);
    var d := (c: nat) => if c == a then Diagonal(net, a) else 0.0;
    SumSingle(d, a, net.n);
    SumLinear(d, g, -1.0, (c: nat) => Entry(net, a, c), net.n);
    SumSame((c: nat) => Entry(net, a, c), (c: nat) => Entry(net, c, a), net.n);
  }

  /** Conductances of node a, alone, times temperatures, and times temperature differences. */
  function Links(net: Net, a: nat): nat -> real { (b: nat) => net.g(a, b) }

  function Pulls(net: Net, x: seq<real>, a: nat): nat -> real { (b: nat) => net.g(a, b) * At(x, b) }

  function Leaks(net: Net, x: seq<real>, a: nat): nat -> real { (b: nat) => net.g(a, b) * (At(x, a) - At(x, b)) }

  function OnlyAt(a: nat, v: real): nat -> real { (b: nat) => if b == a then v else 0.0 }

  lemma DiagonalIsSum(net: Net, a: nat)
    ensures Diagonal(net, a) == Sum(Links(net, a), net.n) + net.conv(a)
  {
    SumSame((b: nat) => net.g(a, b), Links(net, a), net.n);
  }

  lemma EntryTerm(net: Net, x: seq<real>, a: nat, b: nat)
    ensures RowOf(Terms(net, x), a)(b) == OnlyAt(a, Diagonal(net, a) * At(x, a))(b) - Pulls(net, x, a)(b)
  {
    if a == b { SplitProduct(Diagonal(net, a), net.g(a, b), At(x, b)); }
  }

  lemma SplitProduct(d: real, g: real, x: real)
    ensures (d - g) * x == d * x - g * x
  {
  }

  lemma FlowByTerms(net: Net, x: seq<real>, a: nat)
    requires a < net.n
    ensures Flow(net, x, a) == Diagonal(net, a) * At(x, a) - Sum(Pulls(net, x, a), net.n)
  {
    var d := Diagonal(net, a) * At(x, a);
    forall b: nat | b < net.n ensures RowOf(Terms(net, x), a)(b) == OnlyAt(a, d)(b) - Pulls(net, x, a)(b) {
      EntryTerm(net, x, a, b);
    }
    SumSingle(OnlyAt(a, d), a, net.n);
    SumMinus(OnlyAt(a, d), Pulls(net, x, a), RowOf(Terms(net, x), a), net.n);
    RowOfTerms(net, x, a);
  }

  function Scaled(v: real, f: nat -> real): nat -> real { (b: nat) => v * f(b) }

  lemma LeakTerm(net: Net, x: seq<real>, a: nat, b: nat)
    ensures Leaks(net, x, a)(b) == Scaled(At(x, a), Links(net, a))(b) - Pulls(net, x, a)(b)
  {
    LeakReals(At(x, a), net.g(a, b), At(x, b));
  }

  lemma LeakReals(xa: real, g: real, xb: real)
    ensures g * (xa - xb) == xa * g - g * xb
  {
  }

  lemma ConductionByTerms(net: Net, x: seq<real>, a: nat)
    ensures Sum(Leaks(net, x, a), net.n) == At(x, a) * Sum(Links(net, a), net.n) - Sum(Pulls(net, x, a), net.n)
  {
    SumScale(Links(net, a), At(x, a), Scaled(At(x, a), Links(net, a)), net.n);
    forall b: nat | b < net.n
      ensures Leaks(net, x, a)(b) == Scaled(At(x, a), Links(net, a))(b) - Pulls(net, x, a)(b)
    {
      LeakTerm(net, x, a, b);
    }
    SumMinus(Scaled(At(x, a), Links(net, a)), Pulls(net, x, a), Leaks(net, x, a), net.n);
  }

  lemma FlowReals(s: real, conv: real, x: real, pulls: real, leaks: real, flow: real)
    requires flow == (s + conv) * x - pulls && leaks == x * s - pulls
    ensures flow == conv * x + leaks
  {
  }

  /** Heat leaves a node by convection and along temperature differences. */
  lemma FlowIsConvectionAndConduction(net: Net, x: seq<real>, a: nat)
    requires a < net.n
    ensures Flow(net, x, a) == net.conv(a) * At(x, a) + Sum(Leaks(net, x, a), net.n)
  {
    var s := Sum(Links(net, a), net.n);
    FlowByTerms(net, x, a);
    DiagonalIsSum(net, a);
    ConductionByTerms(net, x, a);
    FlowReals(s, net.conv(a), At(x, a), Sum(Pulls(net, x, a), net.n), Sum(Leaks(net, x, a), net.n), Flow(net, x, a));
  }

  // ----- one backward-Euler step ----------------------------------------------------------------------

  /** Row a of (I + dt C^-1 G) x. */
  function StepRow(net: Net, dt: real, x: seq<real>, a: nat): real { At(x, a) + dt * net.cinv(a) * Flow(net, x, a) }

  function StepSource(net: Net, dt: real, x: seq<real>, p: seq<real>, a: nat): real {
    At(x, a) + dt * net.cinv(a) * At(p, a)
  }

  /** y is the state after one step from x under power p. */
  ghost predicate Steps(net: Net, dt: real, x: seq<real>, p: seq<real>, y: seq<real>) {
    forall a: nat | a < net.n :: StepRow(net, dt, y, a) == StepSource(net, dt, x, p, a)
  }

  function Minus(x: seq<real>, y: seq<real>, n: nat): (r: seq<real>)
    ensures |r| == n && forall a: nat | a < n :: At(r, a) == At(x, a) - At(y, a)
  {
    seq(n, a requires 0 <= a < n => At(x, a) - At(y, a))
  }

  lemma FlowMinus(net: Net, x: seq<real>, y: seq<real>, a: nat)
    requires a < net.n
    ensures Flow(net, Minus(x, y, net.n), a) == Flow(net, x, a) - Flow(net, y, a)
  {
    var d := Minus(x, y, net.n);
    SumLinear((b: nat) => Entry(net, a, b) * At(x, b), (b: nat) => Entry(net, a, b) * At(y, b), -1.0,
              (b: nat) => Entry(net, a, b) * At(d, b), net.n);
  }

  lemma StepRowMinus(net: Net, dt: real, x: seq<real>, y: seq<real>, a: nat)
    requires a < net.n
    ensures StepRow(net, dt, Minus(x, y, net.n), a) == StepRow(net, dt, x, a) - StepRow(net, dt, y, a)
  {
    FlowMinus(net, x, y, a);
    var k := dt * net.cinv(a);
    assert k * (Flow(net, x, a) - Flow(net, y, a)) == k * Flow(net, x, a) - k * Flow(net, y, a);
  }

  /** A coldest node. */
  lemma {:induction false} Coldest(x: seq<real>, n: nat) returns (k: nat)
    requires n > 0
    ensures k < n && forall a: nat | a < n :: At(x, k) <= At(x, a)
  {
    if n == 1 { k := 0; }
    else {
      k := Coldest(x, n - 1);
      if At(x, n - 1) < At(x, k) { k := n - 1; }
    }
  }

  /** Discrete maximum principle: if no row of the step system is negative, no temperature is. */
  lemma MaximumPrinciple(net: Net, dt: real, x: seq<real>)
    requires Physical(net) && dt > 0.0
    requires forall a: nat | a < net.n :: StepRow(net, dt, x, a) >= 0.0
    ensures forall a: nat | a < net.n :: At(x, a) >= 0.0
  {
    if net.n > 0 {
      var k := Coldest(x, net.n);
      if At(x, k) < 0.0 { ColdestRowIsNegative(net, dt, x, k); }
    }
  }

  lemma {:induction false} NonPositiveSum(f: nat -> real, n: nat)
    requires forall b: nat | b < n :: f(b) <= 0.0
    ensures Sum(f, n) <= 0.0
  {
    if n > 0 { NonPositiveSum(f, n - 1); }
  }

  lemma NonPositiveProduct(g: real, d: real)
    requires g >= 0.0 && d <= 0.0
    ensures g * d <= 0.0
  {
    ProductNonNegative(g, -d);
  }

  lemma ColdestRowIsNegative(net: Net, dt: real, x: seq<real>, k: nat)
    requires Physical(net) && dt > 0.0 && k < net.n && At(x, k) < 0.0
    requires forall a: nat | a < net.n :: At(x, k) <= At(x, a)
    ensures StepRow(net, dt, x, k) < 0.0
  {
    FlowIsConvectionAndConduction(net, x, k);
    forall b: nat | b < net.n ensures Leaks(net, x, k)(b) <= 0.0 {
      NonPositiveProduct(net.g(k, b), At(x, k) - At(x, b));
    }
    NonPositiveSum(Leaks(net, x, k), net.n);
    NonPositiveProduct(net.conv(k), At(x, k));
    ProductPositive(dt, net.cinv(k));
    NonPositiveProduct(dt * net.cinv(k), Flow(net, x, k));
  }

  /** Warmer start and more power give a state that is nowhere colder. */
  lemma StepIsMonotone(net: Net, dt: real, x: seq<real>, p: seq<real>, y: seq<real>, x': seq<real>, p': seq<real>,
                       y': seq<real>)
    requires Physical(net) && dt > 0.0 && Steps(net, dt, x, p, y) && Steps(net, dt, x', p', y')
    requires forall a: nat | a < net.n :: At(x, a) <= At(x', a) && At(p, a) <= At(p', a)
    ensures forall a: nat | a < net.n :: At(y, a) <= At(y', a)
  {
    var d := Minus(y', y, net.n);
    forall a: nat | a < net.n ensures StepRow(net, dt, d, a) >= 0.0 {
      StepRowMinus(net, dt, y', y, a);
      SourceIsMonotone(dt * net.cinv(a), At(x, a), At(p, a), At(x', a), At(p', a));
    }
    MaximumPrinciple(net, dt, d);
    forall a: nat | a < net.n ensures At(y, a) <= At(y', a) { assert At(d, a) >= 0.0; }
  }

  lemma SourceIsMonotone(k: real, x: real, p: real, x': real, p': real)
    requires k > 0.0 && x <= x' && p <= p'
    ensures x + k * p <= x' + k * p'
  {
    assert k * (p' - p) >= 0.0;
  }

  // ----- heat balance ------------------------------------------------------------------------------------

  /** Heat stored in each node. */
  function StoredAt(net: Net, x: seq<real>): nat -> real {
    (a: nat) => if net.cinv(a) != 0.0 then At(x, a) / net.cinv(a) else 0.0
  }

  function PowerAt(p: seq<real>): nat -> real { (a: nat) => At(p, a) }

  /** Heat convected away from each node. */
  function ConvectedAt(net: Net, x: seq<real>): nat -> real { (a: nat) => net.conv(a) * At(x, a) }

  function FlowAt(net: Net, x: seq<real>): nat -> real { (a: nat) => Flow(net, x, a) }

  /** Power in minus flow out at each node. */
  function GainAt(net: Net, p: seq<real>, y: seq<real>): nat -> real { (a: nat) => At(p, a) - Flow(net, y, a) }

  function Stored(net: Net, x: seq<real>): real { Sum(StoredAt(net, x), net.n) }

  function TotalPower(net: Net, p: seq<real>): real { Sum(PowerAt(p), net.n) }

  function Convected(net: Net, x: seq<real>): real { Sum(ConvectedAt(net, x), net.n) }

  /** Matrix entries times temperatures. */
  function Terms(net: Net, x: seq<real>): (nat, nat) -> real { (a: nat, b: nat) => Entry(net, a, b) * At(x, b) }

  function EntriesOf(net: Net, b: nat): nat -> real { (a: nat) => Entry(net, a, b) }

  lemma ColumnOfTerms(net: Net, x: seq<real>, b: nat)
    requires Physical(net) && b < net.n
    ensures ConvectedAt(net, x)(b) == Sum(ColumnOf(Terms(net, x), b), net.n)
  {
    MatrixIsLaplacian(net, b, b);
    SumSame((a: nat) => Entry(net, a, b), EntriesOf(net, b), net.n);
    SumScale(EntriesOf(net, b), At(x, b), ColumnOf(Terms(net, x), b), net.n);
  }

  lemma RowOfTerms(net: Net, x: seq<real>, a: nat)
    ensures FlowAt(net, x)(a) == Sum(RowOf(Terms(net, x), a), net.n)
  {
    SumSame((b: nat) => Entry(net, a, b) * At(x, b), RowOf(Terms(net, x), a), net.n);
  }

  /** Conduction only moves heat around: summed over all nodes, only convection remains. */
  lemma FlowSumsToConvection(net: Net, x: seq<real>)
    requires Physical(net)
    ensures Sum(FlowAt(net, x), net.n) == Convected(net, x)
  {
    forall b: nat | b < net.n ensures ConvectedAt(net, x)(b) == Sum(ColumnOf(Terms(net, x), b), net.n) {
      ColumnOfTerms(net, x, b);
    }
    forall a: nat | a < net.n ensures FlowAt(net, x)(a) == Sum(RowOf(Terms(net, x), a), net.n) {
      RowOfTerms(net, x, a);
    }
    SumSwap(Terms(net, x), FlowAt(net, x), ConvectedAt(net, x), net.n, net.n);
  }

  lemma BalanceReals(y: real, x: real, c: real, dt: real, q: real, f: real)
    requires c > 0.0 && y + dt * c * f == x + dt * c * q
    ensures y / c == x / c + dt * (q - f)
  {
    var gain := dt * (q - f);
    assert y == x + gain * c;
    QuotientOfSum(x, gain, c);
  }

  lemma QuotientOfSum(x: real, gain: real, c: real)
    requires c > 0.0
    ensures (x + gain * c) / c == x / c + gain
  {
    Cancels(x, c);
    Cancels(x + gain * c, c);
    CancelFactor((x + gain * c) / c, x / c + gain, c);
  }

  lemma NodeBalance(net: Net, dt: real, x: seq<real>, p: seq<real>, y: seq<real>, a: nat)
    requires Physical(net) && a < net.n && Steps(net, dt, x, p, y)
    ensures StoredAt(net, y)(a) == StoredAt(net, x)(a) + dt * GainAt(net, p, y)(a)
  {
    assert StepRow(net, dt, y, a) == StepSource(net, dt, x, p, a);
    BalanceReals(At(y, a), At(x, a), net.cinv(a), dt, At(p, a), Flow(net, y, a));
  }

  lemma GainIsPowerMinusConvection(net: Net, p: seq<real>, y: seq<real>)
    requires Physical(net)
    ensures Sum(GainAt(net, p, y), net.n) == TotalPower(net, p) - Convected(net, y)
  {
    SumMinus(PowerAt(p), FlowAt(net, y), GainAt(net, p, y), net.n);
    FlowSumsToConvection(net, y);
  }

  /** Stored heat changes by exactly dt times power in minus heat convected away. */
  lemma HeatBalance(net: Net, dt: real, x: seq<real>, p: seq<real>, y: seq<real>)
    requires Physical(net) && Steps(net, dt, x, p, y)
    ensures Stored(net, y) - Stored(net, x) == dt * (TotalPower(net, p) - Convected(net, y))
  {
    forall a: nat | a < net.n ensures StoredAt(net, y)(a) == StoredAt(net, x)(a) + dt * GainAt(net, p, y)(a) {
      NodeBalance(net, dt, x, p, y, a);
    }
    GainIsPowerMinusConvection(net, p, y);
    SumMore(StoredAt(net, x), GainAt(net, p, y), dt, StoredAt(net, y), net.n, Stored(net, x),
            TotalPower(net, p) - Convected(net, y));
  }
}
