/** A package from its layers to its temperatures: assemble, pack, rebuild, factorize and step
    (connect_nodes, _sparse_conductance_matrix and _run_transient_python in
    integrations/thermal_model/package_class.py). */
module ThermalPackage {
  import opened Options
  import opened Sums
  import opened ThermalNetwork
  import opened ThermalAssembly
  import opened PackedRows
  import opened Elimination
  import opened Transient

  /** The node touches neither ambient nor another node. */
  ghost predicate Isolated(net: Net, a: nat) { net.conv(a) == 0.0 && forall b: nat | b < net.n :: net.g(a, b) == 0.0 }

  ghost predicate SomeIsolated(net: Net) { exists a: nat :: a < net.n && Isolated(net, a) }

  /** The rows are the matrix of the network. */
  ghost predicate MatrixOf(rows: seq<seq<real>>, net: Net) {
    && |rows| == net.n && (forall a | 0 <= a < net.n :: |rows[a]| == net.n)
    && forall a: nat, b: nat | a < net.n && b < net.n :: rows[a][b] == Entry(net, a, b)
  }

  method RowsOf(m: array2<real>) returns (rows: seq<seq<real>>)
    ensures |rows| == m.Length0 && forall a | 0 <= a < m.Length0 :: |rows[a]| == m.Length1
    ensures forall a, b | 0 <= a < m.Length0 && 0 <= b < m.Length1 :: rows[a][b] == m[a, b]
  {
    rows := [];
    for a := 0 to m.Length0
      invariant |rows| == a && forall p | 0 <= p < a :: |rows[p]| == m.Length1
      invariant forall p, b | 0 <= p < a && 0 <= b < m.Length1 :: rows[p][b] == m[p, b]
    {
      var row: seq<real> := [];
      for b := 0 to m.Length1
        invariant |row| == b && forall q | 0 <= q < b :: row[q] == m[a, q]
      {
        row := row + [m[a, b]];
      }
      rows := rows + [row];
    }
  }

  lemma {:induction false} NoneNonZero(row: seq<real>, n: nat)
    requires n <= |row|
    ensures NonZero(row, n) == [] <==> forall b | 0 <= b < n :: row[b] == 0.0
  {
    if n > 0 { NoneNonZero(row, n - 1); }
  }

  lemma EmptyRowIsIsolated(rows: seq<seq<real>>, net: Net, a: nat)
    requires Physical(net) && MatrixOf(rows, net) && a < net.n
    ensures NonZero(rows[a], net.n) == [] <==> Isolated(net, a)
  {
    NoneNonZero(rows[a], net.n);
    RowIsZeroIffIsolated(net, a);
    assert forall b: nat | b < net.n :: rows[a][b] == Entry(net, a, b);
  }

  /** The packed matrix of a package. It fails exactly without nodes or with an isolated node. */
  method BuildMatrix(layers: Layers) returns (r: Option<Packed>, ghost rows: seq<seq<real>>)
    requires |layers| >= 2 && AllPositive(layers)
    ensures MatrixOf(rows, Package(layers))
    ensures r.None? <==> Total(layers) == 0 || SomeIsolated(Package(layers))
    ensures r.Some? ==> IsPacking(rows, r.value)
  {
    ghost var net := Package(layers);
    PackageIsPhysical(layers);
    var m := Assemble(layers);
    var dense := RowsOf(m);
    rows := dense;
    forall a: nat | a < net.n ensures NonZero(rows[a], net.n) == [] <==> Isolated(net, a) {
      EmptyRowIsIsolated(rows, net, a);
    }
    r := Pack(dense);
  }

  // ----- the step matrix from the packed one ---------------------------------------------------------------

  function RowEntry(rows: seq<seq<real>>, a: nat, b: nat): real { if a < |rows| then At(rows[a], b) else 0.0 }

  /** I + dt C^-1 G with G given by rows. */
  function StepOf(rows: seq<seq<real>>, cinv: nat -> real, dt: real): Matrix {
    (a: nat, b: nat) => (if a == b then 1.0 else 0.0) + dt * cinv(a) * RowEntry(rows, a, b)
  }

  ghost predicate SameBelow(m: Matrix, m': Matrix, n: nat) {
    forall a: nat, b: nat | a < n && b < n :: m(a, b) == m'(a, b)
  }

  lemma SameDominates(m: Matrix, m': Matrix, n: nat)
    requires Dominant(m, n) && SameBelow(m, m', n)
    ensures Dominant(m', n)
  {
    forall a: nat | a < n ensures Sum(RowOf(m', a), n) > 0.0 { SumSame(RowOf(m', a), RowOf(m, a), n); }
  }

  lemma SameSolves(m: Matrix, m': Matrix, n: nat, r: seq<real>, y: seq<real>)
    requires Solves(m', n, r, y) && SameBelow(m, m', n)
    ensures Solves(m, n, r, y)
  {
    forall a: nat | a < n ensures RowTimes(m, a, y, n) == At(r, a) {
      SumSame(Products(m, a, y), Products(m', a, y), n);
    }
  }

  lemma StepOfMatrix(rows: seq<seq<real>>, net: Net, dt: real)
    requires MatrixOf(rows, net)
    ensures SameBelow(StepMatrix(net, dt), StepOf(rows, net.cinv, dt), net.n)
  {
    forall a: nat, b: nat | a < net.n && b < net.n
      ensures StepMatrix(net, dt)(a, b) == StepOf(rows, net.cinv, dt)(a, b)
    {
      assert RowEntry(rows, a, b) == Entry(net, a, b);
    }
  }

  /** Factorizing the rebuilt matrix solves the steps of the network. */
  lemma RebuiltSolvesSteps(rows: seq<seq<real>>, net: Net, dt: real)
    requires Physical(net) && dt > 0.0 && MatrixOf(rows, net)
    ensures SolvesSteps(net, dt, Solver(rows, net.cinv, dt))
  {
    var m, m' := StepMatrix(net, dt), StepOf(rows, net.cinv, dt);
    StepOfMatrix(rows, net, dt);
    StepMatrixIsDominant(net, dt);
    SameDominates(m, m', net.n);
    forall r: seq<real> | |r| == net.n ensures SolvedBy(net, dt, r, Solver(rows, net.cinv, dt)(r)) {
      SolutionSolves(m', net.n, r);
      SameSolves(m, m', net.n, r, Solution(m', net.n, r));
      SolvesMeansStep(net, dt, r, Solution(m', net.n, r));
    }
  }

  function Solver(rows: seq<seq<real>>, cinv: nat -> real, dt: real): seq<real> -> seq<real> {
    r => Solution(StepOf(rows, cinv, dt), |rows|, r)
  }

  // ----- the whole way -------------------------------------------------------------------------------------

  datatype Outcome = Temperatures(rows: seq<seq<real>>) | CannotPack | Invalid | IntervalsDiffer

  /** The checks before a simulation. */
  predicate ValidInputs(n: nat, dt: real, powerInterval: real, power: seq<seq<real>>) {
    dt > 0.0 && powerInterval > 0.0 && power != [] && forall k | 0 <= k < |power| :: |power[k]| == n
  }

  ghost predicate NoCooling(power: seq<seq<real>>, n: nat) {
    forall k | 0 <= k < |power| :: AtMost(Zeros(n), power[k], n)
  }

  /** What a transient of a network is: the only one, never below ambient unless something cools, and balanced. */
  ghost predicate Faithful(net: Net, dt: real, power: seq<seq<real>>, rows: seq<seq<real>>) {
    && IsTransient(net, dt, power, rows)
    && (forall other | IsTransient(net, dt, power, other) :: other == rows)
    && (NoCooling(power, net.n) ==> forall k: nat | k <= |power| :: AtMost(Zeros(net.n), rows[k], net.n))
    && forall k: nat | k <= |power| :: Stored(net, rows[k]) == dt * NetHeat(net, power, rows, k)
  }

  lemma TransientIsFaithful(net: Net, dt: real, power: seq<seq<real>>, rows: seq<seq<real>>)
    requires Physical(net) && dt > 0.0 && IsTransient(net, dt, power, rows)
    ensures Faithful(net, dt, power, rows)
  {
    forall other | IsTransient(net, dt, power, other) ensures other == rows {
      TransientIsUnique(net, dt, power, other, rows);
    }
    forall k: nat | k <= |power| ensures Stored(net, rows[k]) == dt * NetHeat(net, power, rows, k) {
      TransientHeatBalance(net, dt, power, rows, k);
    }
    if NoCooling(power, net.n) {
      forall k: nat | k <= |power| ensures AtMost(Zeros(net.n), rows[k], net.n) {
        NeverBelowAmbient(net, dt, power, rows, k);
      }
    }
  }

  /** From layers and power to temperatures. Whatever the power, a package that can be packed has a transient, and it is
      the physical one of the network between its nodes. */
  method SimulatePackage(layers: Layers, dt: real, powerInterval: real, power: seq<seq<real>>) returns (r: Outcome)
    requires |layers| >= 2 && AllPositive(layers)
    ensures r.CannotPack? <==> Total(layers) == 0 || SomeIsolated(Package(layers))
    ensures r.Invalid? <==> !r.CannotPack? && !ValidInputs(Total(layers), dt, powerInterval, power)
    ensures r.IntervalsDiffer? <==> !r.CannotPack? && !r.Invalid? && !IsClose(dt, powerInterval)
    ensures r.Temperatures? ==> Faithful(Package(layers), dt, power, r.rows)
  {
    var packed, dense := BuildMatrix(layers);
    if packed.None? { return CannotPack; }
    if !ValidInputs(Total(layers), dt, powerInterval, power) { return Invalid; }
    if !IsClose(dt, powerInterval) { return IntervalsDiffer; }
    var net := Package(layers);
    var m := Rebuild(packed.value, net.n, dense);
    var rows := RowsOf(m);
    PackageIsPhysical(layers);
    RebuiltSolvesSteps(rows, net, dt);
    var temperatures := Integrate(net, dt, power, Solver(rows, net.cinv, dt));
    TransientIsFaithful(net, dt, power, temperatures);
    r := Temperatures(temperatures);
  }
}
