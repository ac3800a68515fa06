/** Whole transients: the time loop of the Python solver and the chunked driver of the native one
    (_run_transient_python and _run_transient_chunked in integrations/thermal_model/package_class.py). */
module Transient {
  import opened Sums
  import opened ThermalNetwork
  import opened Elimination

  datatype Result<T> = Ok(value: T) | Mismatch | NoSteps

  function Zeros(n: nat): (r: seq<real>)
    ensures |r| == n && forall a: nat :: At(r, a) == 0.0
  {
    seq(n, _ => 0.0)
  }

  /** Row 0 is the zero state and each further row is one step under its power row. */
  ghost predicate IsTransient(net: Net, dt: real, power: seq<seq<real>>, rows: seq<seq<real>>) {
    && |rows| == |power| + 1
    && rows[0] == Zeros(net.n)
    && (forall k | 0 <= k < |rows| :: |rows[k]| == net.n)
    && (forall k: nat | k < |power| :: StepAt(net, dt, power, rows, k))
  }

  ghost predicate StepAt(net: Net, dt: real, power: seq<seq<real>>, rows: seq<seq<real>>, k: nat) {
    k < |power| && k + 1 < |rows| && Steps(net, dt, rows[k], power[k], rows[k + 1])
  }

  function Abs(x: real): real { if x < 0.0 then -x else x }

  /** numpy.isclose(a, b, rtol=1e-9, atol=1e-12). */
  predicate IsClose(a: real, b: real) { Abs(a - b) <= 0.000000000001 + 0.000000001 * Abs(b) }

  /** solve is the factorized step matrix: whatever the right-hand side, it returns a solution. */
  ghost predicate SolvesSteps(net: Net, dt: real, solve: seq<real> -> seq<real>) {
    forall r: seq<real> | |r| == net.n :: SolvedBy(net, dt, r, solve(r))
  }

  ghost predicate SolvedBy(net: Net, dt: real, r: seq<real>, y: seq<real>) {
    |y| == net.n && forall a: nat | a < net.n :: StepRow(net, dt, y, a) == At(r, a)
  }

  /** The right-hand side of a step. */
  function Source(net: Net, dt: real, x: seq<real>, p: seq<real>): (r: seq<real>)
    ensures |r| == net.n && forall a: nat | a < net.n :: At(r, a) == StepSource(net, dt, x, p, a)
  {
    seq(net.n, a requires 0 <= a < net.n => StepSource(net, dt, x, p, a))
  }

  lemma SolvedIsStep(net: Net, dt: real, x: seq<real>, p: seq<real>, solve: seq<real> -> seq<real>)
    requires SolvesSteps(net, dt, solve)
    ensures |solve(Source(net, dt, x, p))| == net.n && Steps(net, dt, x, p, solve(Source(net, dt, x, p)))
  {
    assert SolvedBy(net, dt, Source(net, dt, x, p), solve(Source(net, dt, x, p)));
  }

  /** One solve of the step system. */
  method SolveStep(net: Net, dt: real, x: seq<real>, p: seq<real>, solve: seq<real> -> seq<real>) returns (y: seq<real>)
    requires SolvesSteps(net, dt, solve)
    ensures |y| == net.n && Steps(net, dt, x, p, y)
  {
    y := solve(Source(net, dt, x, p));
    SolvedIsStep(net, dt, x, p, solve);
  }

  lemma ExtendTransient(net: Net, dt: real, power: seq<seq<real>>, k: nat, rows: seq<seq<real>>, next: seq<real>)
    requires k < |power| && IsTransient(net, dt, power[..k], rows)
    requires |next| == net.n && Steps(net, dt, rows[k], power[k], next)
    ensures IsTransient(net, dt, power[..k + 1], rows + [next])
  {
    var longer, some := rows + [next], power[..k + 1];
    forall m: nat | m < k + 1 ensures StepAt(net, dt, some, longer, m) {
      if m < k { assert StepAt(net, dt, power[..k], rows, m); }
    }
  }

  /** The time loop. */
  method Integrate(net: Net, dt: real, power: seq<seq<real>>, solve: seq<real> -> seq<real>)
    returns (rows: seq<seq<real>>)
    requires SolvesSteps(net, dt, solve)
    ensures IsTransient(net, dt, power, rows)
  {
    var state := Zeros(net.n);
    rows := [state];
    for k := 0 to |power|
      invariant IsTransient(net, dt, power[..k], rows) && state == rows[k]
    {
      state := SolveStep(net, dt, state, power[k], solve);
      ExtendTransient(net, dt, power, k, rows, state);
      rows := rows + [state];
    }
    assert power[..|power|] == power;
  }

  method RunTransient(net: Net, dt: real, powerInterval: real, power: seq<seq<real>>, solve: seq<real> -> seq<real>)
    returns (r: Result<seq<seq<real>>>)
    requires SolvesSteps(net, dt, solve)
    ensures r.Mismatch? <==> !IsClose(dt, powerInterval)
    ensures r.Ok? <==> IsClose(dt, powerInterval)
    ensures r.Ok? ==> IsTransient(net, dt, power, r.value)
  {
    if !IsClose(dt, powerInterval) { return Mismatch; }
    var rows := Integrate(net, dt, power, solve);
    r := Ok(rows);
  }

  // ----- theorems over whole transients --------------------------------------------------------------

  ghost predicate AtMost(p: seq<real>, q: seq<real>, n: nat) { forall a: nat | a < n :: At(p, a) <= At(q, a) }

  /** Pointwise larger power gives pointwise larger temperatures, at every step. */
  lemma {:induction false} MorePowerIsHotter(net: Net, dt: real, power: seq<seq<real>>, rows: seq<seq<real>>,
                                             power': seq<seq<real>>, rows': seq<seq<real>>, k: nat)
    requires Physical(net) && dt > 0.0 && IsTransient(net, dt, power, rows) && IsTransient(net, dt, power', rows')
    requires |power| == |power'| && k <= |power| && forall j | 0 <= j < |power| :: AtMost(power[j], power'[j], net.n)
    ensures AtMost(rows[k], rows'[k], net.n)
  {
    if k > 0 {
      var m: nat := k - 1;
      MorePowerIsHotter(net, dt, power, rows, power', rows', m);
      assert AtMost(power[m], power'[m], net.n);
      assert StepAt(net, dt, power, rows, m) && StepAt(net, dt, power', rows', m);
      StepIsMonotone(net, dt, rows[m], power[m], rows[k], rows'[m], power'[m], rows'[k]);
    }
  }

  /** There is at most one transient for a power sequence: every solver returns the same one. */
  lemma TransientIsUnique(net: Net, dt: real, power: seq<seq<real>>, rows: seq<seq<real>>, rows': seq<seq<real>>)
    requires Physical(net) && dt > 0.0 && IsTransient(net, dt, power, rows) && IsTransient(net, dt, power, rows')
    ensures rows == rows'
  {
    forall k | 0 <= k < |rows| ensures rows[k] == rows'[k] {
      MorePowerIsHotter(net, dt, power, rows, power, rows', k);
      MorePowerIsHotter(net, dt, power, rows', power, rows, k);
      forall a | 0 <= a < net.n ensures rows[k][a] == rows'[k][a] {
        assert At(rows[k], a) <= At(rows'[k], a) && At(rows'[k], a) <= At(rows[k], a);
      }
    }
  }

  /** The factorization of the step matrix. */
  function Factorized(net: Net, dt: real): seq<real> -> seq<real> { r => Solution(StepMatrix(net, dt), net.n, r) }

  /** It exists for every physical network and time step, and solves every step. */
  lemma EveryStepIsSolvable(net: Net, dt: real)
    requires Physical(net) && dt > 0.0
    ensures SolvesSteps(net, dt, Factorized(net, dt))
  {
    StepMatrixIsDominant(net, dt);
    forall r: seq<real> | |r| == net.n ensures SolvedBy(net, dt, r, Factorized(net, dt)(r)) {
      SolutionSolves(StepMatrix(net, dt), net.n, r);
      SolvesMeansStep(net, dt, r, Factorized(net, dt)(r));
    }
  }

  lemma SolvesMeansStep(net: Net, dt: real, r: seq<real>, y: seq<real>)
    requires Solves(StepMatrix(net, dt), net.n, r, y)
    ensures SolvedBy(net, dt, r, y)
  {
    forall a: nat | a < net.n ensures StepRow(net, dt, y, a) == At(r, a) { StepRowIsProduct(net, dt, y, a); }
  }

  /** Every power sequence has exactly one transient. */
  lemma OneTransient(net: Net, dt: real, power: seq<seq<real>>) returns (rows: seq<seq<real>>)
    requires Physical(net) && dt > 0.0
    ensures IsTransient(net, dt, power, rows)
    ensures forall other | IsTransient(net, dt, power, other) :: other == rows
  {
    EveryStepIsSolvable(net, dt);
    rows := Rows(Stepper(net, dt, Factorized(net, dt)), Zeros(net.n), power);
    StepperIsRight(net, dt, Factorized(net, dt));
    RowsAreTransient(net, dt, Stepper(net, dt, Factorized(net, dt)), power);
    forall other | IsTransient(net, dt, power, other) ensures other == rows {
      TransientIsUnique(net, dt, power, other, rows);
    }
  }

  lemma ZeroIsStationary(net: Net, dt: real)
    ensures Steps(net, dt, Zeros(net.n), Zeros(net.n), Zeros(net.n))
  {
    forall a: nat | a < net.n ensures Flow(net, Zeros(net.n), a) == 0.0 {
      SumZero((b: nat) => Entry(net, a, b) * At(Zeros(net.n), b), net.n);
    }
  }

  /** Non-negative power never cools the package below ambient. */
  lemma {:induction false} NeverBelowAmbient(net: Net, dt: real, power: seq<seq<real>>, rows: seq<seq<real>>, k: nat)
    requires Physical(net) && dt > 0.0 && IsTransient(net, dt, power, rows) && k <= |power|
    requires forall j | 0 <= j < |power| :: AtMost(Zeros(net.n), power[j], net.n)
    ensures AtMost(Zeros(net.n), rows[k], net.n)
  {
    if k > 0 {
      var m: nat := k - 1;
      NeverBelowAmbient(net, dt, power, rows, m);
      assert AtMost(Zeros(net.n), power[m], net.n);
      ZeroIsStationary(net, dt);
      assert StepAt(net, dt, power, rows, m);
      StepIsMonotone(net, dt, Zeros(net.n), Zeros(net.n), Zeros(net.n), rows[m], power[m], rows[k]);
    }
  }

  function NetHeat(net: Net, power: seq<seq<real>>, rows: seq<seq<real>>, k: nat): real
    requires k <= |power| < |rows|
  {
    if k == 0 then 0.0
    else NetHeat(net, power, rows, k - 1) + (TotalPower(net, power[k - 1]) - Convected(net, rows[k]))
  }

  /** Over a whole transient, the stored heat is dt times all power in minus all heat convected away. */
  lemma {:induction false} TransientHeatBalance(net: Net, dt: real, power: seq<seq<real>>, rows: seq<seq<real>>, k: nat)
    requires Physical(net) && IsTransient(net, dt, power, rows) && k <= |power|
    ensures Stored(net, rows[k]) == dt * NetHeat(net, power, rows, k)
  {
    if k == 0 {
      SumZero((a: nat) => if net.cinv(a) != 0.0 then At(rows[0], a) / net.cinv(a) else 0.0, net.n);
    } else {
      var m: nat := k - 1;
      TransientHeatBalance(net, dt, power, rows, m);
      assert StepAt(net, dt, power, rows, m);
      HeatBalance(net, dt, rows[m], power[m], rows[k]);
      var h, d := NetHeat(net, power, rows, m), TotalPower(net, power[m]) - Convected(net, rows[k]);
      assert dt * (h + d) == dt * h + dt * d;
    }
  }

  // ----- chunked solving -------------------------------------------------------------------------------

  /** What a solver run produces: the initial state, then one state per power row. */
  function Rows(step: (seq<real>, seq<real>) -> seq<real>, init: seq<real>, power: seq<seq<real>>): (r: seq<seq<real>>)
    ensures |r| == |power| + 1 && r[0] == init
  {
    if power == [] then [init]
    else
      var front := Rows(step, init, power[..|power| - 1]);
      front + [step(front[|front| - 1], power[|power| - 1])]
  }

  /** A step function of the network. */
  ghost predicate StepsRight(net: Net, dt: real, step: (seq<real>, seq<real>) -> seq<real>) {
    forall x, p :: |step(x, p)| == net.n && Steps(net, dt, x, p, step(x, p))
  }

  function Stepper(net: Net, dt: real, solve: seq<real> -> seq<real>): (seq<real>, seq<real>) -> seq<real> {
    (x: seq<real>, p: seq<real>) => solve(Source(net, dt, x, p))
  }

  lemma StepperIsRight(net: Net, dt: real, solve: seq<real> -> seq<real>)
    requires SolvesSteps(net, dt, solve)
    ensures StepsRight(net, dt, Stepper(net, dt, solve))
  {
    forall x, p
      ensures |Stepper(net, dt, solve)(x, p)| == net.n && Steps(net, dt, x, p, Stepper(net, dt, solve)(x, p))
    {
      SolvedIsStep(net, dt, x, p, solve);
    }
  }

  /** Running any such step function from the zero state gives the transient. */
  lemma {:induction false} RowsAreTransient(net: Net, dt: real, step: (seq<real>, seq<real>) -> seq<real>,
                                            power: seq<seq<real>>)
    requires StepsRight(net, dt, step)
    ensures IsTransient(net, dt, power, Rows(step, Zeros(net.n), power))
  {
    if power != [] {
      var k: nat := |power| - 1;
      RowsAreTransient(net, dt, step, power[..k]);
      var front := Rows(step, Zeros(net.n), power[..k]);
      ExtendTransient(net, dt, power, k, front, step(front[k], power[k]));
      assert power[..k + 1] == power;
    }
  }

  lemma {:induction false} RowsAppend(step: (seq<real>, seq<real>) -> seq<real>, init: seq<real>, p: seq<seq<real>>,
                                      q: seq<seq<real>>)
    ensures Rows(step, init, p + q) == Rows(step, init, p) + Rows(step, Rows(step, init, p)[|p|], q)[1..]
    decreases |q|
  {
    if q == [] {
      assert p + q == p;
    } else {
      var front := q[..|q| - 1];
      RowsAppend(step, init, p, front);
      assert (p + q)[..|p + q| - 1] == p + front;
    }
  }

  function Shifted(row: seq<real>, shift: seq<real>): seq<real> {
    seq(|row|, a requires 0 <= a < |row| => row[a] + At(shift, a))
  }

  function ShiftedRows(rows: seq<seq<real>>, shift: seq<real>): (r: seq<seq<real>>)
    ensures |r| == |rows| && forall k | 0 <= k < |r| :: r[k] == Shifted(rows[k], shift)
  {
    seq(|rows|, k requires 0 <= k < |rows| => Shifted(rows[k], shift))
  }

  lemma NoShift(rows: seq<seq<real>>, shift: seq<real>, n: nat)
    requires (forall k | 0 <= k < |rows| :: |rows[k]| == n) && forall a: nat | a < n :: At(shift, a) == 0.0
    ensures ShiftedRows(rows, shift) == rows
  {
    forall k | 0 <= k < |rows| ensures Shifted(rows[k], shift) == rows[k] { }
  }

  /** One chunk, restarted from `initial` and shifted so that it starts there. */
  method RunSegment(n: nat, step: (seq<real>, seq<real>) -> seq<real>, initial: seq<real>, power: seq<seq<real>>)
    returns (shifted: seq<seq<real>>)
    requires |initial| == n && forall x, p :: |step(x, p)| == n
    ensures shifted == Rows(step, initial, power) && |shifted[|power|]| == n
  {
    var segment := Rows(step, initial, power);
    RowsHaveSize(step, initial, power, n);
    var shift := Minus(initial, segment[0], n);
    shifted := ShiftedRows(segment, shift);
    NoShift(segment, shift, n);
  }

  lemma AppendSegment(step: (seq<real>, seq<real>) -> seq<real>, init: seq<real>, power: seq<seq<real>>, start: nat,
                      end: nat)
    requires start <= end <= |power|
    ensures Rows(step, init, power[..end]) ==
            Rows(step, init, power[..start]) +
                Rows(step, Rows(step, init, power[..start])[start], power[start..end])[1..]
  {
    assert power[..start] + power[start..end] == power[..end];
    RowsAppend(step, init, power[..start], power[start..end]);
  }

  /** The loop over the chunks. */
  method Stitch(n: nat, step: (seq<real>, seq<real>) -> seq<real>, power: seq<seq<real>>, maxSteps: nat)
    returns (stitched: seq<seq<real>>)
    requires maxSteps > 0 && |power| > 0
    requires forall x, p :: |step(x, p)| == n
    ensures stitched == Rows(step, Zeros(n), power)
  {
    stitched := [];
    var initial := Zeros(n);
    var start := 0;
    while start < |power|
      invariant 0 <= start <= |power| && |initial| == n
      invariant start == 0 ==> stitched == [] && initial == Zeros(n)
      invariant start > 0 ==> stitched == Rows(step, Zeros(n), power[..start]) && initial == stitched[start]
    {
      var end := if start + maxSteps < |power| then start + maxSteps else |power|;
      var shifted := RunSegment(n, step, initial, power[start..end]);
      AppendSegment(step, Zeros(n), power, start, end);
      assert start == 0 ==> power[start..end] == power[..end];
      if stitched != [] { stitched := stitched + shifted[1..]; } else { stitched := shifted; }
      initial := shifted[|shifted| - 1];
      start := end;
    }
    assert power[..|power|] == power;
  }

  /** Solving in chunks, each restarted from the last state of the one before and shifted onto it, gives exactly the
      unchunked result; for a step function of the network that is the transient. Without a step there is nothing to
      stack, and the program raises. */
  method RunChunked(net: Net, dt: real, powerInterval: real, step: (seq<real>, seq<real>) -> seq<real>,
                    power: seq<seq<real>>, maxSteps: nat) returns (r: Result<seq<seq<real>>>)
    requires maxSteps > 0 && forall x, p :: |step(x, p)| == net.n
    ensures r.Mismatch? <==> !IsClose(dt, powerInterval)
    ensures r.NoSteps? <==> IsClose(dt, powerInterval) && power == []
    ensures r.Ok? ==> r.value == Rows(step, Zeros(net.n), power)
    ensures r.Ok? && StepsRight(net, dt, step) ==> IsTransient(net, dt, power, r.value)
  {
    if !IsClose(dt, powerInterval) { return Mismatch; }
    if power == [] { return NoSteps; }
    var rows := Stitch(net.n, step, power, maxSteps);
    if StepsRight(net, dt, step) { RowsAreTransient(net, dt, step, power); }
    r := Ok(rows);
  }

  lemma {:induction false} RowsHaveSize(step: (seq<real>, seq<real>) -> seq<real>, init: seq<real>,
                                        power: seq<seq<real>>, n: nat)
    requires |init| == n && forall x, p :: |step(x, p)| == n
    ensures forall k | 0 <= k <= |power| :: |Rows(step, init, power)[k]| == n
  {
    if power != [] { RowsHaveSize(step, init, power[..|power| - 1], n); }
  }
}
