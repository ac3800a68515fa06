/** What one tick does to one mapped model, as functions on values
    (src/core/mapped_model.py). The class `MappedModel` computes these with loops. */
module PhaseEngine {
  import opened Options
  import opened Phases

  // ----- shape ---------------------------------------------------------------------------

  /** The instance (i, p) exists: stationary weight loads exist for input 0 only. */
  predicate Exists(pl: Plan, i: nat, p: nat) {
    && i < pl.numInputs
    && p < |pl.phases|
    && !(pl.phases[p].kind.WeightLoad? && pl.stationary && i > 0)
  }

  predicate Has(s: Progress, i: nat, p: nat) { i < |s.inst| && p in s.inst[i] }

  ghost predicate Shape(pl: Plan, s: Progress) {
    && |s.inst| == |s.inputStart| == |s.inputDone| == pl.numInputs
    && (forall i: nat, p: nat :: Has(s, i, p) <==> Exists(pl, i, p))
  }

  ghost predicate PlanShape(pl: Plan) {
    && pl.numInputs >= 1 && pl.numLayers >= 1
    && (forall k | 0 <= k < |pl.order| :: pl.order[k] < |pl.phases|)
    && (forall l: nat | l < pl.numLayers :: l in pl.computeOf)
    && (forall l | l in pl.computeOf :: pl.computeOf[l] < |pl.phases| && !pl.phases[pl.computeOf[l]].kind.WeightLoad?)
    && (forall l | l in pl.actOf :: pl.actOf[l] < |pl.phases| && !pl.phases[pl.actOf[l]].kind.WeightLoad?)
  }

  // ----- readiness and start times ---------------------------------------------------------

  predicate Done(s: Progress, i: nat, p: nat)
    requires Has(s, i, p)
  {
    s.inst[i][p].state.Complete?
  }

  /** Every dependency that exists for this input is complete. */
  predicate DepsDone(s: Progress, i: nat, deps: seq<nat>) {
    forall d | d in deps :: Has(s, i, d) ==> Done(s, i, d)
  }

  predicate DepsMet(pl: Plan, s: Progress, i: nat, p: nat)
    requires p < |pl.phases|
  {
    && DepsDone(s, i, pl.phases[p].deps)
    && (pl.pipelined && i > 0 && Has(s, i - 1, p) ==> Done(s, i - 1, p))
  }

  /** The check inside _dependencies_met that raises: a compute phase whose weights are not known
      to be loaded and which does not depend on its weight phase. */
  predicate ConfigError(pl: Plan, s: Progress, i: nat, p: nat)
    requires p < |pl.phases|
  {
    var ph := pl.phases[p];
    && ph.kind.Compute?
    && ph.kind.layer in pl.weightOf
    && !(pl.stationary && ph.kind.layer in s.loaded)
    && (Has(s, i, pl.weightOf[ph.kind.layer]) ==> !Done(s, i, pl.weightOf[ph.kind.layer]))
    && pl.weightOf[ph.kind.layer] !in ph.deps
  }

  function LatestDep(s: Progress, i: nat, deps: seq<nat>, from: real): real
    decreases |deps|
  {
    if deps == [] then from
    else
      var rest := LatestDep(s, i, deps[..|deps| - 1], from);
      var d := deps[|deps| - 1];
      if Has(s, i, d) && s.inst[i][d].completion > rest then s.inst[i][d].completion else rest
  }

  function StartTime(pl: Plan, s: Progress, i: nat, p: nat): real
    requires p < |pl.phases| && i < |s.inputStart|
  {
    var a := LatestDep(s, i, pl.phases[p].deps, s.inputStart[i]);
    if pl.pipelined && i > 0 && Has(s, i - 1, p) && s.inst[i - 1][p].completion > a
    then s.inst[i - 1][p].completion else a
  }

  predicate Runnable(pl: Plan, s: Progress, i: nat, p: nat)
    requires p < |pl.phases|
  {
    Has(s, i, p) && !Done(s, i, p) && DepsMet(pl, s, i, p)
  }

  /** The first runnable phase in execution order, searching from position k. */
  function CurrentFrom(pl: Plan, s: Progress, i: nat, k: nat): (r: Option<nat>)
    requires PlanShape(pl) && k <= |pl.order|
    ensures r.Some? ==> r.value < |pl.phases| && Runnable(pl, s, i, r.value) && r.value in pl.order[k..]
    ensures r.None? ==> forall j | k <= j < |pl.order| :: !Runnable(pl, s, i, pl.order[j])
    decreases |pl.order| - k
  {
    if k == |pl.order| then None
    else if Runnable(pl, s, i, pl.order[k]) then Some(pl.order[k])
    else CurrentFrom(pl, s, i, k + 1)
  }

  /** And every phase before it in the order is not runnable. */
  lemma {:induction false} CurrentIsFirst(pl: Plan, s: Progress, i: nat, k: nat) returns (j: nat)
    requires PlanShape(pl) && k <= |pl.order| && CurrentFrom(pl, s, i, k).Some?
    ensures k <= j < |pl.order| && CurrentFrom(pl, s, i, k) == Some(pl.order[j])
    ensures forall m | k <= m < j :: !Runnable(pl, s, i, pl.order[m])
    decreases |pl.order| - k
  {
    j := k;
    if !Runnable(pl, s, i, pl.order[k]) { j := CurrentIsFirst(pl, s, i, k + 1); }
  }

  // ----- activation (get_active_phases) --------------------------------------------------

  function Store(s: Progress, i: nat, p: nat, x: Instance): (r: Progress)
    requires i < |s.inst|
    ensures r.inputStart == s.inputStart && r.inputDone == s.inputDone && |r.inst| == |s.inst|
    ensures Has(r, i, p) && r.inst[i][p] == x
  {
    var row: map<nat, Instance> := s.inst[i];
    s.(inst := s.inst[i := row[p := x]])
  }

  /** Store an instance; completing a weight load marks its layers as loaded. */
  function Put(pl: Plan, s: Progress, i: nat, p: nat, x: Instance): Progress
    requires i < |s.inst| && p < |pl.phases|
  {
    var s' := Store(s, i, p, x);
    if pl.phases[p].kind.WeightLoad? && x.state.Complete?
    then s'.(loaded := s.loaded + (set l | l in pl.phases[p].kind.layers))
    else s'
  }

  /** The instance after activation at time t, and whether it is reported as active. */
  function ActivatedCompute(x: Instance, startTime: real, t: real): (Instance, bool) {
    if x.state.NotStarted? then (x.(state := Running, start := startTime), true)
    else if x.state.Running? then
      if t - x.start < x.latency then (x, true)
      else (x.(state := Complete, completion := x.start + x.latency), false)
    else (x, false)
  }

  function ActivatedComm(x: Instance, traffic: Traffic, startTime: real, t: real): (Instance, bool) {
    if x.latency == 0.0 && x.state.NotStarted? then
      if !HasTraffic(traffic)
      then (Instance(Complete, startTime, startTime, -1.0), false)
      else (x.(state := Running, start := startTime), true)
    else if x.state.Running? then
      if x.latency > 0.0 then
        var elapsed := t - x.start;
        if elapsed < x.latency then
          var percent := if elapsed / x.latency > 1.0 then 1.0 else elapsed / x.latency;
          (x, HasTraffic(ScaledTraffic(traffic, 1.0 - percent)))
        else (x.(state := Complete, completion := x.start + x.latency), false)
      else if !HasTraffic(traffic)
      then (x.(state := Complete, completion := x.start, latency := -1.0), false)
      else (x, true)
    else (x, false)
  }

  predicate SkipsLoad(pl: Plan, s: Progress, p: nat)
    requires p < |pl.phases|
  {
    var k := pl.phases[p].kind;
    k.WeightLoad? && pl.stationary && forall l | l in k.layers :: l in s.loaded
  }

  function Activated(pl: Plan, s: Progress, i: nat, p: nat, t: real): (Instance, bool)
    requires p < |pl.phases| && Has(s, i, p) && i < |s.inputStart|
  {
    var x := s.inst[i][p];
    if pl.phases[p].kind.Compute? then ActivatedCompute(x, StartTime(pl, s, i, p), t)
    else if SkipsLoad(pl, s, p) then
      (if x.state.NotStarted? then Instance(Complete, t, t, 0.0) else x, false)
    else ActivatedComm(x, pl.phases[p].traffic, StartTime(pl, s, i, p), t)
  }

  /** One input's turn: its current phase, if any, and that phase if it is reported active. */
  function Current(pl: Plan, s: Progress, i: nat, t: real): Option<nat>
    requires PlanShape(pl) && i < |s.inputStart|
  {
    if s.inputStart[i] == UNSET || t < s.inputStart[i] then None else CurrentFrom(pl, s, i, 0)
  }

  function ActivateInput(pl: Plan, s: Progress, i: nat, t: real): (Progress, Option<nat>)
    requires PlanShape(pl) && i < |s.inputStart|
  {
    match Current(pl, s, i, t)
    case None => (s, None)
    case Some(p) =>
      var (x, active) := Activated(pl, s, i, p, t);
      (Put(pl, s, i, p, x), if active then Some(p) else None)
  }

  /** The inputs below n, in turn. */
  function Activate(pl: Plan, s: Progress, t: real, n: nat): (r: Progress)
    requires PlanShape(pl) && n <= |s.inputStart|
    ensures r.inputStart == s.inputStart && |r.inst| == |s.inst| && |r.inputDone| == |s.inputDone|
  {
    if n == 0 then s else ActivateInput(pl, Activate(pl, s, t, n - 1), n - 1, t).0
  }

  /** The active communication phases of inputs below n, as (input, phase) keys. */
  function Requests(pl: Plan, s: Progress, t: real, n: nat): seq<(nat, nat)>
    requires PlanShape(pl) && n <= |s.inputStart|
  {
    if n == 0 then []
    else
      var active := ActivateInput(pl, Activate(pl, s, t, n - 1), n - 1, t).1;
      Requests(pl, s, t, n - 1)
      + (if active.Some? && active.value < |pl.phases| && !pl.phases[active.value].kind.Compute?
         then [(n - 1, active.value)] else [])
  }

  // ----- latency updates (update_phase_latency) ------------------------------------------

  function Relatency(x: Instance, latency: real, t: real): Instance {
    if x.latency == 0.0 then x.(latency := latency)
    else if x.latency > 0.0 && x.state.Running? then x.(latency := t - x.start + latency)
    else x
  }

  function UpdateLatency(pl: Plan, s: Progress, i: nat, p: nat, latency: real, t: real): (r: Progress)
    ensures r.inputStart == s.inputStart && |r.inst| == |s.inst| && |r.inputDone| == |s.inputDone|
  {
    if Has(s, i, p) then Store(s, i, p, Relatency(s.inst[i][p], latency, t)) else s
  }

  /** The first n requested latencies pushed into the model. */
  function Update(pl: Plan, s: Progress, reqs: seq<(nat, nat)>, sim: (nat, nat) -> real, t: real, n: nat): (r: Progress)
    requires n <= |reqs|
    ensures r.inputStart == s.inputStart && |r.inst| == |s.inst| && |r.inputDone| == |s.inputDone|
  {
    if n == 0 then s
    else
      var r := reqs[n - 1];
      UpdateLatency(pl, Update(pl, s, reqs, sim, t, n - 1), r.0, r.1, sim(r.0, r.1), t)
  }

  // ----- timing (calculate_phase_timing) --------------------------------------------------

  /** Completion of a layer (its compute and, when it has one, its activation) for an input. */
  function LayerTime(pl: Plan, s: Progress, i: nat, l: nat): Option<real> {
    if l !in pl.computeOf || !Has(s, i, pl.computeOf[l]) then None
    else if l in pl.actOf then
      if Has(s, i, pl.actOf[l]) && Done(s, i, pl.computeOf[l]) && Done(s, i, pl.actOf[l])
      then Some(Max(s.inst[i][pl.computeOf[l]].completion, s.inst[i][pl.actOf[l]].completion))
      else None
    else if Done(s, i, pl.computeOf[l]) then Some(s.inst[i][pl.computeOf[l]].completion)
    else None
  }

  /** The first layer from l on that is complete decides. */
  function FirstLayerTime(pl: Plan, s: Progress, i: nat, l: nat): Option<real>
    requires l <= pl.numLayers
    decreases pl.numLayers - l
  {
    if l == pl.numLayers then None
    else if LayerTime(pl, s, i, l).Some? then LayerTime(pl, s, i, l)
    else FirstLayerTime(pl, s, i, l + 1)
  }

  predicate AllDone(pl: Plan, s: Progress, i: nat)
  {
    forall p | p in pl.order :: Has(s, i, p) ==> Done(s, i, p)
  }

  function InputStart(pl: Plan, s: Progress, i: nat): real
    requires 0 < i < |s.inputStart| == |s.inputDone|
  {
    if pl.pipelined then
      match FirstLayerTime(pl, s, i - 1, 0)
      case Some(v) => v
      case None => UNSET
    else if AllDone(pl, s, i - 1) && s.inputDone[i - 1] != UNSET then s.inputDone[i - 1]
    else UNSET
  }

  function StartInput(pl: Plan, s: Progress, i: nat): (r: Progress)
    requires i < |s.inputStart| == |s.inputDone|
    ensures r.inst == s.inst && |r.inputStart| == |s.inputStart| && r.inputDone == s.inputDone
  {
    if i > 0 && s.inputStart[i] == UNSET
    then s.(inputStart := s.inputStart[i := InputStart(pl, s, i)])
    else s
  }

  function Timed(x: Instance, startTime: real): Instance {
    var y := if x.start < 0.0 then x.(start := startTime) else x;
    if y.latency > 0.0 && y.completion < 0.0 then y.(completion := y.start + y.latency) else y
  }

  function TimePhase(pl: Plan, s: Progress, i: nat, p: nat): (r: Progress)
    requires p < |pl.phases| && i < |s.inputStart|
    ensures r.inputStart == s.inputStart && |r.inst| == |s.inst| && r.inputDone == s.inputDone
  {
    if Runnable(pl, s, i, p)
    then Store(s, i, p, Timed(s.inst[i][p], StartTime(pl, s, i, p)))
    else s
  }

  function TimePhases(pl: Plan, s: Progress, i: nat, k: nat): (r: Progress)
    requires PlanShape(pl) && k <= |pl.order| && i < |s.inputStart|
    ensures r.inputStart == s.inputStart && |r.inst| == |s.inst| && r.inputDone == s.inputDone
  {
    if k == 0 then s else TimePhase(pl, TimePhases(pl, s, i, k - 1), i, pl.order[k - 1])
  }

  function LastCompletion(s: Progress, i: nat, order: seq<nat>): real
  {
    if order == [] then UNSET
    else
      var rest := LastCompletion(s, i, order[..|order| - 1]);
      var p := order[|order| - 1];
      if Has(s, i, p) then Max(rest, s.inst[i][p].completion) else rest
  }

  function FinishInput(pl: Plan, s: Progress, i: nat): (r: Progress)
    requires i < |s.inputDone|
    ensures r.inst == s.inst && r.inputStart == s.inputStart && |r.inputDone| == |s.inputDone|
  {
    if AllDone(pl, s, i) && s.inputDone[i] == UNSET
    then s.(inputDone := s.inputDone[i := LastCompletion(s, i, pl.order)])
    else s
  }

  function TimeInput(pl: Plan, s: Progress, i: nat): (r: Progress)
    requires PlanShape(pl) && i < |s.inputStart| == |s.inputDone|
    ensures |r.inputStart| == |s.inputStart| && |r.inst| == |s.inst| && |r.inputDone| == |s.inputDone|
  {
    var s1 := StartInput(pl, s, i);
    if s1.inputStart[i] == UNSET then s1
    else FinishInput(pl, TimePhases(pl, s1, i, |pl.order|), i)
  }

  function TimeInputs(pl: Plan, s: Progress, n: nat): (r: Progress)
    requires PlanShape(pl) && n <= |s.inputStart| == |s.inputDone|
    ensures |r.inputStart| == |s.inputStart| && |r.inst| == |s.inst| && |r.inputDone| == |s.inputDone|
  {
    if n == 0 then s else TimeInput(pl, TimeInputs(pl, s, n - 1), n - 1)
  }

  function MaxOf(v: seq<real>): real
    requires |v| >= 1
  {
    if |v| == 1 then v[0] else Max(MaxOf(v[..|v| - 1]), v[|v| - 1])
  }

  function FinishModel(s: Progress): Progress
    requires |s.inputDone| >= 1
  {
    if forall k | 0 <= k < |s.inputDone| :: s.inputDone[k] != UNSET
    then s.(done := MaxOf(s.inputDone)) else s
  }

  function Time(pl: Plan, s: Progress): Progress
    requires PlanShape(pl) && |s.inputStart| == |s.inputDone| == pl.numInputs
  {
    FinishModel(TimeInputs(pl, s, pl.numInputs))
  }

  predicate IsComplete(s: Progress, t: real) { s.done != UNSET && t >= s.done }

  // ----- initial state --------------------------------------------------------------------

  function FreshInstance(pl: Plan, p: nat): Instance
    requires p < |pl.phases|
  {
    var k := pl.phases[p].kind;
    Instance(NotStarted, UNSET, UNSET,
             if k.Compute? && k.layer < |pl.layerLatency| then pl.layerLatency[k.layer] else 0.0)
  }

  function Fresh(pl: Plan, startTime: real): Progress
    requires pl.numInputs >= 1
  {
    Progress(
      seq(pl.numInputs, i requires 0 <= i => map p: nat | p < |pl.phases| && Exists(pl, i, p) :: FreshInstance(pl, p)),
      seq(pl.numInputs, i => if i == 0 then startTime else UNSET),
      seq(pl.numInputs, _ => UNSET),
      {},
      UNSET)
  }
}
