/** Whole runs: models are injected and ticked together, sharing one network simulator
    (src/sim/communication_orchestrator.py and the loop of src/sim/global_manager.py). */
module Cosim {
  import opened Phases
  import opened PhaseEngine
  import opened EngineInvariant
  import opened EngineSteps
  import opened EngineTheorems
  import opened ModelTick
  import opened Stall

  /** Models in injection order; `active` are those not yet retired. */
  datatype World = World(plans: seq<Plan>, runs: seq<Progress>, active: set<nat>, now: real, calls: nat)

  /** What the network simulator answers in each tick, per model, input and phase. */
  type Network = (nat, nat, nat, nat) -> real

  ghost predicate Answers(net: Network) { forall n, k, i, p :: net(n, k, i, p) > 0.0 }

  predicate Sized(pl: Plan, s: Progress) { |s.inputStart| == |s.inputDone| == pl.numInputs }

  ghost predicate WorldShape(w: World) {
    && |w.plans| == |w.runs|
    && (forall k | k in w.active :: k < |w.plans|)
    && (forall k | 0 <= k < |w.plans| :: PlanShape(w.plans[k]) && Sized(w.plans[k], w.runs[k]))
  }

  // ----- steps ---------------------------------------------------------------------------------------

  const EMPTY := World([], [], {}, 0.0, 0)

  function Inject(w: World, pl: Plan): World
    requires pl.numInputs >= 1
  {
    w.(plans := w.plans + [pl], runs := w.runs + [Fresh(pl, w.now)], active := w.active + {|w.plans|})
  }

  /** The simulator is called when some active model has a communication without a latency. */
  predicate CallNeeded(w: World)
    requires WorldShape(w)
  {
    exists k | k in w.active :: Wants(w.plans[k], w.runs[k], w.now)
  }

  function Tuned(net: Network, n: nat, k: nat): (nat, nat) -> real { (i: nat, p: nat) => net(n, k, i, p) }

  function NextRun(w: World, net: Network, n: nat, k: nat): Progress
    requires WorldShape(w) && k < |w.plans|
  {
    if k in w.active then Tick(w.plans[k], w.runs[k], w.now, CallNeeded(w), Tuned(net, n, k)) else w.runs[k]
  }

  /** Tick number n: communicate, recalculate times, retire, advance. */
  function Step(w: World, net: Network, n: nat, dt: real): World
    requires WorldShape(w)
  {
    var runs := seq(|w.plans|, k requires 0 <= k < |w.plans| => NextRun(w, net, n, k));
    World(w.plans, runs,
          (set k | k in w.active && !IsComplete(runs[k], w.now)),
          w.now + dt,
          if CallNeeded(w) then w.calls + 1 else w.calls)
  }

  // ----- the invariant of every run --------------------------------------------------------------------

  ghost predicate GoodModel(w: World, k: nat)
    requires |w.plans| == |w.runs| && k < |w.plans|
  {
    var pl, s := w.plans[k], w.runs[k];
    && WellFormed(pl) && Inv(pl, s, w.now) && Quiet(pl, s) && Settled(pl, s)
    && (k !in w.active ==> AllComplete(s))
    && (k in w.active ==> LeastOpen(pl, s, 0) < pl.numInputs)
  }

  /** What every tick and every injection keeps; the empty world has it, so every run does (After). */
  ghost predicate Coherent(w: World) {
    && |w.plans| == |w.runs| && w.now >= 0.0
    && (forall k | k in w.active :: k < |w.plans|)
    && (forall k: nat | k < |w.plans| :: GoodModel(w, k))
  }

  lemma CoherentShape(w: World)
    requires Coherent(w)
    ensures WorldShape(w)
  {
    forall k | 0 <= k < |w.plans| ensures PlanShape(w.plans[k]) && Sized(w.plans[k], w.runs[k]) {
      assert GoodModel(w, k);
    }
  }

  lemma FreshIsQuietAndSettled(pl: Plan, t: real)
    requires WellFormed(pl) && t >= 0.0
    ensures Inv(pl, Fresh(pl, t), t) && Quiet(pl, Fresh(pl, t)) && Settled(pl, Fresh(pl, t))
    ensures LeastOpen(pl, Fresh(pl, t), 0) == 0
  {
    var s := Fresh(pl, t);
    FreshIsGood(pl, t);
    forall i: nat | i < pl.numInputs ensures !AllDone(pl, s, i) {
      var c := pl.computeOf[0];
      assert Exists(pl, i, c) && Has(s, i, c) && c in pl.order && !Done(s, i, c);
    }
    forall i | 0 <= i < pl.numInputs ensures SettledInput(pl, s, i) { }
    assert s.inputDone[0] == UNSET;
    forall i: nat, p: nat | Has(s, i, p) ensures s.inst[i][p].state.NotStarted? { assert Exists(pl, i, p); }
  }

  lemma InjectKeeps(w: World, pl: Plan)
    requires Coherent(w) && WellFormed(pl)
    ensures Coherent(Inject(w, pl))
  {
    var w' := Inject(w, pl);
    FreshIsQuietAndSettled(pl, w.now);
    forall k: nat | k < |w'.plans| ensures GoodModel(w', k) {
      if k < |w.plans| {
        assert GoodModel(w, k);
        assert w'.plans[k] == w.plans[k] && w'.runs[k] == w.runs[k];
      }
    }
  }

  /** What a tick does to one active model. */
  lemma NextRunKeeps(w: World, net: Network, n: nat, k: nat)
    requires Coherent(w) && WorldShape(w) && Answers(net) && k < |w.plans| && k in w.active
    ensures var pl, s, s' := w.plans[k], w.runs[k], NextRun(w, net, n, k);
            Ticked(pl, CallNeeded(w), s, s', w.now) && Settled(pl, s')
  {
    assert GoodModel(w, k);
    TickKeeps(w.plans[k], w.runs[k], w.now, CallNeeded(w), Tuned(net, n, k));
  }

  lemma LaterKeeps(pl: Plan, s: Progress, t: real, t': real)
    requires WellFormed(pl) && Inv(pl, s, t) && t <= t'
    ensures Inv(pl, s, t')
  {
    DoneChangeKeeps(pl, s, s, t, t');
  }

  /** Every tick keeps every model's invariant, and retires exactly the models that are complete. */
  lemma StepKeeps(w: World, net: Network, n: nat, dt: real)
    requires Coherent(w) && Answers(net) && dt > 0.0
    ensures WorldShape(w) && Coherent(Step(w, net, n, dt))
  {
    CoherentShape(w);
    var w' := Step(w, net, n, dt);
    forall k: nat | k < |w'.plans| ensures GoodModel(w', k) {
      var pl, s' := w.plans[k], NextRun(w, net, n, k);
      assert w'.runs[k] == s' && GoodModel(w, k);
      if k in w.active {
        NextRunKeeps(w, net, n, k);
        AllCompleteRetires(pl, s', w.now);
      }
      LaterKeeps(pl, s', w.now, w'.now);
    }
  }

  // ----- every run --------------------------------------------------------------------------------------

  datatype Event = Injected(plan: Plan) | Elapsed(network: Network)

  ghost predicate GoodEvent(e: Event) {
    match e
    case Injected(pl) => WellFormed(pl)
    case Elapsed(net) => Answers(net)
  }

  ghost predicate GoodEvents(es: seq<Event>) { forall j | 0 <= j < |es| :: GoodEvent(es[j]) }

  /** The world after the given injections and ticks. */
  ghost function After(es: seq<Event>, dt: real): (w: World)
    requires dt > 0.0 && GoodEvents(es)
    ensures Coherent(w)
  {
    if es == [] then EMPTY
    else
      var w := After(es[..|es| - 1], dt);
      assert GoodEvent(es[|es| - 1]);
      match es[|es| - 1]
      case Injected(pl) => InjectKeeps(w, pl); Inject(w, pl)
      case Elapsed(net) => StepKeeps(w, net, |es|, dt); Step(w, net, |es|, dt)
  }

  // ----- what holds in every run -------------------------------------------------------------------------

  /** Weight safety over every run, for every input of every model in both modes. */
  lemma NoComputeBeforeWeights(es: seq<Event>, dt: real, k: nat, i: nat, p: nat)
    requires dt > 0.0 && GoodEvents(es) && k < |After(es, dt).plans| == |After(es, dt).runs|
    requires var pl, s := After(es, dt).plans[k], After(es, dt).runs[k];
             p < |pl.phases| && Has(s, i, p) && pl.phases[p].kind.Compute? && !s.inst[i][p].state.NotStarted?
    ensures var pl, s := After(es, dt).plans[k], After(es, dt).runs[k];
            var l := pl.phases[p].kind.layer;
            l in s.loaded && LoadedBefore(pl, s, if pl.stationary then 0 else i, l, s.inst[i][p].start)
  {
    var w := After(es, dt);
    assert GoodModel(w, k);
    ComputeNeverBeatsWeights(w.plans[k], w.runs[k], i, p, w.now);
  }

  /** Causality over every run: a started instance started exactly at its latest cause. */
  lemma EveryStartIsCaused(es: seq<Event>, dt: real, k: nat, i: nat, p: nat)
    requires dt > 0.0 && GoodEvents(es) && k < |After(es, dt).plans| == |After(es, dt).runs|
    requires var pl, s := After(es, dt).plans[k], After(es, dt).runs[k];
             p < |pl.phases| && Has(s, i, p) && i < |s.inputStart| && !s.inst[i][p].state.NotStarted?
    ensures var pl, s := After(es, dt).plans[k], After(es, dt).runs[k];
            && Cause(pl, s, i, p, s.inst[i][p].start)
            && (forall c | Cause(pl, s, i, p, c) :: c <= s.inst[i][p].start)
            && s.inst[i][p].start <= After(es, dt).now
            && (Done(s, i, p) ==> s.inst[i][p].start <= s.inst[i][p].completion <= After(es, dt).now)
  {
    var w := After(es, dt);
    assert GoodModel(w, k);
    StartsAtLatestCause(w.plans[k], w.runs[k], i, p, w.now);
    if Done(w.runs[k], i, p) { EndsAfterLatency(w.plans[k], w.runs[k], i, p, w.now); }
  }

  /** No overlap over every run: pipelined inputs never share a phase, serialized inputs nothing at all. */
  lemma EveryRunIsExclusive(es: seq<Event>, dt: real, k: nat, i: nat, j: nat, p: nat, q: nat)
    requires dt > 0.0 && GoodEvents(es) && k < |After(es, dt).plans| == |After(es, dt).runs| && i < j
    requires var pl, s := After(es, dt).plans[k], After(es, dt).runs[k];
             && p < |pl.phases| && q < |pl.phases| && (pl.pipelined ==> p == q)
             && Has(s, i, p) && Has(s, j, q) && !s.inst[j][q].state.NotStarted?
    ensures var s := After(es, dt).runs[k]; Done(s, i, p) && s.inst[i][p].completion <= s.inst[j][q].start
  {
    var w := After(es, dt);
    assert GoodModel(w, k);
    if w.plans[k].pipelined { SamePhaseNeverOverlaps(w.plans[k], w.runs[k], i, j, p, w.now); }
    else { SerializedPhasesNeverOverlap(w.plans[k], w.runs[k], i, p, j, q, w.now); }
  }

  /** History is final: a tick changes no completed instance, no known input time and no loaded layer. */
  lemma StepKeepsHistory(w: World, net: Network, n: nat, dt: real, k: nat)
    requires Coherent(w) && WorldShape(w) && Answers(net) && dt > 0.0 && k < |w.plans|
    ensures Frozen(w.runs[k], Step(w, net, n, dt).runs[k])
  {
    if k in w.active { NextRunKeeps(w, net, n, k); } else { FrozenRefl(w.runs[k]); }
  }

  // ----- the simulator-call bound ----------------------------------------------------------------------

  /** The communications with traffic of inputs below n. */
  function TrafficRow(pl: Plan, i: nat, n: nat): nat {
    if n == 0 then 0
    else
      var carries := Exists(pl, i, n - 1) && !pl.phases[n - 1].kind.Compute? && HasTraffic(pl.phases[n - 1].traffic);
      TrafficRow(pl, i, n - 1) + (if carries then 1 else 0)
  }

  function TrafficInstances(pl: Plan, n: nat): nat {
    if n == 0 then 0 else TrafficInstances(pl, n - 1) + TrafficRow(pl, n - 1, |pl.phases|)
  }

  function AllTraffic(plans: seq<Plan>): nat {
    if plans == [] then 0
    else AllTraffic(plans[..|plans| - 1]) + TrafficInstances(plans[|plans| - 1], plans[|plans| - 1].numInputs)
  }

  lemma {:induction false} FreshRow(pl: Plan, i: nat, t: real, n: nat)
    requires WellFormed(pl) && i < pl.numInputs && n <= |pl.phases|
    ensures RowTotal(pl, Unsimulated, Fresh(pl, t).inst[i], n) == TrafficRow(pl, i, n)
  {
    if n > 0 {
      FreshRow(pl, i, t, n - 1);
      var s, p := Fresh(pl, t), n - 1;
      assert Has(s, i, p) <==> Exists(pl, i, p);
      if Exists(pl, i, p) { assert s.inst[i][p] == FreshInstance(pl, p); }
    }
  }

  lemma {:induction false} FreshTraffic(pl: Plan, t: real, n: nat)
    requires WellFormed(pl) && n <= pl.numInputs
    ensures Total(pl, Unsimulated, Fresh(pl, t), n) == TrafficInstances(pl, n)
  {
    if n > 0 {
      var i: nat := n - 1;
      FreshTraffic(pl, t, i);
      FreshTrafficNext(pl, t, i);
    }
  }

  lemma FreshTrafficNext(pl: Plan, t: real, i: nat)
    requires WellFormed(pl) && i < pl.numInputs
    requires Total(pl, Unsimulated, Fresh(pl, t), i) == TrafficInstances(pl, i)
    ensures Total(pl, Unsimulated, Fresh(pl, t), i + 1) == TrafficInstances(pl, i + 1)
  {
    FreshRow(pl, i, t, |pl.phases|);
  }

  ghost predicate Matched(plans: seq<Plan>, runs: seq<Progress>) {
    |plans| == |runs| && forall k | 0 <= k < |plans| :: |runs[k].inst| == plans[k].numInputs
  }

  /** A measure summed over all models. */
  ghost function Sum(m: Measure, plans: seq<Plan>, runs: seq<Progress>): nat
    requires Matched(plans, runs)
  {
    if plans == [] then 0
    else
      var k := |plans| - 1;
      Sum(m, plans[..k], runs[..k]) + Total(plans[k], m, runs[k], plans[k].numInputs)
  }

  lemma CoherentMatched(w: World)
    requires Coherent(w)
    ensures Matched(w.plans, w.runs)
  {
    forall k | 0 <= k < |w.plans| ensures |w.runs[k].inst| == w.plans[k].numInputs { assert GoodModel(w, k); }
  }

  lemma {:induction false} SumFalls(m: Measure, plans: seq<Plan>, a: seq<Progress>, b: seq<Progress>)
    requires Matched(plans, a) && Matched(plans, b)
    requires forall k | 0 <= k < |plans| ::
               Total(plans[k], m, b[k], plans[k].numInputs) <= Total(plans[k], m, a[k], plans[k].numInputs)
    ensures Sum(m, plans, b) <= Sum(m, plans, a)
    ensures Sum(m, plans, b) == Sum(m, plans, a) ==> forall k | 0 <= k < |plans| ::
              Total(plans[k], m, b[k], plans[k].numInputs) == Total(plans[k], m, a[k], plans[k].numInputs)
  {
    if plans != [] {
      var k := |plans| - 1;
      SumFalls(m, plans[..k], a[..k], b[..k]);
      if Sum(m, plans, b) == Sum(m, plans, a) {
        forall j | 0 <= j < |plans|
          ensures Total(plans[j], m, b[j], plans[j].numInputs) == Total(plans[j], m, a[j], plans[j].numInputs)
        {
          if j < k { assert plans[..k][j] == plans[j] && a[..k][j] == a[j] && b[..k][j] == b[j]; }
        }
      }
    }
  }

  /** No potential rises over a tick, and a tick that calls the simulator lowers both. */
  lemma StepLowers(w: World, net: Network, n: nat, dt: real, m: Measure)
    requires Coherent(w) && WorldShape(w) && Answers(net) && dt > 0.0
    ensures var w' := Step(w, net, n, dt);
            && Matched(w.plans, w.runs) && Matched(w.plans, w'.runs)
            && Sum(m, w.plans, w'.runs) <= Sum(m, w.plans, w.runs)
            && (CallNeeded(w) ==> Sum(m, w.plans, w'.runs) < Sum(m, w.plans, w.runs))
            && (Sum(m, w.plans, w'.runs) == Sum(m, w.plans, w.runs) ==> forall k | 0 <= k < |w.plans| ::
                  Total(w.plans[k], m, w'.runs[k], w.plans[k].numInputs) ==
                      Total(w.plans[k], m, w.runs[k], w.plans[k].numInputs))
  {
    var w' := Step(w, net, n, dt);
    CoherentMatched(w);
    StepKeeps(w, net, n, dt);
    CoherentMatched(w');
    forall k: nat | k < |w.plans|
      ensures Total(w.plans[k], m, w'.runs[k], w.plans[k].numInputs) <=
                Total(w.plans[k], m, w.runs[k], w.plans[k].numInputs)
      ensures k in w.active && Wants(w.plans[k], w.runs[k], w.now) ==>
                Total(w.plans[k], m, w'.runs[k], w.plans[k].numInputs) <
                    Total(w.plans[k], m, w.runs[k], w.plans[k].numInputs)
    {
      assert GoodModel(w, k);
      if k in w.active { TickLowersTotals(w.plans[k], w.runs[k], w.now, CallNeeded(w), Tuned(net, n, k), m); }
    }
    SumFalls(m, w.plans, w.runs, w'.runs);
  }

  /** Over every run, the simulator is called at most once per communication instance with traffic. */
  lemma {:induction false} SimulatorCallBound(es: seq<Event>, dt: real)
    requires dt > 0.0 && GoodEvents(es)
    ensures var w := After(es, dt);
            Matched(w.plans, w.runs) && w.calls + Sum(Unsimulated, w.plans, w.runs) <= AllTraffic(w.plans)
  {
    var w' := After(es, dt);
    CoherentMatched(w');
    if es != [] {
      var front := es[..|es| - 1];
      SimulatorCallBound(front, dt);
      var w := After(front, dt);
      match es[|es| - 1]
      case Injected(pl) =>
        FreshTraffic(pl, w.now, pl.numInputs);
        assert w'.plans[..|w.plans|] == w.plans && w'.runs[..|w.plans|] == w.runs;
      case Elapsed(net) =>
        CoherentShape(w);
        StepLowers(w, net, |es|, dt, Unsimulated);
    }
  }

  // ----- termination --------------------------------------------------------------------------------------

  /** n further ticks, the first of them numbered from. */
  ghost function Ticks(w: World, net: Network, dt: real, from: nat, n: nat): (w': World)
    requires Coherent(w) && Answers(net) && dt > 0.0
    ensures Coherent(w') && w'.plans == w.plans
    decreases n
  {
    if n == 0 then w
    else StepKeeps(w, net, from, dt); Ticks(Step(w, net, from, dt), net, dt, from + 1, n - 1)
  }

  /** Some active model, the same one as long as the active set is the same. */
  ghost function Watched(active: set<nat>): (k: nat)
    requires active != {}
    ensures k in active
  {
    var k :| k in active; k
  }

  ghost function Left(deadline: real, now: real, dt: real): nat
    requires dt > 0.0
  {
    if now < deadline then FewerTicksLeft(deadline, now, dt); ((deadline - now) / dt).Floor + 1 else 0
  }

  ghost function TicksLeft(w: World, dt: real): nat
    requires Coherent(w) && dt > 0.0
  {
    if w.active == {} then 0
    else
      var k := Watched(w.active);
      assert GoodModel(w, k);
      Left(Deadline(w.plans[k], w.runs[k]), w.now, dt)
  }

  lemma FewerTicksLeft(deadline: real, now: real, dt: real)
    requires dt > 0.0 && now < deadline
    ensures (deadline - (now + dt)) / dt == (deadline - now) / dt - 1.0
    ensures ((deadline - now) / dt).Floor >= 0
  {
    var a := deadline - now;
    calc {
      (a - dt) / dt;
      a / dt - dt / dt;
      a / dt - 1.0;
    }
    assert a / dt > 0.0;
  }

  /** A tick that neither works nor retires brings the deadline of a fixed model nearer. */
  lemma IdleTickApproaches(w: World, net: Network, n: nat, dt: real)
    requires Coherent(w) && WorldShape(w) && Answers(net) && dt > 0.0 && w.active != {}
    requires Coherent(Step(w, net, n, dt)) && Step(w, net, n, dt).active == w.active
    requires Matched(w.plans, w.runs) && Matched(w.plans, Step(w, net, n, dt).runs)
    requires Sum(Work, w.plans, Step(w, net, n, dt).runs) == Sum(Work, w.plans, w.runs)
    ensures TicksLeft(Step(w, net, n, dt), dt) < TicksLeft(w, dt)
  {
    var k := Watched(w.active);
    SteadyTotals(w, net, n, dt, k);
    WatchedStalls(w, net, n, dt, k);
    NearerDeadline(w, Step(w, net, n, dt), dt, k);
  }

  lemma NearerDeadline(w: World, w': World, dt: real, k: nat)
    requires Coherent(w) && Coherent(w') && dt > 0.0 && w.active == w'.active != {} && k == Watched(w.active)
    requires k < |w.plans| && w'.plans == w.plans && w'.now == w.now + dt && PlanShape(w.plans[k])
    requires w.now < Deadline(w.plans[k], w.runs[k]) == Deadline(w.plans[k], w'.runs[k])
    ensures TicksLeft(w', dt) < TicksLeft(w, dt)
  {
    TicksToWatched(w, dt, k);
    TicksToWatched(w', dt, k);
    LeftFalls(Deadline(w.plans[k], w.runs[k]), w.now, dt);
  }

  lemma TicksToWatched(w: World, dt: real, k: nat)
    requires Coherent(w) && dt > 0.0 && w.active != {} && k == Watched(w.active)
    ensures k < |w.plans| == |w.runs| && PlanShape(w.plans[k])
    ensures TicksLeft(w, dt) == Left(Deadline(w.plans[k], w.runs[k]), w.now, dt)
  {
    assert GoodModel(w, k);
  }

  lemma SteadyTotals(w: World, net: Network, n: nat, dt: real, k: nat)
    requires Coherent(w) && WorldShape(w) && Answers(net) && dt > 0.0 && k < |w.plans|
    requires Matched(w.plans, w.runs) && Matched(w.plans, Step(w, net, n, dt).runs)
    requires Sum(Work, w.plans, Step(w, net, n, dt).runs) == Sum(Work, w.plans, w.runs)
    ensures !CallNeeded(w)
    ensures var pl, s, s' := w.plans[k], w.runs[k], Step(w, net, n, dt).runs[k];
            |s.inst| == |s'.inst| == pl.numInputs &&
                Total(pl, Work, s', pl.numInputs) == Total(pl, Work, s, pl.numInputs)
  {
    StepLowers(w, net, n, dt, Work);
  }

  lemma LeftFalls(deadline: real, now: real, dt: real)
    requires dt > 0.0 && now < deadline
    ensures Left(deadline, now + dt, dt) < Left(deadline, now, dt)
  {
    FewerTicksLeft(deadline, now, dt);
  }

  lemma WatchedStalls(w: World, net: Network, n: nat, dt: real, k: nat)
    requires Coherent(w) && WorldShape(w) && Answers(net) && dt > 0.0 && k in w.active && !CallNeeded(w)
    requires Coherent(Step(w, net, n, dt)) && k in Step(w, net, n, dt).active
    requires var pl, s, s' := w.plans[k], w.runs[k], Step(w, net, n, dt).runs[k];
             |s.inst| == |s'.inst| == pl.numInputs &&
                 Total(pl, Work, s', pl.numInputs) == Total(pl, Work, s, pl.numInputs)
    ensures w.now < Deadline(w.plans[k], w.runs[k])
    ensures Deadline(w.plans[k], Step(w, net, n, dt).runs[k]) == Deadline(w.plans[k], w.runs[k])
  {
    assert GoodModel(w, k) && GoodModel(Step(w, net, n, dt), k);
    StalledBeforeDeadline(w.plans[k], w.runs[k], w.now, Tuned(net, n, k));
  }

  ghost function Remaining(w: World): nat
    requires Coherent(w)
  {
    CoherentMatched(w);
    Sum(Work, w.plans, w.runs)
  }

  /** Each tick lowers the lexicographic measure (work, active models, ticks to the deadline). */
  lemma StepDescends(w: World, net: Network, n: nat, dt: real)
    requires Coherent(w) && WorldShape(w) && Answers(net) && dt > 0.0 && w.active != {}
    requires Coherent(Step(w, net, n, dt))
    ensures var w' := Step(w, net, n, dt);
            || Remaining(w') < Remaining(w)
            || (Remaining(w') == Remaining(w) && |w'.active| < |w.active|)
            || (Remaining(w') == Remaining(w) && |w'.active| == |w.active| && TicksLeft(w', dt) < TicksLeft(w, dt))
  {
    var w' := Step(w, net, n, dt);
    StepLowers(w, net, n, dt, Work);
    assert w'.active <= w.active;
    if w'.active != w.active { FewerActive(w'.active, w.active); }
    else if Remaining(w') == Remaining(w) { IdleTickApproaches(w, net, n, dt); }
  }

  /** What a tick achieves, whatever the network answers: time moves on, no model comes back, and a busy world gets
      nearer to its end. */
  ghost predicate Progresses(w: World, w': World, dt: real)
    requires Coherent(w) && Coherent(w') && dt > 0.0
  {
    && w'.plans == w.plans && w'.now == w.now + dt && w'.active <= w.active
    && (w.active == {} ==> Remaining(w') == Remaining(w))
    && (w.active != {} ==>
          || Remaining(w') < Remaining(w)
          || (Remaining(w') == Remaining(w) && |w'.active| < |w.active|)
          || (Remaining(w') == Remaining(w) && |w'.active| == |w.active| && TicksLeft(w', dt) < TicksLeft(w, dt)))
  }

  lemma StepProgresses(w: World, net: Network, n: nat, dt: real)
    requires Coherent(w) && WorldShape(w) && Answers(net) && dt > 0.0 && Coherent(Step(w, net, n, dt))
    ensures Progresses(w, Step(w, net, n, dt), dt)
  {
    if w.active != {} { StepDescends(w, net, n, dt); } else { IdleStepRests(w, net, n, dt); }
  }

  lemma EveryStepProgresses(w: World, net: Network, n: nat, dt: real)
    requires Coherent(w) && Answers(net) && dt > 0.0
    ensures WorldShape(w) && Coherent(Step(w, net, n, dt)) && Progresses(w, Step(w, net, n, dt), dt)
  {
    CoherentShape(w);
    StepKeeps(w, net, n, dt);
    StepProgresses(w, net, n, dt);
  }

  lemma IdleStepRests(w: World, net: Network, n: nat, dt: real)
    requires Coherent(w) && WorldShape(w) && Coherent(Step(w, net, n, dt)) && w.active == {}
    ensures Remaining(Step(w, net, n, dt)) == Remaining(w)
  {
    assert Step(w, net, n, dt).runs == w.runs;
  }

  /** Every set of injected models runs to completion: whatever positive latencies the network
      answers, after finitely many ticks every model has retired with every instance complete. */
  lemma {:induction false} AllModelsRetire(w: World, net: Network, dt: real, from: nat) returns (n: nat)
    requires Coherent(w) && Answers(net) && dt > 0.0
    ensures Ticks(w, net, dt, from, n).active == {}
    ensures forall k: nat | k < |w.plans| :: AllComplete(Ticks(w, net, dt, from, n).runs[k])
    decreases Remaining(w), |w.active|, TicksLeft(w, dt)
  {
    if w.active == {} {
      n := 0;
      forall k: nat | k < |w.plans| ensures AllComplete(w.runs[k]) { assert GoodModel(w, k); }
    } else {
      StepKeeps(w, net, from, dt);
      StepDescends(w, net, from, dt);
      n := AllModelsRetire(Step(w, net, from, dt), net, dt, from + 1);
      n := n + 1;
    }
  }

  lemma FewerActive(a: set<nat>, b: set<nat>)
    requires a <= b && a != b
    ensures |a| < |b|
  {
    var x :| x in b && x !in a;
    assert a <= b - {x};
    FewerOrEqual(a, b - {x});
  }

  lemma {:induction false} FewerOrEqual(a: set<nat>, b: set<nat>)
    requires a <= b
    ensures |a| <= |b|
  {
    if a != {} {
      var x :| x in a;
      FewerOrEqual(a - {x}, b - {x});
    }
  }
}
