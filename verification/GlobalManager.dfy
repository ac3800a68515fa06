/** The orchestrator and the main loop as objects, proved to take exactly the steps of Cosim
    (src/sim/communication_orchestrator.py, src/sim/global_manager.py). */
module GlobalManagers {
  import opened Phases
  import opened PhaseEngine
  import opened EngineInvariant
  import opened EngineTheorems
  import opened ModelTick
  import opened MappedModels
  import opened WeightSchedule
  import opened Cosim

  /** The communication phases among the active ones: these are sent to the network simulator. */
  function CommOnly(pl: Plan, active: seq<(nat, nat)>): seq<(nat, nat)> {
    if active == [] then []
    else
      var r := active[|active| - 1];
      CommOnly(pl, active[..|active| - 1]) + (if r.1 < |pl.phases| && !pl.phases[r.1].kind.Compute? then [r] else [])
  }

  lemma CommOnlyNext(pl: Plan, active: seq<(nat, nat)>, r: (nat, nat))
    ensures CommOnly(pl, active + [r]) ==
            CommOnly(pl, active) + (if r.1 < |pl.phases| && !pl.phases[r.1].kind.Compute? then [r] else [])
  {
    var now := active + [r];
    assert now[..|now| - 1] == active;
  }

  lemma RequestsNext(pl: Plan, s: Progress, t: real, m: nat)
    requires PlanShape(pl) && m < |s.inputStart|
    requires CommOnly(pl, ActiveList(pl, s, t, m)) == Requests(pl, s, t, m)
    ensures CommOnly(pl, ActiveList(pl, s, t, m + 1)) == Requests(pl, s, t, m + 1)
  {
    var (s', a) := ActivateInput(pl, Activate(pl, s, t, m), m, t);
    ActivateNext(pl, s, t, m, s', a);
    if a.Some? { CommOnlyNext(pl, ActiveList(pl, s, t, m), (m, a.value)); }
    else { assert ActiveList(pl, s, t, m + 1) == ActiveList(pl, s, t, m); }
  }

  lemma {:induction false} RequestsAreCommOnly(pl: Plan, s: Progress, t: real, n: nat)
    requires PlanShape(pl) && n <= |s.inputStart|
    ensures CommOnly(pl, ActiveList(pl, s, t, n)) == Requests(pl, s, t, n)
  {
    if n > 0 {
      var m: nat := n - 1;
      RequestsAreCommOnly(pl, s, t, m);
      RequestsNext(pl, s, t, m);
    }
  }

  ghost predicate Distinct(models: seq<MappedModel>) { forall i, j | 0 <= i < j < |models| :: models[i] != models[j] }

  function SetOf(ids: seq<nat>): set<nat> { set k | k in ids }

  ghost predicate Listed(count: nat, active: seq<nat>) {
    && (forall j | 0 <= j < |active| :: active[j] < count)
    && (forall i, j | 0 <= i < j < |active| :: active[i] != active[j])
  }

  /** The models hold these plans. */
  ghost predicate Planned(models: seq<MappedModel>, plans: seq<Plan>)
    reads models`phases, models`order, models`computeOf, models`actOf, models`weightOf, models`layerLatency
  {
    && |plans| == |models|
    && forall k {:trigger models[k].Blueprint()} | 0 <= k < |models| :: models[k].Blueprint() == plans[k]
  }

  /** The models have made this progress. */
  ghost predicate Progressed(models: seq<MappedModel>, runs: seq<Progress>)
    reads models`inst, models`inputStart, models`inputDone, models`loaded, models`done
  {
    |runs| == |models| && forall k {:trigger models[k].View()} | 0 <= k < |models| :: models[k].View() == runs[k]
  }

  /** The models hold these well-formed plans and have made this progress. */
  ghost predicate Mirrors(models: seq<MappedModel>, plans: seq<Plan>, runs: seq<Progress>)
    reads models`phases, models`order, models`computeOf, models`actOf, models`weightOf, models`layerLatency
    reads models`inst, models`inputStart, models`inputDone, models`loaded, models`done
  {
    Planned(models, plans) && Progressed(models, runs) && Fit(plans, runs)
  }

  // ----- what the passes over the active models compute, on values ---------------------------------------

  ghost predicate Sound(pl: Plan, s: Progress) { WellFormed(pl) && Shape(pl, s) }

  ghost predicate Fit(plans: seq<Plan>, runs: seq<Progress>) {
    |plans| == |runs| && forall k {:trigger Sound(plans[k], runs[k])} | 0 <= k < |plans| :: Sound(plans[k], runs[k])
  }

  /** cur agrees with `after` on the listed models and with `before` on the others. */
  ghost predicate Mixed(before: seq<Progress>, after: seq<Progress>, cur: seq<Progress>, done: seq<nat>) {
    && |cur| == |before| == |after|
    && forall k | 0 <= k < |cur| :: cur[k] == if k in done then after[k] else before[k]
  }

  lemma Untouched(before: seq<Progress>, after: seq<Progress>, cur: seq<Progress>, active: seq<nat>, j: nat)
    requires Listed(|before|, active) && j < |active| && Mixed(before, after, cur, active[..j])
    ensures cur[active[j]] == before[active[j]]
  {
  }

  lemma MixedStep(before: seq<Progress>, after: seq<Progress>, cur: seq<Progress>, active: seq<nat>, j: nat)
    requires Listed(|before|, active) && j < |active| && Mixed(before, after, cur, active[..j])
    ensures Mixed(before, after, cur[active[j] := after[active[j]]], active[..j + 1])
  {
    assert active[..j + 1] == active[..j] + [active[j]];
  }

  ghost function Activations(plans: seq<Plan>, runs: seq<Progress>, t: real): seq<Progress>
    requires Fit(plans, runs)
  {
    seq(|plans|, k requires 0 <= k < |plans| =>
      assert Sound(plans[k], runs[k]); Activate(plans[k], runs[k], t, plans[k].numInputs))
  }

  ghost function RequestsOf(plans: seq<Plan>, runs: seq<Progress>, k: nat, t: real): seq<(nat, nat)>
    requires Fit(plans, runs) && k < |plans|
  {
    assert Sound(plans[k], runs[k]); Requests(plans[k], runs[k], t, plans[k].numInputs)
  }

  ghost predicate WantsAt(plans: seq<Plan>, runs: seq<Progress>, k: nat, t: real)
    requires Fit(plans, runs)
  {
    k < |plans| && (assert Sound(plans[k], runs[k]); Wants(plans[k], runs[k], t))
  }

  ghost function Communications(plans: seq<Plan>, runs: seq<Progress>, t: real, call: bool, n: nat,
                                net: Network): seq<Progress>
    requires Fit(plans, runs)
  {
    seq(|plans|, k requires 0 <= k < |plans| =>
      assert Sound(plans[k], runs[k]); Communicate(plans[k], runs[k], t, call, Tuned(net, n, k)))
  }

  ghost predicate Requested(plans: seq<Plan>, runs: seq<Progress>, active: seq<nat>, reqs: seq<seq<(nat, nat)>>,
                            t: real)
    requires Fit(plans, runs) && Listed(|plans|, active)
  {
    |reqs| == |active| && forall j | 0 <= j < |active| :: reqs[j] == RequestsOf(plans, runs, active[j], t)
  }

  lemma RequestedNext(plans: seq<Plan>, runs: seq<Progress>, cur: seq<Progress>, active: seq<nat>, j: nat,
                      reqs: seq<seq<(nat, nat)>>, t: real)
    requires Fit(plans, runs) && Fit(plans, cur) && Listed(|plans|, active) && j < |active|
    requires cur[active[j]] == runs[active[j]] && Requested(plans, runs, active[..j], reqs, t)
    ensures Requested(plans, runs, active[..j + 1], reqs + [RequestsOf(plans, cur, active[j], t)], t)
  {
  }

  ghost predicate SomeLacks(runs: seq<Progress>, active: seq<nat>, reqs: seq<seq<(nat, nat)>>)
    requires Listed(|runs|, active) && |reqs| == |active|
  {
    exists j, r | 0 <= j < |active| && r in reqs[j] :: Lacks(runs[active[j]], r)
  }

  ghost predicate SomeWants(plans: seq<Plan>, runs: seq<Progress>, active: seq<nat>, t: real)
    requires Fit(plans, runs)
  {
    exists k | k in active :: WantsAt(plans, runs, k, t)
  }

  lemma Uncalled(plans: seq<Plan>, runs: seq<Progress>, t: real, n: nat, net: Network)
    requires Fit(plans, runs)
    ensures Communications(plans, runs, t, false, n, net) == Activations(plans, runs, t)
  {
  }

  lemma Pushed(plans: seq<Plan>, runs: seq<Progress>, collected: seq<Progress>, active: seq<nat>,
               reqs: seq<seq<(nat, nat)>>,
               j: nat, t: real, n: nat, net: Network)
    requires Fit(plans, runs) && Listed(|plans|, active) && Requested(plans, runs, active, reqs, t) && j < |active|
    requires Mixed(runs, Activations(plans, runs, t), collected, active)
    ensures Update(plans[active[j]], collected[active[j]], reqs[j], Tuned(net, n, active[j]), t, |reqs[j]|)
            == Communications(plans, runs, t, true, n, net)[active[j]]
  {
    assert active[j] in active;
  }

  lemma NeededIsWanted(plans: seq<Plan>, runs: seq<Progress>, collected: seq<Progress>, active: seq<nat>,
                       reqs: seq<seq<(nat, nat)>>, t: real)
    requires Fit(plans, runs) && Listed(|plans|, active) && Requested(plans, runs, active, reqs, t)
    requires Mixed(runs, Activations(plans, runs, t), collected, active)
    ensures SomeLacks(collected, active, reqs) <==> SomeWants(plans, runs, active, t)
  {
    if j, r :| 0 <= j < |active| && r in reqs[j] && Lacks(collected[active[j]], r) {
      assert active[j] in active && WantsAt(plans, runs, active[j], t);
    }
    if k :| k in active && WantsAt(plans, runs, k, t) {
      var j :| 0 <= j < |active| && active[j] == k;
      var r :| r in RequestsOf(plans, runs, k, t) && Lacks(collected[k], r);
      assert r in reqs[j];
    }
  }

  class CommunicationOrchestrator {
    var calls: nat

    constructor ()
      ensures calls == 0
    {
      calls := 0;
    }

    /** Activates one model and returns its requests. */
    method CollectOne(model: MappedModel, t: real, ghost models: seq<MappedModel>, ghost k: nat, ghost plans: seq<Plan>,
                      ghost runs: seq<Progress>)
      returns (reqs: seq<(nat, nat)>, ghost runs': seq<Progress>)
      requires Distinct(models) && k < |models| && model == models[k] && Mirrors(models, plans, runs)
      modifies model`inst, model`loaded
      ensures Mirrors(models, plans, runs')
      ensures runs' == runs[k := Activations(plans, runs, t)[k]]
      ensures reqs == RequestsOf(plans, runs, k, t)
    {
      assert Sound(plans[k], runs[k]);
      var phases := model.GetActivePhases(t);
      reqs := FilterComm(model, phases);
      RequestsAreCommOnly(plans[k], runs[k], t, plans[k].numInputs);
      runs' := runs[k := model.View()];
    }

    /** Activates every active model; the requests of active[j] are reqs[j]. */
    method Collect(models: seq<MappedModel>, active: seq<nat>, t: real, ghost plans: seq<Plan>,
                   ghost runs: seq<Progress>)
      returns (reqs: seq<seq<(nat, nat)>>, ghost runs': seq<Progress>)
      requires Distinct(models) && Listed(|models|, active) && Mirrors(models, plans, runs)
      modifies models`inst, models`loaded
      ensures Mirrors(models, plans, runs')
      ensures Mixed(runs, Activations(plans, runs, t), runs', active)
      ensures Requested(plans, runs, active, reqs, t)
    {
      ghost var target := Activations(plans, runs, t);
      reqs, runs' := [], runs;
      for j := 0 to |active|
        invariant Mirrors(models, plans, runs')
        invariant Mixed(runs, target, runs', active[..j])
        invariant Requested(plans, runs, active[..j], reqs, t)
      {
        Untouched(runs, target, runs', active, j);
        MixedStep(runs, target, runs', active, j);
        var comms;
        ghost var cur := runs';
        comms, runs' := CollectOne(models[active[j]], t, models, active[j], plans, runs');
        RequestedNext(plans, runs, cur, active, j, reqs, t);
        reqs := reqs + [comms];
      }
      assert active[..|active|] == active;
    }

    method FilterComm(model: MappedModel, phases: seq<(nat, nat)>) returns (comms: seq<(nat, nat)>)
      ensures comms == CommOnly(model.Blueprint(), phases)
    {
      comms := [];
      for k := 0 to |phases|
        invariant comms == CommOnly(model.Blueprint(), phases[..k])
      {
        assert phases[..k + 1][..k] == phases[..k] && phases[..k + 1][k] == phases[k];
        var p := phases[k].1;
        if p < |model.phases| && !model.phases[p].kind.Compute? { comms := comms + [phases[k]]; }
      }
      assert phases[..|phases|] == phases;
    }

    /** Does some request still lack its first latency? */
    method NeedsInitialSimulation(models: seq<MappedModel>, active: seq<nat>, reqs: seq<seq<(nat, nat)>>,
                                  ghost runs: seq<Progress>)
      returns (b: bool)
      requires Listed(|models|, active) && |reqs| == |active| && Progressed(models, runs)
      ensures b <==> SomeLacks(runs, active, reqs)
    {
      for j := 0 to |active|
        invariant forall m, r | 0 <= m < j && r in reqs[m] :: !Lacks(runs[active[m]], r)
      {
        var model := models[active[j]];
        assert model.View() == runs[active[j]];
        for q := 0 to |reqs[j]|
          invariant forall m | 0 <= m < q :: !Lacks(runs[active[j]], reqs[j][m])
        {
          var (i, p) := reqs[j][q];
          if i < |model.inst| && p in model.inst[i] && model.inst[i][p].latency == 0.0 {
            assert reqs[j][q] in reqs[j] && Lacks(runs[active[j]], reqs[j][q]);
            return true;
          }
        }
      }
      b := false;
    }

    /** Pushes the simulator's answers into one model. */
    method PushLatencies(model: MappedModel, reqs: seq<(nat, nat)>, sim: (nat, nat) -> real, t: real)
      requires model.Valid()
      modifies model`inst
      ensures model.View() == Update(old(model.Blueprint()), old(model.View()), reqs, sim, t, |reqs|)
      ensures model.Valid()
    {
      ghost var pl, s := model.Blueprint(), model.View();
      for k := 0 to |reqs|
        invariant model.Valid() && model.View() == Update(pl, s, reqs, sim, t, k)
      {
        var (i, p) := reqs[k];
        if i < |model.inst| {
          ghost var before := model.View();
          if Has(before, i, p) { StoreKeepsShape(pl, before, i, p, Relatency(before.inst[i][p], sim(i, p), t)); }
          model.UpdatePhaseLatency(i, p, sim(i, p), t);
        }
      }
    }

    method PushOne(model: MappedModel, reqs: seq<(nat, nat)>, sim: (nat, nat) -> real, t: real,
                   ghost models: seq<MappedModel>, ghost k: nat, ghost plans: seq<Plan>, ghost runs: seq<Progress>)
      returns (ghost runs': seq<Progress>)
      requires Distinct(models) && k < |models| && model == models[k] && Mirrors(models, plans, runs)
      modifies model`inst
      ensures Mirrors(models, plans, runs')
      ensures runs' == runs[k := Update(plans[k], runs[k], reqs, sim, t, |reqs|)]
    {
      assert Sound(plans[k], runs[k]);
      PushLatencies(model, reqs, sim, t);
      runs' := runs[k := model.View()];
    }

    /** Pushes the simulator's answers into every active model; runs are the models before activation. */
    method PushAll(models: seq<MappedModel>, active: seq<nat>, reqs: seq<seq<(nat, nat)>>, t: real, n: nat,
                   net: Network,
                   ghost plans: seq<Plan>, ghost runs: seq<Progress>, ghost collected: seq<Progress>)
      returns (ghost runs': seq<Progress>)
      requires Distinct(models) && Listed(|models|, active) && Planned(models, plans) && Progressed(models, collected)
      requires Fit(plans, runs) && Fit(plans, collected) && Requested(plans, runs, active, reqs, t)
      requires Mixed(runs, Activations(plans, runs, t), collected, active)
      modifies models`inst
      ensures Mirrors(models, plans, runs')
      ensures Mixed(runs, Communications(plans, runs, t, true, n, net), runs', active)
    {
      ghost var target := Communications(plans, runs, t, true, n, net);
      runs' := collected;
      for j := 0 to |active|
        invariant Mirrors(models, plans, runs')
        invariant Mixed(collected, target, runs', active[..j])
      {
        Untouched(collected, target, runs', active, j);
        Pushed(plans, runs, collected, active, reqs, j, t, n, net);
        MixedStep(collected, target, runs', active, j);
        runs' := PushOne(models[active[j]], reqs[j], Tuned(net, n, active[j]), t, models, active[j], plans, runs');
      }
      assert active[..|active|] == active;
    }

    /** Collect, decide whether a simulator call is needed, and push its answers. */
    method Exchange(models: seq<MappedModel>, active: seq<nat>, t: real, n: nat, net: Network, ghost plans: seq<Plan>,
                    ghost runs: seq<Progress>)
      returns (called: bool, ghost runs': seq<Progress>)
      requires Distinct(models) && Listed(|models|, active) && Mirrors(models, plans, runs)
      modifies models`inst, models`loaded
      ensures called <==> SomeWants(plans, runs, active, t)
      ensures Mirrors(models, plans, runs')
      ensures Mixed(runs, Communications(plans, runs, t, called, n, net), runs', active)
    {
      ghost var collected;
      var reqs;
      reqs, collected := Collect(models, active, t, plans, runs);
      called := NeedsInitialSimulation(models, active, reqs, collected);
      NeededIsWanted(plans, runs, collected, active, reqs, t);
      if called {
        runs' := PushAll(models, active, reqs, t, n, net, plans, runs, collected);
      } else {
        runs' := collected;
        Uncalled(plans, runs, t, n, net);
      }
    }

    method SimulateCommunication(models: seq<MappedModel>, active: seq<nat>, t: real, n: nat, net: Network,
                                 ghost plans: seq<Plan>, ghost runs: seq<Progress>)
      returns (called: bool, ghost runs': seq<Progress>)
      requires Distinct(models) && Listed(|models|, active) && Mirrors(models, plans, runs)
      modifies this, models`inst, models`loaded
      ensures called <==> SomeWants(plans, runs, active, t)
      ensures calls == old(calls) + if called then 1 else 0
      ensures Mirrors(models, plans, runs')
      ensures Mixed(runs, Communications(plans, runs, t, called, n, net), runs', active)
    {
      called, runs' := Exchange(models, active, t, n, net, plans, runs);
      if called { calls := calls + 1; }
    }
  }

  // ----- timing and retirement on values ---------------------------------------------------------------

  ghost function Timings(plans: seq<Plan>, runs: seq<Progress>): seq<Progress>
    requires Fit(plans, runs)
  {
    seq(|plans|, k requires 0 <= k < |plans| => assert Sound(plans[k], runs[k]); Time(plans[k], runs[k]))
  }

  /** The active models that are not complete. */
  ghost predicate Survivors(active: seq<nat>, runs: seq<Progress>, now: real, remaining: seq<nat>) {
    && Listed(|runs|, remaining)
    && forall k: nat :: k in remaining <==> k in active && k < |runs| && !IsComplete(runs[k], now)
  }

  /** One pass after the other: communicate, time, time and retire. */
  ghost predicate Passed(plans: seq<Plan>, runs: seq<Progress>, active: seq<nat>, now: real, n: nat, net: Network,
                         r1: seq<Progress>, r2: seq<Progress>, r3: seq<Progress>, remaining: seq<nat>)
    requires Fit(plans, runs)
  {
    && Fit(plans, r1) && Fit(plans, r2)
    && Mixed(runs, Communications(plans, runs, now, SomeWants(plans, runs, active, now), n, net), r1, active)
    && Mixed(r1, Timings(plans, r1), r2, active) && Mixed(r2, Timings(plans, r2), r3, active)
    && Survivors(active, r3, now, remaining)
  }

  /** The passes make one step of the co-simulation, and keep what every step keeps. */
  lemma PassesMakeStep(w: World, active: seq<nat>, net: Network, n: nat, dt: real,
                       r1: seq<Progress>, r2: seq<Progress>, r3: seq<Progress>, remaining: seq<nat>, w': World)
    requires Coherent(w) && Fit(w.plans, w.runs) && Listed(|w.plans|, active) && w.active == SetOf(active)
    requires Passed(w.plans, w.runs, active, w.now, n, net, r1, r2, r3, remaining) && Answers(net) && dt > 0.0
    requires w'.calls == w.calls + if SomeWants(w.plans, w.runs, active, w.now) then 1 else 0
    requires w'.plans == w.plans && w'.runs == r3 && w'.active == SetOf(remaining) && w'.now == w.now + dt
    ensures WorldShape(w) && w' == Step(w, net, n, dt) && Coherent(w')
  {
    CoherentShape(w);
    CallIsSomeWants(w, active);
    StepKeeps(w, net, n, dt);
    forall k: nat | k < |w.plans| ensures Step(w, net, n, dt).runs[k] == r3[k] {
      PassesMakeRun(w, active, net, n, r1, r2, r3, remaining, k);
    }
    assert Step(w, net, n, dt).runs == r3;
  }

  /** Model by model, they are one tick. */
  lemma PassesMakeRun(w: World, active: seq<nat>, net: Network, n: nat,
                      r1: seq<Progress>, r2: seq<Progress>, r3: seq<Progress>, remaining: seq<nat>, k: nat)
    requires WorldShape(w) && Fit(w.plans, w.runs) && Listed(|w.plans|, active) && w.active == SetOf(active)
    requires Passed(w.plans, w.runs, active, w.now, n, net, r1, r2, r3, remaining) && k < |w.plans|
    requires CallNeeded(w) <==> SomeWants(w.plans, w.runs, active, w.now)
    ensures k < |r3| && NextRun(w, net, n, k) == r3[k]
  {
    assert k in w.active <==> k in active;
  }

  lemma CallIsSomeWants(w: World, active: seq<nat>)
    requires WorldShape(w) && Fit(w.plans, w.runs) && Listed(|w.plans|, active) && w.active == SetOf(active)
    ensures CallNeeded(w) <==> SomeWants(w.plans, w.runs, active, w.now)
  {
    if k :| k in w.active && Wants(w.plans[k], w.runs[k], w.now) {
      assert k in active && WantsAt(w.plans, w.runs, k, w.now);
    }
    if k :| k in active && WantsAt(w.plans, w.runs, k, w.now) { assert k in w.active; }
  }

  lemma SurvivorsStep(active: seq<nat>, j: nat, before: seq<Progress>, runs: seq<Progress>, now: real,
                      remaining: seq<nat>)
    requires Listed(|runs|, active) && j < |active| && |before| == |runs|
    requires runs == before[active[j] := runs[active[j]]]
    requires Survivors(active[..j], before, now, remaining)
    ensures Survivors(active[..j + 1], runs, now,
                      if IsComplete(runs[active[j]], now) then remaining else remaining + [active[j]])
  {
    assert active[..j + 1] == active[..j] + [active[j]];
    assert active[j] !in active[..j];
  }

  lemma ListNext(n: nat, active: seq<nat>)
    requires Listed(n, active)
    ensures Listed(n + 1, active + [n]) && SetOf(active + [n]) == SetOf(active) + {n}
  {
  }

  lemma MirrorsNext(models: seq<MappedModel>, plans: seq<Plan>, runs: seq<Progress>, model: MappedModel, s: Progress)
    requires Distinct(models) && Mirrors(models, plans, runs) && model !in models
    requires Sound(model.Blueprint(), s) && model.View() == s
    ensures Distinct(models + [model]) && Mirrors(models + [model], plans + [model.Blueprint()], runs + [s])
  {
  }

  lemma CoherentFits(w: World)
    requires Coherent(w)
    ensures Fit(w.plans, w.runs)
  {
    forall k | 0 <= k < |w.plans| ensures Sound(w.plans[k], w.runs[k]) { assert GoodModel(w, k); }
  }

  class GlobalManager {
    const dt: real
    const orchestrator: CommunicationOrchestrator
    var models: seq<MappedModel>
    var active: seq<nat>
    var now: real
    var ticks: nat
    ghost var plans: seq<Plan>
    ghost var runs: seq<Progress>

    ghost function Snapshot(): World
      reads this, orchestrator
    {
      World.World(plans, runs, SetOf(active), now, orchestrator.calls)
    }

    ghost predicate Valid()
      reads this, models, orchestrator
    {
      && dt > 0.0
      && Distinct(models) && Listed(|models|, active)
      && Mirrors(models, plans, runs)
      && Coherent(Snapshot())
    }

    constructor (dt: real)
      requires dt > 0.0
      ensures Valid() && Snapshot() == EMPTY && fresh(orchestrator)
    {
      this.dt := dt;
      orchestrator := new CommunicationOrchestrator();
      models, active, now, ticks := [], [], 0.0, 0;
      plans, runs := [], [];
    }

    /** A mapped model joins the run: built, scheduled, measured and started at the current time. */
    method InjectModel(numLayers: nat, numInputs: nat, pipelined: bool, stationary: bool, st: Strategy,
                       latency: seq<real>, traffic: seq<Traffic>)
      requires Valid() && numLayers >= 1 && numInputs >= 1
      requires |latency| == numLayers && (forall l | 0 <= l < numLayers :: latency[l] >= 0.0)
      requires |traffic| == BaseCount(numLayers) + LoadCount(st, numLayers)
      modifies this`models, this`active, this`plans, this`runs
      ensures Valid() && |plans| == |old(plans)| + 1
      ensures forall m | m in models :: m in old(models) || fresh(m)
      ensures var pl := plans[|plans| - 1];
              && Assembled(st, pl) && pl.numLayers == numLayers && pl.numInputs == numInputs
              && Snapshot() == Inject(old(Snapshot()), pl)
              && pl.pipelined == pipelined && pl.stationary == stationary
    {
      var model := Prepared(numLayers, numInputs, pipelined, stationary, st, latency, traffic);
      Join(model);
    }

    method Join(model: MappedModel)
      requires Valid() && model !in models && WellFormed(model.Blueprint())
      requires model.View() == Fresh(model.Blueprint(), now)
      modifies this`models, this`active, this`plans, this`runs
      ensures Valid() && plans == old(plans) + [model.Blueprint()] && models == old(models) + [model]
      ensures Snapshot() == Inject(old(Snapshot()), model.Blueprint())
    {
      ghost var pl := model.Blueprint();
      ghost var w' := (InjectKeeps(Snapshot(), pl); Inject(Snapshot(), pl));
      CoherentFits(w');
      ListNext(|models|, active);
      MirrorsNext(models, plans, runs, model, Fresh(pl, now));
      models, active := models + [model], active + [|models|];
      plans, runs := plans + [pl], runs + [Fresh(pl, now)];
      assert Snapshot() == w';
    }

    method Prepared(numLayers: nat, numInputs: nat, pipelined: bool, stationary: bool, st: Strategy, latency: seq<real>,
                    traffic: seq<Traffic>)
      returns (model: MappedModel)
      requires numLayers >= 1 && numInputs >= 1
      requires |latency| == numLayers && (forall l | 0 <= l < numLayers :: latency[l] >= 0.0)
      requires |traffic| == BaseCount(numLayers) + LoadCount(st, numLayers)
      ensures fresh(model) && Assembled(st, model.Blueprint()) && WellFormed(model.Blueprint())
      ensures model.View() == Fresh(model.Blueprint(), now)
      ensures model.numLayers == numLayers && model.numInputs == numInputs
      ensures model.pipelined == pipelined && model.stationary == stationary
    {
      model := new MappedModel(numLayers, numInputs, now, pipelined, stationary);
      model.Prepare(st, latency, traffic, now);
    }

    method TimeOne(model: MappedModel, ghost k: nat, ghost plans: seq<Plan>, ghost runs: seq<Progress>)
      returns (ghost runs': seq<Progress>)
      requires Distinct(models) && k < |models| && model == models[k] && Mirrors(models, plans, runs)
      modifies model`inst, model`inputStart, model`inputDone, model`done
      ensures Mirrors(models, plans, runs')
      ensures runs' == runs[k := Timings(plans, runs)[k]]
    {
      assert Sound(plans[k], runs[k]);
      model.CalculatePhaseTiming();
      runs' := runs[k := model.View()];
    }

    method TimeAll(ghost plans: seq<Plan>, ghost runs: seq<Progress>) returns (ghost runs': seq<Progress>)
      requires Distinct(models) && Listed(|models|, active) && Mirrors(models, plans, runs)
      modifies models`inst, models`inputStart, models`inputDone, models`done
      ensures Mirrors(models, plans, runs')
      ensures Mixed(runs, Timings(plans, runs), runs', active)
    {
      ghost var target := Timings(plans, runs);
      runs' := runs;
      for j := 0 to |active|
        invariant Mirrors(models, plans, runs')
        invariant Mixed(runs, target, runs', active[..j])
      {
        Untouched(runs, target, runs', active, j);
        MixedStep(runs, target, runs', active, j);
        runs' := TimeOne(models[active[j]], active[j], plans, runs');
      }
      assert active[..|active|] == active;
    }

    /** Times every active model again and keeps those that are not complete. */
    method Retire(ghost plans: seq<Plan>, ghost runs: seq<Progress>)
      returns (remaining: seq<nat>, ghost runs': seq<Progress>)
      requires Distinct(models) && Listed(|models|, active) && Mirrors(models, plans, runs)
      modifies models`inst, models`inputStart, models`inputDone, models`done
      ensures Mirrors(models, plans, runs')
      ensures Mixed(runs, Timings(plans, runs), runs', active) && Survivors(active, runs', now, remaining)
    {
      ghost var target := Timings(plans, runs);
      remaining, runs' := [], runs;
      for j := 0 to |active|
        invariant Mirrors(models, plans, runs')
        invariant Mixed(runs, target, runs', active[..j]) && Survivors(active[..j], runs', now, remaining)
      {
        Untouched(runs, target, runs', active, j);
        MixedStep(runs, target, runs', active, j);
        ghost var before := runs';
        runs' := TimeOne(models[active[j]], active[j], plans, runs');
        SurvivorsStep(active, j, before, runs', now, remaining);
        var finished := models[active[j]].Finished(now);
        if !finished { remaining := remaining + [active[j]]; }
      }
      assert active[..|active|] == active;
    }

    /** The passes of one iteration over the active models: communicate, time, time and retire. */
    method Passes(net: Network)
      returns (remaining: seq<nat>, ghost r1: seq<Progress>, ghost r2: seq<Progress>, ghost r3: seq<Progress>)
      requires Distinct(models) && Listed(|models|, active) && Mirrors(models, plans, runs)
      modifies orchestrator, models`inst, models`loaded, models`inputStart, models`inputDone, models`done
      ensures Mirrors(models, plans, r3) && Passed(plans, runs, active, now, ticks, net, r1, r2, r3, remaining)
      ensures orchestrator.calls == old(orchestrator.calls) + if SomeWants(plans, runs, active, now) then 1 else 0
    {
      var called;
      called, r1 := orchestrator.SimulateCommunication(models, active, now, ticks, net, plans, runs);
      r2 := TimeAll(plans, r1);
      remaining, r3 := Retire(plans, r2);
    }

    /** What the passes leave behind is the next world. */
    method Advance(net: Network) returns (remaining: seq<nat>, ghost runs': seq<Progress>, ghost w': World)
      requires Valid() && Answers(net)
      modifies orchestrator, models`inst, models`loaded, models`inputStart, models`inputDone, models`done
      ensures Mirrors(models, plans, runs') && Listed(|models|, remaining)
      ensures w' == World.World(plans, runs', SetOf(remaining), now + dt, orchestrator.calls) && Coherent(w')
      ensures WorldShape(old(Snapshot())) && w' == Step(old(Snapshot()), net, ticks, dt)
    {
      ghost var w := Snapshot();
      ghost var r1, r2;
      remaining, r1, r2, runs' := Passes(net);
      w' := World.World(plans, runs', SetOf(remaining), now + dt, orchestrator.calls);
      PassesMakeStep(w, active, net, ticks, dt, r1, r2, runs', remaining, w');
    }

    /** Moves on to the next world. */
    method Commit(remaining: seq<nat>, ghost runs': seq<Progress>, ghost w': World)
      requires dt > 0.0 && Distinct(models) && Listed(|models|, remaining) && Mirrors(models, plans, runs')
      requires Coherent(w')
      requires w' == World.World(plans, runs', SetOf(remaining), now + dt, orchestrator.calls)
      modifies this`active, this`now, this`ticks, this`runs
      ensures Valid() && Snapshot() == w' && ticks == old(ticks) + 1
    {
      runs, active, now, ticks := runs', remaining, now + dt, ticks + 1;
      assert Snapshot() == w';
    }

    /** One iteration of the main loop after injection is exactly one step of the co-simulation. */
    method Tick(net: Network)
      requires Valid() && Answers(net)
      modifies this`active, this`now, this`ticks, this`runs, orchestrator
      modifies models`inst, models`loaded, models`inputStart, models`inputDone, models`done
      ensures Valid() && models == old(models) && ticks == old(ticks) + 1
      ensures WorldShape(old(Snapshot())) && Snapshot() == Step(old(Snapshot()), net, old(ticks), dt)
    {
      ghost var runs', w';
      var remaining;
      remaining, runs', w' := Advance(net);
      Commit(remaining, runs', w');
    }

    /** The main loop once the workload is injected: it terminates, with every model retired. */
    method Drain(net: Network)
      requires Valid() && Answers(net)
      modifies this`active, this`now, this`ticks, this`runs, orchestrator
      modifies models`inst, models`loaded, models`inputStart, models`inputDone, models`done
      ensures Valid() && models == old(models) && active == []
      ensures forall k | 0 <= k < |models| :: AllComplete(models[k].View())
    {
      while active != []
        invariant Valid() && models == old(models)
        decreases Remaining(Snapshot()), |Snapshot().active|, TicksLeft(Snapshot(), dt)
      {
        assert active[0] in Snapshot().active;
        StepKeeps(Snapshot(), net, ticks, dt);
        StepDescends(Snapshot(), net, ticks, dt);
        Tick(net);
      }
      RetiredAreComplete();
    }

    lemma RetiredAreComplete()
      requires Valid() && active == []
      ensures forall k | 0 <= k < |models| :: AllComplete(models[k].View())
    {
      forall k | 0 <= k < |models| ensures AllComplete(models[k].View()) {
        assert GoodModel(Snapshot(), k);
      }
    }
  }
}
