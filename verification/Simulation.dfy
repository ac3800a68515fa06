/** The whole main loop: models are injected while the engine ticks, and their units come back when they retire
    (run_simulation in src/sim/global_manager.py). The engine is the object of GlobalManagers, which takes the
    steps of Cosim. */
module Simulation {
  import opened Phases
  import opened EngineTheorems
  import opened Cosim
  import opened Workloads
  import opened Injection
  import opened WeightSchedule
  import opened GlobalManagers
  import Capacity

  // ----- names of the running models -----------------------------------------------------------------------

  /** Model m of the workload is one of the active models of the engine. */
  ghost predicate Named(names: seq<nat>, active: set<nat>, m: nat) {
    exists k :: k in active && k < |names| && names[k] == m
  }

  ghost predicate Unique(names: seq<nat>) { forall i, j | 0 <= i < j < |names| :: names[i] != names[j] }

  /** The engine and the fleet run the same models. */
  ghost predicate Tied(names: seq<nat>, active: set<nat>, fleet: seq<Active>) {
    forall m: nat :: Runs(fleet, m) <==> Named(names, active, m)
  }

  lemma IdleTogether(names: seq<nat>, active: set<nat>, fleet: seq<Active>)
    requires Tied(names, active, fleet) && active == {}
    ensures fleet == []
  {
    if fleet != [] { assert Runs(fleet, fleet[0].model); }
  }

  lemma NamedNext(names: seq<nat>, active: set<nat>, x: nat, m: nat)
    requires forall k | k in active :: k < |names|
    ensures Named(names + [x], active + {|names|}, m) <==> Named(names, active, m) || m == x
  {
    var more := names + [x];
    if k :| k in active && k < |names| && names[k] == m { assert more[k] == m; }
    if m == x { assert more[|names|] == m; }
  }

  // ----- retiring together ---------------------------------------------------------------------------------

  lemma {:induction false} UnfinishedRuns(active: seq<Active>, done: set<nat>, m: nat)
    ensures Runs(Unfinished(active, done), m) <==> Runs(active, m) && m !in done
  {
    if active != [] {
      UnfinishedRuns(active[1..], done, m);
      RunsFirst(active, m);
      if active[0].model !in done {
        RunsFirst(Unfinished(active, done), m);
        assert Unfinished(active, done)[1..] == Unfinished(active[1..], done);
      }
    }
  }

  lemma RunsFirst(active: seq<Active>, m: nat)
    requires active != []
    ensures Runs(active, m) <==> active[0].model == m || Runs(active[1..], m)
  {
    if active[0].model == m { assert Runs(active, m); }
    if k :| 0 <= k < |active[1..]| && active[1..][k].model == m { assert active[k + 1].model == m; }
    if k :| 0 <= k < |active| && active[k].model == m { if k > 0 { assert active[1..][k - 1].model == m; } }
  }

  /** The names of the models that have left the engine. */
  function Departed(names: seq<nat>, before: set<nat>, after: set<nat>): set<nat> {
    set k | k in before && k !in after && k < |names| :: names[k]
  }

  lemma TiedAfterRetire(names: seq<nat>, before: set<nat>, after: set<nat>, fleet: seq<Active>)
    requires Unique(names) && Tied(names, before, fleet) && after <= before
    ensures Tied(names, after, Unfinished(fleet, Departed(names, before, after)))
  {
    forall m: nat ensures Runs(Unfinished(fleet, Departed(names, before, after)), m) <==> Named(names, after, m) {
      UnfinishedRuns(fleet, Departed(names, before, after), m);
      if Named(names, after, m) {
        var k :| k in after && k < |names| && names[k] == m;
        assert Named(names, before, m);
      }
    }
  }

  // ----- the injected models join the engine ---------------------------------------------------------------

  /** The first n models tried have joined: names stay unique, and the active names are the old ones and those
      injected. */
  ghost predicate Joining(names0: seq<nat>, active0: set<nat>, names: seq<nat>, active: set<nat>, list: seq<Entry>,
                          log: seq<bool>, n: nat, injected: set<nat>)
    requires n <= |log| <= |list|
  {
    && Unique(names) && (forall k | k in active :: k < |names|)
    && (forall i | 0 <= i < |names| :: names[i] in injected || LoggedIn(list, log[..n], names[i]))
    && (forall m: nat :: Named(names, active, m) <==> Named(names0, active0, m) || LoggedIn(list, log[..n], m))
  }

  lemma LoggedPrefix(list: seq<Entry>, log: seq<bool>, n: nat, m: nat)
    requires n < |log| <= |list|
    ensures LoggedIn(list, log[..n + 1], m) <==> LoggedIn(list, log[..n], m) || (log[n] && list[n].model == m)
  {
    assert log[..n + 1] == log[..n] + [log[n]];
    LoggedNext(list, log[..n], log[n], m);
  }

  lemma JoiningSkips(names0: seq<nat>, active0: set<nat>, names: seq<nat>, active: set<nat>, list: seq<Entry>,
                     log: seq<bool>, n: nat, injected: set<nat>)
    requires n < |log| <= |list| && !log[n] && Joining(names0, active0, names, active, list, log, n, injected)
    ensures Joining(names0, active0, names, active, list, log, n + 1, injected)
  {
    forall m: nat ensures LoggedIn(list, log[..n + 1], m) <==> LoggedIn(list, log[..n], m) {
      LoggedPrefix(list, log, n, m);
    }
  }

  lemma JoiningAdds(names0: seq<nat>, active0: set<nat>, names: seq<nat>, active: set<nat>, list: seq<Entry>,
                    log: seq<bool>, n: nat, injected: set<nat>)
    requires n < |log| <= |list| && log[n] && Joining(names0, active0, names, active, list, log, n, injected)
    requires Workloads.Distinct(list) && list[n].model !in injected
    ensures Joining(names0, active0, names + [list[n].model], active + {|names|}, list, log, n + 1, injected)
  {
    var x := list[n].model;
    forall m: nat ensures LoggedIn(list, log[..n + 1], m) <==> LoggedIn(list, log[..n], m) || m == x {
      LoggedPrefix(list, log, n, m);
    }
    forall i | 0 <= i < |names| ensures names[i] != x {
      if LoggedIn(list, log[..n], names[i]) {
        var j :| 0 <= j < n && log[..n][j] && list[j].model == names[i];
      }
    }
    forall m: nat ensures Named(names + [x], active + {|names|}, m) <==> Named(names, active, m) || m == x {
      NamedNext(names, active, x, m);
    }
  }

  lemma JoiningEnds(names0: seq<nat>, active0: set<nat>, names: seq<nat>, active: set<nat>, list: seq<Entry>,
                    log: seq<bool>, injected: set<nat>, injected': set<nat>, fleet0: seq<Active>, fleet: seq<Active>)
    requires |log| <= |list| && Joining(names0, active0, names, active, list, log, |log|, injected)
    requires Tied(names0, active0, fleet0) && Logged(list, log, injected, injected', fleet0, fleet)
    ensures Tied(names, active, fleet) && forall i | 0 <= i < |names| :: names[i] in injected'
  {
    assert log[..|log|] == log;
  }

  // ----- progress of the main loop -------------------------------------------------------------------------

  /** Models of the workload that are still to be injected. */
  function Open(w: seq<Entry>, injected: set<nat>): set<nat> { Models(w) - injected }

  lemma InjectionCloses(w: seq<Entry>, h: Horizon, injected: set<nat>, injected': set<nat>, j: nat)
    requires injected <= injected' && j < |Pending(w, h, injected)| && Pending(w, h, injected)[j].model in injected'
    ensures |Open(w, injected')| < |Open(w, injected)|
  {
    var e := Pending(w, h, injected)[j];
    PendingMembers(w, h, injected, e);
    ModelsMembers(w, e.model);
    var i :| 0 <= i < |w| && w[i] == e;
    assert e.model in Open(w, injected) && e.model !in Open(w, injected');
    FewerActive(Open(w, injected'), Open(w, injected));
  }

  lemma {:induction false} NoneUninjected(w: seq<Entry>, injected: set<nat>)
    ensures Uninjected(w, injected) == 0 <==> Open(w, injected) == {}
  {
    if w != [] {
      var rest, m := w[..|w| - 1], w[|w| - 1].model;
      NoneUninjected(rest, injected);
      if m !in injected { assert m in Open(w, injected); }
      else { assert Open(w, injected) == Open(rest, injected); }
    }
  }

  lemma AllInjected(w: seq<Entry>, injected: set<nat>)
    requires Open(w, injected) == {}
    ensures Models(w) <= injected
  {
    forall m | m in Models(w) ensures m in injected {
      assert m in injected || m in Open(w, injected);
    }
  }

  /** What a round brings: a model less to inject, or nothing changes and, if the system is idle, not everything is due
      yet. */
  ghost predicate Brings(w: seq<Entry>, injected: set<nat>, injected': set<nat>, log: seq<bool>, idle: bool,
                         now: real) {
    || |Open(w, injected')| < |Open(w, injected)|
    || (NoneLogged(log) && injected' == injected && (idle ==> now < LastTime(w)))
  }

  lemma RoundBrings(w: seq<Entry>, h: Horizon, now: real, injected: set<nat>, injected': set<nat>,
                    list: seq<Entry>, log: seq<bool>, active: seq<Active>, active': seq<Active>)
    requires list == Pending(w, h, injected) && Logged(list, log, injected, injected', active, active')
    requires active == [] && NoneLogged(log) ==> now < LastTime(w)
    ensures Brings(w, injected, injected', log, active == [], now)
  {
    if j :| 0 <= j < |log| && log[j] { InjectionCloses(w, h, injected, injected', j); }
  }

  /** The measure of the main loop: models to inject, work, active models, ticks to a deadline, ticks to the last
      injection time. */
  datatype Rank = Rank(open: nat, work: nat, active: nat, ticks: nat, early: nat)

  predicate Below(a: Rank, b: Rank) {
    || a.open < b.open
    || (a.open == b.open && a.work < b.work)
    || (a.open == b.open && a.work == b.work && a.active < b.active)
    || (a.open == b.open && a.work == b.work && a.active == b.active && a.ticks < b.ticks)
    || (a.open == b.open && a.work == b.work && a.active == b.active && a.ticks == b.ticks && a.early < b.early)
  }

  ghost function RankOf(w: seq<Entry>, injected: set<nat>, world: World, dt: real): Rank
    requires Coherent(world) && dt > 0.0
  {
    Rank(|Open(w, injected)|, Remaining(world), |world.active|, TicksLeft(world, dt), Left(LastTime(w), world.now, dt))
  }

  /** Every iteration of a loop that is not over lowers the measure; w0 is the world before injection, w1 after it and
      w2 after the tick. */
  lemma IterationDescends(w: seq<Entry>, injected: set<nat>, injected': set<nat>, log: seq<bool>,
                          w0: World, w1: World, w2: World, dt: real)
    requires Coherent(w0) && Coherent(w1) && Coherent(w2) && dt > 0.0 && Progresses(w1, w2, dt)
    requires Brings(w, injected, injected', log, w0.active == {}, w0.now) && (NoneLogged(log) ==> w1 == w0)
    ensures Below(RankOf(w, injected', w2, dt), RankOf(w, injected, w0, dt))
  {
    if |Open(w, injected')| >= |Open(w, injected)| && w0.active == {} { LeftFalls(LastTime(w), w0.now, dt); }
  }

  /** How the main loop goes: an attempt is fatal, everything is done, or it never ends. */
  datatype Outcome = Failed | Completed | Endless

  // ----- the main loop -------------------------------------------------------------------------------------

  /** What the back ends say about a model: compute latencies per layer and traffic per phase. */
  datatype Profile = Profile(latency: seq<real>, traffic: seq<Traffic>)

  class Simulator {
    const injector: Injector
    const manager: GlobalManager
    const profiles: map<nat, Profile>
    const pipelined: bool
    const stationary: bool
    const strategy: Strategy
    const dt: real
    var names: seq<nat>
    ghost var world: World

    /** Every model of the workload has inputs and a profile that fits its layers. */
    ghost predicate Prepared() {
      forall j | 0 <= j < |injector.workload.workload| :: Ready(injector.workload.workload[j])
    }

    ghost predicate Ready(e: Entry) {
      && e.inputs >= 1 && e.model in profiles
      && (e.model in injector.models ==> |injector.models[e.model]| == |profiles[e.model].latency|)
      && Fitting(profiles[e.model])
    }

    ghost predicate Fitting(p: Profile) {
      && |p.latency| >= 1 && (forall l | 0 <= l < |p.latency| :: p.latency[l] >= 0.0)
      && |p.traffic| == BaseCount(|p.latency|) + LoadCount(strategy, |p.latency|)
    }

    /** Names of the engine's models: unique, injected, and those of the active models are the fleet's. */
    ghost predicate Joint()
      reads this, injector.workload`injected, injector.fleet`active
    {
      && |names| == |world.plans| && Unique(names)
      && (forall i | 0 <= i < |names| :: names[i] in injector.workload.injected)
      && Tied(names, world.active, injector.fleet.active)
    }

    /** The books: injector and names agree with the world of the engine. */
    ghost predicate Books()
      reads this, injector, injector.workload, injector.fleet, injector.fleet.system.chiplets
    {
      dt > 0.0 && Prepared() && Coherent(world) && injector.Valid() && Joint()
    }

    /** The engine is the manager object. */
    ghost predicate Engine()
      reads this, manager, manager.models, manager.orchestrator
    {
      manager.Valid() && manager.Snapshot() == world && manager.dt == dt
    }

    ghost predicate Valid()
      reads this, injector, injector.workload, injector.fleet, injector.fleet.system.chiplets
      reads manager, manager.models, manager.orchestrator
    {
      Books() && Engine()
    }

    constructor (injector: Injector, manager: GlobalManager, profiles: map<nat, Profile>, pipelined: bool,
                 stationary: bool, strategy: Strategy)
      requires injector.Valid() && injector.fleet.active == []
      requires manager.Valid() && manager.Snapshot() == EMPTY
      ensures this.injector == injector && this.manager == manager && this.profiles == profiles
      ensures this.pipelined == pipelined && this.stationary == stationary && this.strategy == strategy
      ensures (Prepared() ==> Valid()) && world == EMPTY
    {
      this.injector, this.manager, this.profiles, this.dt := injector, manager, profiles, manager.dt;
      this.pipelined, this.stationary, this.strategy := pipelined, stationary, strategy;
      names, world := [], EMPTY;
    }

    /** The models of the engine were there before or are new. */
    twostate predicate Recruits()
      reads manager
    {
      forall i | 0 <= i < |manager.models| :: manager.models[i] in old(manager.models) || fresh(manager.models[i])
    }

    /** A model joins the engine. */
    method JoinOne(e: Entry)
      requires Engine() && Ready(e) && |names| == |world.plans|
      modifies manager`models, manager`active, manager`plans, manager`runs, `world, `names
      ensures Engine() && |names| == |world.plans| && names == old(names) + [e.model]
      ensures world.active == old(world).active + {|old(names)|} && world.now == old(world).now
      ensures Recruits()
    {
      var p := profiles[e.model];
      manager.InjectModel(|p.latency|, e.inputs, pipelined, stationary, strategy, p.latency, p.traffic);
      world, names := manager.Snapshot(), names + [e.model];
    }

    /** The models injected in a round join the engine. */
    method JoinAll(list: seq<Entry>, log: seq<bool>, ghost injected: set<nat>)
      requires Engine() && |names| == |world.plans| && |log| <= |list| && Workloads.Distinct(list)
      requires Joining(names, world.active, names, world.active, list, log, 0, injected)
      requires forall j | 0 <= j < |list| :: list[j].model !in injected && Ready(list[j])
      modifies manager`models, manager`active, manager`plans, manager`runs, `world, `names
      ensures Engine() && |names| == |world.plans|
      ensures Joining(old(names), old(world).active, names, world.active, list, log, |log|, injected)
      ensures (NoneLogged(log) ==> world == old(world)) && world.now == old(world).now
      ensures Recruits()
    {
      ghost var none := true;
      for j := 0 to |log|
        invariant Engine() && |names| == |world.plans|
        invariant Joining(old(names), old(world).active, names, world.active, list, log, j, injected)
        invariant (!none ==> !NoneLogged(log)) && (none ==> world == old(world)) && world.now == old(world).now
        invariant Recruits()
      {
        if log[j] {
          JoiningAdds(old(names), old(world).active, names, world.active, list, log, j, injected);
          JoinOne(list[j]);
          none := false;
        } else {
          JoiningSkips(old(names), old(world).active, names, world.active, list, log, j, injected);
        }
      }
    }

    lemma PendingAreReady(h: Horizon, injected: set<nat>, list: seq<Entry>)
      requires Prepared() && list == Pending(injector.workload.workload, h, injected)
      ensures forall j | 0 <= j < |list| :: list[j].model !in injected && Ready(list[j])
    {
      forall j | 0 <= j < |list| ensures list[j].model !in injected && Ready(list[j]) {
        PendingMembers(injector.workload.workload, h, injected, list[j]);
      }
    }

    method JoinRound(list: seq<Entry>, log: seq<bool>, ghost injected: set<nat>, ghost fleet: seq<Active>)
      requires Prepared() && Engine() && |names| == |world.plans| && injector.Valid()
      requires list == Pending(injector.workload.workload, injector.workload.horizon, injected)
      requires Unique(names) && (forall i | 0 <= i < |names| :: names[i] in injected)
      requires Tied(names, world.active, fleet)
      requires Logged(list, log, injected, injector.workload.injected, fleet, injector.fleet.active)
      modifies manager`models, manager`active, manager`plans, manager`runs, `world, `names
      ensures Valid() && (NoneLogged(log) ==> world == old(world)) && world.now == old(world).now
      ensures Recruits() && injector.Jam() == old(injector.Jam())
    {
      ghost var names0, active0 := names, world.active;
      PendingIsOrdered(injector.workload.workload, injector.workload.horizon, injected);
      PendingAreReady(injector.workload.horizon, injected, list);
      JoinAll(list, log, injected);
      JoiningEnds(names0, active0, names, world.active, list, log, injected, injector.workload.injected, fleet,
                  injector.fleet.active);
    }

    /** The last injection time has come. */
    ghost predicate AllDue()
      reads `world
    {
      world.now >= LastTime(injector.workload.workload)
    }

    /** What a round does to the injected models: nothing on an idle system with a jammed backlog; otherwise it brings
        something, or there is something still to come. */
    ghost predicate Affects(injected: set<nat>, injected': set<nat>, log: seq<bool>, idle: bool, jam: bool, now: real) {
      && (idle && jam ==> NoneLogged(log))
      && (|| Brings(injector.workload.workload, injected, injected', log, idle, now)
          || (idle && jam && now >= LastTime(injector.workload.workload)))
    }

    lemma AllIdle()
      requires Coherent(world) && Joint()
      ensures world.active == {} <==> injector.fleet.active == []
    {
      if world.active == {} { IdleTogether(names, world.active, injector.fleet.active); }
      else {
        var k :| k in world.active;
        assert Named(names, world.active, names[k]);
      }
    }

    ghost function Missing(): set<nat>
      reads injector.workload`injected
    {
      Open(injector.workload.workload, injector.workload.injected)
    }

    /** Some of these models may end the program. */
    ghost predicate SomeRisky(missing: set<nat>) { exists m :: m in missing && injector.Risky(m) }

    lemma PendingIsMissing(h: Horizon, injected: set<nat>, j: nat)
      requires j < |Pending(injector.workload.workload, h, injected)|
      ensures Pending(injector.workload.workload, h, injected)[j].model in Open(injector.workload.workload, injected)
    {
      var w := injector.workload.workload;
      var e := Pending(w, h, injected)[j];
      PendingMembers(w, h, injected, e);
      ModelsMembers(w, e.model);
      var i :| 0 <= i < |w| && w[i] == e;
    }

    ghost predicate AllUnplaceable(models: set<nat>) { forall m | m in models :: injector.Unplaceable(m) }

    /** The injector's part of an iteration. */
    method TryDue(now: real, ghost stranded: set<nat>) returns (list: seq<Entry>, log: seq<bool>, fatal: bool)
      requires injector.Valid() && Coherent(world) && Joint() && now == world.now
      requires AllUnplaceable(stranded) && stranded !! injector.workload.injected
      modifies injector`passed, injector.workload`ready, injector.workload`injected, injector.workload`horizon
      modifies injector.fleet`active, injector.fleet.system.chiplets
      ensures injector.Valid()
      ensures list == Pending(injector.workload.workload, injector.workload.horizon, old(injector.workload.injected))
      ensures Logged(list, log, old(injector.workload.injected), injector.workload.injected, old(injector.fleet.active),
                     injector.fleet.active)
      ensures fatal ==> SomeRisky(old(Missing()))
      ensures stranded !! injector.workload.injected
      ensures !fatal ==>
                Affects(old(injector.workload.injected), injector.workload.injected, log, world.active == {},
                        old(injector.Jam()), now)
      ensures world.active == {} && old(injector.Jam()) ==> !fatal && injector.Jam()
    {
      AllIdle();
      ghost var fleet, injected := injector.fleet.active, injector.workload.injected;
      list, log, fatal := injector.InjectForProgress(now);
      if fatal { PendingIsMissing(injector.workload.horizon, injected, |log|); }
      if !(fleet == [] && NoneLogged(log) && now >= LastTime(injector.workload.workload)) {
        RoundBrings(injector.workload.workload, injector.workload.horizon, world.now, injected,
                    injector.workload.injected, list, log, fleet, injector.fleet.active);
      }
    }

    /** The injection pass of an iteration. A fatal attempt ends the program. */
    method InjectDue(ghost stranded: set<nat>) returns (ghost log: seq<bool>, fatal: bool)
      requires Valid() && AllUnplaceable(stranded) && stranded !! injector.workload.injected
      modifies injector`passed, injector.workload`ready, injector.workload`injected, injector.workload`horizon
      modifies injector.fleet`active, injector.fleet.system.chiplets
      modifies manager`models, manager`active, manager`plans, manager`runs, `world, `names
      ensures !fatal ==> Valid() && world.now == old(world).now
      ensures Recruits()
      ensures fatal ==> SomeRisky(old(Missing()))
      ensures !fatal && NoneLogged(log) ==>
                world == old(world) && injector.workload.injected == old(injector.workload.injected)
      ensures old(injector.workload.injected) <= injector.workload.injected && stranded !! injector.workload.injected
      ensures !fatal ==>
                Affects(old(injector.workload.injected), injector.workload.injected, log, old(world).active == {},
                        old(injector.Jam()), old(world).now)
      ensures old(world).active == {} && old(injector.Jam()) ==> !fatal && injector.Jam()
    {
      ghost var fleet, injected := injector.fleet.active, injector.workload.injected;
      var list, tried;
      list, tried, fatal := TryDue(manager.now, stranded);
      log := tried;
      if !fatal { JoinRound(list, tried, injected, fleet); }
    }

    /** The injector and what it owns are untouched. */
    twostate predicate Apart()
      reads injector, injector.workload, injector.fleet, injector.fleet.system.chiplets
    {
      && unchanged(injector) && unchanged(injector.workload) && unchanged(injector.fleet)
      && unchanged(injector.fleet.system.chiplets)
    }

    twostate lemma InjectorStands()
      requires old(injector.Valid()) && Apart()
      ensures injector.Valid()
    {
    }

    method TickManager(net: Network)
      requires manager.Valid() && Answers(net)
      modifies manager`active, manager`now, manager`ticks, manager`runs, manager.orchestrator, manager.models
      ensures manager.Valid() && manager.models == old(manager.models) && Apart()
      ensures WorldShape(old(manager.Snapshot()))
      ensures manager.Snapshot() == Step(old(manager.Snapshot()), net, old(manager.ticks), manager.dt)
    {
      manager.Tick(net);
    }

    method StepEngine(net: Network)
      requires Engine() && Answers(net)
      modifies manager`active, manager`now, manager`ticks, manager`runs, manager.orchestrator, manager.models, `world
      ensures Engine() && manager.models == old(manager.models)
      ensures WorldShape(old(world)) && world == Step(old(world), net, old(manager.ticks), dt) && Apart()
    {
      TickManager(net);
      world := manager.Snapshot();
    }

    method TickEngine(net: Network)
      requires Engine() && Answers(net)
      modifies manager`active, manager`now, manager`ticks, manager`runs, manager.orchestrator, manager.models, `world
      ensures Engine() && manager.models == old(manager.models)
      ensures Coherent(old(world)) && Coherent(world) && dt > 0.0 && Progresses(old(world), world, dt) && Apart()
    {
      EveryStepProgresses(world, net, manager.ticks, dt);
      StepEngine(net);
    }

    /** The models that have left the engine give back their units. */
    method RetireGone(before: set<nat>, after: set<nat>)
      requires Engine() && after == world.active && injector.Valid() && after <= before
      requires |names| == |world.plans| && Unique(names)
      requires (forall i | 0 <= i < |names| :: names[i] in injector.workload.injected)
      requires Tied(names, before, injector.fleet.active)
      modifies injector.fleet`active, injector.fleet.system.chiplets
      ensures injector.Valid() && Joint() && Engine()
    {
      TiedAfterRetire(names, before, world.active, injector.fleet.active);
      injector.RetireModels(Departed(names, before, after));
    }

    /** The rest of the iteration: the engine ticks, and models that have retired give back their units. */
    method TickAndRetire(net: Network)
      requires Valid() && Answers(net)
      modifies injector.fleet`active, injector.fleet.system.chiplets
      modifies manager`active, manager`now, manager`ticks, manager`runs, manager.orchestrator, manager.models, `world
      ensures Valid() && Progresses(old(world), world, dt) && manager.models == old(manager.models)
    {
      var before := SetOf(manager.active);
      TickEngine(net);
      InjectorStands();
      RetireGone(before, SetOf(manager.active));
    }

    /** The loop is idle but not over. */
    ghost predicate Waiting()
      reads `world, injector.workload`injected
    {
      world.active == {} && Missing() != {}
    }

    /** The loop is idle, not over, and its backlog is jammed. */
    ghost predicate Stuck()
      reads `world, injector.workload
    {
      Waiting() && injector.Jam()
    }

    ghost function Measure(): Rank
      reads `world, injector.workload`injected
      requires Coherent(world) && dt > 0.0
    {
      RankOf(injector.workload.workload, injector.workload.injected, world, dt)
    }

    ghost predicate Ranked(rank: Rank)
      reads `world, injector.workload`injected
    {
      Coherent(world) && dt > 0.0 && rank == Measure()
    }

    /** The passes of one iteration. */
    method InjectAndTick(net: Network, ghost stranded: set<nat>)
      returns (fatal: bool, ghost log: seq<bool>, ghost w1: World)
      requires Valid() && Answers(net)
      requires AllUnplaceable(stranded) && stranded !! injector.workload.injected
      modifies injector`passed, injector.workload`ready, injector.workload`injected, injector.workload`horizon
      modifies injector.fleet`active, injector.fleet.system.chiplets, this
      modifies manager, manager.models, manager.orchestrator
      ensures Recruits()
      ensures old(injector.workload.injected) <= injector.workload.injected && stranded !! injector.workload.injected
      ensures fatal ==> SomeRisky(old(Missing()))
      ensures !fatal ==> Valid() && Coherent(w1) && Progresses(w1, world, dt) && w1.now == old(world).now
      ensures !fatal && NoneLogged(log) ==>
                w1 == old(world) && injector.workload.injected == old(injector.workload.injected)
      ensures !fatal ==>
                Affects(old(injector.workload.injected), injector.workload.injected, log, old(world).active == {},
                        old(injector.Jam()), old(world).now)
      ensures old(world).active == {} && old(injector.Jam()) ==> !fatal && injector.Jam()
    {
      log, fatal := InjectDue(stranded);
      w1 := world;
      if !fatal { TickAndRetire(net); }
    }

    /** One iteration of the main loop. It gets nearer to the end, or the loop is stuck with all models due; a stuck
        loop stays as it is. */
    method Iterate(net: Network, ghost stranded: set<nat>) returns (fatal: bool)
      requires Valid() && Answers(net) && (world.active == {} ==> Waiting())
      requires AllUnplaceable(stranded) && stranded !! injector.workload.injected
      modifies injector`passed, injector.workload`ready, injector.workload`injected, injector.workload`horizon
      modifies injector.fleet`active, injector.fleet.system.chiplets, this
      modifies manager, manager.models, manager.orchestrator
      ensures Recruits()
      ensures if fatal then SomeRisky(old(Missing())) else Valid()
      ensures old(injector.workload.injected) <= injector.workload.injected && stranded !! injector.workload.injected
      ensures !fatal ==>
                || Below(Measure(), old(Measure()))
                || (old(Stuck()) && old(AllDue()))
      ensures old(Stuck()) ==> !fatal && Stuck() && injector.workload.injected == old(injector.workload.injected)
      ensures old(Waiting() && AllDue()) && !fatal && injector.workload.injected == old(injector.workload.injected) ==>
                old(Stuck())
    {
      ghost var stuck := Stuck() && AllDue();
      ghost var log, w1;
      fatal, log, w1 := InjectAndTick(net, stranded);
      if !fatal && !stuck {
        IterationDescends(injector.workload.workload, old(injector.workload.injected), injector.workload.injected, log,
                          old(world), w1, world, dt);
      }
    }

    /** A stuck loop never ends: after any number of iterations it is still stuck, and nothing has been injected. */
    method WaitForever(net: Network, n: nat) returns (fatal: bool)
      requires Valid() && Answers(net) && Stuck()
      modifies injector`passed, injector.workload`ready, injector.workload`injected, injector.workload`horizon
      modifies injector.fleet`active, injector.fleet.system.chiplets, this
      modifies manager, manager.models, manager.orchestrator
      ensures Recruits()
      ensures !fatal && Valid() && Stuck() && injector.workload.injected == old(injector.workload.injected)
    {
      fatal := false;
      for i := 0 to n
        invariant Recruits() && !fatal && Valid() && Stuck()
        invariant injector.workload.injected == old(injector.workload.injected)
      {
        fatal := Iterate(net, {});
      }
    }

    /** Unplaceable models stay missing. */
    method StayMissing(net: Network, n: nat, ghost stranded: set<nat>) returns (fatal: bool)
      requires Valid() && Answers(net) && AllUnplaceable(stranded) && stranded !! injector.workload.injected
      requires stranded != {} && stranded <= Models(injector.workload.workload)
      modifies injector`passed, injector.workload`ready, injector.workload`injected, injector.workload`horizon
      modifies injector.fleet`active, injector.fleet.system.chiplets, this
      modifies manager, manager.models, manager.orchestrator
      ensures Recruits() && stranded !! injector.workload.injected
      ensures if fatal then SomeRisky(old(Missing())) else Valid()
    {
      fatal := false;
      for i := 0 to n
        invariant Recruits() && stranded !! injector.workload.injected
        invariant old(injector.workload.injected) <= injector.workload.injected
        invariant if fatal then SomeRisky(old(Missing())) else Valid()
      {
        if !fatal { fatal := Iterate(net, stranded); }
      }
    }

    /** With an unplaceable model in the workload the loop never ends, whatever else is in it: after any number of
        iterations without a fatal attempt the model is still missing. */
    method NeverOver(net: Network, n: nat, m: nat) returns (fatal: bool)
      requires Valid() && Answers(net) && m in Missing() && injector.Unplaceable(m)
      modifies injector`passed, injector.workload`ready, injector.workload`injected, injector.workload`horizon
      modifies injector.fleet`active, injector.fleet.system.chiplets, this
      modifies manager, manager.models, manager.orchestrator
      ensures Recruits()
      ensures if fatal then SomeRisky(old(Missing())) else Valid() && m in Missing() && !Over()
    {
      fatal := StayMissing(net, n, {m});
      if !fatal { OverMeans(); }
    }

    /** Everything has been injected and has retired: every instance is complete and every chiplet has its full
        capacity. */
    ghost predicate Finished()
      reads this, injector, injector.workload, injector.fleet, injector.fleet.system.chiplets
      reads manager, manager.models
    {
      && Models(injector.workload.workload) <= injector.workload.injected
      && manager.active == [] && injector.fleet.active == []
      && (forall k | 0 <= k < |manager.models| :: AllComplete(manager.models[k].View()))
      && forall i | 0 <= i < |injector.fleet.system.chiplets| ::
           injector.fleet.system.Available()[i] == Capacity.TotalUnits(injector.fleet.system.Sites()[i])
    }

    /** Nothing is left to inject and nothing is active. */
    predicate Over()
      reads manager`active, injector.workload`injected
    {
      |injector.workload.workload| - |injector.workload.injected| <= 0 && manager.active == []
    }

    lemma NoneActive()
      requires Engine()
      ensures manager.active == [] <==> world.active == {}
    {
      if manager.active != [] { assert manager.active[0] in world.active; }
    }

    lemma OverMeans()
      requires injector.workload.Valid() && Engine()
      ensures Over() <==> world.active == {} && Missing() == {}
    {
      NoneActive();
      CountUninjected(injector.workload.workload, injector.workload.injected);
      NoneUninjected(injector.workload.workload, injector.workload.injected);
    }

    lemma OverIsFinished()
      requires Valid() && Over()
      ensures Finished() && Missing() == {}
    {
      OverMeans();
      AllInjected(injector.workload.workload, injector.workload.injected);
      IdleTogether(names, world.active, injector.fleet.active);
      injector.fleet.FullCapacityReturns();
      NoneActive();
      manager.RetiredAreComplete();
    }

    /** An idle system postpones none of these models. */
    ghost predicate IdleTakesAll(missing: set<nat>) { forall m | m in missing :: !injector.PostponedWhenIdle(m) }

    /** What an idle system postpones, every system postpones. */
    ghost predicate Steady(missing: set<nat>) {
      forall m | m in missing && injector.PostponedWhenIdle(m) :: injector.Unplaceable(m)
    }

    /** A stuck loop misses a model that an idle system postpones. */
    lemma StuckMisses(missing: set<nat>)
      requires injector.workload.Valid() && Stuck() && Missing() <= missing
      ensures !IdleTakesAll(missing)
    {
      var w, last := injector.workload.workload, Until(LastTime(injector.workload.workload));
      var m :| m in Missing();
      ModelsMembers(w, m);
      var i :| 0 <= i < |w| && w[i].model == m;
      NotAfterLast(w, i);
      PendingMembers(w, last, injector.workload.injected, w[i]);
      var e := injector.Backlog()[0];
      PendingMembers(w, last, injector.workload.injected, e);
      ModelsMembers(w, e.model);
      var k :| 0 <= k < |w| && w[k] == e;
      assert e.model in Missing() && injector.PostponedWhenIdle(e.model);
    }

    /** An iteration of a loop that is not over. `quiet` tells that it was idle with all models due and nothing went in:
        this happens exactly when the loop is stuck. */
    method Proceed(net: Network, ghost stranded: set<nat>, ghost rank: Rank)
      returns (fatal: bool, quiet: bool, ghost rank': Rank)
      requires Valid() && Answers(net) && !Over() && Ranked(rank)
      requires AllUnplaceable(stranded) && stranded !! injector.workload.injected
      modifies injector`passed, injector.workload`ready, injector.workload`injected, injector.workload`horizon
      modifies injector.fleet`active, injector.fleet.system.chiplets, this
      modifies manager, manager.models, manager.orchestrator
      ensures Recruits()
      ensures if fatal then SomeRisky(old(Missing())) else Valid()
      ensures old(injector.workload.injected) <= injector.workload.injected && stranded !! injector.workload.injected
      ensures quiet <==> old(Stuck()) && old(AllDue())
      ensures quiet ==> !fatal && Stuck()
      ensures !fatal && !quiet ==> Ranked(rank') && Below(rank', rank)
    {
      OverMeans();
      NoneActive();
      var idle, injected := manager.active == [], injector.workload.injected;
      var due := manager.now >= LastTime(injector.workload.workload);
      fatal := Iterate(net, stranded);
      rank' := if fatal then rank else Measure();
      quiet := idle && due && !fatal && injector.workload.injected == injected;
    }

    /** The main loop, watched: it stops early when it is quiet. */
    method Loop(net: Network, ghost stranded: set<nat>, ghost rank0: Rank) returns (fatal: bool, quiet: bool)
      requires Ranked(rank0)
      requires Valid() && Answers(net)
      requires AllUnplaceable(stranded) && stranded !! injector.workload.injected
      modifies injector`passed, injector.workload`ready, injector.workload`injected, injector.workload`horizon
      modifies injector.fleet`active, injector.fleet.system.chiplets, this
      modifies manager, manager.models, manager.orchestrator
      ensures Recruits()
      ensures old(injector.workload.injected) <= injector.workload.injected && stranded !! injector.workload.injected
      ensures if fatal then SomeRisky(old(Missing())) else Valid() && if quiet then Stuck() else Over()
    {
      fatal, quiet := false, false;
      ghost var rank := rank0;
      while !fatal && !quiet && !Over()
        invariant Recruits() && stranded !! injector.workload.injected
        invariant old(injector.workload.injected) <= injector.workload.injected
        invariant if fatal then SomeRisky(old(Missing())) else Valid() && (quiet ==> Stuck())
        invariant !fatal && !quiet ==> Ranked(rank)
        decreases !fatal, !quiet, rank.open, rank.work, rank.active, rank.ticks, rank.early
      {
        fatal, quiet, rank := Proceed(net, stranded, rank);
      }
    }

    /** Decides every run of the main loop in finitely many iterations: an attempt is fatal, everything is injected and
        retired, or the loop is stuck and never ends. The last needs a missing model that an idle system postpones, and
        an unplaceable model rules out the second. */
    method Decide(net: Network) returns (r: Outcome)
      requires Valid() && Answers(net)
      modifies injector`passed, injector.workload`ready, injector.workload`injected, injector.workload`horizon
      modifies injector.fleet`active, injector.fleet.system.chiplets, this
      modifies manager, manager.models, manager.orchestrator
      ensures Recruits()
      ensures r == Failed ==> SomeRisky(old(Missing()))
      ensures r == Completed ==> Finished()
      ensures r == Endless ==> Valid() && Stuck()
      ensures IdleTakesAll(old(Missing())) ==> r != Endless
      ensures r == Completed ==> forall m | m in old(Missing()) :: !injector.Unplaceable(m)
      ensures r != Failed && Steady(old(Missing())) ==> (r == Completed <==> IdleTakesAll(old(Missing())))
    {
      var fatal, quiet := Loop(net, (set m | m in Missing() && injector.Unplaceable(m)), Measure());
      if fatal { return Failed; }
      if quiet {
        StuckMisses(old(Missing()));
        return Endless;
      }
      OverIsFinished();
      r := Completed;
    }

    /** The main loop. If an idle system postpones no missing model, it is never quiet, and ends: with a fatal attempt,
        or with every model injected and retired and all capacity free. */
    method Run(net: Network) returns (fatal: bool)
      requires Valid() && Answers(net) && IdleTakesAll(Missing())
      modifies injector`passed, injector.workload`ready, injector.workload`injected, injector.workload`horizon
      modifies injector.fleet`active, injector.fleet.system.chiplets, this
      modifies manager, manager.models, manager.orchestrator
      ensures Recruits()
      ensures if fatal then SomeRisky(old(Missing())) else Finished()
    {
      var r := Decide(net);
      fatal := r == Failed;
    }
  }
}
