/** Injecting and retiring models: conservation of capacity and the blocking policy over whole runs
    (src/sim/global_manager.py with src/managers/workload_manager.py). */
module Injection {
  import Options
  import opened LayerUnits
  import opened NearestNeighbour
  import opened LayerMapping
  import opened Capacity
  import opened Workloads

  // ----- active models and their units ---------------------------------------------------------------------

  datatype Active = Active(model: nat, used: seq<int>)

  function UnitsAt(a: Active, i: nat): int { if i < |a.used| then a.used[i] else 0 }

  /** Units of chiplet i held by the active models. */
  function Held(active: seq<Active>, i: nat): int {
    if active == [] then 0 else Held(active[..|active| - 1], i) + UnitsAt(active[|active| - 1], i)
  }

  lemma {:induction false} HeldConcat(a: seq<Active>, b: seq<Active>, i: nat)
    ensures Held(a + b, i) == Held(a, i) + Held(b, i)
    decreases |b|
  {
    if b == [] { assert a + b == a; }
    else {
      HeldConcat(a, b[..|b| - 1], i);
      assert (a + b)[..|a + b| - 1] == a + b[..|b| - 1];
    }
  }

  ghost predicate NonNegative(active: seq<Active>, n: nat) {
    forall k | 0 <= k < |active| :: |active[k].used| == n && forall i | 0 <= i < n :: active[k].used[i] >= 0
  }

  lemma {:induction false} HeldNonNegative(active: seq<Active>, n: nat, i: nat)
    requires NonNegative(active, n)
    ensures Held(active, i) >= 0
  {
    if active != [] { HeldNonNegative(active[..|active| - 1], n, i); }
  }

  /** Per chiplet, free units and units held by active models add up to the chiplet's total. */
  ghost predicate Balances(free: seq<int>, active: seq<Active>, sites: seq<Site>) {
    && |free| == |sites| && NonNegative(active, |sites|)
    && forall i: nat | i < |sites| :: free[i] + Held(active, i) == TotalUnits(sites[i])
  }

  function Added(free: seq<int>, used: seq<int>): (r: seq<int>)
    requires |free| == |used|
    ensures |r| == |free| && forall i | 0 <= i < |r| :: r[i] == free[i] + used[i]
  {
    seq(|free|, i requires 0 <= i < |free| => free[i] + used[i])
  }

  lemma BalancesAfterInject(before: seq<int>, after: seq<int>, active: seq<Active>, sites: seq<Site>, a: Active)
    requires Balances(before, active, sites) && |after| == |a.used| == |sites|
    requires forall i | 0 <= i < |sites| :: a.used[i] >= 0 && after[i] + a.used[i] == before[i]
    ensures Balances(after, active + [a], sites)
  {
    forall i: nat | i < |sites| ensures after[i] + Held(active + [a], i) == TotalUnits(sites[i]) {
      assert (active + [a])[..|active|] == active;
    }
  }

  /** Giving back the units of one model keeps the balance, and stays within each chiplet's total. */
  lemma BalancesAfterRetire(free: seq<int>, kept: seq<Active>, a: Active, rest: seq<Active>, sites: seq<Site>)
    requires Balances(free, kept + [a] + rest, sites) && InRange(free, sites)
    ensures |a.used| == |sites| && Balances(Added(free, a.used), kept + rest, sites)
    ensures InRange(Added(free, a.used), sites)
  {
    var all := kept + [a] + rest;
    assert all[|kept|] == a;
    assert NonNegative(kept + rest, |sites|) by {
      forall k | 0 <= k < |kept + rest|
        ensures |(kept + rest)[k].used| == |sites| && forall i | 0 <= i < |sites| :: (kept + rest)[k].used[i] >= 0
      {
        assert (kept + rest)[k] == if k < |kept| then all[k] else all[k + 1];
      }
    }
    forall i: nat | i < |sites|
      ensures Added(free, a.used)[i] + Held(kept + rest, i) == TotalUnits(sites[i]) && Held(kept + rest, i) >= 0
    {
      HeldConcat(kept + [a], rest, i);
      HeldConcat(kept, [a], i);
      HeldConcat(kept, rest, i);
      assert [a][..0] == [];
      HeldNonNegative(kept + rest, |sites|, i);
    }
  }

  // ----- capacity checks -----------------------------------------------------------------------------------

  /** Weights that a model asks for. */
  function Demand(model: seq<Layer>): nat {
    if model == [] then 0 else Demand(model[..|model| - 1]) + Required(model[|model| - 1])
  }

  function SystemMemory(sites: seq<Site>): real
    requires Built(sites)
  {
    if sites == [] then 0.0
    else
      var last := sites[|sites| - 1];
      SystemMemory(sites[..|sites| - 1]) + (if last.io then 0.0 else TotalUnits(last) as real * UnitMemory(last.spec))
  }

  /** Free weights of a chiplet as the quick check counts them: a CMOS chiplet always counts in full. */
  function SiteWeights(s: Site, free: int): int
    requires !s.io ==> Buildable(s.spec)
  {
    if s.io then 0
    else if s.spec.Cmos? then TotalUnits(s)
    else (free as real * UnitMemory(s.spec)).Floor
  }

  function FreeWeights(sites: seq<Site>, free: seq<int>): int
    requires |sites| == |free| && Built(sites)
  {
    if sites == [] then 0
    else
      var n := |sites| - 1;
      FreeWeights(sites[..n], free[..n]) + SiteWeights(sites[n], free[n])
  }

  datatype Attempt = Injected | Postponed | Fatal

  // ----- an idle system ------------------------------------------------------------------------------------

  function FullUnits(sites: seq<Site>): (r: seq<int>)
    ensures |r| == |sites| && forall i | 0 <= i < |r| :: r[i] == TotalUnits(sites[i])
  {
    seq(|sites|, i requires 0 <= i < |sites| => TotalUnits(sites[i]))
  }

  /** The mapper fails on the job for this reason. */
  ghost predicate BlockedBy(job: Job, why: Reason)
    requires Posed(job)
  {
    exists splits :: Ends(job, splits, Blocked(why))
  }

  /** The mapper gives up for want of memory; the program tries again later. */
  ghost predicate MapperGivesUp(job: Job)
    requires Posed(job)
  {
    BlockedBy(job, InsufficientMemory) || BlockedBy(job, NoAvailableChiplets)
  }

  /** The mapper fails for another reason; the program ends. */
  ghost predicate MapperFails(job: Job)
    requires Posed(job)
  {
    BlockedBy(job, NoChipletConnections) || BlockedBy(job, NoPreviousChiplet)
  }

  /** With these free units the model is postponed: it is not too large for the whole system, but the quick check or the
      mapper turns it down. */
  ghost predicate Postpones(layers: seq<Layer>, pref: Preference, sites: seq<Site>, near: map<nat, map<nat, nat>>,
                            free: seq<int>)
    requires Built(sites) && |free| == |sites|
  {
    && Demand(layers) as real <= SystemMemory(sites)
    && (Demand(layers) > FreeWeights(sites, free) || MapperGivesUp(Job(layers, sites, near, pref, free)))
  }

  /** A system with nothing else on it postpones the model. */
  ghost predicate IdlePostpones(layers: seq<Layer>, pref: Preference, sites: seq<Site>, near: map<nat, map<nat, nat>>)
    requires Built(sites)
  {
    Postpones(layers, pref, sites, near, FullUnits(sites))
  }

  /** The model is postponed whatever units are free. */
  ghost predicate AlwaysPostpones(layers: seq<Layer>, pref: Preference, sites: seq<Site>,
                                  near: map<nat, map<nat, nat>>)
    requires Built(sites)
  {
    forall free: seq<int> | InRange(free, sites) :: Postpones(layers, pref, sites, near, free)
  }

  /** With these free units the model ends the program: it is too large for the whole system, or the mapper fails. */
  ghost predicate Breaks(layers: seq<Layer>, pref: Preference, sites: seq<Site>, near: map<nat, map<nat, nat>>,
                         free: seq<int>)
    requires Built(sites) && |free| == |sites|
  {
    || Demand(layers) as real > SystemMemory(sites)
    || (Demand(layers) <= FreeWeights(sites, free) && MapperFails(Job(layers, sites, near, pref, free)))
  }

  /** Since the outcome of a job is determined, the mapper fails for a reason exactly when it can. */
  lemma OutcomeIsDetermined(job: Job, splits: seq<Split>, m: Mapping, why: Reason)
    requires Posed(job)
    requires m.NotGenerated? ==> Ends(job, splits, Blocked(m.why))
    requires m.Generated? ==> exists free :: Ends(job, splits, Planned(m.shares, free))
    ensures BlockedBy(job, why) <==> m == NotGenerated(why)
  {
    if BlockedBy(job, why) {
      var s :| Ends(job, s, Blocked(why));
      if m.NotGenerated? { OneEnd(job, splits, Blocked(m.why), s, Blocked(why)); }
      else {
        var free :| Ends(job, splits, Planned(m.shares, free));
        OneEnd(job, splits, Planned(m.shares, free), s, Blocked(why));
      }
    }
  }

  predicate Runs(active: seq<Active>, model: nat) { exists k | 0 <= k < |active| :: active[k].model == model }

  /** One more model is active. */
  ghost predicate Joined(before: seq<Active>, after: seq<Active>, model: nat) {
    |after| == |before| + 1 && before == after[..|before|] && after[|before|].model == model
  }

  lemma FullIsInRange(sites: seq<Site>)
    requires Built(sites)
    ensures InRange(FullUnits(sites), sites)
  {
  }

  lemma IdleIsFull(free: seq<int>, sites: seq<Site>)
    requires Balances(free, [], sites)
    ensures free == FullUnits(sites)
  {
    forall i: nat | i < |sites| ensures free[i] == TotalUnits(sites[i]) { assert Held([], i) == 0; }
  }

  class Fleet {
    const system: System
    const mapper: ModelMapper
    var active: seq<Active>

    ghost predicate Valid()
      reads this, system.chiplets
    {
      mapper.system == system && system.Valid() && Balances(system.Available(), active, system.Sites())
    }

    constructor (sites: seq<Site>, near: map<nat, map<nat, nat>>)
      requires Built(sites)
      ensures Valid() && active == [] && fresh(system.chiplets) && system.Sites() == sites
    {
      var s := new System(sites);
      var m := new ModelMapper(s, near);
      system, mapper, active := s, m, [];
    }

    /** Maps a model on the free units. */
    method MapModel(layers: seq<Layer>, pref: Preference) returns (m: Mapping)
      requires Valid()
      modifies system.chiplets
      ensures system.Valid() && (m.NotGenerated? ==> system.Available() == old(system.Available()))
      ensures m.Generated? ==> |m.used| == |system.chiplets| && forall i | 0 <= i < |m.used| ::
                  m.used[i] >= 0 && system.Available()[i] + m.used[i] == old(system.Available())[i]
      ensures forall why :: BlockedBy(old(mapper.JobOf(layers, pref)), why) <==> m == NotGenerated(why)
    {
      ghost var job := mapper.JobOf(layers, pref);
      ghost var splits;
      m, splits := mapper.GenerateMapping(layers, pref);
      forall why ensures BlockedBy(job, why) <==> m == NotGenerated(why) { OutcomeIsDetermined(job, splits, m, why); }
    }

    /** Charges the units taken from `free` to a model. */
    method Charge(model: nat, used: seq<int>, ghost free: seq<int>)
      requires mapper.system == system && system.Valid() && Balances(free, active, system.Sites())
      requires |used| == |system.chiplets| && forall i | 0 <= i < |used| ::
                   used[i] >= 0 && system.Available()[i] + used[i] == free[i]
      modifies this`active
      ensures Valid() && active == old(active) + [Active(model, used)]
    {
      BalancesAfterInject(free, system.Available(), active, system.Sites(), Active(model, used));
      active := active + [Active(model, used)];
    }

    /** Maps a model and, on success, charges its units to it. */
    method Place(model: nat, layers: seq<Layer>, pref: Preference) returns (a: Attempt)
      requires Valid() && !Runs(active, model)
      modifies this`active, system.chiplets
      ensures Valid()
      ensures a != Injected ==> active == old(active) && system.Available() == old(system.Available())
      ensures a == Injected ==> Joined(old(active), active, model)
      ensures a == Postponed <==> MapperGivesUp(old(mapper.JobOf(layers, pref)))
      ensures a == Fatal <==> MapperFails(old(mapper.JobOf(layers, pref)))
    {
      ghost var free := system.Available();
      var m := MapModel(layers, pref);
      match m
      case NotGenerated(why) =>
        a := if why == InsufficientMemory || why == NoAvailableChiplets then Postponed else Fatal;
      case Generated(_, used) =>
        Charge(model, used, free);
        a := Injected;
    }

    /** Tries to place a model. Failure leaves all capacity as it was. */
    method TryInject(model: nat, layers: seq<Layer>, pref: Preference) returns (a: Attempt)
      requires Valid() && !Runs(active, model)
      modifies this`active, system.chiplets
      ensures Valid()
      ensures a != Injected ==> active == old(active) && system.Available() == old(system.Available())
      ensures a == Injected ==> Joined(old(active), active, model)
      ensures a == Postponed <==> Postpones(layers, pref, system.Sites(), mapper.near, old(system.Available()))
      ensures a == Fatal <==> Breaks(layers, pref, system.Sites(), mapper.near, old(system.Available()))
    {
      if Demand(layers) as real > SystemMemory(system.Sites()) { return Fatal; }
      var free := system.GetAvailable();
      if Demand(layers) > FreeWeights(system.Sites(), free) { return Postponed; }
      a := Place(model, layers, pref);
    }

    /** Retires one model and gives back its units. */
    method RetireOne(kept: seq<Active>, a: Active, rest: seq<Active>)
      requires Valid() && active == kept + [a] + rest
      modifies this`active, system.chiplets
      ensures Valid() && active == kept + rest
    {
      var free := system.GetAvailable();
      BalancesAfterRetire(free, kept, a, rest, system.Sites());
      active := kept + rest;
      var ok := system.Update(Added(free, a.used));
    }

    /** Keeps or retires the first of the rest. */
    method Review(kept: seq<Active>, rest: seq<Active>, done: set<nat>) returns (kept': seq<Active>)
      requires Valid() && active == kept + rest && rest != []
      modifies this`active, system.chiplets
      ensures Valid() && active == kept' + rest[1..]
      ensures kept' + Unfinished(rest[1..], done) == kept + Unfinished(rest, done)
    {
      KeepOrRetire(kept, rest, done);
      if rest[0].model in done {
        RetireOne(kept, rest[0], rest[1..]);
        kept' := kept;
      } else {
        kept' := kept + [rest[0]];
      }
    }

    /** Retires the finished models. */
    method Retire(done: set<nat>)
      requires Valid()
      modifies this`active, system.chiplets
      ensures Valid() && active == Unfinished(old(active), done)
    {
      var kept: seq<Active>, rest := [], active;
      while rest != []
        invariant Valid() && active == kept + rest && kept + Unfinished(rest, done) == Unfinished(old(active), done)
      {
        kept := Review(kept, rest, done);
        rest := rest[1..];
      }
    }

    /** When every model has retired, all capacity is free again. */
    lemma FullCapacityReturns()
      requires Valid() && active == []
      ensures forall i | 0 <= i < |system.chiplets| :: system.Available()[i] == TotalUnits(system.Sites()[i])
    {
      forall i: nat | i < |system.chiplets| ensures system.Available()[i] == TotalUnits(system.Sites()[i]) {
        assert Held(active, i) == 0;
      }
    }
  }

  function Unfinished(active: seq<Active>, done: set<nat>): seq<Active> {
    if active == [] then []
    else if active[0].model in done then Unfinished(active[1..], done)
    else [active[0]] + Unfinished(active[1..], done)
  }

  lemma Reassociate(a: seq<Active>, x: Active, b: seq<Active>)
    ensures a + ([x] + b) == a + [x] + b
  {
  }

  lemma KeepOrRetire(kept: seq<Active>, rest: seq<Active>, done: set<nat>)
    requires rest != []
    ensures kept + rest == kept + [rest[0]] + rest[1..]
    ensures rest[0].model !in done ==> kept + Unfinished(rest, done) == kept + [rest[0]] + Unfinished(rest[1..], done)
  {
    assert rest == [rest[0]] + rest[1..];
    Reassociate(kept, rest[0], rest[1..]);
    Reassociate(kept, rest[0], Unfinished(rest[1..], done));
  }

  // ----- the blocking policy -------------------------------------------------------------------------------

  /** In a round over the models of `list`, `log` tells which of those tried were injected: model m stayed behind while
      a later one went in. */
  ghost predicate Overtaken(list: seq<Entry>, log: seq<bool>, m: nat) {
    exists j, k :: 0 <= j < k < |log| <= |list| && list[j].model == m && !log[j] && log[k]
  }

  /** Rounds in which a model has been overtaken so far. */
  function Count(passed: map<nat, nat>, m: nat): nat { if m in passed then passed[m] else 0 }

  ghost function CountRound(passed: map<nat, nat>, list: seq<Entry>, log: seq<bool>): map<nat, nat> {
    map m: nat | m in passed.Keys + Models(list) :: Count(passed, m) + (if Overtaken(list, log, m) then 1 else 0)
  }

  lemma CountAfterRound(passed: map<nat, nat>, list: seq<Entry>, log: seq<bool>, m: nat)
    ensures Count(CountRound(passed, list, log), m) == Count(passed, m) + (if Overtaken(list, log, m) then 1 else 0)
  {
    if Overtaken(list, log, m) { ModelsMembers(list, m); }
  }

  function Limit(threshold: int): nat { if threshold > 1 then threshold - 1 else 0 }

  /** No model is ever overtaken in more rounds than the limit, and a waiting one in no more rounds than it failed. */
  ghost predicate Fair(passed: map<nat, nat>, ready: seq<Waiting>, injected: set<nat>, threshold: int) {
    forall m: nat :: Count(passed, m) <= Limit(threshold) && (m !in injected ==> Count(passed, m) <= Age(ready, m))
  }

  /** Where a round stands after trying the models of `log`; `ages` are the ages at its start. */
  ghost predicate Standing(list: seq<Entry>, log: seq<bool>, ages: seq<nat>, ready: seq<Waiting>, injected: set<nat>) {
    && |log| <= |list| == |ages|
    && (forall j | 0 <= j < |log| && log[j] :: list[j].model in injected)
    && (forall j | 0 <= j < |log| && !log[j] :: list[j].model !in injected && Age(ready, list[j].model) == ages[j] + 1)
    && (forall j | |log| <= j < |list| :: list[j].model !in injected && Age(ready, list[j].model) == ages[j])
  }

  /** No failed model has reached the threshold, except the last one if it blocks. */
  ghost predicate Unblocked(log: seq<bool>, ages: seq<nat>, threshold: int, blocked: bool) {
    |log| <= |ages| && forall j | 0 <= j < |log| && !log[j] && (j < |log| - 1 || !blocked) :: ages[j] + 1 < threshold
  }

  /** Only models of the list have failed before. */
  ghost predicate OthersAreAgeless(list: seq<Entry>, ready: seq<Waiting>) {
    forall x: nat | forall j | 0 <= j < |list| :: list[j].model != x :: Age(ready, x) == 0
  }

  /** The last model tried failed and has reached the threshold. */
  ghost predicate Blocks(list: seq<Entry>, log: seq<bool>, ready: seq<Waiting>, threshold: int) {
    0 < |log| <= |list| && !log[|log| - 1] && Age(ready, list[|log| - 1].model) >= threshold
  }

  lemma StandingAfterFailure(list: seq<Entry>, log: seq<bool>, ages: seq<nat>, ready: seq<Waiting>, injected: set<nat>)
    requires Standing(list, log, ages, ready, injected) && Workloads.Distinct(list) && |log| < |list|
    requires IsWaiting(ready, list[|log|].model)
    ensures Standing(list, log + [false], ages, Aged(ready, list[|log|].model), injected)
  {
    forall j | 0 <= j < |list| ensures Age(Aged(ready, list[|log|].model), list[j].model) ==
                                       Age(ready, list[j].model) + (if j == |log| then 1 else 0)
    {
      AgesAfterFailure(ready, list[|log|].model, list[j].model);
    }
  }

  lemma StandingAfterSuccess(list: seq<Entry>, log: seq<bool>, ages: seq<nat>, ready: seq<Waiting>, injected: set<nat>)
    requires Standing(list, log, ages, ready, injected) && Workloads.Distinct(list) && |log| < |list|
    ensures Standing(list, log + [true], ages, Dropped(ready, list[|log|].model), injected + {list[|log|].model})
  {
    forall j | 0 <= j < |list| && j != |log|
      ensures Age(Dropped(ready, list[|log|].model), list[j].model) == Age(ready, list[j].model)
    {
      AgesAfterDrop(ready, list[|log|].model, list[j].model);
    }
  }

  /** What a round does to one model keeps it fair. */
  lemma RoundIsFairTo(m: nat, passed: map<nat, nat>, list: seq<Entry>, log: seq<bool>, ages: seq<nat>,
                      before: seq<Waiting>,
                      after: seq<Waiting>, injected0: set<nat>, injected: set<nat>, threshold: int)
    requires Fair(passed, before, injected0, threshold) && Workloads.Distinct(list)
    requires Standing(list, log, ages, after, injected)
    requires injected0 <= injected && Unblocked(log, ages, threshold, true)
    requires forall j | 0 <= j < |list| :: list[j].model !in injected0 && ages[j] == Age(before, list[j].model)
    requires OthersAreAgeless(list, before)
    ensures var c := Count(CountRound(passed, list, log), m);
            c <= Limit(threshold) && (m !in injected ==> c <= Age(after, m))
  {
    CountAfterRound(passed, list, log, m);
    assert Count(passed, m) <= Limit(threshold);
    if Overtaken(list, log, m) {
      var j, k :| 0 <= j < k < |log| <= |list| && list[j].model == m && !log[j] && log[k];
      assert Count(passed, m) <= Age(before, list[j].model);
    } else if j :| 0 <= j < |list| && list[j].model == m {
      assert Count(passed, m) <= Age(before, list[j].model);
    }
  }

  lemma RoundIsFair(passed: map<nat, nat>, list: seq<Entry>, log: seq<bool>, ages: seq<nat>, before: seq<Waiting>,
                    after: seq<Waiting>, injected0: set<nat>, injected: set<nat>, threshold: int)
    requires Fair(passed, before, injected0, threshold) && Workloads.Distinct(list)
    requires Standing(list, log, ages, after, injected)
    requires Standing(list, [], ages, before, injected0)
    requires injected0 <= injected && Unblocked(log, ages, threshold, true)
    requires OthersAreAgeless(list, before)
    ensures Fair(CountRound(passed, list, log), after, injected, threshold)
  {
    forall m: nat ensures Count(CountRound(passed, list, log), m) <= Limit(threshold)
      && (m !in injected ==> Count(CountRound(passed, list, log), m) <= Age(after, m))
    {
      RoundIsFairTo(m, passed, list, log, ages, before, after, injected0, injected, threshold);
    }
  }

  /** The ages of the listed models. */
  ghost function AgesOf(ready: seq<Waiting>, list: seq<Entry>): (r: seq<nat>)
    ensures |r| == |list| && forall j | 0 <= j < |r| :: r[j] == Age(ready, list[j].model)
  {
    seq(|list|, j requires 0 <= j < |list| => Age(ready, list[j].model))
  }

  /** Models that join the ready list do so without failures, so no age changes. */
  lemma {:induction false} GrownAges(before: seq<Waiting>, after: seq<Waiting>, m: nat)
    requires Grown(before, after)
    ensures Age(after, m) == Age(before, m)
  {
    if before != [] {
      assert before[0] == after[0];
      GrownAges(before[1..], after[1..], m);
    } else if after != [] {
      GrownAges([], after[1..], m);
    }
  }

  lemma FairAfterGrowth(passed: map<nat, nat>, before: seq<Waiting>, after: seq<Waiting>, injected: set<nat>,
                        threshold: int)
    requires Fair(passed, before, injected, threshold) && Grown(before, after)
    ensures Fair(passed, after, injected, threshold)
  {
    forall m: nat
      ensures Count(passed, m) <= Limit(threshold) && (m !in injected ==> Count(passed, m) <= Age(after, m))
    {
      GrownAges(before, after, m);
    }
  }

  lemma PendingAreNotInjected(w: seq<Entry>, h: Horizon, injected: set<nat>)
    ensures forall j | 0 <= j < |Pending(w, h, injected)| :: Pending(w, h, injected)[j].model !in injected
  {
    forall j | 0 <= j < |Pending(w, h, injected)| ensures Pending(w, h, injected)[j].model !in injected {
      PendingMembers(w, h, injected, Pending(w, h, injected)[j]);
    }
  }

  lemma ListHoldsAllAges(list: seq<Entry>, ready: seq<Waiting>)
    requires list == Entries(ready)
    ensures OthersAreAgeless(list, ready)
  {
    forall x: nat | forall j | 0 <= j < |list| :: list[j].model != x ensures Age(ready, x) == 0 {
      forall i | 0 <= i < |ready| ensures ready[i].entry.model != x { assert list[i].model != x; }
      AgeOfAbsent(ready, x);
    }
  }

  ghost predicate AllIn(active: seq<Active>, models: set<nat>) {
    forall k | 0 <= k < |active| :: active[k].model in models
  }

  lemma OutsideIsIdle(active: seq<Active>, models: set<nat>, m: nat)
    requires AllIn(active, models) && m !in models
    ensures !Runs(active, m)
  {
  }

  lemma JoinedStaysIn(before: seq<Active>, after: seq<Active>, models: set<nat>, m: nat)
    requires AllIn(before, models) && Joined(before, after, m)
    ensures AllIn(after, models + {m})
  {
    forall k | 0 <= k < |after| ensures after[k].model in models + {m} {
      if k < |before| { assert before[k] == after[k]; }
    }
  }

  /** Model m of the list was injected in the round. */
  ghost predicate LoggedIn(list: seq<Entry>, log: seq<bool>, m: nat) {
    exists j :: 0 <= j < |log| <= |list| && log[j] && list[j].model == m
  }

  /** Exactly the models injected in the round have become active. */
  ghost predicate Started(before: seq<Active>, after: seq<Active>, list: seq<Entry>, log: seq<bool>) {
    forall m: nat :: Runs(after, m) <==> Runs(before, m) || LoggedIn(list, log, m)
  }

  /** Of the models that stay behind, those tried have failed once more. */
  ghost predicate AgesMove(list: seq<Entry>, log: seq<bool>, before: seq<Waiting>, after: seq<Waiting>) {
    forall j | 0 <= j < |list| && !(j < |log| && log[j]) ::
      Age(after, list[j].model) == Age(before, list[j].model) + (if j < |log| then 1 else 0)
  }

  lemma StandingMoves(list: seq<Entry>, log: seq<bool>, ages: seq<nat>, before: seq<Waiting>, after: seq<Waiting>,
                      injected: set<nat>)
    requires Standing(list, log, ages, after, injected)
    requires forall j | 0 <= j < |list| :: ages[j] == Age(before, list[j].model)
    ensures AgesMove(list, log, before, after)
  {
  }

  /** Models that are not injected have failed at least as often as before. */
  ghost predicate AgesRise(before: seq<Waiting>, after: seq<Waiting>, injected: set<nat>) {
    forall m: nat | m !in injected :: Age(before, m) <= Age(after, m)
  }

  lemma MovesRise(list: seq<Entry>, log: seq<bool>, before: seq<Waiting>, after: seq<Waiting>, injected: set<nat>)
    requires AgesMove(list, log, before, after) && OthersAreAgeless(list, before)
    requires |log| <= |list| && forall j | 0 <= j < |log| && log[j] :: list[j].model in injected
    ensures AgesRise(before, after, injected)
  {
    forall m: nat | m !in injected ensures Age(before, m) <= Age(after, m) {
      if j :| 0 <= j < |list| && list[j].model == m { assert !(j < |log| && log[j]); }
    }
  }

  ghost predicate NoneLogged(log: seq<bool>) { forall j | 0 <= j < |log| :: !log[j] }

  /** The log of a round tells which models have become injected and active. */
  ghost predicate Logged(list: seq<Entry>, log: seq<bool>, injected: set<nat>, injected': set<nat>,
                         active: seq<Active>, active': seq<Active>) {
    && |log| <= |list| && injected <= injected'
    && (forall j | 0 <= j < |log| :: log[j] <==> list[j].model in injected')
    && (NoneLogged(log) ==> injected' == injected)
    && Started(active, active', list, log)
  }

  /** What trying the next model does to the active ones. */
  ghost predicate StartedNext(before: seq<Active>, after: seq<Active>, list: seq<Entry>, log: seq<bool>,
                              log': seq<bool>) {
    || (log' == log && after == before)
    || (|log| < |list| && log' == log + [false] && after == before)
    || (|log| < |list| && log' == log + [true] && Joined(before, after, list[|log|].model))
  }

  lemma JoinedRuns(before: seq<Active>, after: seq<Active>, model: nat, m: nat)
    requires Joined(before, after, model)
    ensures Runs(after, m) <==> Runs(before, m) || m == model
  {
    if k :| 0 <= k < |before| && before[k].model == m { assert after[k].model == m; }
    if m == model { assert after[|before|].model == m; }
    if k :| 0 <= k < |after| && after[k].model == m { assert k < |before| ==> before[k] == after[k]; }
  }

  lemma LoggedNext(list: seq<Entry>, log: seq<bool>, b: bool, m: nat)
    requires |log| < |list|
    ensures LoggedIn(list, log + [b], m) <==> LoggedIn(list, log, m) || (b && list[|log|].model == m)
  {
    var log' := log + [b];
    if j :| 0 <= j < |log| && log[j] && list[j].model == m { assert log'[j]; }
    if b && list[|log|].model == m { assert log'[|log|]; }
  }

  lemma StartedGrows(first: seq<Active>, before: seq<Active>, after: seq<Active>, list: seq<Entry>, log: seq<bool>,
                     log': seq<bool>)
    requires Started(first, before, list, log) && StartedNext(before, after, list, log, log')
    ensures Started(first, after, list, log')
  {
    if log' != log || after != before {
      forall m: nat ensures Runs(after, m) <==> Runs(first, m) || LoggedIn(list, log', m) {
        LoggedNext(list, log, log'[|log|], m);
        if log'[|log|] { JoinedRuns(before, after, list[|log|].model, m); }
      }
    }
  }

  class Injector {
    const workload: WorkloadManager
    const fleet: Fleet
    const models: map<nat, seq<Layer>>
    const prefs: map<nat, Preference>
    ghost var passed: map<nat, nat>

    ghost predicate Valid()
      reads this, workload, fleet, fleet.system.chiplets
    {
      && workload.Valid() && fleet.Valid() && AllIn(fleet.active, workload.injected)
      && Fair(passed, workload.ready, workload.injected, workload.threshold)
    }

    constructor (workload: WorkloadManager, fleet: Fleet, models: map<nat, seq<Layer>>, prefs: map<nat, Preference>)
      requires workload.Valid() && workload.ready == [] && fleet.Valid() && fleet.active == []
      ensures Valid() && this.workload == workload && this.fleet == fleet && passed == map[]
    {
      this.workload, this.fleet, this.models, this.prefs, passed := workload, fleet, models, prefs, map[];
    }

    function PrefOf(model: nat): Preference { if model in prefs then prefs[model] else Preference({}, Options.None) }

    /** With these free units the model is postponed. */
    ghost predicate PostponedWith(model: nat, free: seq<int>) {
      && model in models && Built(fleet.system.Sites()) && |free| == |fleet.system.Sites()|
      && Postpones(models[model], PrefOf(model), fleet.system.Sites(), fleet.mapper.near, free)
    }

    /** With these free units the model ends the program. */
    ghost predicate BreaksWith(model: nat, free: seq<int>) {
      || model !in models
      || (&& Built(fleet.system.Sites()) && |free| == |fleet.system.Sites()|
          && Breaks(models[model], PrefOf(model), fleet.system.Sites(), fleet.mapper.near, free))
    }

    /** There are free units with which the model ends the program. */
    ghost predicate Risky(model: nat) {
      exists free: seq<int> :: InRange(free, fleet.system.Sites()) && BreaksWith(model, free)
    }

    /** An idle system postpones the model. A busy one may still take it. */
    ghost predicate PostponedWhenIdle(model: nat) { PostponedWith(model, FullUnits(fleet.system.Sites())) }

    /** The model is postponed whatever units are free. */
    ghost predicate Unplaceable(model: nat) {
      forall free: seq<int> | InRange(free, fleet.system.Sites()) :: PostponedWith(model, free)
    }

    /** Model q of the list is postponed when idle and, at this age, blocks those behind it. */
    ghost predicate Stops(list: seq<Entry>, ages: seq<nat>, q: nat) {
      q < |list| == |ages| && PostponedWhenIdle(list[q].model) && ages[q] + 1 >= workload.threshold
    }

    /** Every model of the list that an idle system would take stands behind one that stops it. */
    ghost predicate Jammed(list: seq<Entry>, ages: seq<nat>) {
      forall j | 0 <= j < |list| && !PostponedWhenIdle(list[j].model) ::
        exists q :: 0 <= q < j && Stops(list, ages, q)
    }

    /** A round on an idle system brings nothing exactly when the list is jammed. */
    ghost predicate IdleRound(list: seq<Entry>, ages: seq<nat>, log: seq<bool>, fatal: bool) {
      !fatal && NoneLogged(log) <==> Jammed(list, ages)
    }

    /** No unplaceable model has become injected. */
    ghost predicate Spares(before: set<nat>, after: set<nat>) {
      forall m: nat | m in after && m !in before :: !Unplaceable(m)
    }

    /** The first n models are postponed when idle. */
    ghost predicate AllPostponed(list: seq<Entry>, n: nat) {
      n <= |list| && forall j | 0 <= j < n :: PostponedWhenIdle(list[j].model)
    }

    /** How a round that started on an idle system stands. */
    ghost predicate IdleSoFar(list: seq<Entry>, ages: seq<nat>, log: seq<bool>, fatal: bool, active: seq<Active>) {
      if fatal || !NoneLogged(log) then !Jammed(list, ages) else active == [] && AllPostponed(list, |log|)
    }

    lemma IdleNext(list: seq<Entry>, ages: seq<nat>, log: seq<bool>, before: seq<Active>, log': seq<bool>, fatal: bool,
                   after: seq<Active>)
      requires |log| < |list| && Unblocked(log, ages, workload.threshold, false) && |ages| == |list|
      requires IdleSoFar(list, ages, log, false, before) && StartedNext(before, after, list, log, log')
      requires |log'| == if fatal then |log| else |log| + 1
      requires before == [] ==> (PostponedWhenIdle(list[|log|].model) <==> !fatal && !log'[|log|])
      ensures IdleSoFar(list, ages, log', fatal, after)
    {
      if NoneLogged(log) {
        if fatal || log'[|log|] { NotJammed(list, ages, |log|); }
      } else if !fatal {
        var j :| 0 <= j < |log| && log[j];
        assert log'[j];
      }
    }

    lemma IdleEnd(list: seq<Entry>, ages: seq<nat>, log: seq<bool>, fatal: bool, active: seq<Active>,
                  ready: seq<Waiting>, injected: set<nat>)
      requires IdleSoFar(list, ages, log, fatal, active) && Standing(list, log, ages, ready, injected)
      requires |log| == |list| || fatal || Blocks(list, log, ready, workload.threshold)
      ensures IdleRound(list, ages, log, fatal)
    {
      if !fatal && NoneLogged(log) { JammedBehind(list, ages, |log|); }
    }

    /** The first n models fail and do not block, and the next one is not postponed: the list is not jammed. */
    lemma NotJammed(list: seq<Entry>, ages: seq<nat>, n: nat)
      requires n < |list| == |ages| && !PostponedWhenIdle(list[n].model)
      requires forall q | 0 <= q < n :: ages[q] + 1 < workload.threshold
      ensures !Jammed(list, ages)
    {
    }

    /** All models are postponed, or those up to one that blocks: the list is jammed. */
    lemma JammedBehind(list: seq<Entry>, ages: seq<nat>, n: nat)
      requires AllPostponed(list, n) && |list| == |ages|
      requires n < |list| ==> n > 0 && ages[n - 1] + 1 >= workload.threshold
      ensures Jammed(list, ages)
    {
      if n < |list| { assert Stops(list, ages, n - 1); }
    }

    /** Asks the fleet to take a model. */
    method Ask(model: nat) returns (a: Attempt)
      requires fleet.Valid() && !Runs(fleet.active, model)
      modifies fleet`active, fleet.system.chiplets
      ensures fleet.Valid()
      ensures a == Injected ==> Joined(old(fleet.active), fleet.active, model)
      ensures a != Injected ==> fleet.active == old(fleet.active)
      ensures a == Postponed <==> old(PostponedWith(model, fleet.system.Available()))
      ensures a == Fatal <==> old(BreaksWith(model, fleet.system.Available()))
    {
      if model !in models { return Fatal; }
      a := fleet.TryInject(model, models[model], PrefOf(model));
    }

    lemma WhenPostponed(model: nat)
      requires fleet.Valid()
      ensures fleet.active == [] ==> (PostponedWith(model, fleet.system.Available()) <==> PostponedWhenIdle(model))
      ensures Unplaceable(model) ==> PostponedWith(model, fleet.system.Available())
      ensures BreaksWith(model, fleet.system.Available()) ==> Risky(model)
    {
      if fleet.active == [] { IdleIsFull(fleet.system.Available(), fleet.system.Sites()); }
    }

    /** Tries one waiting model and records the outcome in the ready list. */
    method TryModel(model: nat) returns (a: Attempt)
      requires workload.Valid() && fleet.Valid() && AllIn(fleet.active, workload.injected)
      requires model !in workload.injected && model in Models(workload.workload)
      modifies workload`ready, workload`injected, fleet`active, fleet.system.chiplets
      ensures workload.Valid() && fleet.Valid() && AllIn(fleet.active, workload.injected)
      ensures a == Injected ==> workload.injected == old(workload.injected) + {model}
      ensures a == Injected ==> workload.ready == Dropped(old(workload.ready), model)
      ensures a != Injected ==> workload.injected == old(workload.injected) && fleet.active == old(fleet.active)
      ensures a == Postponed ==> workload.ready == Aged(old(workload.ready), model)
      ensures a == Fatal ==> workload.ready == old(workload.ready)
      ensures a == Injected ==> Joined(old(fleet.active), fleet.active, model)
      ensures old(fleet.active) == [] ==> (a == Postponed <==> PostponedWhenIdle(model))
      ensures Unplaceable(model) ==> a == Postponed
      ensures a == Fatal ==> Risky(model)
    {
      ghost var before := fleet.active;
      OutsideIsIdle(before, workload.injected, model);
      WhenPostponed(model);
      a := Ask(model);
      if a == Postponed { workload.IncrementFailureAge(model); }
      else if a == Injected {
        JoinedStaysIn(before, fleet.active, workload.injected, model);
        workload.MarkModelInjected(model);
      }
    }

    /** Entries still to be tried are waiting. */
    lemma StillWaiting(list: seq<Entry>, injected: set<nat>, n: nat)
      requires workload.Valid() && list == Pending(workload.workload, workload.horizon, injected)
      requires n < |list| && list[n].model !in workload.injected
      ensures IsWaiting(workload.ready, list[n].model) && list[n].model in Models(workload.workload)
    {
      PendingMembers(workload.workload, workload.horizon, injected, list[n]);
      PendingMembers(workload.workload, workload.horizon, workload.injected, list[n]);
      var i :| 0 <= i < |Entries(workload.ready)| && Entries(workload.ready)[i] == list[n];
      assert workload.ready[i].entry == list[n];
      ModelsMembers(workload.workload, list[n].model);
    }

    /** The models due now, and what holds of them before the first is tried. */
    method StartRound(now: real) returns (list: seq<Entry>, ghost ages: seq<nat>)
      requires Valid()
      modifies workload`ready, workload`horizon
      ensures Valid() && list == Pending(workload.workload, workload.horizon, workload.injected)
      ensures workload.workload != [] ==> workload.horizon == Later(old(workload.horizon), now)
      ensures Workloads.Distinct(list) && Standing(list, [], ages, workload.ready, workload.injected)
      ensures OthersAreAgeless(list, workload.ready)
      ensures ages == AgesOf(old(workload.ready), list) && OthersAreAgeless(list, old(workload.ready))
    {
      ghost var before := workload.ready;
      list := workload.GetModelsToInject(now);
      ages := AgesOf(workload.ready, list);
      PendingIsOrdered(workload.workload, workload.horizon, workload.injected);
      FairAfterGrowth(passed, before, workload.ready, workload.injected, workload.threshold);
      PendingAreNotInjected(workload.workload, workload.horizon, workload.injected);
      ListHoldsAllAges(list, workload.ready);
      forall m: nat ensures Age(workload.ready, m) == Age(before, m) { GrownAges(before, workload.ready, m); }
    }

    /** Whether the model that failed last now blocks the rest. */
    method HasBlocked(list: seq<Entry>, log: seq<bool>, ghost ages: seq<nat>, ghost injected0: set<nat>)
      returns (blocked: bool)
      requires workload.Valid() && list == Pending(workload.workload, workload.horizon, injected0)
      requires 0 < |log| <= |list| && !log[|log| - 1] && Standing(list, log, ages, workload.ready, workload.injected)
      requires Unblocked(log[..|log| - 1], ages, workload.threshold, false)
      ensures Unblocked(log, ages, workload.threshold, blocked)
      ensures blocked ==> Blocks(list, log, workload.ready, workload.threshold)
    {
      StillWaiting(list, injected0, |log| - 1);
      blocked := workload.IsModelBlocking(list[|log| - 1].model);
      forall j | 0 <= j < |log| && !log[j] && (j < |log| - 1 || !blocked) ensures ages[j] + 1 < workload.threshold {
        if j < |log| - 1 { assert !log[..|log| - 1][j]; }
      }
    }

    /** Tries the next model of the list; it blocks the rest when it fails too often. */
    method TryNext(list: seq<Entry>, log: seq<bool>, ghost ages: seq<nat>, ghost injected0: set<nat>)
      returns (log': seq<bool>, blocked: bool, fatal: bool)
      requires workload.Valid() && fleet.Valid() && AllIn(fleet.active, workload.injected)
      requires list == Pending(workload.workload, workload.horizon, injected0) && Workloads.Distinct(list)
      requires |log| < |list|
      requires Standing(list, log, ages, workload.ready, workload.injected)
      requires Unblocked(log, ages, workload.threshold, false)
      modifies workload`ready, workload`injected, fleet`active, fleet.system.chiplets
      ensures workload.Valid() && fleet.Valid() && AllIn(fleet.active, workload.injected)
      ensures old(workload.injected) <= workload.injected && |log'| == if fatal then |log| else |log| + 1
      ensures Standing(list, log', ages, workload.ready, workload.injected)
      ensures Unblocked(log', ages, workload.threshold, blocked)
      ensures blocked ==> Blocks(list, log', workload.ready, workload.threshold)
      ensures StartedNext(old(fleet.active), fleet.active, list, log, log')
      ensures old(fleet.active) == [] ==> (PostponedWhenIdle(list[|log|].model) <==> !fatal && !log'[|log|])
      ensures Spares(old(workload.injected), workload.injected)
      ensures fatal || !log'[|log|] ==> workload.injected == old(workload.injected)
      ensures fatal ==> log' == log && Risky(list[|log|].model)
    {
      var m := list[|log|].model;
      StillWaiting(list, injected0, |log|);
      var a := TryModel(m);
      log', blocked, fatal := log, false, a == Fatal;
      if a == Postponed {
        StandingAfterFailure(list, log, ages, old(workload.ready), old(workload.injected));
        log' := log + [false];
        blocked := HasBlocked(list, log', ages, injected0);
      } else if a == Injected {
        StandingAfterSuccess(list, log, ages, old(workload.ready), old(workload.injected));
        log' := log + [true];
      }
    }

    /** Tries the models in order until one of them blocks or an attempt is fatal. */
    method TryInOrder(list: seq<Entry>, ghost ages: seq<nat>) returns (log: seq<bool>, fatal: bool)
      requires workload.Valid() && fleet.Valid() && AllIn(fleet.active, workload.injected)
      requires list == Pending(workload.workload, workload.horizon, workload.injected) && Workloads.Distinct(list)
      requires Standing(list, [], ages, workload.ready, workload.injected)
      modifies workload`ready, workload`injected, fleet`active, fleet.system.chiplets
      ensures workload.Valid() && fleet.Valid() && AllIn(fleet.active, workload.injected)
      ensures Standing(list, log, ages, workload.ready, workload.injected)
      ensures Unblocked(log, ages, workload.threshold, true)
      ensures |log| == |list| || fatal || Blocks(list, log, workload.ready, workload.threshold)
      ensures Logged(list, log, old(workload.injected), workload.injected, old(fleet.active), fleet.active)
      ensures old(fleet.active) == [] ==> IdleRound(list, ages, log, fatal)
      ensures Spares(old(workload.injected), workload.injected)
      ensures fatal ==> |log| < |list| && Risky(list[|log|].model)
    {
      ghost var injected0, first := workload.injected, fleet.active;
      log, fatal := [], false;
      var blocked := false;
      while |log| < |list| && !blocked && !fatal
        invariant workload.Valid() && fleet.Valid() && AllIn(fleet.active, workload.injected)
        invariant injected0 <= workload.injected
        invariant Standing(list, log, ages, workload.ready, workload.injected)
        invariant Unblocked(log, ages, workload.threshold, blocked)
        invariant blocked ==> Blocks(list, log, workload.ready, workload.threshold)
        invariant Started(first, fleet.active, list, log)
        invariant log == [] ==> fleet.active == first && !blocked
        invariant first == [] ==> IdleSoFar(list, ages, log, fatal, fleet.active)
        invariant Spares(injected0, workload.injected)
        invariant fatal ==> |log| < |list| && Risky(list[|log|].model)
        invariant NoneLogged(log) ==> workload.injected == injected0
        decreases |list| - |log|, !fatal
      {
        ghost var before, log0 := fleet.active, log;
        log, blocked, fatal := TryNext(list, log, ages, injected0);
        StartedGrows(first, before, fleet.active, list, log0, log);
        if first == [] { IdleNext(list, ages, log0, before, log, fatal, fleet.active); }
      }
      if first == [] { IdleEnd(list, ages, log, fatal, fleet.active, workload.ready, workload.injected); }
    }

    /** Counts who was overtaken in a round that started from the given ready list. */
    method CountOvertaken(list: seq<Entry>, log: seq<bool>, ghost ages: seq<nat>, ghost ready: seq<Waiting>,
                          ghost injected: set<nat>)
      requires workload.Valid() && fleet.Valid() && AllIn(fleet.active, workload.injected)
      requires Fair(passed, ready, injected, workload.threshold) && injected <= workload.injected
      requires Workloads.Distinct(list) && OthersAreAgeless(list, ready)
      requires Standing(list, [], ages, ready, injected)
      requires Standing(list, log, ages, workload.ready, workload.injected)
      requires Unblocked(log, ages, workload.threshold, true)
      modifies this`passed
      ensures Valid() && passed == CountRound(old(passed), list, log)
    {
      RoundIsFair(passed, list, log, ages, ready, workload.ready, injected, workload.injected, workload.threshold);
      passed := CountRound(passed, list, log);
    }

    /** Tries the models of a round and counts who was overtaken. */
    method TryAndCount(list: seq<Entry>, ghost ages: seq<nat>) returns (log: seq<bool>, fatal: bool)
      requires Valid() && list == Pending(workload.workload, workload.horizon, workload.injected)
      requires Workloads.Distinct(list) && Standing(list, [], ages, workload.ready, workload.injected)
      requires OthersAreAgeless(list, workload.ready)
      modifies this`passed, workload`ready, workload`injected, fleet`active, fleet.system.chiplets
      ensures Valid() && |log| <= |list| && passed == CountRound(old(passed), list, log)
      ensures Standing(list, log, ages, workload.ready, workload.injected)
      ensures Logged(list, log, old(workload.injected), workload.injected, old(fleet.active), fleet.active)
      ensures |log| == |list| || fatal || Blocks(list, log, workload.ready, workload.threshold)
      ensures old(fleet.active) == [] ==> IdleRound(list, ages, log, fatal)
      ensures Spares(old(workload.injected), workload.injected)
      ensures fatal ==> |log| < |list| && Risky(list[|log|].model)
    {
      ghost var ready, injected := workload.ready, workload.injected;
      log, fatal := TryInOrder(list, ages);
      CountOvertaken(list, log, ages, ready, injected);
    }

    /** One time step of injection. `log` tells which of the models tried were injected; a fatal attempt ends the
        simulation. */
    method InjectRound(now: real) returns (list: seq<Entry>, log: seq<bool>, fatal: bool)
      requires Valid()
      modifies this`passed, workload`ready, workload`injected, workload`horizon, fleet`active, fleet.system.chiplets
      ensures Valid() && passed == CountRound(old(passed), list, log)
      ensures Logged(list, log, old(workload.injected), workload.injected, old(fleet.active), fleet.active)
      ensures list == Pending(workload.workload, workload.horizon, old(workload.injected))
      ensures workload.workload != [] ==> workload.horizon == Later(old(workload.horizon), now)
      ensures AgesMove(list, log, old(workload.ready), workload.ready)
      ensures |log| == |list| || fatal || Blocks(list, log, workload.ready, workload.threshold)
      ensures old(fleet.active) == [] ==> IdleRound(list, AgesOf(old(workload.ready), list), log, fatal)
      ensures Spares(old(workload.injected), workload.injected)
      ensures AgesRise(old(workload.ready), workload.ready, workload.injected)
      ensures fatal ==> |log| < |list| && Risky(list[|log|].model)
    {
      ghost var ages;
      list, ages := StartRound(now);
      log, fatal := TryAndCount(list, ages);
      StandingMoves(list, log, ages, old(workload.ready), workload.ready, workload.injected);
      MovesRise(list, log, old(workload.ready), workload.ready, workload.injected);
    }

    /** The models still to be injected, due or not, in the order in which they become due. */
    ghost function Backlog(): seq<Entry>
      reads workload`injected
    {
      Pending(workload.workload, Until(LastTime(workload.workload)), workload.injected)
    }

    /** The backlog is jammed. */
    ghost predicate Jam()
      reads workload
    {
      Jammed(Backlog(), AgesOf(workload.ready, Backlog()))
    }

    /** Two ways to be jammed: every model is postponed when idle, or the first one is and has failed often enough. */
    lemma WaysToJam()
      ensures AllPostponed(Backlog(), |Backlog()|) ==> Jam()
      ensures Stops(Backlog(), AgesOf(workload.ready, Backlog()), 0) ==> Jam()
    {
      var ages := AgesOf(workload.ready, Backlog());
      if Stops(Backlog(), ages, 0) { JammedBehind(Backlog(), ages, 1); }
    }

    lemma JamStopsRound(all: seq<Entry>, list: seq<Entry>, ready: seq<Waiting>)
      requires Jammed(all, AgesOf(ready, all)) && list <= all
      ensures Jammed(list, AgesOf(ready, list))
    {
      forall j | 0 <= j < |list| && !PostponedWhenIdle(list[j].model)
        ensures exists q :: 0 <= q < j && Stops(list, AgesOf(ready, list), q)
      {
        assert list[j] == all[j];
        var q :| 0 <= q < j && Stops(all, AgesOf(ready, all), q);
        assert Stops(list, AgesOf(ready, list), q);
      }
    }

    lemma JamStays(list: seq<Entry>, before: seq<Waiting>, after: seq<Waiting>, injected: set<nat>)
      requires Jammed(list, AgesOf(before, list)) && AgesRise(before, after, injected)
      requires forall j | 0 <= j < |list| :: list[j].model !in injected
      ensures Jammed(list, AgesOf(after, list))
    {
      forall j | 0 <= j < |list| && !PostponedWhenIdle(list[j].model)
        ensures exists q :: 0 <= q < j && Stops(list, AgesOf(after, list), q)
      {
        var q :| 0 <= q < j && Stops(list, AgesOf(before, list), q);
        assert Stops(list, AgesOf(after, list), q);
      }
    }

    lemma BacklogAfterRound(all: seq<Entry>, ready: seq<Waiting>, injected: set<nat>, list: seq<Entry>, log: seq<bool>,
                            fatal: bool, now: real)
      requires workload.Valid() && all == Pending(workload.workload, Until(LastTime(workload.workload)), injected)
      requires list == Pending(workload.workload, workload.horizon, injected)
      requires workload.workload != [] ==> workload.horizon.Until? && workload.horizon.time >= now
      requires IdleRound(list, AgesOf(ready, list), log, fatal) && AgesRise(ready, workload.ready, workload.injected)
      requires NoneLogged(log) ==> workload.injected == injected
      ensures Jammed(all, AgesOf(ready, all)) ==> !fatal && NoneLogged(log) && Jam()
      ensures !fatal && NoneLogged(log) && now >= LastTime(workload.workload) ==> Jammed(all, AgesOf(ready, all))
    {
      PendingIsPrefixOfAll(workload.workload, workload.horizon, injected);
      PendingAreNotInjected(workload.workload, Until(LastTime(workload.workload)), injected);
      if Jammed(all, AgesOf(ready, all)) {
        JamStopsRound(all, list, ready);
        JamStays(all, ready, workload.ready, injected);
      }
    }

    /** What a round means for the end of the run. On an idle system with a jammed backlog it brings nothing and the
        backlog stays jammed; once every model is due, only a jammed backlog makes a round bring nothing. */
    method InjectForProgress(now: real) returns (list: seq<Entry>, log: seq<bool>, fatal: bool)
      requires Valid()
      modifies this`passed, workload`ready, workload`injected, workload`horizon, fleet`active, fleet.system.chiplets
      ensures Valid() && list == Pending(workload.workload, workload.horizon, old(workload.injected))
      ensures Logged(list, log, old(workload.injected), workload.injected, old(fleet.active), fleet.active)
      ensures workload.workload != [] ==> workload.horizon == Later(old(workload.horizon), now)
      ensures Spares(old(workload.injected), workload.injected)
      ensures fatal ==> |log| < |list| && Risky(list[|log|].model)
      ensures old(fleet.active) == [] && old(Jam()) ==> !fatal && NoneLogged(log) && Jam()
      ensures old(fleet.active) == [] && !fatal && NoneLogged(log) && now >= LastTime(workload.workload) ==> old(Jam())
    {
      ghost var all, ready, injected := Backlog(), workload.ready, workload.injected;
      list, log, fatal := InjectRound(now);
      if old(fleet.active) == [] { BacklogAfterRound(all, ready, injected, list, log, fatal, now); }
    }

    method RetireModels(done: set<nat>)
      requires Valid()
      modifies fleet`active, fleet.system.chiplets
      ensures Valid() && fleet.active == Unfinished(old(fleet.active), done)
    {
      fleet.Retire(done);
      UnfinishedStaysIn(old(fleet.active), done, workload.injected);
    }

    /** Injection and retirement over a whole run; `done[i]` are the models that finish in step i. At the end, as after
        every step, capacity is conserved and no model has been overtaken in more rounds than the limit. */
    method Simulate(times: seq<real>, done: seq<set<nat>>) returns (fatal: bool)
      requires Valid() && |times| == |done|
      modifies this`passed, workload`ready, workload`injected, workload`horizon, fleet`active, fleet.system.chiplets
      ensures Valid()
      ensures forall m: nat :: Count(passed, m) <= Limit(workload.threshold)
      ensures Balances(fleet.system.Available(), fleet.active, fleet.system.Sites())
    {
      fatal := false;
      for i := 0 to |times|
        invariant Valid()
      {
        var list, log, stop := InjectRound(times[i]);
        if stop { return true; }
        RetireModels(done[i]);
      }
    }
  }

  lemma {:induction false} UnfinishedStaysIn(active: seq<Active>, done: set<nat>, models: set<nat>)
    requires AllIn(active, models)
    ensures AllIn(Unfinished(active, done), models)
  {
    if active != [] {
      assert AllIn(active[1..], models);
      UnfinishedStaysIn(active[1..], done, models);
    }
  }
}
