/** The mapped model as the source has it: an object whose methods update its phases, instances and
    times in loops. Each method is proved to compute the corresponding function of PhaseEngine. */
module MappedModels {
  import opened Options
  import opened Phases
  import opened PhaseEngine
  import opened EngineInvariant
  import opened EngineSteps
  import opened WeightSchedule
  import ExecutionOrder

  datatype Readiness = Met | Unmet | Misconfigured

  /** The active phases of inputs below n, in the order get_active_phases reports them. */
  function ActiveList(pl: Plan, s: Progress, t: real, n: nat): seq<(nat, nat)>
    requires PlanShape(pl) && n <= |s.inputStart|
  {
    if n == 0 then []
    else
      var a := ActivateInput(pl, Activate(pl, s, t, n - 1), n - 1, t).1;
      ActiveList(pl, s, t, n - 1) + (if a.Some? then [(n - 1, a.value)] else [])
  }

  lemma ActivateNext(pl: Plan, s: Progress, t: real, i: nat, s': Progress, a: Option<nat>)
    requires PlanShape(pl) && i < |s.inputStart| && (s', a) == ActivateInput(pl, Activate(pl, s, t, i), i, t)
    ensures Activate(pl, s, t, i + 1) == s'
    ensures ActiveList(pl, s, t, i + 1) == ActiveList(pl, s, t, i) + (if a.Some? then [(i, a.value)] else [])
  {
  }

  /** A phase of the default schedule: compute and activation phases in a chain. */
  function BasePhase(id: nat): Phase {
    Phase(if id % 2 == 0 then Compute(id / 2) else Activation(id / 2), BaseDeps(id), map[])
  }

  /** Phases in the order in which they were made. */
  predicate Counts(order: seq<nat>, n: nat) { |order| == n && forall k | 0 <= k < n :: order[k] == k }

  ghost predicate Based(phases: seq<Phase>, n: nat) {
    |phases| == 2 * n - 1 && forall id | 0 <= id < |phases| :: phases[id] == BasePhase(id)
  }

  /** No instance has started; stationary weight loads have instances for input 0 only. */
  ghost predicate Unstarted(pl: Plan, s: Progress, start: real) {
    && Shape(pl, s) && |pl.layerLatency| == pl.numLayers
    && (forall i: nat, p: nat | Has(s, i, p) :: s.inst[i][p] == FreshInstance(pl, p))
    && (forall i | 0 <= i < pl.numInputs ::
        s.inputStart[i] == (if i == 0 then start else UNSET) && s.inputDone[i] == UNSET)
    && s.loaded == {} && s.done == UNSET
  }

  /** Dependencies, order and traffic do not matter to what is unstarted. */
  lemma UnstartedByKinds(pl: Plan, pl': Plan, s: Progress, start: real)
    requires Unstarted(pl, s, start)
    requires |pl'.phases| == |pl.phases| && forall p | 0 <= p < |pl.phases| :: pl'.phases[p].kind == pl.phases[p].kind
    requires pl'.numInputs == pl.numInputs && pl'.stationary == pl.stationary
    requires pl'.numLayers == pl.numLayers && pl'.layerLatency == pl.layerLatency
    ensures Unstarted(pl', s, start)
  {
    forall i: nat, p: nat ensures Exists(pl', i, p) <==> Exists(pl, i, p) { }
  }

  lemma UnstartedIsFresh(pl: Plan, s: Progress, start: real)
    requires Unstarted(pl, s, start) && pl.numInputs >= 1
    ensures s == Fresh(pl, start)
  {
    var f := Fresh(pl, start);
    forall i | 0 <= i < pl.numInputs ensures s.inst[i] == f.inst[i] {
      forall p: nat ensures (p in s.inst[i] <==> p in f.inst[i]) && (p in s.inst[i] ==> s.inst[i][p] == f.inst[i][p]) {
        assert Has(s, i, p) <==> Exists(pl, i, p);
      }
    }
    assert s.inst == f.inst;
    assert s.inputStart == f.inputStart && s.inputDone == f.inputDone;
  }

  /** What WeightScheduler.generate_schedule asks for: which layers each weight phase loads. */
  function LoadSchedule(st: Strategy, n: nat): (r: seq<seq<nat>>)
    ensures |r| == LoadCount(st, n)
  {
    if st.AllAtOnce? then [Layers(n)] else seq(n, l => [l])
  }

  /** The phases after weight loads are added and before the scheduler links them. */
  function LoadingPhase(st: Strategy, n: nat, id: nat): Phase
    requires n >= 1
  {
    if id < BaseCount(n) then BasePhase(id) else Phase(KindOf(st, n, id), [], map[])
  }

  ghost predicate Loading(phases: seq<Phase>, st: Strategy, n: nat)
    requires n >= 1
  {
    && |phases| == BaseCount(n) + LoadCount(st, n)
    && forall id | 0 <= id < |phases| :: phases[id] == LoadingPhase(st, n, id)
  }

  function LinkedPhase(st: Strategy, n: nat, id: nat): Phase
    requires n >= 1
  {
    Phase(KindOf(st, n, id), DepsOf(st, n, id), map[])
  }

  ghost predicate Linked(phases: seq<Phase>, st: Strategy, n: nat)
    requires n >= 1
  {
    && |phases| == BaseCount(n) + LoadCount(st, n)
    && forall id | 0 <= id < |phases| :: phases[id] == LinkedPhase(st, n, id)
  }

  /** Weight loads are linked, and the compute phases of layers below l. */
  ghost predicate LinkedBelow(phases: seq<Phase>, st: Strategy, n: nat, l: nat)
    requires n >= 1
  {
    && |phases| == BaseCount(n) + LoadCount(st, n)
    && forall id | 0 <= id < |phases| :: phases[id] ==
         if id < BaseCount(n) && id % 2 == 0 && id >= 2 * l then LoadingPhase(st, n, id) else LinkedPhase(st, n, id)
  }

  /** The just-in-time weight loads of layers below l are linked. */
  ghost predicate LoadsLinkedBelow(phases: seq<Phase>, n: nat, l: nat)
    requires n >= 1
  {
    && |phases| == BaseCount(n) + n
    && forall id | 0 <= id < |phases| :: phases[id] ==
         if id >= BaseCount(n) + l || id < BaseCount(n) then LoadingPhase(JustInTime, n, id)
         else LinkedPhase(JustInTime, n, id)
  }

  function WithDep(deps: seq<nat>, d: nat): seq<nat> { if d in deps then deps else deps + [d] }

  function Depending(phases: seq<Phase>, p: nat, d: nat): seq<Phase>
    requires p < |phases|
  {
    phases[p := phases[p].(deps := WithDep(phases[p].deps, d))]
  }

  lemma LinkedComputePhase(st: Strategy, n: nat, l: nat)
    requires l < n
    ensures 2 * l < BaseCount(n)
    ensures BasePhase(2 * l).(deps := WithDep(BaseDeps(2 * l), LoadOf(st, n, l))) == LinkedPhase(st, n, 2 * l)
  {
    KindsByLayer(st, n, l);
    assert LinkedPhase(st, n, 2 * l) == BasePhase(2 * l).(deps := BaseDeps(2 * l) + [LoadOf(st, n, l)]);
  }

  lemma LinkCompute(phases: seq<Phase>, st: Strategy, n: nat, l: nat)
    requires l < n && LinkedBelow(phases, st, n, l)
    ensures 2 * l < |phases| && LinkedBelow(Depending(phases, 2 * l, LoadOf(st, n, l)), st, n, l + 1)
  {
    LinkedComputePhase(st, n, l);
    assert phases[2 * l] == BasePhase(2 * l);
    forall id | 0 <= id < |phases| && id != 2 * l && id % 2 == 0 ensures id >= 2 * l <==> id >= 2 * (l + 1) { }
  }

  lemma LinkLoad(phases: seq<Phase>, n: nat, l: nat)
    requires 0 < l < n && LoadsLinkedBelow(phases, n, l)
    ensures BaseCount(n) + l < |phases| && LoadsLinkedBelow(Depending(phases, BaseCount(n) + l, 2 * l - 1), n, l + 1)
  {
    assert phases[BaseCount(n) + l] == LoadingPhase(JustInTime, n, BaseCount(n) + l);
  }

  lemma LinkingStarts(phases: seq<Phase>, st: Strategy, n: nat)
    requires n >= 1
    ensures st.AllAtOnce? && Loading(phases, st, n) ==> LinkedBelow(phases, st, n, 0)
    ensures st.JustInTime? && Loading(phases, st, n) ==> LoadsLinkedBelow(phases, n, 1)
    ensures st.JustInTime? && LoadsLinkedBelow(phases, n, n) ==> LinkedBelow(phases, st, n, 0)
    ensures LinkedBelow(phases, st, n, n) ==> Linked(phases, st, n)
  {
    forall id: nat | id < BaseCount(n) && id % 2 == 1 ensures LinkedPhase(st, n, id) == BasePhase(id) { }
  }

  /** Linking adds dependencies and leaves every phase's kind. */
  lemma SameKinds(before: seq<Phase>, after: seq<Phase>, st: Strategy, n: nat)
    requires n >= 1 && Loading(before, st, n) && Linked(after, st, n)
    ensures |before| == |after| && forall p | 0 <= p < |before| :: after[p].kind == before[p].kind
  {
  }

  lemma LinkedIsScheduled(phases: seq<Phase>, st: Strategy, n: nat)
    requires n >= 1 && Linked(phases, st, n)
    ensures Scheduled(st, n, phases) && ExecutionOrder.Closed(Graph(phases))
  {
    ScheduleIsAcyclic(st, n, phases);
  }

  lemma LinkedKinds(phases: seq<Phase>, st: Strategy, n: nat)
    requires n >= 1 && Linked(phases, st, n)
    ensures forall l: nat | l < n :: 2 * l < |phases| && phases[2 * l].kind == Compute(l)
    ensures forall p | 0 <= p < |phases| && phases[p].kind.Compute? ::
              p == 2 * phases[p].kind.layer && phases[p].kind.layer < n
  {
    forall l: nat | l < n ensures 2 * l < |phases| && phases[2 * l].kind == Compute(l) { KindsByLayer(st, n, l); }
    forall p | 0 <= p < |phases| && phases[p].kind.Compute?
      ensures p == 2 * phases[p].kind.layer && phases[p].kind.layer < n
    {
      assert phases[p].kind == KindOf(st, n, p);
    }
  }

  lemma SameSchedule(a: seq<Phase>, b: seq<Phase>, st: Strategy, n: nat)
    requires n >= 1 && Linked(a, st, n) && |b| == |a|
    requires forall p | 0 <= p < |a| :: b[p].kind == a[p].kind && b[p].deps == a[p].deps
    ensures Scheduled(st, n, b) && Graph(b) == Graph(a)
  {
  }

  /** s is s0 with the latencies of layers below l, and of layer l for inputs below i. */
  ghost predicate Measured(pl: Plan, s0: Progress, s: Progress, latency: seq<real>, l: nat, i: nat) {
    && s == s0.(inst := s.inst) && |s.inst| == |s0.inst|
    && (forall j: nat, q: nat :: Has(s, j, q) <==> Has(s0, j, q))
    && (forall j: nat, q: nat | Has(s0, j, q) && q < |pl.phases| ::
          var k := pl.phases[q].kind;
          s.inst[j][q] == if k.Compute? && k.layer < |latency| && (k.layer < l || (k.layer == l && j < i))
                          then s0.inst[j][q].(latency := latency[k.layer]) else s0.inst[j][q])
  }

  lemma MeasuredIsUnstarted(pl: Plan, s0: Progress, s: Progress, latency: seq<real>, start: real)
    requires Unstarted(pl, s0, start) && |latency| == pl.numLayers && Measured(pl, s0, s, latency, pl.numLayers, 0)
    requires forall p | 0 <= p < |pl.phases| && pl.phases[p].kind.Compute? :: pl.phases[p].kind.layer < pl.numLayers
    ensures Unstarted(pl.(layerLatency := latency), s, start)
  {
    var pl' := pl.(layerLatency := latency);
    forall i: nat, p: nat ensures Has(s, i, p) <==> Exists(pl', i, p) {
      assert Has(s, i, p) <==> Has(s0, i, p);
      assert Has(s0, i, p) <==> Exists(pl, i, p);
    }
    forall i: nat, p: nat | Has(s, i, p) ensures s.inst[i][p] == FreshInstance(pl', p) {
      assert Has(s0, i, p) && Exists(pl, i, p);
      assert s0.inst[i][p] == FreshInstance(pl, p);
    }
  }

  /** Storing an instance that exists changes no shape. */
  lemma StoreKeepsShape(pl: Plan, s: Progress, i: nat, p: nat, x: Instance)
    requires Shape(pl, s) && Has(s, i, p) && p < |pl.phases|
    ensures Shape(pl, Store(s, i, p, x)) && Shape(pl, Put(pl, s, i, p, x))
  {
    var s', s2 := Store(s, i, p, x), Put(pl, s, i, p, x);
    forall j: nat, q: nat ensures (Has(s', j, q) <==> Has(s, j, q)) && (Has(s2, j, q) <==> Has(s, j, q)) { }
  }

  class MappedModel {
    const numLayers: nat
    const numInputs: nat
    const pipelined: bool
    const stationary: bool
    var phases: seq<Phase>
    var order: seq<nat>
    var computeOf: map<nat, nat>
    var actOf: map<nat, nat>
    var weightOf: map<nat, nat>
    var layerLatency: seq<real>
    var inst: seq<map<nat, Instance>>
    var inputStart: seq<real>
    var inputDone: seq<real>
    var loaded: set<nat>
    var done: real

    ghost function Blueprint(): Plan
      reads this`phases, this`order, this`computeOf, this`actOf, this`weightOf, this`layerLatency
    {
      Plan(phases, order, computeOf, actOf, weightOf, numLayers, numInputs, pipelined, stationary, layerLatency)
    }

    ghost function View(): Progress
      reads this`inst, this`inputStart, this`inputDone, this`loaded, this`done
    {
      Progress(inst, inputStart, inputDone, loaded, done)
    }

    /** Built by the scheduler and sized for its inputs. */
    ghost predicate Valid()
      reads this
    {
      && WellFormed(Blueprint())
      && Shape(Blueprint(), View())
    }

    // ----- building the schedule ------------------------------------------------------------------------

    ghost predicate Pristine(start: real)
      reads this
    {
      Unstarted(Blueprint(), View(), start)
    }

    /** The layer tables of the default schedule. */
    ghost predicate Tabled()
      reads this
    {
      && (forall l: nat :: l in computeOf <==> l < numLayers)
      && (forall l: nat :: l in actOf <==> l + 1 < numLayers)
      && (forall l | l in computeOf :: computeOf[l] == 2 * l)
      && (forall l | l in actOf :: actOf[l] == 2 * l + 1)
    }

    /** As the constructor leaves it: default schedule, no weight phases, no latencies. */
    ghost predicate JustBuilt(start: real)
      reads this
    {
      && Based(phases, numLayers) && Tabled() && weightOf == map[] && Pristine(start)
      && (forall l | 0 <= l < numLayers :: layerLatency[l] == 0.0)
    }

    constructor (numLayers: nat, numInputs: nat, start: real, pipelined: bool, stationary: bool)
      requires numLayers >= 1 && numInputs >= 1
      ensures this.numLayers == numLayers && this.numInputs == numInputs
      ensures this.pipelined == pipelined && this.stationary == stationary
      ensures JustBuilt(start)
    {
      this.numLayers, this.numInputs, this.pipelined, this.stationary := numLayers, numInputs, pipelined, stationary;
      inputStart := seq(numInputs, i => if i == 0 then start else UNSET);
      inputDone := seq(numInputs, _ => UNSET);
      layerLatency := seq(numLayers, _ => 0.0);
      loaded, done := {}, UNSET;
      phases, order := [], [];
      computeOf, actOf, weightOf := map[], map[], map[];
      inst := seq(numInputs, _ => map[]);
      new;
      BuildDefaultPhases();
      InitializeInstances();
    }

    method BuildDefaultPhases()
      requires numLayers >= 1 && phases == [] && order == [] && computeOf == map[] && actOf == map[]
      modifies this`phases, this`order, this`computeOf, this`actOf
      ensures Based(phases, numLayers) && Tabled() && Counts(order, |phases|)
    {
      for l := 0 to numLayers
        invariant |phases| == (if l == numLayers then 2 * l - 1 else 2 * l) && Counts(order, |phases|)
        invariant forall id | 0 <= id < |phases| ::
                    phases[id] == (if id % 2 == 0 then BasePhase(id).(deps := []) else BasePhase(id))
        invariant forall m: nat :: m in computeOf <==> m < l
        invariant forall m: nat :: m in actOf <==> m < l && m + 1 < numLayers
        invariant forall m | m in computeOf :: computeOf[m] == 2 * m
        invariant forall m | m in actOf :: actOf[m] == 2 * m + 1
      {
        var c := |phases|;
        phases, order, computeOf := phases + [Phase(Compute(l), [], map[])], order + [c], computeOf[l := c];
        if l < numLayers - 1 {
          var a := |phases|;
          phases, order, actOf := phases + [Phase(Activation(l), [c], map[])], order + [a], actOf[l := a];
        }
      }
      LinkActivations();
    }

    /** Every layer but the first computes on the activations of the one before. */
    method LinkActivations()
      requires numLayers >= 1 && |phases| == 2 * numLayers - 1 && Tabled()
      requires forall id | 0 <= id < |phases| ::
                 phases[id] == if id % 2 == 0 then BasePhase(id).(deps := []) else BasePhase(id)
      modifies this`phases
      ensures Based(phases, numLayers)
    {
      for l := 1 to numLayers
        invariant |phases| == 2 * numLayers - 1 && Tabled()
        invariant forall id | 0 <= id < |phases| ::
                    phases[id] == (if id % 2 == 0 && id >= 2 * l then BasePhase(id).(deps := []) else BasePhase(id))
      {
        var c := computeOf[l];
        if l - 1 in actOf { phases := phases[c := phases[c].(deps := phases[c].deps + [actOf[l - 1]])]; }
      }
    }

    /** Give every input the instances it does not have yet, except repeated stationary weight loads. */
    method InitializeInstances()
      requires |inst| == numInputs == |inputStart| == |inputDone| && |layerLatency| == numLayers
      requires forall l | 0 <= l < numLayers :: layerLatency[l] == 0.0
      requires forall i: nat, p: nat | Has(View(), i, p) ::
                 Exists(Blueprint(), i, p) && inst[i][p] == FreshInstance(Blueprint(), p)
      modifies this`inst
      ensures Shape(Blueprint(), View())
      ensures forall i: nat, p: nat | Has(View(), i, p) :: inst[i][p] == FreshInstance(Blueprint(), p)
    {
      ghost var pl := Blueprint();
      for i := 0 to numInputs
        invariant |inst| == numInputs && Blueprint() == pl
        invariant forall j: nat, p: nat | Has(View(), j, p) :: Exists(pl, j, p) && inst[j][p] == FreshInstance(pl, p)
        invariant forall j: nat, p: nat | j < i && Exists(pl, j, p) :: Has(View(), j, p)
      {
        for p := 0 to |phases|
          invariant |inst| == numInputs && Blueprint() == pl
          invariant forall j: nat, q: nat | Has(View(), j, q) :: Exists(pl, j, q) && inst[j][q] == FreshInstance(pl, q)
          invariant forall j: nat, q: nat | (j < i || (j == i && q < p)) && Exists(pl, j, q) :: Has(View(), j, q)
        {
          if p in inst[i] { assert Has(View(), i, p); continue; }
          if phases[p].kind.WeightLoad? && stationary && i > 0 { continue; }
          ghost var before := View();
          SetInstance(i, p, Instance(NotStarted, UNSET, UNSET, 0.0));
          assert forall j: nat, q: nat :: Has(View(), j, q) <==> Has(before, j, q) || (j == i && q == p);
        }
      }
    }

    /** Files phase w as the weight phase of the layers. */
    method FileWeights(st: Strategy, layers: seq<nat>, w: nat)
      requires numLayers >= 1 && forall l | l in layers :: l < numLayers && w == LoadOf(st, numLayers, l)
      requires forall l | l in weightOf :: l < numLayers && weightOf[l] == LoadOf(st, numLayers, l)
      modifies this`weightOf
      ensures forall l | l in weightOf :: l < numLayers && weightOf[l] == LoadOf(st, numLayers, l)
      ensures forall l: nat :: l in weightOf <==> l in old(weightOf) || l in layers
    {
      for j := 0 to |layers|
        invariant forall l | l in weightOf :: l < numLayers && weightOf[l] == LoadOf(st, numLayers, l)
        invariant forall l: nat :: l in weightOf <==> l in old(weightOf) || l in layers[..j]
      {
        weightOf := weightOf[layers[j] := w];
      }
      assert layers[..|layers|] == layers;
    }

    /** Appends one weight phase per entry of the schedule. */
    method AppendLoads(st: Strategy, schedule: seq<seq<nat>>)
      requires numLayers >= 1 && schedule == LoadSchedule(st, numLayers) && weightOf == map[]
      requires |phases| == BaseCount(numLayers)
      requires forall id | 0 <= id < |phases| :: phases[id] == LoadingPhase(st, numLayers, id)
      modifies this`phases, this`weightOf
      ensures Loading(phases, st, numLayers) && WeightTabled(st) && old(phases) <= phases
    {
      for k := 0 to |schedule|
        invariant |phases| == BaseCount(numLayers) + k && old(phases) <= phases
        invariant forall id | 0 <= id < |phases| :: phases[id] == LoadingPhase(st, numLayers, id)
        invariant forall l | l in weightOf :: l < numLayers && weightOf[l] == LoadOf(st, numLayers, l)
        invariant forall m, l | 0 <= m < k && l in schedule[m] :: l in weightOf
      {
        var w := |phases|;
        phases := phases + [Phase(WeightLoad(schedule[k]), [], map[])];
        FileWeights(st, schedule[k], w);
      }
      forall l: nat | l < numLayers ensures l in weightOf {
        if st.AllAtOnce? { assert l in schedule[0]; } else { assert l in schedule[l]; }
      }
    }

    /** Appends the weight phases, re-sorts, and adds the missing instances. */
    method AddWeightLoadingPhases(st: Strategy, schedule: seq<seq<nat>>, ghost start: real)
      requires numLayers >= 1 && numInputs >= 1 && schedule == LoadSchedule(st, numLayers)
      requires JustBuilt(start)
      modifies this`phases, this`order, this`weightOf, this`inst
      ensures Loading(phases, st, numLayers) && Tabled() && WeightTabled(st) && Pristine(start)
      ensures ExecutionOrder.NoDup(order) && forall p: nat :: p in order <==> p < |phases|
    {
      ghost var s0, pl0 := View(), Blueprint();
      AppendLoads(st, schedule);
      SortExecutionOrder(st);
      forall i: nat, p: nat | Has(View(), i, p)
        ensures Exists(Blueprint(), i, p) && inst[i][p] == FreshInstance(Blueprint(), p)
      {
        assert Has(s0, i, p) && Exists(pl0, i, p);
        assert phases[p].kind == pl0.phases[p].kind;
      }
      InitializeInstances();
    }

    method SortExecutionOrder(ghost st: Strategy)
      requires numLayers >= 1 && ExecutionOrder.Closed(Graph(phases))
      modifies this`order
      ensures ExecutionOrder.NoDup(order) && |order| == |phases|
      ensures forall p: nat :: p in order <==> p < |phases|
      ensures Scheduled(st, numLayers, phases) ==> ExecutionOrder.Ordered(Graph(phases), order, 0)
    {
      var g := seq(|phases|, k requires 0 <= k < |phases| reads this => phases[k].deps);
      assert g == Graph(phases);
      order := ExecutionOrder.Sort(g, (id: nat) => Rank(st, numLayers, id));
      if Scheduled(st, numLayers, phases) { ScheduleIsAcyclic(st, numLayers, phases); }
    }

    /** Appends a dependency unless it is there already. */
    method AddDependency(p: nat, d: nat)
      requires p < |phases|
      modifies this`phases
      ensures phases == Depending(old(phases), p, d)
    {
      if d !in phases[p].deps { phases := phases[p := phases[p].(deps := phases[p].deps + [d])]; }
    }

    ghost predicate WeightTabled(st: Strategy)
      reads this
      requires numLayers >= 1
    {
      && (forall l: nat :: l in weightOf <==> l < numLayers)
      && (forall l | l in weightOf :: weightOf[l] == LoadOf(st, numLayers, l))
    }

    /** WeightScheduler: every compute phase waits for the one weight phase. */
    method LinkToOneLoad()
      requires numLayers >= 1 && Loading(phases, AllAtOnce, numLayers) && Tabled() && WeightTabled(AllAtOnce)
      modifies this`phases
      ensures Linked(phases, AllAtOnce, numLayers)
    {
      LinkingStarts(phases, AllAtOnce, numLayers);
      var w := weightOf[0];
      for l := 0 to numLayers
        invariant LinkedBelow(phases, AllAtOnce, numLayers, l)
      {
        LinkCompute(phases, AllAtOnce, numLayers, l);
        AddDependency(computeOf[l], w);
      }
      LinkingStarts(phases, AllAtOnce, numLayers);
    }

    method ConfigureAllAtOnce(ghost start: real)
      requires numLayers >= 1 && Loading(phases, AllAtOnce, numLayers) && Tabled() && WeightTabled(AllAtOnce)
      requires Pristine(start)
      modifies this`phases, this`order
      ensures Linked(phases, AllAtOnce, numLayers) && Sorted() && Pristine(start)
    {
      ghost var pl := Blueprint();
      LinkToOneLoad();
      SameKinds(pl.phases, phases, AllAtOnce, numLayers);
      UnstartedByKinds(pl, Blueprint(), View(), start);
      LinkedIsScheduled(phases, AllAtOnce, numLayers);
      SortExecutionOrder(AllAtOnce);
    }

    /** WeightScheduler, just in time: a layer's weights are loaded after the previous layer's activations. */
    method LinkWeightLoads()
      requires numLayers >= 1 && Loading(phases, JustInTime, numLayers) && Tabled() && WeightTabled(JustInTime)
      modifies this`phases
      ensures LinkedBelow(phases, JustInTime, numLayers, 0)
    {
      LinkingStarts(phases, JustInTime, numLayers);
      for l := 1 to numLayers
        invariant LoadsLinkedBelow(phases, numLayers, l)
      {
        LinkLoad(phases, numLayers, l);
        LinkWeightLoad(l);
      }
      LinkingStarts(phases, JustInTime, numLayers);
    }

    method LinkWeightLoad(l: nat)
      requires 1 <= l < numLayers && Tabled() && WeightTabled(JustInTime) && LoadOf(JustInTime, numLayers, l) < |phases|
      modifies this`phases
      ensures phases == Depending(old(phases), BaseCount(numLayers) + l, 2 * l - 1)
    {
      var compute := computeOf[l - 1];
      AddDependency(weightOf[l], if l - 1 in actOf then actOf[l - 1] else compute);
    }

    /** WeightScheduler, just in time: each compute phase waits for its own weight phase. */
    method LinkComputePhases()
      requires numLayers >= 1 && LinkedBelow(phases, JustInTime, numLayers, 0) && Tabled() && WeightTabled(JustInTime)
      modifies this`phases
      ensures Linked(phases, JustInTime, numLayers)
    {
      for l := 0 to numLayers
        invariant LinkedBelow(phases, JustInTime, numLayers, l)
      {
        LinkCompute(phases, JustInTime, numLayers, l);
        AddDependency(computeOf[l], weightOf[l]);
      }
      LinkingStarts(phases, JustInTime, numLayers);
    }

    method ConfigureJustInTime(ghost start: real)
      requires numLayers >= 1 && Loading(phases, JustInTime, numLayers) && Tabled() && WeightTabled(JustInTime)
      requires Pristine(start)
      modifies this`phases, this`order
      ensures Linked(phases, JustInTime, numLayers) && Sorted() && Pristine(start)
    {
      ghost var pl := Blueprint();
      LinkWeightLoads();
      LinkComputePhases();
      UnstartedByKinds(pl, Blueprint(), View(), start);
      LinkedIsScheduled(phases, JustInTime, numLayers);
      SortExecutionOrder(JustInTime);
    }

    ghost predicate Sorted()
      reads this
    {
      && (forall p: nat :: p in order <==> p < |phases|)
      && ExecutionOrder.Ordered(Graph(phases), order, 0)
    }

    /** The compute latencies of all layers, the same for every input. */
    method UpdateComputeMetrics(latency: seq<real>, ghost start: real)
      requires numLayers >= 1 && |latency| == numLayers && Pristine(start) && Tabled()
      requires forall l: nat | l < numLayers :: 2 * l < |phases| && phases[2 * l].kind == Compute(l)
      requires forall p | 0 <= p < |phases| && phases[p].kind.Compute? ::
                 p == 2 * phases[p].kind.layer && phases[p].kind.layer < numLayers
      modifies this`inst, this`layerLatency
      ensures layerLatency == latency && Pristine(start)
    {
      ghost var pl, s0 := Blueprint(), View();
      for l := 0 to numLayers
        modifies this`inst
        invariant Measured(pl, s0, View(), latency, l, 0)
      {
        var c := computeOf[l];
        for i := 0 to numInputs
          modifies this`inst
          invariant Measured(pl, s0, View(), latency, l, i)
        {
          assert Has(s0, i, c) by { assert Exists(pl, i, c); }
          assert Has(View(), i, c);
          ghost var before := View();
          SetInstance(i, c, inst[i][c].(latency := latency[l]));
          assert forall j: nat, q: nat :: Has(View(), j, q) <==> Has(before, j, q);
        }
      }
      MeasuredIsUnstarted(pl, s0, View(), latency, start);
      layerLatency := latency;
    }

    /** Traffic of the communication phases, from the traffic calculator. */
    method CalculateAllTraffic(traffic: seq<Traffic>, ghost start: real)
      requires |traffic| == |phases| && Pristine(start)
      modifies this`phases
      ensures |phases| == |old(phases)| && Pristine(start)
      ensures forall p | 0 <= p < |phases| :: phases[p] ==
                if old(phases)[p].kind.Compute? then old(phases)[p] else old(phases)[p].(traffic := traffic[p])
    {
      ghost var pl := Blueprint();
      for p := 0 to |phases|
        invariant |phases| == |pl.phases|
        invariant forall q | 0 <= q < |phases| :: phases[q] ==
                    if q < p && !pl.phases[q].kind.Compute? then pl.phases[q].(traffic := traffic[q]) else pl.phases[q]
      {
        if !phases[p].kind.Compute? { phases := phases[p := phases[p].(traffic := traffic[p])]; }
      }
      UnstartedByKinds(pl, Blueprint(), View(), start);
    }

    /** Weight phases added and linked by the scheduler's strategy. */
    method ScheduleWeights(st: Strategy, ghost start: real)
      requires numLayers >= 1 && numInputs >= 1
      requires JustBuilt(start)
      modifies this`phases, this`order, this`weightOf, this`inst
      ensures Linked(phases, st, numLayers) && Sorted() && Tabled() && WeightTabled(st) && Pristine(start)
    {
      AddWeightLoadingPhases(st, LoadSchedule(st, numLayers), start);
      if st.AllAtOnce? { ConfigureAllAtOnce(start); } else { ConfigureJustInTime(start); }
    }

    /** What GlobalManager does with a model it has just mapped: the result is well-formed and unstarted. */
    method Prepare(st: Strategy, latency: seq<real>, traffic: seq<Traffic>, ghost start: real)
      requires numLayers >= 1 && numInputs >= 1 && |latency| == numLayers
      requires (forall l | 0 <= l < numLayers :: latency[l] >= 0.0)
      requires |traffic| == BaseCount(numLayers) + LoadCount(st, numLayers)
      requires JustBuilt(start)
      modifies this`phases, this`order, this`weightOf, this`inst, this`layerLatency
      ensures Assembled(st, Blueprint()) && WellFormed(Blueprint()) && View() == Fresh(Blueprint(), start)
      ensures layerLatency == latency
      ensures forall p | 0 <= p < |phases| :: !phases[p].kind.Compute? ==> phases[p].traffic == traffic[p]
    {
      ScheduleWeights(st, start);
      LinkedKinds(phases, st, numLayers);
      UpdateComputeMetrics(latency, start);
      ghost var linked := phases;
      CalculateAllTraffic(traffic, start);
      SameSchedule(linked, phases, st, numLayers);
      assert forall k | 0 <= k < |order| :: order[k] in order;
      AssembledIsWellFormed(st, Blueprint());
      UnstartedIsFresh(Blueprint(), View(), start);
    }

    // ----- reading: dependencies, start times, the current phase -----------------------------------

    method DependenciesMet(i: nat, p: nat) returns (r: Readiness)
      requires p < |phases| && |inst| == numInputs && i < numInputs
      ensures r == Unmet <==> !DepsMet(Blueprint(), View(), i, p)
      ensures r == Misconfigured <==> DepsMet(Blueprint(), View(), i, p) && ConfigError(Blueprint(), View(), i, p)
    {
      var phase := phases[p];
      for k := 0 to |phase.deps|
        invariant forall m | 0 <= m < k :: Has(View(), i, phase.deps[m]) ==> Done(View(), i, phase.deps[m])
      {
        var d := phase.deps[k];
        if d !in inst[i] { continue; }
        if inst[i][d].state != Complete {
          assert d in phase.deps && Has(View(), i, d) && !Done(View(), i, d);
          return Unmet;
        }
      }
      if pipelined && i > 0 && p in inst[i - 1] && inst[i - 1][p].state != Complete {
        assert Has(View(), i - 1, p);
        return Unmet;
      }
      if phase.kind.Compute? {
        var l := phase.kind.layer;
        if l in weightOf && !(stationary && l in loaded) {
          var w := weightOf[l];
          if (w !in inst[i] || inst[i][w].state != Complete) && w !in phase.deps { return Misconfigured; }
        }
      }
      r := Met;
    }

    method PhaseStartTime(i: nat, p: nat) returns (start: real)
      requires p < |phases| && i < |inputStart| == |inst|
      ensures start == StartTime(Blueprint(), View(), i, p)
    {
      var deps := phases[p].deps;
      start := inputStart[i];
      for k := 0 to |deps|
        invariant start == LatestDep(View(), i, deps[..k], inputStart[i])
      {
        var d := deps[k];
        assert deps[..k + 1][..k] == deps[..k] && deps[..k + 1][k] == d;
        if d in inst[i] && inst[i][d].completion > start { start := inst[i][d].completion; }
      }
      assert deps[..|deps|] == deps;
      if pipelined && i > 0 && p in inst[i - 1] && inst[i - 1][p].completion > start {
        start := inst[i - 1][p].completion;
      }
    }

    method FindCurrentPhase(i: nat) returns (current: Option<nat>)
      requires Valid() && i < numInputs
      ensures current == CurrentFrom(Blueprint(), View(), i, 0)
    {
      ghost var pl, s := Blueprint(), View();
      for k := 0 to |order|
        invariant CurrentFrom(pl, s, i, 0) == CurrentFrom(pl, s, i, k)
      {
        var p := order[k];
        if p !in inst[i] { continue; }
        if inst[i][p].state != Complete {
          var r := DependenciesMet(i, p);
          NeverConfigError(pl, s, i, p);
          if r.Met? { return Some(p); }
        }
      }
      current := None;
    }

    // ----- activation ---------------------------------------------------------------------------------

    method SetInstance(i: nat, p: nat, x: Instance)
      requires i < |inst|
      modifies this`inst
      ensures View() == Store(old(View()), i, p, x)
    {
      var row: map<nat, Instance> := inst[i];
      inst := inst[i := row[p := x]];
    }

    method MarkLoaded(layers: seq<nat>)
      modifies this`loaded
      ensures loaded == old(loaded) + (set l | l in layers)
    {
      for k := 0 to |layers|
        invariant loaded == old(loaded) + (set l | l in layers[..k])
      {
        assert layers[..k + 1] == layers[..k] + [layers[k]];
        loaded := loaded + {layers[k]};
      }
      assert layers[..|layers|] == layers;
    }

    method ActivateCompute(i: nat, p: nat, t: real) returns (active: bool)
      requires p < |phases| && Has(View(), i, p) && i < |inputStart| == |inst| && phases[p].kind.Compute?
      modifies this`inst
      ensures View() == Put(old(Blueprint()), old(View()), i, p, Activated(old(Blueprint()), old(View()), i, p, t).0)
      ensures active == Activated(old(Blueprint()), old(View()), i, p, t).1
    {
      var x := inst[i][p];
      active := false;
      if x.state == NotStarted {
        var start := PhaseStartTime(i, p);
        SetInstance(i, p, x.(state := Running, start := start));
        active := true;
      } else if x.state == Running && t - x.start < x.latency {
        SetInstance(i, p, x);
        active := true;
      } else if x.state == Running {
        SetInstance(i, p, x.(state := Complete, completion := x.start + x.latency));
      } else {
        SetInstance(i, p, x);
      }
    }

    method CompleteComm(i: nat, p: nat, x: Instance)
      requires p < |phases| && i < |inst| && x.state.Complete?
      modifies this`inst, this`loaded
      ensures View() == Put(old(Blueprint()), old(View()), i, p, x)
    {
      SetInstance(i, p, x);
      if phases[p].kind.WeightLoad? { MarkLoaded(phases[p].kind.layers); }
    }

    /** A running communication whose latency is known. */
    method ContinueComm(i: nat, p: nat, t: real) returns (active: bool)
      requires p < |phases| && Has(View(), i, p) && i < |inputStart| == |inst|
      requires !phases[p].kind.Compute? && !SkipsLoad(Blueprint(), View(), p)
      requires inst[i][p].state == Running && inst[i][p].latency > 0.0
      modifies this`inst, this`loaded
      ensures View() == Put(old(Blueprint()), old(View()), i, p, Activated(old(Blueprint()), old(View()), i, p, t).0)
      ensures active == Activated(old(Blueprint()), old(View()), i, p, t).1
    {
      var x := inst[i][p];
      var elapsed := t - x.start;
      if elapsed < x.latency {
        var percent := if elapsed / x.latency > 1.0 then 1.0 else elapsed / x.latency;
        active := HasTraffic(ScaledTraffic(phases[p].traffic, 1.0 - percent));
        SetInstance(i, p, x);
      } else {
        active := false;
        CompleteComm(i, p, x.(state := Complete, completion := x.start + x.latency));
      }
    }

    method ActivateComm(i: nat, p: nat, t: real) returns (active: bool)
      requires p < |phases| && Has(View(), i, p) && !Done(View(), i, p) && i < |inputStart| == |inst|
      requires !phases[p].kind.Compute? && !SkipsLoad(Blueprint(), View(), p)
      modifies this`inst, this`loaded
      ensures View() == Put(old(Blueprint()), old(View()), i, p, Activated(old(Blueprint()), old(View()), i, p, t).0)
      ensures active == Activated(old(Blueprint()), old(View()), i, p, t).1
    {
      var x, traffic := inst[i][p], phases[p].traffic;
      active := false;
      if x.latency == 0.0 && x.state == NotStarted {
        var start := PhaseStartTime(i, p);
        if !HasTraffic(traffic) {
          CompleteComm(i, p, Instance(Complete, start, start, -1.0));
        } else {
          SetInstance(i, p, x.(state := Running, start := start));
          active := true;
        }
      } else if x.state == Running && x.latency > 0.0 {
        active := ContinueComm(i, p, t);
      } else if x.state == Running {
        if !HasTraffic(traffic) {
          CompleteComm(i, p, x.(state := Complete, completion := x.start, latency := -1.0));
        } else {
          SetInstance(i, p, x);
          active := true;
        }
      } else {
        SetInstance(i, p, x);
      }
    }

    method ActivateSkippedLoad(i: nat, p: nat, t: real)
      requires p < |phases| && Has(View(), i, p) && !Done(View(), i, p) && i < |inputStart| == |inst|
      requires SkipsLoad(Blueprint(), View(), p)
      modifies this`inst, this`loaded
      ensures View() == Put(old(Blueprint()), old(View()), i, p, Activated(old(Blueprint()), old(View()), i, p, t).0)
    {
      var x := inst[i][p];
      if x.state == NotStarted { CompleteComm(i, p, Instance(Complete, t, t, 0.0)); } else { SetInstance(i, p, x); }
    }

    method AllWeightsLoaded(p: nat) returns (b: bool)
      requires p < |phases|
      ensures b == SkipsLoad(Blueprint(), View(), p)
    {
      var kind := phases[p].kind;
      if !kind.WeightLoad? || !stationary { return false; }
      for k := 0 to |kind.layers|
        invariant forall m | 0 <= m < k :: kind.layers[m] in loaded
      {
        if kind.layers[k] !in loaded { return false; }
      }
      b := true;
    }

    /** One input's turn: its current phase advances, and is reported while it is active. */
    method ActivateInputAt(i: nat, t: real) returns (reported: Option<nat>)
      requires Valid() && i < numInputs
      modifies this`inst, this`loaded
      ensures Shape(Blueprint(), View()) && (View(), reported) == ActivateInput(old(Blueprint()), old(View()), i, t)
    {
      reported := None;
      if inputStart[i] == UNSET || t < inputStart[i] { return; }
      var current := FindCurrentPhase(i);
      if current.None? { return; }
      var p := current.value;
      StoreKeepsShape(Blueprint(), View(), i, p, Activated(Blueprint(), View(), i, p, t).0);
      var active: bool;
      if phases[p].kind.Compute? {
        active := ActivateCompute(i, p, t);
      } else {
        var skip := AllWeightsLoaded(p);
        if skip {
          ActivateSkippedLoad(i, p, t);
          active := false;
        } else {
          active := ActivateComm(i, p, t);
        }
      }
      if active { reported := Some(p); }
    }

    /** One turn of the loop below; s was the progress before it. */
    method ActivateTurn(i: nat, t: real, active: seq<(nat, nat)>, ghost s: Progress) returns (active': seq<(nat, nat)>)
      requires Valid() && i < numInputs == |s.inputStart| && View() == Activate(Blueprint(), s, t, i)
      requires active == ActiveList(Blueprint(), s, t, i)
      modifies this`inst, this`loaded
      ensures Valid() && View() == Activate(Blueprint(), s, t, i + 1)
      ensures active' == ActiveList(Blueprint(), s, t, i + 1)
    {
      var reported := ActivateInputAt(i, t);
      ActivateNext(Blueprint(), s, t, i, View(), reported);
      active' := if reported.Some? then active + [(i, reported.value)] else active;
    }

    method GetActivePhases(t: real) returns (active: seq<(nat, nat)>)
      requires Valid()
      modifies this`inst, this`loaded
      ensures Valid() && Blueprint() == old(Blueprint())
      ensures View() == Activate(old(Blueprint()), old(View()), t, numInputs)
      ensures active == ActiveList(old(Blueprint()), old(View()), t, numInputs)
    {
      ghost var s := View();
      active := [];
      for i := 0 to numInputs
        invariant Valid() && View() == Activate(Blueprint(), s, t, i) && active == ActiveList(Blueprint(), s, t, i)
      {
        active := ActivateTurn(i, t, active, s);
      }
    }

    // ----- latency updates ------------------------------------------------------------------------------

    method UpdatePhaseLatency(i: nat, p: nat, latency: real, t: real)
      requires i < |inst|
      modifies this`inst
      ensures View() == UpdateLatency(old(Blueprint()), old(View()), i, p, latency, t)
    {
      if p !in inst[i] { return; }
      var x := inst[i][p];
      if x.latency == 0.0 {
        SetInstance(i, p, x.(latency := latency));
      } else if x.latency > 0.0 && x.state == Running {
        var elapsed := t - x.start;
        SetInstance(i, p, x.(latency := elapsed + latency));
      } else {
        SetInstance(i, p, x);
      }
    }

    // ----- timing -----------------------------------------------------------------------------------------

    method AllPhasesDone(i: nat) returns (b: bool)
      requires i < |inst|
      ensures b == AllDone(Blueprint(), View(), i)
    {
      for k := 0 to |order|
        invariant forall m | 0 <= m < k :: Has(View(), i, order[m]) ==> Done(View(), i, order[m])
      {
        if order[k] in inst[i] && inst[i][order[k]].state != Complete {
          assert order[k] in order && Has(View(), i, order[k]);
          return false;
        }
      }
      b := true;
    }

    method FirstLayerCompletion(i: nat) returns (v: Option<real>)
      requires Valid() && i < numInputs
      ensures v == FirstLayerTime(Blueprint(), View(), i, 0)
    {
      ghost var pl, s := Blueprint(), View();
      for l := 0 to numLayers
        invariant FirstLayerTime(pl, s, i, 0) == FirstLayerTime(pl, s, i, l)
      {
        var c := computeOf[l];
        if c in inst[i] {
          if l in actOf {
            var a := actOf[l];
            if a in inst[i] && inst[i][c].state == Complete && inst[i][a].state == Complete {
              return Some(Max(inst[i][c].completion, inst[i][a].completion));
            }
          } else if inst[i][c].state == Complete {
            return Some(inst[i][c].completion);
          }
        }
      }
      v := None;
    }

    method BeginInput(i: nat)
      requires Valid() && i < numInputs
      modifies this`inputStart
      ensures View() == StartInput(old(Blueprint()), old(View()), i)
    {
      if i > 0 && inputStart[i] == UNSET {
        if pipelined {
          var first := FirstLayerCompletion(i - 1);
          if first.Some? { inputStart := inputStart[i := first.value]; }
        } else {
          var prev := AllPhasesDone(i - 1);
          if prev && inputDone[i - 1] != UNSET { inputStart := inputStart[i := inputDone[i - 1]]; }
        }
        assert inputStart == StartInput(old(Blueprint()), old(View()), i).inputStart;
      }
    }

    method TimePhaseAt(i: nat, p: nat)
      requires p < |phases| && i < |inputStart| == |inst| == numInputs
      requires !ConfigError(Blueprint(), View(), i, p)
      modifies this`inst
      ensures View() == TimePhase(old(Blueprint()), old(View()), i, p)
    {
      if p !in inst[i] { return; }
      var x := inst[i][p];
      if x.state == Complete { return; }
      var r := DependenciesMet(i, p);
      if r.Unmet? { return; }
      if x.start < 0.0 {
        var start := PhaseStartTime(i, p);
        x := x.(start := start);
      }
      if x.latency > 0.0 && x.completion < 0.0 {
        x := x.(completion := x.start + x.latency);
      }
      SetInstance(i, p, x);
    }

    method LatestCompletion(i: nat) returns (last: real)
      requires i < |inst|
      ensures last == LastCompletion(View(), i, order)
    {
      last := UNSET;
      for k := 0 to |order|
        invariant last == LastCompletion(View(), i, order[..k])
      {
        var p := order[k];
        assert order[..k + 1][..k] == order[..k] && order[..k + 1][k] == p;
        if p in inst[i] { last := Max(last, inst[i][p].completion); }
      }
      assert order[..|order|] == order;
    }

    method TimePhasesOf(i: nat)
      requires Valid() && i < numInputs
      modifies this`inst
      ensures Valid() && View() == TimePhases(old(Blueprint()), old(View()), i, |order|)
    {
      ghost var pl, s1 := Blueprint(), View();
      for k := 0 to |order|
        invariant Valid() && View() == TimePhases(pl, s1, i, k)
      {
        TimeValidPhase(i, order[k]);
      }
    }

    method TimeValidPhase(i: nat, p: nat)
      requires Valid() && i < numInputs && p < |phases|
      modifies this`inst
      ensures Valid() && View() == TimePhase(old(Blueprint()), old(View()), i, p)
    {
      ghost var pl, s := Blueprint(), View();
      NeverConfigError(pl, s, i, p);
      if Has(s, i, p) { StoreKeepsShape(pl, s, i, p, Timed(inst[i][p], StartTime(pl, s, i, p))); }
      TimePhaseAt(i, p);
    }

    method FinishInputAt(i: nat)
      requires i < |inst| && i < |inputDone|
      modifies this`inputDone
      ensures View() == FinishInput(old(Blueprint()), old(View()), i)
    {
      var all := AllPhasesDone(i);
      if all && inputDone[i] == UNSET {
        var last := LatestCompletion(i);
        inputDone := inputDone[i := last];
      }
    }

    method TimeInputAt(i: nat)
      requires Valid() && i < numInputs
      modifies this`inst, this`inputStart, this`inputDone
      ensures Valid() && Blueprint() == old(Blueprint())
      ensures View() == TimeInput(old(Blueprint()), old(View()), i)
    {
      BeginInput(i);
      if inputStart[i] == UNSET { return; }
      TimePhasesOf(i);
      FinishInputAt(i);
    }

    method FinishModelAt()
      requires |inputDone| >= 1
      modifies this`done
      ensures View() == FinishModel(old(View()))
    {
      if forall k | 0 <= k < |inputDone| :: inputDone[k] != UNSET {
        var latest := inputDone[0];
        for k := 1 to |inputDone|
          invariant latest == MaxOf(inputDone[..k])
        {
          assert inputDone[..k + 1][..k] == inputDone[..k];
          latest := Max(latest, inputDone[k]);
        }
        assert inputDone[..|inputDone|] == inputDone;
        done := latest;
      }
    }

    method CalculatePhaseTiming()
      requires Valid()
      modifies this`inst, this`inputStart, this`inputDone, this`done
      ensures Valid() && Blueprint() == old(Blueprint())
      ensures View() == Time(old(Blueprint()), old(View()))
    {
      ghost var pl, s := Blueprint(), View();
      for i := 0 to numInputs
        modifies this`inst, this`inputStart, this`inputDone
        invariant Valid() && Blueprint() == pl && View() == TimeInputs(pl, s, i)
      {
        TimeInputAt(i);
      }
      FinishModelAt();
    }

    method Finished(t: real) returns (b: bool)
      ensures b == IsComplete(View(), t)
    {
      b := done != UNSET && t >= done;
    }
  }
}
