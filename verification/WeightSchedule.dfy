/** The phase graphs that MappedModel and WeightScheduler build, in closed form, and the proof
    that every such plan is well-formed (src/sim/scheduling/weight_scheduler.py). */
module WeightSchedule {
  import opened Phases
  import opened PhaseEngine
  import opened EngineInvariant
  import ExecutionOrder

  datatype Strategy = AllAtOnce | JustInTime

  /** Compute of layer l has id 2l, its activations 2l + 1; weight loads follow from 2n - 1 on. */
  function BaseCount(n: nat): nat
    requires n >= 1
  {
    2 * n - 1
  }

  function LoadCount(st: Strategy, n: nat): nat { if st.AllAtOnce? then 1 else n }

  function LoadOf(st: Strategy, n: nat, l: nat): nat
    requires n >= 1
  {
    if st.AllAtOnce? then BaseCount(n) else BaseCount(n) + l
  }

  function Layers(n: nat): (r: seq<nat>)
    ensures |r| == n && (forall l | 0 <= l < n :: r[l] == l) && forall l: nat :: l in r <==> l < n
  {
    if n == 0 then [] else Layers(n - 1) + [n - 1]
  }

  function KindOf(st: Strategy, n: nat, id: nat): Kind
    requires n >= 1
  {
    if id < BaseCount(n) then (if id % 2 == 0 then Compute(id / 2) else Activation(id / 2))
    else if st.AllAtOnce? then WeightLoad(Layers(n))
    else WeightLoad([id - BaseCount(n)])
  }

  /** Dependencies before the weight scheduler adds its own. */
  function BaseDeps(id: nat): seq<nat> { if id == 0 then [] else [id - 1] }

  function DepsOf(st: Strategy, n: nat, id: nat): seq<nat>
    requires n >= 1
  {
    if id < BaseCount(n) then
      BaseDeps(id) + (if id % 2 == 0 then [LoadOf(st, n, id / 2)] else [])
    else if st.AllAtOnce? || id == BaseCount(n) then []
    else [2 * (id - BaseCount(n)) - 1]
  }

  ghost predicate Scheduled(st: Strategy, n: nat, phases: seq<Phase>)
    requires n >= 1
  {
    && |phases| == BaseCount(n) + LoadCount(st, n)
    && (forall id | 0 <= id < |phases| :: phases[id].kind == KindOf(st, n, id) && phases[id].deps == DepsOf(st, n, id))
  }

  function Graph(phases: seq<Phase>): ExecutionOrder.Graph {
    seq(|phases|, k requires 0 <= k < |phases| => phases[k].deps)
  }

  /** Layers run in sequence: load, compute, activate. */
  function Rank(st: Strategy, n: nat, id: nat): nat
    requires n >= 1
  {
    if id < BaseCount(n) then (if id % 2 == 0 then 3 * (id / 2) + 1 else 3 * (id / 2) + 2)
    else if st.AllAtOnce? then 0
    else 3 * (id - BaseCount(n))
  }

  lemma ScheduleIsAcyclic(st: Strategy, n: nat, phases: seq<Phase>)
    requires n >= 1 && Scheduled(st, n, phases)
    ensures ExecutionOrder.Closed(Graph(phases))
    ensures ExecutionOrder.Ranked(Graph(phases), (id: nat) => Rank(st, n, id))
  {
    var g := Graph(phases);
    forall p: nat, d | p < |g| && d in g[p] ensures d < |g| && Rank(st, n, d) < Rank(st, n, p) {
      assert d in DepsOf(st, n, p);
      if p < BaseCount(n) {
        if p % 2 == 0 && d == LoadOf(st, n, p / 2) {
          assert p / 2 < n;
        } else {
          assert d == p - 1;
        }
      } else {
        var l := p - BaseCount(n);
        assert d == 2 * l - 1 && d % 2 == 1 && d / 2 == l - 1;
      }
    }
  }

  /** A plan assembled from scheduled phases, their sorted order and the layer tables. */
  ghost predicate Assembled(st: Strategy, pl: Plan) {
    && pl.numLayers >= 1 && pl.numInputs >= 1
    && Scheduled(st, pl.numLayers, pl.phases)
    && (forall k | 0 <= k < |pl.order| :: pl.order[k] < |pl.phases|)
    && (forall p | 0 <= p < |pl.phases| :: p in pl.order)
    && ExecutionOrder.Ordered(Graph(pl.phases), pl.order, 0)
    && (forall l: nat :: l in pl.computeOf <==> l < pl.numLayers)
    && (forall l: nat :: l in pl.actOf <==> l + 1 < pl.numLayers)
    && (forall l: nat :: l in pl.weightOf <==> l < pl.numLayers)
    && (forall l | l in pl.computeOf :: pl.computeOf[l] == 2 * l)
    && (forall l | l in pl.actOf :: pl.actOf[l] == 2 * l + 1)
    && (forall l | l in pl.weightOf :: pl.weightOf[l] == LoadOf(st, pl.numLayers, l))
    && |pl.layerLatency| == pl.numLayers
    && (forall l | 0 <= l < pl.numLayers :: pl.layerLatency[l] >= 0.0)
  }

  lemma AssembledTopological(st: Strategy, pl: Plan)
    requires Assembled(st, pl)
    ensures Topological(pl.phases, pl.order)
  {
    var g := Graph(pl.phases);
    forall k, d | 0 <= k < |pl.order| && d in pl.phases[pl.order[k]].deps ensures d in pl.order[..k] {
      assert d in g[pl.order[k]];
    }
  }

  lemma AssembledWeights(st: Strategy, pl: Plan)
    requires Assembled(st, pl)
    ensures WeightsPlanned(pl)
  {
    var n := pl.numLayers;
    forall p | 0 <= p < |pl.phases| && pl.phases[p].kind.Compute?
      ensures pl.phases[p].kind.layer in pl.weightOf && pl.weightOf[pl.phases[p].kind.layer] in pl.phases[p].deps
    {
      assert pl.phases[p].kind == KindOf(st, n, p) && p / 2 < n;
      assert LoadOf(st, n, p / 2) in DepsOf(st, n, p);
    }
    forall p | 0 <= p < |pl.phases| && pl.phases[p].kind.WeightLoad?
      ensures pl.phases[p].kind.layers != [] &&
              forall l | l in pl.phases[p].kind.layers :: l in pl.weightOf && pl.weightOf[l] == p
    {
      assert pl.phases[p].kind == KindOf(st, n, p);
    }
    forall l | l in pl.weightOf
      ensures pl.weightOf[l] < |pl.phases| && pl.phases[pl.weightOf[l]].kind.WeightLoad? &&
              l in pl.phases[pl.weightOf[l]].kind.layers
    {
      assert pl.phases[pl.weightOf[l]].kind == KindOf(st, n, pl.weightOf[l]);
    }
  }

  lemma KindsByLayer(st: Strategy, n: nat, l: nat)
    requires l < n
    ensures 2 * l < BaseCount(n) && KindOf(st, n, 2 * l) == Compute(l)
    ensures l + 1 < n ==> 2 * l + 1 < BaseCount(n) && KindOf(st, n, 2 * l + 1) == Activation(l)
    ensures l + 1 < n ==> DepsOf(st, n, 2 * l + 1) == [2 * l] && 2 * l + 1 in DepsOf(st, n, 2 * (l + 1))
  {
    assert (2 * l) / 2 == l && (2 * l + 1) / 2 == l;
    if l + 1 < n {
      assert DepsOf(st, n, 2 * (l + 1)) == [2 * l + 1] + [LoadOf(st, n, l + 1)];
    }
  }

  lemma AssembledShape(st: Strategy, pl: Plan)
    requires Assembled(st, pl)
    ensures PlanShape(pl)
  {
    forall l | l in pl.computeOf ensures pl.computeOf[l] < |pl.phases| && !pl.phases[pl.computeOf[l]].kind.WeightLoad? {
      KindsByLayer(st, pl.numLayers, l);
    }
    forall l | l in pl.actOf ensures pl.actOf[l] < |pl.phases| && !pl.phases[pl.actOf[l]].kind.WeightLoad? {
      KindsByLayer(st, pl.numLayers, l);
    }
  }

  lemma AssembledLink(st: Strategy, pl: Plan, l: nat)
    requires Assembled(st, pl) && PlanShape(pl) && l < pl.numLayers
    ensures ChainLink(pl, l)
  {
    KindsByLayer(st, pl.numLayers, l);
    var c := pl.computeOf[l];
    assert c == 2 * l && pl.phases[c].kind == KindOf(st, pl.numLayers, c);
    if l + 1 < pl.numLayers { AssembledSuccessor(st, pl, l); }
  }

  lemma AssembledSuccessor(st: Strategy, pl: Plan, l: nat)
    requires Assembled(st, pl) && l + 1 < pl.numLayers
    ensures l in pl.actOf && pl.actOf[l] < |pl.phases| && pl.phases[pl.actOf[l]].deps == [pl.computeOf[l]]
    ensures pl.computeOf[l + 1] < |pl.phases| && pl.actOf[l] in pl.phases[pl.computeOf[l + 1]].deps
  {
    KindsByLayer(st, pl.numLayers, l);
    KindsByLayer(st, pl.numLayers, l + 1);
    var a, c := 2 * l + 1, 2 * (l + 1);
    assert pl.actOf[l] == a && pl.computeOf[l + 1] == c;
    assert pl.phases[a].deps == DepsOf(st, pl.numLayers, a);
    assert pl.phases[c].deps == DepsOf(st, pl.numLayers, c);
  }

  lemma AssembledChain(st: Strategy, pl: Plan)
    requires Assembled(st, pl)
    ensures PlanShape(pl) && Chained(pl)
  {
    AssembledShape(st, pl);
    forall l: nat | l < pl.numLayers ensures ChainLink(pl, l) { AssembledLink(st, pl, l); }
    forall p | 0 <= p < |pl.phases| && pl.phases[p].kind.Compute?
      ensures pl.phases[p].kind.layer < pl.numLayers && pl.computeOf[pl.phases[p].kind.layer] == p
    {
      assert pl.phases[p].kind == KindOf(st, pl.numLayers, p);
    }
  }

  /** Both loading strategies give well-formed plans for every number of layers and inputs. */
  lemma AssembledIsWellFormed(st: Strategy, pl: Plan)
    requires Assembled(st, pl)
    ensures WellFormed(pl)
  {
    AssembledTopological(st, pl);
    AssembledWeights(st, pl);
    AssembledChain(st, pl);
  }
}
