/** The invariant of a mapped model's run, and its preservation by every step of a tick. */
module EngineInvariant {
  import opened Options
  import opened Phases
  import opened PhaseEngine

  // ----- well-formed plans -----------------------------------------------------------------

  ghost predicate Topological(phases: seq<Phase>, order: seq<nat>) {
    && (forall k | 0 <= k < |order| :: order[k] < |phases|)
    && (forall p | 0 <= p < |phases| :: p in order)
    && (forall k, d | 0 <= k < |order| && d in phases[order[k]].deps :: d in order[..k])
  }

  /** Every layer's weights are loaded by exactly one phase, and its compute phase waits for it. */
  ghost predicate WeightsPlanned(pl: Plan) {
    && (forall l | l in pl.weightOf ::
          pl.weightOf[l] < |pl.phases| && pl.phases[pl.weightOf[l]].kind.WeightLoad? &&
          l in pl.phases[pl.weightOf[l]].kind.layers)
    && (forall p | 0 <= p < |pl.phases| && pl.phases[p].kind.WeightLoad? ::
          pl.phases[p].kind.layers != [] &&
          forall l | l in pl.phases[p].kind.layers :: l in pl.weightOf && pl.weightOf[l] == p)
    && (forall p | 0 <= p < |pl.phases| && pl.phases[p].kind.Compute? ::
          pl.phases[p].kind.layer in pl.weightOf && pl.weightOf[pl.phases[p].kind.layer] in pl.phases[p].deps)
  }

  /** Layer l's compute is followed by its activations and then by the next layer's compute. */
  ghost predicate ChainLink(pl: Plan, l: nat)
    requires PlanShape(pl) && l < pl.numLayers
  {
    && pl.phases[pl.computeOf[l]].kind == Compute(l)
    && (l in pl.actOf <==> l + 1 < pl.numLayers)
    && (l + 1 < pl.numLayers ==>
          pl.computeOf[l] in pl.phases[pl.actOf[l]].deps && pl.actOf[l] in pl.phases[pl.computeOf[l + 1]].deps)
  }

  ghost predicate Chained(pl: Plan)
    requires PlanShape(pl)
  {
    && (forall p | 0 <= p < |pl.phases| && pl.phases[p].kind.Compute? ::
          pl.phases[p].kind.layer < pl.numLayers && pl.computeOf[pl.phases[p].kind.layer] == p)
    && (forall l: nat | l < pl.numLayers :: ChainLink(pl, l))
  }

  ghost predicate WellFormed(pl: Plan) {
    && PlanShape(pl)
    && Topological(pl.phases, pl.order)
    && |pl.layerLatency| == pl.numLayers
    && (forall l | 0 <= l < pl.numLayers :: pl.layerLatency[l] >= 0.0)
    && WeightsPlanned(pl)
    && Chained(pl)
  }

  // ----- the invariant ---------------------------------------------------------------------

  /** The latency bookkeeping an instance of this phase must obey. */
  ghost predicate GoodLatency(pl: Plan, loaded: set<nat>, p: nat, x: Instance)
    requires p < |pl.phases|
  {
    match pl.phases[p].kind
    case Compute(l) =>
      l < |pl.layerLatency| && x.latency == pl.layerLatency[l] && x.latency >= 0.0 &&
      (!x.state.NotStarted? ==> l in loaded)
    case _ =>
      match x.state
      case NotStarted => x.latency == 0.0
      case Running => HasTraffic(pl.phases[p].traffic) && x.latency >= 0.0
      case Complete => if HasTraffic(pl.phases[p].traffic) then x.latency > 0.0 else x.latency == -1.0
  }

  /** x is an instance that (i, p) may hold at time t: its start is exactly the latest of its causes. */
  ghost predicate Good(pl: Plan, s: Progress, i: nat, p: nat, x: Instance, t: real)
    requires p < |pl.phases| && i < |s.inputStart|
  {
    && (x.start == UNSET ==> x.state.NotStarted?)
    && (x.start != UNSET ==>
          s.inputStart[i] != UNSET && DepsMet(pl, s, i, p) && x.start == StartTime(pl, s, i, p))
    && (x.state.Complete? ==> x.completion == x.start + Max(0.0, x.latency) && x.completion <= t)
    && GoodLatency(pl, s.loaded, p, x)
  }

  ghost predicate GoodInstances(pl: Plan, s: Progress, t: real)
    requires Shape(pl, s)
  {
    forall i: nat, p: nat {:trigger Good(pl, s, i, p, s.inst[i][p], t)} | Has(s, i, p) ::
        Good(pl, s, i, p, s.inst[i][p], t)
  }

  /** Why input i > 0 could start when it did. */
  ghost predicate Justified(pl: Plan, s: Progress, i: nat)
    requires 0 < i < |s.inputStart| == |s.inputDone|
  {
    if pl.pipelined then LayerTime(pl, s, i - 1, 0) == Some(s.inputStart[i])
    else AllDone(pl, s, i - 1) && s.inputDone[i - 1] != UNSET && s.inputStart[i] == s.inputDone[i - 1]
  }

  ghost predicate GoodInput(pl: Plan, s: Progress, i: nat, t: real)
    requires i < |s.inputStart| == |s.inputDone|
  {
    && (i == 0 ==> s.inputStart[i] != UNSET)
    && (s.inputStart[i] != UNSET ==> 0.0 <= s.inputStart[i] <= t && (i > 0 ==> Justified(pl, s, i)))
    && (s.inputDone[i] != UNSET ==>
          s.inputStart[i] != UNSET && AllDone(pl, s, i) && s.inputDone[i] == LastCompletion(s, i, pl.order))
  }

  ghost predicate GoodLoads(pl: Plan, s: Progress) {
    && (forall i: nat, p: nat | Has(s, i, p) && p < |pl.phases| && pl.phases[p].kind.WeightLoad? && Done(s, i, p) ::
          forall l | l in pl.phases[p].kind.layers :: l in s.loaded)
    && (pl.stationary ==>
          forall l | l in s.loaded :: l in pl.weightOf && Has(s, 0, pl.weightOf[l]) && Done(s, 0, pl.weightOf[l]))
  }

  ghost predicate GoodDone(s: Progress) {
    s.done != UNSET ==>
      |s.inputDone| >= 1 && (forall k | 0 <= k < |s.inputDone| :: s.inputDone[k] != UNSET) &&
          s.done == MaxOf(s.inputDone)
  }

  ghost predicate Inv(pl: Plan, s: Progress, t: real) {
    && Shape(pl, s)
    && GoodInstances(pl, s, t)
    && (forall i | 0 <= i < pl.numInputs :: GoodInput(pl, s, i, t))
    && GoodLoads(pl, s)
    && GoodDone(s)
  }

  // ----- what a step leaves alone ------------------------------------------------------------

  /** s' may only add to s: complete instances, set times and loaded layers stay as they are. */
  ghost predicate Frozen(s: Progress, s': Progress) {
    && |s.inst| == |s'.inst| && |s.inputStart| == |s'.inputStart| && |s.inputDone| == |s'.inputDone|
    && (forall i: nat, p: nat :: Has(s, i, p) <==> Has(s', i, p))
    && (forall i: nat, p: nat | Has(s, i, p) && Done(s, i, p) :: s'.inst[i][p] == s.inst[i][p])
    && (forall i | 0 <= i < |s.inputStart| && s.inputStart[i] != UNSET :: s'.inputStart[i] == s.inputStart[i])
    && (forall i | 0 <= i < |s.inputDone| && s.inputDone[i] != UNSET :: s'.inputDone[i] == s.inputDone[i])
    && s.loaded <= s'.loaded
  }

  /** s keeps the invariant and only adds to s0. */
  ghost predicate Kept(pl: Plan, s0: Progress, s: Progress, t: real) { Inv(pl, s, t) && Frozen(s0, s) }

  lemma FrozenRefl(s: Progress)
    ensures Frozen(s, s)
  {
  }

  lemma FrozenTrans(a: Progress, b: Progress, c: Progress)
    requires Frozen(a, b) && Frozen(b, c)
    ensures Frozen(a, c)
  {
    forall i: nat, p: nat | Has(a, i, p) && Done(a, i, p) ensures c.inst[i][p] == a.inst[i][p] {
      assert Has(b, i, p) && b.inst[i][p] == a.inst[i][p];
      assert Done(b, i, p);
    }
  }

  lemma {:induction false} LatestDepFrozen(s: Progress, s': Progress, i: nat, deps: seq<nat>, from: real)
    requires Frozen(s, s') && DepsDone(s, i, deps)
    ensures LatestDep(s', i, deps, from) == LatestDep(s, i, deps, from)
    decreases |deps|
  {
    if deps != [] {
      var d := deps[|deps| - 1];
      assert d in deps;
      LatestDepFrozen(s, s', i, deps[..|deps| - 1], from);
      assert Has(s, i, d) <==> Has(s', i, d);
    }
  }

  lemma StartTimeFrozen(pl: Plan, s: Progress, s': Progress, i: nat, p: nat)
    requires p < |pl.phases| && i < |s.inputStart| && Frozen(s, s')
    requires s.inputStart[i] != UNSET && DepsMet(pl, s, i, p)
    ensures DepsMet(pl, s', i, p) && StartTime(pl, s', i, p) == StartTime(pl, s, i, p)
  {
    LatestDepFrozen(s, s', i, pl.phases[p].deps, s.inputStart[i]);
    forall d | d in pl.phases[p].deps && Has(s', i, d) ensures Done(s', i, d) {
      assert Has(s, i, d) && Done(s, i, d);
    }
    if pl.pipelined && i > 0 {
      assert Has(s, i - 1, p) <==> Has(s', i - 1, p);
    }
  }

  lemma {:induction false} LastCompletionFrozen(s: Progress, s': Progress, i: nat, order: seq<nat>)
    requires Frozen(s, s')
    requires forall p | p in order && Has(s, i, p) :: Done(s, i, p)
    ensures LastCompletion(s', i, order) == LastCompletion(s, i, order)
    decreases |order|
  {
    if order != [] {
      var p := order[|order| - 1];
      assert p in order;
      LastCompletionFrozen(s, s', i, order[..|order| - 1]);
      assert Has(s, i, p) <==> Has(s', i, p);
    }
  }

  lemma AllDoneFrozen(pl: Plan, s: Progress, s': Progress, i: nat)
    requires Frozen(s, s') && AllDone(pl, s, i)
    ensures AllDone(pl, s', i) && LastCompletion(s', i, pl.order) == LastCompletion(s, i, pl.order)
  {
    LastCompletionFrozen(s, s', i, pl.order);
    forall p | p in pl.order && Has(s', i, p) ensures Done(s', i, p) {
      assert Has(s, i, p) && Done(s, i, p);
    }
  }

  lemma LayerTimeFrozen(pl: Plan, s: Progress, s': Progress, i: nat, l: nat)
    requires Frozen(s, s') && LayerTime(pl, s, i, l).Some?
    ensures LayerTime(pl, s', i, l) == LayerTime(pl, s, i, l)
  {
    assert Has(s, i, pl.computeOf[l]) && Done(s, i, pl.computeOf[l]);
    assert Has(s', i, pl.computeOf[l]);
    if l in pl.actOf {
      assert Has(s, i, pl.actOf[l]) && Done(s, i, pl.actOf[l]);
      assert Has(s', i, pl.actOf[l]);
    }
  }

  lemma GoodFrozen(pl: Plan, s: Progress, s': Progress, i: nat, p: nat, x: Instance, t: real, t': real)
    requires p < |pl.phases| && i < |s.inputStart| && Frozen(s, s') && t <= t'
    requires Good(pl, s, i, p, x, t)
    ensures Good(pl, s', i, p, x, t')
  {
    if x.start != UNSET {
      StartTimeFrozen(pl, s, s', i, p);
    }
  }

  lemma GoodInputFrozen(pl: Plan, s: Progress, s': Progress, i: nat, t: real, t': real)
    requires i < |s.inputStart| == |s.inputDone| && Frozen(s, s') && t <= t'
    requires GoodInput(pl, s, i, t)
    requires s'.inputStart[i] == s.inputStart[i] && s'.inputDone[i] == s.inputDone[i]
    ensures GoodInput(pl, s', i, t')
  {
    if s.inputStart[i] != UNSET && i > 0 {
      if pl.pipelined { LayerTimeFrozen(pl, s, s', i - 1, 0); } else { AllDoneFrozen(pl, s, s', i - 1); }
    }
    if s.inputDone[i] != UNSET {
      AllDoneFrozen(pl, s, s', i);
    }
  }

  // ----- storing an instance -------------------------------------------------------------------

  lemma PutFrozen(pl: Plan, s: Progress, i: nat, p: nat, x: Instance)
    requires p < |pl.phases| && Has(s, i, p) && !Done(s, i, p)
    ensures Frozen(s, Put(pl, s, i, p, x))
    ensures forall j: nat, q: nat | Has(s, j, q) && !(j == i && q == p) ::
              Put(pl, s, i, p, x).inst[j][q] == s.inst[j][q]
  {
    var s' := Put(pl, s, i, p, x);
    forall j: nat, q: nat ensures Has(s, j, q) <==> Has(s', j, q) { }
  }

  /** The one lemma behind activation, latency updates and timing: a good instance may be stored. */
  lemma PutKeepsInv(pl: Plan, s: Progress, i: nat, p: nat, x: Instance, t: real)
    requires WellFormed(pl) && Inv(pl, s, t)
    requires p < |pl.phases| && Has(s, i, p) && !Done(s, i, p) && Good(pl, s, i, p, x, t)
    ensures Inv(pl, Put(pl, s, i, p, x), t) && Frozen(s, Put(pl, s, i, p, x))
  {
    var s' := Put(pl, s, i, p, x);
    PutFrozen(pl, s, i, p, x);
    assert Shape(pl, s');
    forall j: nat, q: nat | Has(s', j, q) ensures Good(pl, s', j, q, s'.inst[j][q], t) {
      assert Has(s, j, q);
      GoodFrozen(pl, s, s', j, q, s'.inst[j][q], t, t);
    }
    forall j | 0 <= j < pl.numInputs ensures GoodInput(pl, s', j, t) {
      GoodInputFrozen(pl, s, s', j, t, t);
    }
    PutKeepsLoads(pl, s, i, p, x, t);
  }

  lemma PutKeepsLoads(pl: Plan, s: Progress, i: nat, p: nat, x: Instance, t: real)
    requires WellFormed(pl) && Inv(pl, s, t)
    requires p < |pl.phases| && Has(s, i, p) && !Done(s, i, p)
    ensures GoodLoads(pl, Put(pl, s, i, p, x))
  {
    var s' := Put(pl, s, i, p, x);
    PutFrozen(pl, s, i, p, x);
    forall j: nat, q: nat | Has(s', j, q) && q < |pl.phases| && pl.phases[q].kind.WeightLoad? && Done(s', j, q)
      ensures forall l | l in pl.phases[q].kind.layers :: l in s'.loaded
    {
      assert Has(s, j, q);
    }
    if pl.stationary {
      forall l | l in s'.loaded
        ensures l in pl.weightOf && Has(s', 0, pl.weightOf[l]) && Done(s', 0, pl.weightOf[l])
      {
        if l in s.loaded {
          assert Has(s, 0, pl.weightOf[l]) && Done(s, 0, pl.weightOf[l]);
        } else {
          assert Exists(pl, i, p);
        }
      }
    }
  }

  // ----- facts about start times ---------------------------------------------------------------

  /** StartTime is the maximum of its causes: an upper bound of all of them, and one of them. */
  lemma {:induction false} LatestDepIsMax(s: Progress, i: nat, deps: seq<nat>, from: real)
    ensures LatestDep(s, i, deps, from) >= from
    ensures forall d | d in deps && Has(s, i, d) :: s.inst[i][d].completion <= LatestDep(s, i, deps, from)
    ensures LatestDep(s, i, deps, from) == from ||
            exists d | d in deps :: Has(s, i, d) && LatestDep(s, i, deps, from) == s.inst[i][d].completion
    decreases |deps|
  {
    if deps != [] {
      var front, d := deps[..|deps| - 1], deps[|deps| - 1];
      LatestDepIsMax(s, i, front, from);
      assert deps == front + [d];
      var rest := LatestDep(s, i, front, from);
      if LatestDep(s, i, deps, from) != from {
        if Has(s, i, d) && s.inst[i][d].completion > rest {
          assert d in deps && Has(s, i, d) && LatestDep(s, i, deps, from) == s.inst[i][d].completion;
        } else {
          var e :| e in front && Has(s, i, e) && rest == s.inst[i][e].completion;
          assert e in deps;
        }
      }
    }
  }

  /** A ready phase of a started input starts between that input's start and now. */
  lemma StartTimeBounds(pl: Plan, s: Progress, i: nat, p: nat, t: real)
    requires Inv(pl, s, t) && p < |pl.phases| && i < pl.numInputs
    requires s.inputStart[i] != UNSET && DepsMet(pl, s, i, p)
    ensures 0.0 <= s.inputStart[i] <= StartTime(pl, s, i, p) <= t
  {
    assert GoodInput(pl, s, i, t);
    LatestDepIsMax(s, i, pl.phases[p].deps, s.inputStart[i]);
    forall d | d in pl.phases[p].deps && Has(s, i, d) ensures s.inst[i][d].completion <= t {
      assert Good(pl, s, i, d, s.inst[i][d], t) && Done(s, i, d);
    }
    if pl.pipelined && i > 0 && Has(s, i - 1, p) {
      assert Good(pl, s, i - 1, p, s.inst[i - 1][p], t) && Done(s, i - 1, p);
    }
  }
}
