/** Every step of a tick keeps the invariant of a mapped model and only adds to its history. */
module EngineSteps {
  import opened Options
  import opened Phases
  import opened PhaseEngine
  import opened EngineInvariant

  // ----- weight safety -----------------------------------------------------------------------

  /** A ready compute phase of a started input has its weights loaded, even when the weight
      instance does not exist for that input: then the previous input vouches for them. */
  lemma ReadyComputeHasWeights(pl: Plan, s: Progress, i: nat, p: nat, t: real)
    requires WellFormed(pl) && Inv(pl, s, t)
    requires i < pl.numInputs && p < |pl.phases| && pl.phases[p].kind.Compute?
    requires s.inputStart[i] != UNSET && DepsMet(pl, s, i, p)
    ensures pl.phases[p].kind.layer in s.loaded
  {
    var w := pl.weightOf[pl.phases[p].kind.layer];
    if Has(s, i, w) {
      assert Done(s, i, w);
    } else {
      assert !Exists(pl, i, w);
      assert Exists(pl, i - 1, p) && Has(s, i - 1, p);
      assert GoodInput(pl, s, i, t);
      assert Done(s, i - 1, p);
      assert Good(pl, s, i - 1, p, s.inst[i - 1][p], t);
    }
  }

  /** A stationary weight load is never found already loaded, so the skip branch is never taken. */
  lemma NeverSkipsLoad(pl: Plan, s: Progress, i: nat, p: nat, t: real)
    requires WellFormed(pl) && Inv(pl, s, t)
    requires p < |pl.phases| && Has(s, i, p) && !Done(s, i, p)
    ensures !SkipsLoad(pl, s, p)
  {
    var k := pl.phases[p].kind;
    if k.WeightLoad? && pl.stationary {
      assert Exists(pl, i, p);
      assert k.layers[0] in k.layers;
      assert pl.weightOf[k.layers[0]] == p && i == 0;
    }
  }

  /** _dependencies_met never raises its configuration error on a well-formed plan. */
  lemma NeverConfigError(pl: Plan, s: Progress, i: nat, p: nat)
    requires WellFormed(pl) && p < |pl.phases|
    ensures !ConfigError(pl, s, i, p)
  {
  }

  // ----- activation ----------------------------------------------------------------------------

  lemma ActivatedIsGood(pl: Plan, s: Progress, i: nat, p: nat, t: real)
    requires WellFormed(pl) && Inv(pl, s, t)
    requires p < |pl.phases| && Has(s, i, p) && !Done(s, i, p)
    requires s.inputStart[i] != UNSET && DepsMet(pl, s, i, p)
    ensures Good(pl, s, i, p, Activated(pl, s, i, p, t).0, t)
  {
    StartTimeBounds(pl, s, i, p, t);
    NeverSkipsLoad(pl, s, i, p, t);
    var x := s.inst[i][p];
    assert Good(pl, s, i, p, x, t);
    if pl.phases[p].kind.Compute? {
      ReadyComputeHasWeights(pl, s, i, p, t);
    }
  }

  lemma ActivateInputKeeps(pl: Plan, s0: Progress, s: Progress, i: nat, t: real)
    requires WellFormed(pl) && Kept(pl, s0, s, t) && i < pl.numInputs
    ensures Kept(pl, s0, ActivateInput(pl, s, i, t).0, t)
  {
    var c := Current(pl, s, i, t);
    if c.Some? {
      var x := Activated(pl, s, i, c.value, t).0;
      ActivatedIsGood(pl, s, i, c.value, t);
      PutKeepsInv(pl, s, i, c.value, x, t);
      FrozenTrans(s0, s, Put(pl, s, i, c.value, x));
    }
  }

  lemma {:induction false} ActivateKeeps(pl: Plan, s: Progress, t: real, n: nat)
    requires WellFormed(pl) && Inv(pl, s, t) && n <= pl.numInputs
    ensures Kept(pl, s, Activate(pl, s, t, n), t)
  {
    if n == 0 {
      FrozenRefl(s);
    } else {
      ActivateKeeps(pl, s, t, n - 1);
      ActivateInputKeeps(pl, s, Activate(pl, s, t, n - 1), n - 1, t);
    }
  }

  // ----- latency updates -------------------------------------------------------------------------

  ghost predicate Simulated(pl: Plan, s: Progress, i: nat, p: nat) {
    && p < |pl.phases| && Has(s, i, p) && !pl.phases[p].kind.Compute?
    && s.inst[i][p].state.Running?
  }

  lemma UpdateLatencyKeeps(pl: Plan, s: Progress, i: nat, p: nat, latency: real, t: real)
    requires WellFormed(pl) && Inv(pl, s, t) && Simulated(pl, s, i, p) && latency > 0.0
    ensures Inv(pl, UpdateLatency(pl, s, i, p, latency, t), t)
    ensures Frozen(s, UpdateLatency(pl, s, i, p, latency, t))
    ensures UpdateLatency(pl, s, i, p, latency, t).inst[i][p].latency > 0.0
  {
    var x := s.inst[i][p];
    assert Good(pl, s, i, p, x, t);
    StartTimeBounds(pl, s, i, p, t);
    PutKeepsInv(pl, s, i, p, Relatency(x, latency, t), t);
  }

  // ----- timing ----------------------------------------------------------------------------------

  lemma TimePhaseKeeps(pl: Plan, s0: Progress, s: Progress, i: nat, p: nat, t: real)
    requires WellFormed(pl) && Kept(pl, s0, s, t) && i < pl.numInputs && p < |pl.phases|
    requires s.inputStart[i] != UNSET
    ensures Kept(pl, s0, TimePhase(pl, s, i, p), t)
  {
    if Runnable(pl, s, i, p) {
      StartTimeBounds(pl, s, i, p, t);
      assert Good(pl, s, i, p, s.inst[i][p], t);
      var x := Timed(s.inst[i][p], StartTime(pl, s, i, p));
      PutKeepsInv(pl, s, i, p, x, t);
      FrozenTrans(s0, s, Put(pl, s, i, p, x));
    }
  }

  lemma {:induction false} TimePhasesKeeps(pl: Plan, s: Progress, i: nat, k: nat, t: real)
    requires WellFormed(pl) && Inv(pl, s, t) && i < pl.numInputs && k <= |pl.order|
    requires s.inputStart[i] != UNSET
    ensures Kept(pl, s, TimePhases(pl, s, i, k), t)
  {
    if k == 0 {
      FrozenRefl(s);
    } else {
      TimePhasesKeeps(pl, s, i, k - 1, t);
      TimePhaseKeeps(pl, s, TimePhases(pl, s, i, k - 1), i, pl.order[k - 1], t);
    }
  }

  /** Completed work lies between zero and now. */
  lemma DoneBounds(pl: Plan, s: Progress, i: nat, p: nat, t: real)
    requires Inv(pl, s, t) && Has(s, i, p) && Done(s, i, p)
    ensures s.inputStart[i] != UNSET
    ensures 0.0 <= s.inputStart[i] <= s.inst[i][p].start <= s.inst[i][p].completion <= t
  {
    assert Exists(pl, i, p);
    assert Good(pl, s, i, p, s.inst[i][p], t);
    StartTimeBounds(pl, s, i, p, t);
  }

  lemma DepDone(pl: Plan, s: Progress, i: nat, p: nat, d: nat, t: real)
    requires Inv(pl, s, t) && Has(s, i, p) && Done(s, i, p) && p < |pl.phases|
    requires d in pl.phases[p].deps && Has(s, i, d)
    ensures Done(s, i, d)
  {
    assert Good(pl, s, i, p, s.inst[i][p], t);
  }

  /** Layers finish in order, so the first complete layer is layer 0 whenever there is one. */
  lemma PreviousLayerDone(pl: Plan, s: Progress, i: nat, l: nat, t: real)
    requires WellFormed(pl) && Inv(pl, s, t) && i < pl.numInputs && 0 < l < pl.numLayers
    requires LayerTime(pl, s, i, l).Some?
    ensures LayerTime(pl, s, i, l - 1).Some?
  {
    assert ChainLink(pl, l - 1);
    var c, a, b := pl.computeOf[l], pl.actOf[l - 1], pl.computeOf[l - 1];
    assert Exists(pl, i, a) && Exists(pl, i, b);
    assert Has(s, i, a) && Has(s, i, b);
    DepDone(pl, s, i, c, a, t);
    DepDone(pl, s, i, a, b, t);
  }

  lemma {:induction false} EarlierLayersDone(pl: Plan, s: Progress, i: nat, l: nat, t: real)
    requires WellFormed(pl) && Inv(pl, s, t) && i < pl.numInputs && l < pl.numLayers
    requires LayerTime(pl, s, i, l).Some?
    ensures LayerTime(pl, s, i, 0).Some?
  {
    if l > 0 {
      PreviousLayerDone(pl, s, i, l, t);
      EarlierLayersDone(pl, s, i, l - 1, t);
    }
  }

  lemma {:induction false} FirstLayerIsZero(pl: Plan, s: Progress, i: nat, l: nat, t: real)
    requires WellFormed(pl) && Inv(pl, s, t) && i < pl.numInputs && l <= pl.numLayers
    ensures FirstLayerTime(pl, s, i, l).Some? ==> LayerTime(pl, s, i, 0).Some?
    ensures l == 0 ==> FirstLayerTime(pl, s, i, l) == LayerTime(pl, s, i, 0)
    decreases pl.numLayers - l
  {
    if l < pl.numLayers {
      FirstLayerIsZero(pl, s, i, l + 1, t);
      if LayerTime(pl, s, i, l).Some? {
        EarlierLayersDone(pl, s, i, l, t);
      }
    }
  }

  lemma LayerTimeBounds(pl: Plan, s: Progress, i: nat, l: nat, t: real)
    requires Inv(pl, s, t) && LayerTime(pl, s, i, l).Some?
    ensures 0.0 <= LayerTime(pl, s, i, l).value <= t
  {
    DoneBounds(pl, s, i, pl.computeOf[l], t);
    if l in pl.actOf { DoneBounds(pl, s, i, pl.actOf[l], t); }
  }

  /** The last completion of an input is the maximum over its phases. */
  lemma {:induction false} LastCompletionIsMax(s: Progress, i: nat, order: seq<nat>)
    ensures forall p | p in order && Has(s, i, p) :: s.inst[i][p].completion <= LastCompletion(s, i, order)
    ensures LastCompletion(s, i, order) == UNSET ||
            exists p | p in order :: Has(s, i, p) && LastCompletion(s, i, order) == s.inst[i][p].completion
    decreases |order|
  {
    if order != [] {
      var front, p := order[..|order| - 1], order[|order| - 1];
      LastCompletionIsMax(s, i, front);
      assert order == front + [p];
      var rest := LastCompletion(s, i, front);
      if LastCompletion(s, i, order) == rest {
        if rest != UNSET {
          var e :| e in front && Has(s, i, e) && rest == s.inst[i][e].completion;
          assert e in order;
        }
      } else {
        assert p in order && Has(s, i, p) && LastCompletion(s, i, order) == s.inst[i][p].completion;
      }
    }
  }

  lemma LastCompletionBounds(pl: Plan, s: Progress, i: nat, t: real)
    requires WellFormed(pl) && Inv(pl, s, t) && i < pl.numInputs && AllDone(pl, s, i)
    ensures 0.0 <= LastCompletion(s, i, pl.order) <= t && s.inputStart[i] != UNSET
  {
    LastCompletionIsMax(s, i, pl.order);
    var c := pl.computeOf[0];
    assert Exists(pl, i, c) && c in pl.order;
    DoneBounds(pl, s, i, c, t);
    var m := LastCompletion(s, i, pl.order);
    var p :| p in pl.order && Has(s, i, p) && m == s.inst[i][p].completion;
    DoneBounds(pl, s, i, p, t);
  }

  ghost predicate Sized(s: Progress) { |s.inst| == |s.inputStart| == |s.inputDone| }

  lemma StartInputGood(pl: Plan, s: Progress, i: nat, t: real)
    requires Sized(s) && 0 < i < |s.inputStart| && GoodInput(pl, s, i, t) && s.inputStart[i] == UNSET
    requires 0.0 <= InputStart(pl, s, i) <= t
    requires pl.pipelined ==> LayerTime(pl, s, i - 1, 0) == Some(InputStart(pl, s, i))
    ensures Frozen(s, StartInput(pl, s, i)) && GoodInput(pl, StartInput(pl, s, i), i, t)
  {
    var s' := StartInput(pl, s, i);
    assert Frozen(s, s');
    if pl.pipelined { LayerTimeFrozen(pl, s, s', i - 1, 0); } else { AllDoneFrozen(pl, s, s', i - 1); }
  }

  lemma StartInputKeeps(pl: Plan, s: Progress, i: nat, t: real)
    requires WellFormed(pl) && Inv(pl, s, t) && i < pl.numInputs
    ensures Inv(pl, StartInput(pl, s, i), t) && Frozen(s, StartInput(pl, s, i))
  {
    if i > 0 && s.inputStart[i] == UNSET && InputStart(pl, s, i) != UNSET {
      InputStartBounds(pl, s, i, t);
      StartInputGood(pl, s, i, t);
      InputTimesKeep(pl, s, StartInput(pl, s, i), i, t);
    } else {
      assert StartInput(pl, s, i) == s;
      FrozenRefl(s);
    }
  }

  /** A pipelined input starts exactly when layer 0 of its predecessor is complete. */
  lemma InputStartBounds(pl: Plan, s: Progress, i: nat, t: real)
    requires WellFormed(pl) && Inv(pl, s, t) && 0 < i < pl.numInputs
    requires InputStart(pl, s, i) != UNSET
    ensures 0.0 <= InputStart(pl, s, i) <= t
    ensures pl.pipelined ==> LayerTime(pl, s, i - 1, 0) == Some(InputStart(pl, s, i))
  {
    var j: nat := i - 1;
    if pl.pipelined {
      FirstLayerIsZero(pl, s, j, 0, t);
      LayerTimeBounds(pl, s, j, 0, t);
    } else {
      assert GoodInput(pl, s, j, t);
      LastCompletionBounds(pl, s, j, t);
    }
  }

  /** Setting a time of input i that is good for it keeps the invariant. */
  lemma InputTimesKeep(pl: Plan, s: Progress, s': Progress, i: nat, t: real)
    requires WellFormed(pl) && Inv(pl, s, t) && i < pl.numInputs
    requires Frozen(s, s') && s'.inst == s.inst && s'.loaded == s.loaded && s'.done == s.done
    requires forall j | 0 <= j < pl.numInputs && j != i ::
               s'.inputStart[j] == s.inputStart[j] && s'.inputDone[j] == s.inputDone[j]
    requires s'.inputDone == s.inputDone || s.inputDone[i] == UNSET
    requires GoodInput(pl, s', i, t)
    ensures Inv(pl, s', t)
  {
    assert Shape(pl, s') by {
      forall j: nat, q: nat ensures Has(s', j, q) <==> Exists(pl, j, q) { assert Has(s, j, q) <==> Has(s', j, q); }
    }
    forall j: nat, q: nat | Has(s', j, q) ensures Good(pl, s', j, q, s'.inst[j][q], t) {
      assert Has(s, j, q);
      GoodFrozen(pl, s, s', j, q, s.inst[j][q], t, t);
    }
    forall j | 0 <= j < pl.numInputs && j != i ensures GoodInput(pl, s', j, t) {
      GoodInputFrozen(pl, s, s', j, t, t);
    }
    assert GoodLoads(pl, s') by {
      assert forall j: nat, q: nat :: Has(s', j, q) ==> Has(s, j, q) && (Done(s', j, q) <==> Done(s, j, q));
    }
  }

  lemma FinishInputGood(pl: Plan, s: Progress, i: nat, t: real)
    requires Sized(s) && i < |s.inputStart| && GoodInput(pl, s, i, t)
    requires AllDone(pl, s, i) && s.inputDone[i] == UNSET && s.inputStart[i] != UNSET
    ensures Frozen(s, FinishInput(pl, s, i)) && GoodInput(pl, FinishInput(pl, s, i), i, t)
  {
    var s' := FinishInput(pl, s, i);
    assert Frozen(s, s');
    AllDoneFrozen(pl, s, s', i);
    if i > 0 {
      if pl.pipelined { LayerTimeFrozen(pl, s, s', i - 1, 0); } else { AllDoneFrozen(pl, s, s', i - 1); }
    }
  }

  lemma FinishInputKeeps(pl: Plan, s: Progress, i: nat, t: real)
    requires WellFormed(pl) && Inv(pl, s, t) && i < pl.numInputs
    ensures Inv(pl, FinishInput(pl, s, i), t) && Frozen(s, FinishInput(pl, s, i))
  {
    if AllDone(pl, s, i) && s.inputDone[i] == UNSET {
      LastCompletionBounds(pl, s, i, t);
      FinishInputGood(pl, s, i, t);
      InputTimesKeep(pl, s, FinishInput(pl, s, i), i, t);
    } else {
      FrozenRefl(s);
    }
  }

  lemma TimeInputKeeps(pl: Plan, s: Progress, i: nat, t: real)
    requires WellFormed(pl) && Inv(pl, s, t) && i < pl.numInputs
    ensures Inv(pl, TimeInput(pl, s, i), t) && Frozen(s, TimeInput(pl, s, i))
  {
    var s1 := StartInput(pl, s, i);
    StartInputKeeps(pl, s, i, t);
    if s1.inputStart[i] != UNSET {
      var s2 := TimePhases(pl, s1, i, |pl.order|);
      TimePhasesKeeps(pl, s1, i, |pl.order|, t);
      FinishInputKeeps(pl, s2, i, t);
      FrozenTrans(s, s1, s2);
      FrozenTrans(s, s2, TimeInput(pl, s, i));
    }
  }

  lemma {:induction false} TimeInputsKeeps(pl: Plan, s: Progress, n: nat, t: real)
    requires WellFormed(pl) && Inv(pl, s, t) && n <= pl.numInputs
    ensures Inv(pl, TimeInputs(pl, s, n), t) && Frozen(s, TimeInputs(pl, s, n))
  {
    if n == 0 {
      FrozenRefl(s);
    } else {
      TimeInputsKeeps(pl, s, n - 1, t);
      var s1 := TimeInputs(pl, s, n - 1);
      TimeInputKeeps(pl, s1, n - 1, t);
      FrozenTrans(s, s1, TimeInputs(pl, s, n));
    }
  }

  lemma TimeKeeps(pl: Plan, s: Progress, t: real)
    requires WellFormed(pl) && Inv(pl, s, t)
    ensures Inv(pl, Time(pl, s), t) && Frozen(s, Time(pl, s))
  {
    TimeInputsKeeps(pl, s, pl.numInputs, t);
    var s1 := TimeInputs(pl, s, pl.numInputs);
    DoneChangeKeeps(pl, s1, Time(pl, s), t, t);
    FrozenTrans(s, s1, Time(pl, s));
  }

  /** The model's completion time and the clock may move on. */
  lemma DoneChangeKeeps(pl: Plan, s: Progress, s': Progress, t: real, t': real)
    requires WellFormed(pl) && Inv(pl, s, t) && t <= t'
    requires s' == s.(done := s'.done) && GoodDone(s')
    ensures Inv(pl, s', t') && Frozen(s, s')
  {
    assert Frozen(s, s');
    assert Shape(pl, s') by {
      forall j: nat, q: nat ensures Has(s', j, q) <==> Exists(pl, j, q) { assert Has(s, j, q) <==> Has(s', j, q); }
    }
    forall j: nat, q: nat | Has(s', j, q) ensures Good(pl, s', j, q, s'.inst[j][q], t') {
      assert Has(s, j, q);
      GoodFrozen(pl, s, s', j, q, s.inst[j][q], t, t');
    }
    forall j | 0 <= j < pl.numInputs ensures GoodInput(pl, s', j, t') {
      GoodInputFrozen(pl, s, s', j, t, t');
    }
    assert GoodLoads(pl, s') by {
      assert forall j: nat, q: nat :: Has(s', j, q) ==> Has(s, j, q) && (Done(s', j, q) <==> Done(s, j, q));
    }
  }

  lemma FreshIsGood(pl: Plan, t: real)
    requires WellFormed(pl) && t >= 0.0
    ensures Inv(pl, Fresh(pl, t), t)
  {
    var s := Fresh(pl, t);
    forall i: nat, p: nat | Has(s, i, p) ensures Exists(pl, i, p) && s.inst[i][p] == FreshInstance(pl, p) { }
    assert Shape(pl, s);
    forall i | 0 <= i < pl.numInputs ensures GoodInput(pl, s, i, t) { }
    forall i: nat, p: nat | Has(s, i, p) ensures Good(pl, s, i, p, s.inst[i][p], t) { }
  }
}
