/** What the invariant of a mapped model means: exact causes, no overlap, a runnable phase. */
module EngineTheorems {
  import opened Phases
  import opened PhaseEngine
  import opened EngineInvariant
  import opened EngineSteps

  // ----- causality with exact event times --------------------------------------------------------

  /** c is a time that (i, p) has to wait for: its input's start, a dependency's completion or,
      in pipelined mode, the previous input's completion of the same phase. */
  ghost predicate Cause(pl: Plan, s: Progress, i: nat, p: nat, c: real)
    requires p < |pl.phases| && i < |s.inputStart|
  {
    || c == s.inputStart[i]
    || (exists d | d in pl.phases[p].deps :: Has(s, i, d) && c == s.inst[i][d].completion)
    || (pl.pipelined && i > 0 && Has(s, i - 1, p) && c == s.inst[i - 1][p].completion)
  }

  /** A started instance started exactly at the latest of its causes, all of which are over. */
  lemma StartsAtLatestCause(pl: Plan, s: Progress, i: nat, p: nat, t: real)
    requires WellFormed(pl) && Inv(pl, s, t) && Has(s, i, p) && p < |pl.phases|
    requires !s.inst[i][p].state.NotStarted?
    ensures DepsMet(pl, s, i, p)
    ensures Cause(pl, s, i, p, s.inst[i][p].start)
    ensures forall c | Cause(pl, s, i, p, c) :: c <= s.inst[i][p].start
    ensures 0.0 <= s.inst[i][p].start <= t
  {
    assert Exists(pl, i, p);
    assert Good(pl, s, i, p, s.inst[i][p], t);
    StartTimeBounds(pl, s, i, p, t);
    LatestDepIsMax(s, i, pl.phases[p].deps, s.inputStart[i]);
  }

  /** A complete instance ends after its (possibly revised) latency, and not in the future. */
  lemma EndsAfterLatency(pl: Plan, s: Progress, i: nat, p: nat, t: real)
    requires WellFormed(pl) && Inv(pl, s, t) && Has(s, i, p) && p < |pl.phases| && Done(s, i, p)
    ensures var x := s.inst[i][p];
            && x.start <= x.completion <= t
            && x.completion == (if pl.phases[p].kind.Compute? || HasTraffic(pl.phases[p].traffic)
                                then x.start + x.latency else x.start)
  {
    assert Good(pl, s, i, p, s.inst[i][p], t);
    DoneBounds(pl, s, i, p, t);
  }

  /** Pipelined: two inputs never occupy the same phase at the same time. */
  lemma {:induction false} SamePhaseNeverOverlaps(pl: Plan, s: Progress, i: nat, j: nat, p: nat, t: real)
    requires WellFormed(pl) && Inv(pl, s, t) && pl.pipelined && p < |pl.phases|
    requires i < j && Has(s, i, p) && Has(s, j, p) && !s.inst[j][p].state.NotStarted?
    ensures Done(s, i, p) && s.inst[i][p].completion <= s.inst[j][p].start
    decreases j - i
  {
    var k: nat := j - 1;
    assert Exists(pl, j, p) && Exists(pl, k, p);
    assert Has(s, k, p);
    StartsAtLatestCause(pl, s, j, p, t);
    assert Cause(pl, s, j, p, s.inst[k][p].completion);
    if i < k {
      SamePhaseNeverOverlaps(pl, s, i, k, p, t);
      DoneBounds(pl, s, k, p, t);
    }
  }

  /** Serialized: an input starts only after every phase of every earlier input has completed. */
  lemma {:induction false} InputsNeverOverlap(pl: Plan, s: Progress, i: nat, p: nat, j: nat, t: real)
    requires WellFormed(pl) && Inv(pl, s, t) && !pl.pipelined && p < |pl.phases|
    requires i < j < pl.numInputs && Has(s, i, p) && s.inputStart[j] != UNSET
    ensures Done(s, i, p) && s.inst[i][p].completion <= s.inputStart[j]
    decreases j - i
  {
    var k: nat := j - 1;
    assert GoodInput(pl, s, j, t) && GoodInput(pl, s, k, t);
    LastCompletionIsMax(s, k, pl.order);
    assert p in pl.order;
    if i < k {
      InputsNeverOverlap(pl, s, i, p, k, t);
      var c := pl.computeOf[0];
      assert Exists(pl, k, c) && Has(s, k, c) && c in pl.order;
      DoneBounds(pl, s, k, c, t);
    }
  }

  lemma SerializedPhasesNeverOverlap(pl: Plan, s: Progress, i: nat, p: nat, j: nat, q: nat, t: real)
    requires WellFormed(pl) && Inv(pl, s, t) && !pl.pipelined && p < |pl.phases| && q < |pl.phases|
    requires i < j && Has(s, i, p) && Has(s, j, q) && !s.inst[j][q].state.NotStarted?
    ensures Done(s, i, p) && s.inst[i][p].completion <= s.inst[j][q].start
  {
    assert Exists(pl, j, q);
    StartsAtLatestCause(pl, s, j, q, t);
    assert Good(pl, s, j, q, s.inst[j][q], t);
    assert Cause(pl, s, j, q, s.inputStart[j]);
    InputsNeverOverlap(pl, s, i, p, j, t);
  }

  /** Input j has loaded layer l's weights, in full and before time t. */
  ghost predicate LoadedBefore(pl: Plan, s: Progress, j: nat, l: nat, t: real) {
    && l in pl.weightOf && Has(s, j, pl.weightOf[l]) && Done(s, j, pl.weightOf[l])
    && s.inst[j][pl.weightOf[l]].completion <= t
  }

  lemma ComputeFollowsOwnLoad(pl: Plan, s: Progress, i: nat, p: nat, t: real)
    requires WellFormed(pl) && Inv(pl, s, t) && Has(s, i, p) && p < |pl.phases|
    requires pl.phases[p].kind.Compute? && !s.inst[i][p].state.NotStarted?
    ensures pl.phases[p].kind.layer in s.loaded && pl.phases[p].kind.layer in pl.weightOf
    ensures Has(s, i, pl.weightOf[pl.phases[p].kind.layer]) ==>
              LoadedBefore(pl, s, i, pl.phases[p].kind.layer, s.inst[i][p].start)
  {
    var w := pl.weightOf[pl.phases[p].kind.layer];
    assert Good(pl, s, i, p, s.inst[i][p], t);
    StartsAtLatestCause(pl, s, i, p, t);
    if Has(s, i, w) { assert Cause(pl, s, i, p, s.inst[i][w].completion); }
  }

  /** Stationary weights: the load that counts is input 0's, and every input's compute comes after it. */
  lemma ComputeFollowsFirstLoad(pl: Plan, s: Progress, i: nat, p: nat, t: real)
    requires WellFormed(pl) && Inv(pl, s, t) && Has(s, i, p) && p < |pl.phases| && pl.stationary
    requires pl.phases[p].kind.Compute? && !s.inst[i][p].state.NotStarted?
    ensures LoadedBefore(pl, s, 0, pl.phases[p].kind.layer, s.inst[i][p].start)
  {
    var w := pl.weightOf[pl.phases[p].kind.layer];
    assert Exists(pl, i, p) && Exists(pl, 0, p) && Exists(pl, 0, w);
    assert Has(s, 0, p) && Has(s, 0, w);
    if i == 0 {
      ComputeFollowsOwnLoad(pl, s, 0, p, t);
    } else if pl.pipelined {
      SamePhaseNeverOverlaps(pl, s, 0, i, p, t);
      DoneBounds(pl, s, 0, p, t);
      ComputeFollowsOwnLoad(pl, s, 0, p, t);
    } else {
      SerializedPhasesNeverOverlap(pl, s, 0, w, i, p, t);
    }
  }

  /** Weight safety: whatever the mode and the input, compute never starts before its layer's weights are loaded: by
      its own input, or by input 0 when weights are stationary. */
  lemma ComputeNeverBeatsWeights(pl: Plan, s: Progress, i: nat, p: nat, t: real)
    requires WellFormed(pl) && Inv(pl, s, t) && Has(s, i, p) && p < |pl.phases|
    requires pl.phases[p].kind.Compute? && !s.inst[i][p].state.NotStarted?
    ensures pl.phases[p].kind.layer in s.loaded
    ensures LoadedBefore(pl, s, if pl.stationary then 0 else i, pl.phases[p].kind.layer, s.inst[i][p].start)
  {
    ComputeFollowsOwnLoad(pl, s, i, p, t);
    if pl.stationary {
      ComputeFollowsFirstLoad(pl, s, i, p, t);
    } else {
      assert Exists(pl, i, p) && Exists(pl, i, pl.weightOf[pl.phases[p].kind.layer]);
    }
  }

  // ----- settled states: what a timing pass leaves behind ------------------------------------------

  ghost predicate SettledInput(pl: Plan, s: Progress, i: nat)
    requires i < |s.inputStart| == |s.inputDone|
  {
    && (i > 0 && AllDone(pl, s, i - 1) ==> s.inputStart[i] != UNSET)
    && (AllDone(pl, s, i) ==> s.inputDone[i] != UNSET)
  }

  ghost predicate Settled(pl: Plan, s: Progress) {
    && |s.inputStart| == |s.inputDone| == pl.numInputs
    && (forall i | 0 <= i < pl.numInputs :: SettledInput(pl, s, i))
    && ((forall i | 0 <= i < pl.numInputs :: s.inputDone[i] != UNSET) ==> s.done != UNSET)
  }

  ghost predicate SameState(x: Instance, y: Instance) {
    y.state == x.state && y.latency == x.latency && (x.start >= 0.0 ==> y.start == x.start)
  }

  /** The timing pass moves no instance through its states and changes no latency or known start. */
  ghost predicate SameStates(s: Progress, s': Progress) {
    && |s.inst| == |s'.inst|
    && (forall i: nat, p: nat :: Has(s, i, p) <==> Has(s', i, p))
    && (forall i: nat, p: nat | Has(s, i, p) :: SameState(s.inst[i][p], s'.inst[i][p]))
  }

  lemma SameInstances(s: Progress, s': Progress)
    requires s.inst == s'.inst
    ensures SameStates(s, s')
  {
  }

  lemma SameStatesTrans(a: Progress, b: Progress, c: Progress)
    requires SameStates(a, b) && SameStates(b, c)
    ensures SameStates(a, c)
  {
    forall i: nat, p: nat | Has(a, i, p) ensures SameState(a.inst[i][p], c.inst[i][p]) {
      assert Has(b, i, p);
      assert SameState(a.inst[i][p], b.inst[i][p]) && SameState(b.inst[i][p], c.inst[i][p]);
    }
  }

  lemma AllDoneSame(pl: Plan, s: Progress, s': Progress, i: nat)
    requires SameStates(s, s')
    ensures AllDone(pl, s, i) <==> AllDone(pl, s', i)
  {
    assert forall p: nat :: Has(s, i, p) <==> Has(s', i, p);
    forall p: nat | Has(s, i, p) ensures Done(s, i, p) <==> Done(s', i, p) {
      assert SameState(s.inst[i][p], s'.inst[i][p]);
    }
  }

  lemma {:induction false} TimePhasesSame(pl: Plan, s: Progress, i: nat, k: nat)
    requires PlanShape(pl) && k <= |pl.order| && i < |s.inputStart|
    ensures SameStates(s, TimePhases(pl, s, i, k))
  {
    if k > 0 {
      TimePhasesSame(pl, s, i, k - 1);
      var s1 := TimePhases(pl, s, i, k - 1);
      TimePhaseSame(pl, s1, i, pl.order[k - 1]);
      SameStatesTrans(s, s1, TimePhases(pl, s, i, k));
    }
  }

  lemma TimePhaseSame(pl: Plan, s: Progress, i: nat, p: nat)
    requires p < |pl.phases| && i < |s.inputStart|
    ensures SameStates(s, TimePhase(pl, s, i, p))
  {
    var s' := TimePhase(pl, s, i, p);
    if Runnable(pl, s, i, p) {
      forall j: nat, q: nat ensures Has(s, j, q) <==> Has(s', j, q) { }
    }
  }

  /** Timing input i settles it, provided its predecessor is settled. */
  lemma TimeInputSettles(pl: Plan, s: Progress, i: nat, t: real)
    requires WellFormed(pl) && Inv(pl, s, t) && i < pl.numInputs
    requires i > 0 ==> SettledInput(pl, s, i - 1)
    ensures SameStates(s, TimeInput(pl, s, i))
    ensures SettledInput(pl, TimeInput(pl, s, i), i)
  {
    var s1 := StartInput(pl, s, i);
    StartInputKeeps(pl, s, i, t);
    SameInstances(s, s1);
    if i > 0 { StartedAfterPrevious(pl, s, i, t); }
    if s1.inputStart[i] != UNSET {
      TimeStartedInputSettles(pl, s1, i, t);
      SameStatesTrans(s, s1, TimeInput(pl, s, i));
    } else if AllDone(pl, s1, i) {
      LastCompletionBounds(pl, s1, i, t);
    }
  }

  lemma TimeStartedInputSettles(pl: Plan, s: Progress, i: nat, t: real)
    requires WellFormed(pl) && Inv(pl, s, t) && i < pl.numInputs && s.inputStart[i] != UNSET
    ensures var s' := FinishInput(pl, TimePhases(pl, s, i, |pl.order|), i);
            SameStates(s, s') && SettledInput(pl, s', i)
  {
    var s1 := TimePhases(pl, s, i, |pl.order|);
    TimePhasesSame(pl, s, i, |pl.order|);
    TimePhasesKeeps(pl, s, i, |pl.order|, t);
    var s2 := FinishInput(pl, s1, i);
    SameInstances(s1, s2);
    SameStatesTrans(s, s1, s2);
    AllDoneSame(pl, s1, s2, i);
    if AllDone(pl, s1, i) { LastCompletionBounds(pl, s1, i, t); }
  }

  lemma StartedAfterPrevious(pl: Plan, s: Progress, i: nat, t: real)
    requires WellFormed(pl) && Inv(pl, s, t) && 0 < i < pl.numInputs && SettledInput(pl, s, i - 1)
    ensures AllDone(pl, s, i - 1) ==> StartInput(pl, s, i).inputStart[i] != UNSET
    ensures AllDone(pl, StartInput(pl, s, i), i - 1) <==> AllDone(pl, s, i - 1)
  {
    var j: nat := i - 1;
    AllDoneSame(pl, s, StartInput(pl, s, i), j);
    if pl.pipelined && AllDone(pl, s, j) {
      var c := pl.computeOf[0];
      assert ChainLink(pl, 0);
      assert Exists(pl, j, c) && Has(s, j, c) && c in pl.order;
      if 0 in pl.actOf {
        assert Exists(pl, j, pl.actOf[0]) && Has(s, j, pl.actOf[0]) && pl.actOf[0] in pl.order;
      }
      LayerTimeBounds(pl, s, j, 0, t);
      FirstLayerIsZero(pl, s, j, 0, t);
    }
  }

  ghost predicate SettledBelow(pl: Plan, s: Progress, n: nat) {
    |s.inputStart| == |s.inputDone| >= n && forall i: nat | i < n :: SettledInput(pl, s, i)
  }

  /** s came from s0 by timing the inputs below n. */
  ghost predicate TimedBelow(pl: Plan, s0: Progress, s: Progress, n: nat, t: real) {
    Kept(pl, s0, s, t) && SameStates(s0, s) && SettledBelow(pl, s, n)
  }

  lemma TimeInputSettlesBelow(pl: Plan, s0: Progress, s: Progress, m: nat, t: real)
    requires WellFormed(pl) && m < pl.numInputs && TimedBelow(pl, s0, s, m, t)
    ensures TimedBelow(pl, s0, TimeInput(pl, s, m), m + 1, t)
  {
    var s' := TimeInput(pl, s, m);
    if m > 0 { var j: nat := m - 1; assert SettledInput(pl, s, j); }
    TimeInputSettles(pl, s, m, t);
    TimeInputKeeps(pl, s, m, t);
    FrozenTrans(s0, s, s');
    SettledStays(pl, s, s', m);
    SameStatesTrans(s0, s, s');
  }

  lemma {:induction false} TimeInputsSettle(pl: Plan, s: Progress, n: nat, t: real)
    requires WellFormed(pl) && Inv(pl, s, t) && n <= pl.numInputs
    ensures TimedBelow(pl, s, TimeInputs(pl, s, n), n, t)
  {
    if n == 0 {
      FrozenRefl(s);
    } else {
      var m: nat := n - 1;
      TimeInputsSettle(pl, s, m, t);
      TimeInputSettlesBelow(pl, s, TimeInputs(pl, s, m), m, t);
    }
  }

  lemma SettledStays(pl: Plan, s: Progress, s': Progress, n: nat)
    requires SameStates(s, s') && Frozen(s, s') && SettledBelow(pl, s, n)
    ensures SettledBelow(pl, s', n)
  {
    forall i: nat | i < n ensures SettledInput(pl, s', i) {
      assert SettledInput(pl, s, i);
      AllDoneSame(pl, s, s', i);
      if i > 0 { AllDoneSame(pl, s, s', i - 1); }
    }
  }

  lemma FinishModelSettles(pl: Plan, s: Progress, t: real)
    requires WellFormed(pl) && Inv(pl, s, t) && SettledBelow(pl, s, pl.numInputs)
    ensures Settled(pl, FinishModel(s)) && SameStates(s, FinishModel(s))
  {
    var s' := FinishModel(s);
    SameInstances(s, s');
    forall i | 0 <= i < pl.numInputs ensures SettledInput(pl, s', i) {
      assert SettledInput(pl, s, i);
      AllDoneSame(pl, s, s', i);
      if i > 0 { AllDoneSame(pl, s, s', i - 1); }
    }
    if forall i | 0 <= i < pl.numInputs :: s.inputDone[i] != UNSET {
      MaxOfBounds(s.inputDone);
      var k :| 0 <= k < |s.inputDone| && s.inputDone[k] == MaxOf(s.inputDone);
      assert GoodInput(pl, s, k, t);
      LastCompletionBounds(pl, s, k, t);
    }
  }

  lemma TimeSettles(pl: Plan, s: Progress, t: real)
    requires WellFormed(pl) && Inv(pl, s, t)
    ensures Kept(pl, s, Time(pl, s), t) && SameStates(s, Time(pl, s)) && Settled(pl, Time(pl, s))
  {
    TimeKeeps(pl, s, t);
    TimeInputsSettle(pl, s, pl.numInputs, t);
    var s1 := TimeInputs(pl, s, pl.numInputs);
    FinishModelSettles(pl, s1, t);
    SameStatesTrans(s, s1, Time(pl, s));
  }

  lemma {:induction false} MaxOfBounds(v: seq<real>)
    requires |v| >= 1
    ensures forall k | 0 <= k < |v| :: v[k] <= MaxOf(v)
    ensures MaxOf(v) in v
  {
    if |v| > 1 { MaxOfBounds(v[..|v| - 1]); }
  }

  // ----- progress ------------------------------------------------------------------------------------

  ghost predicate AllComplete(s: Progress) { forall i: nat, p: nat | Has(s, i, p) :: Done(s, i, p) }

  /** The least input with an incomplete phase, searching from input n. */
  ghost function LeastOpen(pl: Plan, s: Progress, n: nat): (i: nat)
    requires n <= pl.numInputs
    ensures n <= i <= pl.numInputs
    ensures forall j: nat | n <= j < i :: AllDone(pl, s, j)
    ensures i < pl.numInputs ==> !AllDone(pl, s, i)
    decreases pl.numInputs - n
  {
    if n == pl.numInputs then n
    else if AllDone(pl, s, n) then LeastOpen(pl, s, n + 1)
    else n
  }

  /** No deadlock: in a settled state the least unfinished input has started and has a runnable phase. */
  lemma LeastOpenIsRunnable(pl: Plan, s: Progress, t: real)
    requires WellFormed(pl) && Inv(pl, s, t) && Settled(pl, s)
    requires LeastOpen(pl, s, 0) < pl.numInputs
    ensures var i := LeastOpen(pl, s, 0);
            s.inputStart[i] != UNSET && s.inputStart[i] <= t && Current(pl, s, i, t).Some?
  {
    var i := LeastOpen(pl, s, 0);
    assert SettledInput(pl, s, i);
    assert GoodInput(pl, s, i, t);
    var k := FirstOpen(pl, s, i);
    var p := pl.order[k];
    forall d | d in pl.phases[p].deps && Has(s, i, d) ensures Done(s, i, d) {
      assert d in pl.order[..k];
      var m :| 0 <= m < k && pl.order[m] == d;
    }
    if i > 0 {
      var j: nat := i - 1;
      assert AllDone(pl, s, j);
    }
    assert Runnable(pl, s, i, p);
  }

  /** The first position of the execution order whose phase is not complete for input i. */
  lemma FirstOpen(pl: Plan, s: Progress, i: nat) returns (k: nat)
    requires WellFormed(pl) && !AllDone(pl, s, i)
    ensures k < |pl.order| && Has(s, i, pl.order[k]) && !Done(s, i, pl.order[k])
    ensures forall m | 0 <= m < k :: Has(s, i, pl.order[m]) ==> Done(s, i, pl.order[m])
  {
    k := 0;
    while k < |pl.order| && (Has(s, i, pl.order[k]) ==> Done(s, i, pl.order[k]))
      invariant k <= |pl.order|
      invariant forall m | 0 <= m < k :: Has(s, i, pl.order[m]) ==> Done(s, i, pl.order[m])
    {
      k := k + 1;
    }
  }

  /** Once every instance is complete, a settled model is complete as GlobalManager sees it. */
  lemma AllCompleteRetires(pl: Plan, s: Progress, t: real)
    requires WellFormed(pl) && Inv(pl, s, t) && Settled(pl, s)
    ensures IsComplete(s, t) <==> LeastOpen(pl, s, 0) == pl.numInputs
    ensures IsComplete(s, t) ==> AllComplete(s)
  {
    if s.done != UNSET {
      MaxOfBounds(s.inputDone);
      var k :| 0 <= k < |s.inputDone| && s.inputDone[k] == s.done;
      assert GoodInput(pl, s, k, t);
      LastCompletionBounds(pl, s, k, t);
      forall i: nat | i < pl.numInputs ensures AllDone(pl, s, i) { assert GoodInput(pl, s, i, t); }
      forall i: nat, p: nat | Has(s, i, p) ensures Done(s, i, p) {
        assert Exists(pl, i, p) && p in pl.order; assert AllDone(pl, s, i);
      }
    } else if LeastOpen(pl, s, 0) == pl.numInputs {
      forall i | 0 <= i < pl.numInputs ensures s.inputDone[i] != UNSET { assert SettledInput(pl, s, i); }
    }
  }
}
