/** A tick that changes no state is a tick before a fixed deadline. */
module Stall {
  import opened Phases
  import opened PhaseEngine
  import opened EngineInvariant
  import opened EngineSteps
  import opened EngineTheorems
  import opened ModelTick

  lemma RunnableSame(pl: Plan, s: Progress, s': Progress, i: nat, p: nat)
    requires SameStates(s, s') && p < |pl.phases|
    ensures Runnable(pl, s, i, p) <==> Runnable(pl, s', i, p)
  {
    forall j: nat, q: nat ensures Has(s, j, q) <==> Has(s', j, q) { }
    forall j: nat, q: nat | Has(s, j, q) ensures Done(s, j, q) <==> Done(s', j, q) {
      assert SameState(s.inst[j][q], s'.inst[j][q]);
    }
  }

  lemma {:induction false} CurrentFromSame(pl: Plan, s: Progress, s': Progress, i: nat, k: nat)
    requires PlanShape(pl) && SameStates(s, s') && k <= |pl.order|
    ensures CurrentFrom(pl, s, i, k) == CurrentFrom(pl, s', i, k)
    decreases |pl.order| - k
  {
    if k < |pl.order| {
      RunnableSame(pl, s, s', i, pl.order[k]);
      CurrentFromSame(pl, s, s', i, k + 1);
    }
  }

  lemma {:induction false} LeastOpenSame(pl: Plan, s: Progress, s': Progress, n: nat)
    requires SameStates(s, s') && n <= pl.numInputs
    ensures LeastOpen(pl, s, n) == LeastOpen(pl, s', n)
    decreases pl.numInputs - n
  {
    if n < pl.numInputs {
      AllDoneSame(pl, s, s', n);
      LeastOpenSame(pl, s, s', n + 1);
    }
  }

  /** When the current phase of the least unfinished input is due. */
  ghost function Deadline(pl: Plan, s: Progress): real
    requires PlanShape(pl)
  {
    var i := LeastOpen(pl, s, 0);
    var c := CurrentFrom(pl, s, i, 0);
    if c.Some? then s.inst[i][c.value].start + s.inst[i][c.value].latency else 0.0
  }

  lemma DoneInputIsSilent(pl: Plan, s: Progress, j: nat, t: real)
    requires WellFormed(pl) && j < |s.inputStart| && AllDone(pl, s, j)
    ensures ActivateInput(pl, s, j, t).0 == s
  {
    assert pl.order[0..] == pl.order;
  }

  lemma {:induction false} DoneInputsAreSilent(pl: Plan, s: Progress, n: nat, t: real)
    requires WellFormed(pl) && n <= |s.inputStart|
    requires forall j: nat | j < n :: AllDone(pl, s, j)
    ensures Activate(pl, s, t, n) == s
  {
    if n > 0 {
      DoneInputsAreSilent(pl, s, n - 1, t);
      DoneInputIsSilent(pl, s, n - 1, t);
    }
  }

  /** Later inputs leave row i alone. */
  lemma {:induction false} ActivateRow(pl: Plan, s: Progress, t: real, i: nat, n: nat)
    requires WellFormed(pl) && Inv(pl, s, t) && i < n <= pl.numInputs
    ensures Activate(pl, s, t, n).inst[i] == Activate(pl, s, t, i + 1).inst[i]
  {
    if i + 1 < n {
      var m: nat := n - 1;
      ActivateRow(pl, s, t, i, m);
      RowStays(pl, s, t, i, m);
    }
  }

  lemma RowStays(pl: Plan, s: Progress, t: real, i: nat, m: nat)
    requires WellFormed(pl) && Inv(pl, s, t) && i < m < pl.numInputs
    ensures Activate(pl, s, t, m + 1).inst[i] == Activate(pl, s, t, m).inst[i]
  {
    ActivateKeeps(pl, s, t, m);
    OtherRowsStay(pl, Activate(pl, s, t, m), m, t);
  }

  /** The least unfinished input's current phase after activation. */
  lemma LeastOpenActivated(pl: Plan, s: Progress, t: real)
    requires WellFormed(pl) && Inv(pl, s, t) && Settled(pl, s) && LeastOpen(pl, s, 0) < pl.numInputs
    ensures var i := LeastOpen(pl, s, 0);
            var c := CurrentFrom(pl, s, i, 0);
            && c.Some? && Has(Activate(pl, s, t, pl.numInputs), i, c.value)
            && Activate(pl, s, t, pl.numInputs).inst[i][c.value] == Activated(pl, s, i, c.value, t).0
  {
    var i := LeastOpen(pl, s, 0);
    LeastOpenIsRunnable(pl, s, t);
    DoneInputsAreSilent(pl, s, i, t);
    ActivateRow(pl, s, t, i, pl.numInputs);
    var s1 := Activate(pl, s, t, i + 1);
    assert s1 == ActivateInput(pl, s, i, t).0;
    assert Has(s1, i, CurrentFrom(pl, s, i, 0).value);
  }

  /** Activation lowers the work of the current phase unless it is running and not yet due. */
  lemma OnlyRunningWaits(pl: Plan, s: Progress, i: nat, p: nat, t: real)
    requires WellFormed(pl) && Inv(pl, s, t) && Quiet(pl, s)
    requires p < |pl.phases| && Has(s, i, p) && !Done(s, i, p)
    requires Weight(pl, Work, p, Activated(pl, s, i, p, t).0) == Weight(pl, Work, p, s.inst[i][p])
    ensures s.inst[i][p].state.Running? && s.inst[i][p].start >= 0.0
    ensures t < s.inst[i][p].start + s.inst[i][p].latency
  {
    var x := s.inst[i][p];
    assert Exists(pl, i, p);
    assert Good(pl, s, i, p, x, t);
    NeverSkipsLoad(pl, s, i, p, t);
    if x.state.Running? {
      StartTimeBounds(pl, s, i, p, t);
      if !pl.phases[p].kind.Compute? { assert Simulated(pl, s, i, p); }
    }
  }

  /** Equal work before and after a tick without a call: nothing moved. */
  lemma EqualWorkMeansSameStates(pl: Plan, s: Progress, s': Progress)
    requires |s.inst| == pl.numInputs && Shape(pl, s) && AllFollow(pl, false, s, s')
    requires Total(pl, Work, s', pl.numInputs) == Total(pl, Work, s, pl.numInputs)
    ensures SameStates(s, s')
    ensures forall i: nat, p: nat | Has(s, i, p) ::
              Weight(pl, Work, p, s'.inst[i][p]) == Weight(pl, Work, p, s.inst[i][p])
  {
    forall i: nat, p: nat | Has(s, i, p)
      ensures Weight(pl, Work, p, s'.inst[i][p]) <= Weight(pl, Work, p, s.inst[i][p])
    {
      assert Follows(pl, false, p, s.inst[i][p], s'.inst[i][p]);
    }
    TotalFalls(pl, Work, s, s', pl.numInputs);
    forall i: nat, p: nat | Has(s, i, p)
      ensures SameState(s.inst[i][p], s'.inst[i][p])
      ensures Weight(pl, Work, p, s'.inst[i][p]) == Weight(pl, Work, p, s.inst[i][p])
    {
      assert Exists(pl, i, p);
      assert Follows(pl, false, p, s.inst[i][p], s'.inst[i][p]);
    }
  }

  lemma CurrentWaits(pl: Plan, s: Progress, t: real, sim: (nat, nat) -> real)
    requires WellFormed(pl) && Inv(pl, s, t) && Quiet(pl, s) && Settled(pl, s) && Positive(sim) && !Wants(pl, s, t)
    requires LeastOpen(pl, s, 0) < pl.numInputs
    requires var s' := Tick(pl, s, t, false, sim);
             forall i: nat, p: nat | Has(s, i, p) ::
               Has(s', i, p) && Weight(pl, Work, p, s'.inst[i][p]) == Weight(pl, Work, p, s.inst[i][p])
    ensures t < Deadline(pl, s)
    ensures var i := LeastOpen(pl, s, 0); var c := CurrentFrom(pl, s, i, 0); c.Some? && s.inst[i][c.value].start >= 0.0
  {
    var i := LeastOpen(pl, s, 0);
    LeastOpenActivated(pl, s, t);
    var p := CurrentFrom(pl, s, i, 0).value;
    ActivatedFollows(pl, s, i, p, t);
    TickKeeps(pl, s, t, false, sim);
    var s1, s' := Communicate(pl, s, t, false, sim), Tick(pl, s, t, false, sim);
    assert SameState(s1.inst[i][p], s'.inst[i][p]);
    assert Weight(pl, Work, p, s1.inst[i][p]) == Weight(pl, Work, p, s'.inst[i][p]);
    OnlyRunningWaits(pl, s, i, p, t);
  }

  /** A tick without progress leaves the deadline where it is, in the future. */
  lemma StalledBeforeDeadline(pl: Plan, s: Progress, t: real, sim: (nat, nat) -> real)
    requires WellFormed(pl) && Inv(pl, s, t) && Quiet(pl, s) && Settled(pl, s) && Positive(sim) && !Wants(pl, s, t)
    requires |Tick(pl, s, t, false, sim).inst| == pl.numInputs
    requires Total(pl, Work, Tick(pl, s, t, false, sim), pl.numInputs) == Total(pl, Work, s, pl.numInputs)
    requires LeastOpen(pl, Tick(pl, s, t, false, sim), 0) < pl.numInputs
    ensures t < Deadline(pl, s) && Deadline(pl, Tick(pl, s, t, false, sim)) == Deadline(pl, s)
  {
    var s' := Tick(pl, s, t, false, sim);
    TickKeeps(pl, s, t, false, sim);
    EqualWorkMeansSameStates(pl, s, s');
    LeastOpenSame(pl, s, s', 0);
    var i := LeastOpen(pl, s, 0);
    CurrentFromSame(pl, s, s', i, 0);
    CurrentWaits(pl, s, t, sim);
    var p := CurrentFrom(pl, s, i, 0).value;
    assert SameState(s.inst[i][p], s'.inst[i][p]);
  }
}
