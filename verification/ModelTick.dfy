/** One tick of one mapped model: activate, take simulated latencies, time twice. Each tick keeps the
    invariant, lowers two potentials, and stalls only while a known deadline lies in the future. */
module ModelTick {
  import opened Options
  import opened Phases
  import opened PhaseEngine
  import opened EngineInvariant
  import opened EngineSteps
  import opened EngineTheorems

  /** A request without its first latency. */
  predicate Lacks(s: Progress, r: (nat, nat)) { Has(s, r.0, r.1) && s.inst[r.0][r.1].latency == 0.0 }

  predicate Wants(pl: Plan, s: Progress, t: real)
    requires PlanShape(pl) && |s.inputStart| == pl.numInputs
  {
    var s1 := Activate(pl, s, t, pl.numInputs);
    exists r | r in Requests(pl, s, t, pl.numInputs) :: Lacks(s1, r)
  }

  /** Activation followed, when the simulator is called, by the latencies it returned. */
  function Communicate(pl: Plan, s: Progress, t: real, call: bool, sim: (nat, nat) -> real): (r: Progress)
    requires PlanShape(pl) && |s.inputStart| == pl.numInputs
    ensures |r.inputStart| == |s.inputStart| && |r.inputDone| == |s.inputDone|
  {
    var s1 := Activate(pl, s, t, pl.numInputs);
    var reqs := Requests(pl, s, t, pl.numInputs);
    if call then Update(pl, s1, reqs, sim, t, |reqs|) else s1
  }

  function Tick(pl: Plan, s: Progress, t: real, call: bool, sim: (nat, nat) -> real): Progress
    requires PlanShape(pl) && |s.inputStart| == |s.inputDone| == pl.numInputs
  {
    Time(pl, Time(pl, Communicate(pl, s, t, call, sim)))
  }

  // ----- potentials ---------------------------------------------------------------------------------

  /** Work counts the state changes still to come; Unsimulated counts the communications whose
      first latency is still missing. */
  datatype Measure = Work | Unsimulated

  function Weight(pl: Plan, m: Measure, p: nat, x: Instance): nat {
    var comm := p < |pl.phases| && !pl.phases[p].kind.Compute?;
    match m
    case Work =>
      (match x.state
       case NotStarted => 3
       case Running => if comm && x.latency == 0.0 then 2 else 1
       case Complete => 0)
    case Unsimulated => if comm && HasTraffic(pl.phases[p].traffic) && x.latency == 0.0 then 1 else 0
  }

  function RowTotal(pl: Plan, m: Measure, row: map<nat, Instance>, n: nat): nat {
    if n == 0 then 0
    else RowTotal(pl, m, row, n - 1) + if n - 1 in row then Weight(pl, m, n - 1, row[n - 1]) else 0
  }

  function Total(pl: Plan, m: Measure, s: Progress, n: nat): nat
    requires n <= |s.inst|
  {
    if n == 0 then 0 else Total(pl, m, s, n - 1) + RowTotal(pl, m, s.inst[n - 1], |pl.phases|)
  }

  /** y may follow x: no potential rises, and if the work is the same then so are state, start and,
      without a simulator call, latency. */
  ghost predicate Follows(pl: Plan, call: bool, p: nat, x: Instance, y: Instance) {
    && Weight(pl, Work, p, y) <= Weight(pl, Work, p, x)
    && Weight(pl, Unsimulated, p, y) <= Weight(pl, Unsimulated, p, x)
    && (Weight(pl, Work, p, y) == Weight(pl, Work, p, x) ==>
          && y.state == x.state
          && (x.start != UNSET ==> y.start == x.start)
          && (!call ==> y.latency == x.latency))
  }

  ghost predicate SameKeys(s: Progress, s': Progress) {
    |s.inst| == |s'.inst| && forall i: nat, p: nat :: Has(s, i, p) <==> Has(s', i, p)
  }

  ghost predicate AllFollow(pl: Plan, call: bool, s: Progress, s': Progress) {
    && SameKeys(s, s')
    && (forall i: nat, p: nat | Has(s, i, p) :: Follows(pl, call, p, s.inst[i][p], s'.inst[i][p]))
  }

  lemma AllFollowTrans(pl: Plan, call: bool, a: Progress, b: Progress, c: Progress)
    requires AllFollow(pl, call, a, b) && AllFollow(pl, call, b, c)
    ensures AllFollow(pl, call, a, c)
  {
    forall i: nat, p: nat | Has(a, i, p) ensures Follows(pl, call, p, a.inst[i][p], c.inst[i][p]) {
      assert Has(b, i, p);
      assert Follows(pl, call, p, a.inst[i][p], b.inst[i][p]);
      assert Follows(pl, call, p, b.inst[i][p], c.inst[i][p]);
    }
  }

  lemma {:induction false} RowTotalFalls(pl: Plan, m: Measure, a: map<nat, Instance>, b: map<nat, Instance>, n: nat)
    requires forall p: nat :: p in a <==> p in b
    requires forall p: nat | p in a :: Weight(pl, m, p, b[p]) <= Weight(pl, m, p, a[p])
    ensures RowTotal(pl, m, b, n) <= RowTotal(pl, m, a, n)
    ensures RowTotal(pl, m, b, n) == RowTotal(pl, m, a, n) ==>
              forall p: nat | p < n && p in a :: Weight(pl, m, p, b[p]) == Weight(pl, m, p, a[p])
  {
    if n > 0 { RowTotalFalls(pl, m, a, b, n - 1); }
  }

  /** A total falls with its summands, strictly if any of them does. */
  lemma {:induction false} TotalFalls(pl: Plan, m: Measure, s: Progress, s': Progress, n: nat)
    requires n <= |s.inst| && SameKeys(s, s')
    requires forall i: nat, p: nat | Has(s, i, p) :: Weight(pl, m, p, s'.inst[i][p]) <= Weight(pl, m, p, s.inst[i][p])
    ensures Total(pl, m, s', n) <= Total(pl, m, s, n)
    ensures Total(pl, m, s', n) == Total(pl, m, s, n) ==>
              forall i: nat, p: nat | i < n && p < |pl.phases| && Has(s, i, p) ::
                Weight(pl, m, p, s'.inst[i][p]) == Weight(pl, m, p, s.inst[i][p])
  {
    if n > 0 {
      var k: nat := n - 1;
      TotalFalls(pl, m, s, s', k);
      var a, b := s.inst[k], s'.inst[k];
      assert forall p: nat :: (p in a <==> Has(s, k, p)) && (p in b <==> Has(s', k, p));
      RowTotalFalls(pl, m, a, b, |pl.phases|);
    }
  }

  // ----- activation ------------------------------------------------------------------------------------

  /** Between ticks every running communication has a latency. */
  ghost predicate Quiet(pl: Plan, s: Progress) {
    forall i: nat, p: nat | Simulated(pl, s, i, p) :: s.inst[i][p].latency > 0.0
  }

  lemma ActivatedFollows(pl: Plan, s: Progress, i: nat, p: nat, t: real)
    requires WellFormed(pl) && Inv(pl, s, t)
    requires p < |pl.phases| && Has(s, i, p) && !Done(s, i, p)
    ensures Follows(pl, false, p, s.inst[i][p], Activated(pl, s, i, p, t).0)
  {
    assert Good(pl, s, i, p, s.inst[i][p], t);
    NeverSkipsLoad(pl, s, i, p, t);
  }

  /** Exactly which instance input i's turn touches. */
  lemma ActivateInputFrame(pl: Plan, s: Progress, i: nat, t: real)
    requires WellFormed(pl) && Inv(pl, s, t) && i < pl.numInputs
    ensures AllFollow(pl, false, s, ActivateInput(pl, s, i, t).0)
    ensures forall j: nat | j < |s.inst| && j != i :: ActivateInput(pl, s, i, t).0.inst[j] == s.inst[j]
  {
    InputFollows(pl, s, i, t);
    OtherRowsStay(pl, s, i, t);
  }

  lemma InputFollows(pl: Plan, s: Progress, i: nat, t: real)
    requires WellFormed(pl) && Inv(pl, s, t) && i < pl.numInputs
    ensures AllFollow(pl, false, s, ActivateInput(pl, s, i, t).0)
  {
    var c := Current(pl, s, i, t);
    if c.Some? {
      ActivatedFollows(pl, s, i, c.value, t);
      PutFollows(pl, s, i, c.value, Activated(pl, s, i, c.value, t).0);
    } else {
      AllFollowSelf(pl, s);
    }
  }

  lemma PutFollows(pl: Plan, s: Progress, i: nat, p: nat, x: Instance)
    requires p < |pl.phases| && Has(s, i, p) && !Done(s, i, p) && Follows(pl, false, p, s.inst[i][p], x)
    ensures AllFollow(pl, false, s, Put(pl, s, i, p, x))
  {
    PutFrozen(pl, s, i, p, x);
  }

  lemma AllFollowSelf(pl: Plan, s: Progress)
    ensures AllFollow(pl, false, s, s)
  {
  }

  lemma OtherRowsStay(pl: Plan, s: Progress, i: nat, t: real)
    requires WellFormed(pl) && Inv(pl, s, t) && i < pl.numInputs
    ensures |ActivateInput(pl, s, i, t).0.inst| == |s.inst|
    ensures forall j: nat | j < |s.inst| && j != i :: ActivateInput(pl, s, i, t).0.inst[j] == s.inst[j]
  {
    var c := Current(pl, s, i, t);
    if c.Some? { PutFrozen(pl, s, i, c.value, Activated(pl, s, i, c.value, t).0); }
  }

  ghost predicate IsRequest(pl: Plan, s: Progress, i: nat, p: nat, t: real)
    requires PlanShape(pl) && i < |s.inputStart|
  {
    ActivateInput(pl, s, i, t).1 == Some(p) && p < |pl.phases| && !pl.phases[p].kind.Compute?
  }

  /** After the inputs below n have had their turn. */
  ghost predicate Collected(pl: Plan, s: Progress, t: real, n: nat)
    requires PlanShape(pl) && n <= |s.inputStart|
  {
    var s' := Activate(pl, s, t, n);
    && AllFollow(pl, false, s, s')
    && (forall j: nat | n <= j < |s.inst| :: s'.inst[j] == s.inst[j])
    && (forall r | r in Requests(pl, s, t, n) :: r.0 < n && Simulated(pl, s', r.0, r.1))
    && (forall i: nat, p: nat | i < n && Simulated(pl, s', i, p) ::
          s'.inst[i][p].latency > 0.0 || (i, p) in Requests(pl, s, t, n))
  }

  lemma {:induction false} ActivateCollects(pl: Plan, s: Progress, t: real, n: nat)
    requires WellFormed(pl) && Inv(pl, s, t) && Quiet(pl, s) && n <= pl.numInputs
    ensures Collected(pl, s, t, n)
  {
    if n == 0 {
      CollectedFirst(pl, s, t);
    } else {
      var m: nat := n - 1;
      ActivateCollects(pl, s, t, m);
      CollectNext(pl, s, t, m);
    }
  }

  lemma CollectedFirst(pl: Plan, s: Progress, t: real)
    requires WellFormed(pl) && Inv(pl, s, t)
    ensures Collected(pl, s, t, 0)
  {
    assert Activate(pl, s, t, 0) == s;
  }

  lemma CollectNext(pl: Plan, s: Progress, t: real, m: nat)
    requires WellFormed(pl) && Inv(pl, s, t) && Quiet(pl, s) && m < pl.numInputs && Collected(pl, s, t, m)
    ensures Collected(pl, s, t, m + 1)
  {
    ActivateKeeps(pl, s, t, m);
    CollectStep(pl, s, t, m);
  }

  lemma CollectStep(pl: Plan, s: Progress, t: real, m: nat)
    requires WellFormed(pl) && Quiet(pl, s) && m < pl.numInputs && |s.inputStart| == pl.numInputs == |s.inst|
    requires Inv(pl, Activate(pl, s, t, m), t) && Collected(pl, s, t, m)
    ensures Collected(pl, s, t, m + 1)
  {
    var s1 := Activate(pl, s, t, m);
    var s2 := ActivateInput(pl, s1, m, t).0;
    assert Activate(pl, s, t, m + 1) == s2;
    ActivateInputFrame(pl, s1, m, t);
    AllFollowTrans(pl, false, s, s1, s2);
    NewRequests(pl, s, t, m);
    forall i: nat, p: nat | i < m + 1 && Simulated(pl, s2, i, p)
      ensures s2.inst[i][p].latency > 0.0 || (i, p) in Requests(pl, s, t, m + 1)
    {
      if i < m { assert Simulated(pl, s1, i, p); }
    }
    forall r | r in Requests(pl, s, t, m + 1) ensures r.0 < m + 1 && Simulated(pl, s2, r.0, r.1) {
      if r in Requests(pl, s, t, m) { assert Simulated(pl, s1, r.0, r.1); }
    }
  }

  /** The request input m adds, in terms of the state before its turn. */
  lemma NewRequests(pl: Plan, s: Progress, t: real, m: nat)
    requires WellFormed(pl) && Quiet(pl, s) && m < pl.numInputs && |s.inputStart| == pl.numInputs == |s.inst|
    requires Inv(pl, Activate(pl, s, t, m), t) && Collected(pl, s, t, m)
    ensures var s2 := Activate(pl, s, t, m + 1);
            && (forall r | r in Requests(pl, s, t, m + 1) && r !in Requests(pl, s, t, m) ::
                  r.0 == m && Simulated(pl, s2, m, r.1))
            && (forall r | r in Requests(pl, s, t, m) :: r in Requests(pl, s, t, m + 1))
            && (forall p: nat | Simulated(pl, s2, m, p) ::
                  s2.inst[m][p].latency > 0.0 || (m, p) in Requests(pl, s, t, m + 1))
  {
    RowRequests(pl, s, Activate(pl, s, t, m), m, t);
  }

  /** A request is a running communication, and a running communication that lacks a latency after
      its input's turn is a request. */
  lemma RowRequests(pl: Plan, s: Progress, s1: Progress, m: nat, t: real)
    requires WellFormed(pl) && Inv(pl, s1, t) && Quiet(pl, s) && m < |s.inst| == |s1.inst| && m < pl.numInputs
    requires s1.inst[m] == s.inst[m]
    ensures var s2 := ActivateInput(pl, s1, m, t).0;
            && (forall p | IsRequest(pl, s1, m, p, t) :: Simulated(pl, s2, m, p))
            && (forall p: nat | Simulated(pl, s2, m, p) :: s2.inst[m][p].latency > 0.0 || IsRequest(pl, s1, m, p, t))
  {
    RequestsAreSimulated(pl, s1, m, t);
    OthersHaveLatency(pl, s, s1, m, t);
  }

  lemma RequestsAreSimulated(pl: Plan, s: Progress, m: nat, t: real)
    requires WellFormed(pl) && Inv(pl, s, t) && m < |s.inst| && m < pl.numInputs
    ensures forall p | IsRequest(pl, s, m, p, t) :: Simulated(pl, ActivateInput(pl, s, m, t).0, m, p)
  {
    var c := Current(pl, s, m, t);
    if c.Some? {
      PutFrozen(pl, s, m, c.value, Activated(pl, s, m, c.value, t).0);
      NeverSkipsLoad(pl, s, m, c.value, t);
      assert Good(pl, s, m, c.value, s.inst[m][c.value], t);
    }
  }

  lemma OthersHaveLatency(pl: Plan, s: Progress, s1: Progress, m: nat, t: real)
    requires WellFormed(pl) && Inv(pl, s1, t) && Quiet(pl, s) && m < |s.inst| == |s1.inst| && m < pl.numInputs
    requires s1.inst[m] == s.inst[m]
    ensures var s2 := ActivateInput(pl, s1, m, t).0;
            forall p: nat | Simulated(pl, s2, m, p) :: s2.inst[m][p].latency > 0.0 || IsRequest(pl, s1, m, p, t)
  {
    var c := Current(pl, s1, m, t);
    var s2 := ActivateInput(pl, s1, m, t).0;
    if c.Some? {
      PutFrozen(pl, s1, m, c.value, Activated(pl, s1, m, c.value, t).0);
      NeverSkipsLoad(pl, s1, m, c.value, t);
      assert Good(pl, s1, m, c.value, s1.inst[m][c.value], t);
    }
    forall p: nat | Simulated(pl, s2, m, p) ensures s2.inst[m][p].latency > 0.0 || IsRequest(pl, s1, m, p, t) {
      if c == None || p != c.value { assert Simulated(pl, s, m, p); }
    }
  }

  // ----- latency updates -----------------------------------------------------------------------------

  ghost predicate Positive(sim: (nat, nat) -> real) { forall i, p :: sim(i, p) > 0.0 }

  ghost predicate AllSimulated(pl: Plan, s: Progress, reqs: seq<(nat, nat)>) {
    forall k | 0 <= k < |reqs| :: Simulated(pl, s, reqs[k].0, reqs[k].1)
  }

  /** The same communications are running, and none of them has lost its latency. */
  ghost predicate SameRunning(pl: Plan, s: Progress, s': Progress) {
    forall i: nat, p: nat | Simulated(pl, s', i, p) ::
      Simulated(pl, s, i, p) && (s.inst[i][p].latency > 0.0 ==> s'.inst[i][p].latency > 0.0)
  }

  ghost predicate Latent(pl: Plan, s: Progress, r: (nat, nat)) {
    Simulated(pl, s, r.0, r.1) && s.inst[r.0][r.1].latency > 0.0
  }

  /** s' is s with the first n requested latencies pushed in. */
  ghost predicate Updated(pl: Plan, s: Progress, s': Progress, reqs: seq<(nat, nat)>, n: nat, t: real)
    requires n <= |reqs|
  {
    && Kept(pl, s, s', t) && AllFollow(pl, true, s, s') && SameRunning(pl, s, s') && AllSimulated(pl, s', reqs)
    && (forall k | 0 <= k < n :: Latent(pl, s', reqs[k]))
  }

  lemma OneUpdate(pl: Plan, s: Progress, i: nat, p: nat, latency: real, t: real)
    requires WellFormed(pl) && Inv(pl, s, t) && Simulated(pl, s, i, p) && latency > 0.0
    ensures var s' := UpdateLatency(pl, s, i, p, latency, t);
            && Kept(pl, s, s', t) && AllFollow(pl, true, s, s') && SameRunning(pl, s, s')
            && Latent(pl, s', (i, p))
            && forall j: nat, q: nat | Simulated(pl, s, j, q) :: Simulated(pl, s', j, q)
  {
    var s' := UpdateLatency(pl, s, i, p, latency, t);
    UpdateLatencyKeeps(pl, s, i, p, latency, t);
    PutFrozen(pl, s, i, p, s'.inst[i][p]);
    assert Good(pl, s, i, p, s.inst[i][p], t);
    forall j: nat, q: nat | Has(s, j, q)
      ensures Follows(pl, true, q, s.inst[j][q], s'.inst[j][q]) && s'.inst[j][q].state == s.inst[j][q].state
    {
    }
  }

  lemma SameRunningTrans(pl: Plan, a: Progress, b: Progress, c: Progress)
    requires SameRunning(pl, a, b) && SameRunning(pl, b, c)
    ensures SameRunning(pl, a, c)
  {
  }

  lemma StillLatent(pl: Plan, b: Progress, c: Progress, reqs: seq<(nat, nat)>, n: nat)
    requires n < |reqs| && AllSimulated(pl, b, reqs) && SameRunning(pl, b, c) && Latent(pl, c, reqs[n])
    requires forall k | 0 <= k < n :: Latent(pl, b, reqs[k])
    requires forall j: nat, q: nat | Simulated(pl, b, j, q) :: Simulated(pl, c, j, q)
    ensures AllSimulated(pl, c, reqs) && forall k | 0 <= k < n + 1 :: Latent(pl, c, reqs[k])
  {
    forall k | 0 <= k < |reqs| ensures Simulated(pl, c, reqs[k].0, reqs[k].1) {
      assert Simulated(pl, b, reqs[k].0, reqs[k].1);
    }
    forall k | 0 <= k < n ensures Latent(pl, c, reqs[k]) { assert Latent(pl, b, reqs[k]); }
  }

  lemma UpdatedTrans(pl: Plan, a: Progress, b: Progress, c: Progress, reqs: seq<(nat, nat)>, n: nat, t: real)
    requires n < |reqs| && Updated(pl, a, b, reqs, n, t)
    requires Kept(pl, b, c, t) && AllFollow(pl, true, b, c) && SameRunning(pl, b, c) && Latent(pl, c, reqs[n])
    requires forall j: nat, q: nat | Simulated(pl, b, j, q) :: Simulated(pl, c, j, q)
    ensures Updated(pl, a, c, reqs, n + 1, t)
  {
    FrozenTrans(a, b, c);
    AllFollowTrans(pl, true, a, b, c);
    SameRunningTrans(pl, a, b, c);
    StillLatent(pl, b, c, reqs, n);
  }

  lemma UpdateStep(pl: Plan, s: Progress, reqs: seq<(nat, nat)>, sim: (nat, nat) -> real, t: real, n: nat)
    requires WellFormed(pl) && Positive(sim) && n < |reqs| && Updated(pl, s, Update(pl, s, reqs, sim, t, n), reqs, n, t)
    ensures Updated(pl, s, Update(pl, s, reqs, sim, t, n + 1), reqs, n + 1, t)
  {
    var r, s1 := reqs[n], Update(pl, s, reqs, sim, t, n);
    assert Simulated(pl, s1, reqs[n].0, reqs[n].1);
    OneUpdate(pl, s1, r.0, r.1, sim(r.0, r.1), t);
    UpdatedTrans(pl, s, s1, UpdateLatency(pl, s1, r.0, r.1, sim(r.0, r.1), t), reqs, n, t);
  }

  lemma NothingUpdated(pl: Plan, s: Progress, reqs: seq<(nat, nat)>, t: real)
    requires Inv(pl, s, t) && AllSimulated(pl, s, reqs)
    ensures Updated(pl, s, s, reqs, 0, t)
  {
    FrozenRefl(s);
  }

  lemma {:induction false} UpdateKeeps(pl: Plan, s: Progress, reqs: seq<(nat, nat)>, sim: (nat, nat) -> real, t: real,
                                       n: nat)
    requires WellFormed(pl) && Inv(pl, s, t) && n <= |reqs| && AllSimulated(pl, s, reqs) && Positive(sim)
    ensures Updated(pl, s, Update(pl, s, reqs, sim, t, n), reqs, n, t)
  {
    if n == 0 {
      NothingUpdated(pl, s, reqs, t);
    } else {
      UpdateKeeps(pl, s, reqs, sim, t, n - 1);
      UpdateStep(pl, s, reqs, sim, t, n - 1);
    }
  }

  // ----- the tick ------------------------------------------------------------------------------------

  lemma SameStatesFollow(pl: Plan, s: Progress, s': Progress, t: real)
    requires Inv(pl, s, t) && SameStates(s, s')
    ensures AllFollow(pl, false, s, s')
    ensures Quiet(pl, s) ==> Quiet(pl, s')
  {
    forall i: nat, p: nat | Has(s, i, p) ensures Follows(pl, false, p, s.inst[i][p], s'.inst[i][p]) {
      var x := s.inst[i][p];
      assert Exists(pl, i, p);
      assert SameState(x, s'.inst[i][p]);
      assert Good(pl, s, i, p, x, t);
      if x.start != UNSET { StartTimeBounds(pl, s, i, p, t); }
    }
    forall i: nat, p: nat | Simulated(pl, s', i, p) && Quiet(pl, s) ensures s'.inst[i][p].latency > 0.0 {
      assert SameState(s.inst[i][p], s'.inst[i][p]);
      assert Simulated(pl, s, i, p);
    }
  }

  ghost predicate Ticked(pl: Plan, call: bool, s: Progress, s': Progress, t: real) {
    Kept(pl, s, s', t) && AllFollow(pl, call, s, s') && Quiet(pl, s')
  }

  lemma FollowWeaken(pl: Plan, call: bool, s: Progress, s': Progress)
    requires AllFollow(pl, false, s, s')
    ensures AllFollow(pl, call, s, s')
  {
    forall i: nat, p: nat | Has(s, i, p) ensures Follows(pl, call, p, s.inst[i][p], s'.inst[i][p]) {
      assert Follows(pl, false, p, s.inst[i][p], s'.inst[i][p]);
    }
  }

  lemma CollectKeeps(pl: Plan, s: Progress, t: real)
    requires WellFormed(pl) && Inv(pl, s, t) && Quiet(pl, s) && !Wants(pl, s, t)
    ensures Ticked(pl, false, s, Activate(pl, s, t, pl.numInputs), t)
  {
    var n := pl.numInputs;
    var s1 := Activate(pl, s, t, n);
    ActivateKeeps(pl, s, t, n);
    ActivateCollects(pl, s, t, n);
    forall i: nat, p: nat | Simulated(pl, s1, i, p) ensures s1.inst[i][p].latency > 0.0 {
      assert Exists(pl, i, p);
      assert Good(pl, s1, i, p, s1.inst[i][p], t);
      if (i, p) in Requests(pl, s, t, n) { assert !Lacks(s1, (i, p)); }
    }
  }

  /** s1 is s after activation, s2 is s1 after a simulator call for all of reqs. */
  ghost predicate Called(pl: Plan, s: Progress, s1: Progress, s2: Progress, reqs: seq<(nat, nat)>, t: real) {
    && Kept(pl, s, s1, t) && AllFollow(pl, false, s, s1) && Updated(pl, s1, s2, reqs, |reqs|, t)
    && (forall i: nat, p: nat | Simulated(pl, s1, i, p) :: s1.inst[i][p].latency > 0.0 || (i, p) in reqs)
  }

  lemma CallKeeps(pl: Plan, s: Progress, s1: Progress, s2: Progress, reqs: seq<(nat, nat)>, t: real)
    requires Called(pl, s, s1, s2, reqs, t)
    ensures Ticked(pl, true, s, s2, t)
  {
    FrozenTrans(s, s1, s2);
    FollowWeaken(pl, true, s, s1);
    AllFollowTrans(pl, true, s, s1, s2);
    forall i: nat, p: nat | Simulated(pl, s2, i, p) ensures s2.inst[i][p].latency > 0.0 {
      assert Simulated(pl, s1, i, p);
      if (i, p) in reqs {
        var k :| 0 <= k < |reqs| && reqs[k] == (i, p);
        assert Latent(pl, s2, reqs[k]);
      }
    }
  }

  lemma CallIsCalled(pl: Plan, s: Progress, t: real, sim: (nat, nat) -> real)
    requires WellFormed(pl) && Inv(pl, s, t) && Quiet(pl, s) && Positive(sim)
    ensures Called(pl, s, Activate(pl, s, t, pl.numInputs), Communicate(pl, s, t, true, sim),
                   Requests(pl, s, t, pl.numInputs), t)
  {
    var n := pl.numInputs;
    var s1 := Activate(pl, s, t, n);
    var reqs := Requests(pl, s, t, n);
    ActivateKeeps(pl, s, t, n);
    ActivateCollects(pl, s, t, n);
    UpdateKeeps(pl, s1, reqs, sim, t, |reqs|);
    forall i: nat, p: nat | Simulated(pl, s1, i, p) ensures s1.inst[i][p].latency > 0.0 || (i, p) in reqs {
      assert Exists(pl, i, p);
    }
  }

  lemma CommunicateKeeps(pl: Plan, s: Progress, t: real, call: bool, sim: (nat, nat) -> real)
    requires WellFormed(pl) && Inv(pl, s, t) && Quiet(pl, s) && Positive(sim)
    requires Wants(pl, s, t) ==> call
    ensures Ticked(pl, call, s, Communicate(pl, s, t, call, sim), t)
  {
    if call {
      CallIsCalled(pl, s, t, sim);
      CallKeeps(pl, s, Activate(pl, s, t, pl.numInputs), Communicate(pl, s, t, true, sim),
                Requests(pl, s, t, pl.numInputs), t);
    } else {
      CollectKeeps(pl, s, t);
    }
  }

  /** The instance has lost weight. */
  ghost predicate Lowered(pl: Plan, m: Measure, s: Progress, s': Progress, i: nat, p: nat) {
    && Exists(pl, i, p) && Has(s, i, p) && Has(s', i, p)
    && Weight(pl, m, p, s'.inst[i][p]) < Weight(pl, m, p, s.inst[i][p])
  }

  /** A requested instance without a latency loses weight in both measures. */
  lemma FirstLatencyLowers(pl: Plan, s: Progress, s1: Progress, s2: Progress, reqs: seq<(nat, nat)>, k: nat, t: real,
                           m: Measure)
    requires Called(pl, s, s1, s2, reqs, t) && k < |reqs|
    requires Simulated(pl, s1, reqs[k].0, reqs[k].1) && Lacks(s1, reqs[k])
    ensures Lowered(pl, m, s, s2, reqs[k].0, reqs[k].1)
  {
    var (i, p) := reqs[k];
    assert Has(s1, i, p) && Has(s, i, p) && Simulated(pl, s2, reqs[k].0, reqs[k].1);
    assert Follows(pl, false, p, s.inst[i][p], s1.inst[i][p]);
    assert Good(pl, s1, i, p, s1.inst[i][p], t);
    assert Latent(pl, s2, reqs[k]);
  }

  lemma WantedRequest(pl: Plan, s: Progress, t: real) returns (k: nat)
    requires WellFormed(pl) && Inv(pl, s, t) && Quiet(pl, s) && Wants(pl, s, t)
    ensures k < |Requests(pl, s, t, pl.numInputs)|
    ensures var r := Requests(pl, s, t, pl.numInputs)[k]; var s1 := Activate(pl, s, t, pl.numInputs);
            Simulated(pl, s1, r.0, r.1) && Lacks(s1, r)
  {
    var reqs := Requests(pl, s, t, pl.numInputs);
    var r :| r in reqs && Lacks(Activate(pl, s, t, pl.numInputs), r);
    k :| 0 <= k < |reqs| && reqs[k] == r;
    ActivateCollects(pl, s, t, pl.numInputs);
  }

  /** A call that was wanted gives some communication its first latency. */
  lemma WantedCallProgresses(pl: Plan, s: Progress, t: real, sim: (nat, nat) -> real, m: Measure)
    returns (i: nat, p: nat)
    requires WellFormed(pl) && Inv(pl, s, t) && Quiet(pl, s) && Positive(sim) && Wants(pl, s, t)
    ensures Lowered(pl, m, s, Communicate(pl, s, t, true, sim), i, p)
  {
    var k := WantedRequest(pl, s, t);
    CallIsCalled(pl, s, t, sim);
    var reqs := Requests(pl, s, t, pl.numInputs);
    FirstLatencyLowers(pl, s, Activate(pl, s, t, pl.numInputs), Communicate(pl, s, t, true, sim), reqs, k, t, m);
    i, p := reqs[k].0, reqs[k].1;
  }

  lemma TickKeeps(pl: Plan, s: Progress, t: real, call: bool, sim: (nat, nat) -> real)
    requires WellFormed(pl) && Inv(pl, s, t) && Quiet(pl, s) && Positive(sim)
    requires Wants(pl, s, t) ==> call
    ensures Ticked(pl, call, s, Tick(pl, s, t, call, sim), t)
    ensures Settled(pl, Tick(pl, s, t, call, sim))
    ensures SameStates(Communicate(pl, s, t, call, sim), Tick(pl, s, t, call, sim))
  {
    var s1 := Communicate(pl, s, t, call, sim);
    CommunicateKeeps(pl, s, t, call, sim);
    var s2 := Time(pl, s1);
    TimeSettles(pl, s1, t);
    var s3 := Time(pl, s2);
    TimeSettles(pl, s2, t);
    SameStatesTrans(s1, s2, s3);
    FrozenTrans(s1, s2, s3);
    FrozenTrans(s, s1, s3);
    SameStatesFollow(pl, s1, s3, t);
    FollowWeaken(pl, call, s1, s3);
    AllFollowTrans(pl, call, s, s1, s3);
  }

  lemma FollowingLowersTotal(pl: Plan, call: bool, s: Progress, s': Progress, m: Measure)
    requires |s.inst| == pl.numInputs && AllFollow(pl, call, s, s')
    ensures Total(pl, m, s', pl.numInputs) <= Total(pl, m, s, pl.numInputs)
    ensures forall i: nat, p: nat | Lowered(pl, m, s, s', i, p) ::
              Total(pl, m, s', pl.numInputs) < Total(pl, m, s, pl.numInputs)
  {
    forall i: nat, p: nat | Has(s, i, p) ensures Weight(pl, m, p, s'.inst[i][p]) <= Weight(pl, m, p, s.inst[i][p]) {
      assert Follows(pl, call, p, s.inst[i][p], s'.inst[i][p]);
    }
    TotalFalls(pl, m, s, s', pl.numInputs);
  }

  lemma SameStatesStayLowered(pl: Plan, m: Measure, s: Progress, s1: Progress, s2: Progress, i: nat, p: nat)
    requires Lowered(pl, m, s, s1, i, p) && SameStates(s1, s2)
    ensures Lowered(pl, m, s, s2, i, p)
  {
    assert SameState(s1.inst[i][p], s2.inst[i][p]);
  }

  /** Over a tick neither potential rises, and a wanted call lowers both. */
  lemma TickLowersTotals(pl: Plan, s: Progress, t: real, call: bool, sim: (nat, nat) -> real, m: Measure)
    requires WellFormed(pl) && Inv(pl, s, t) && Quiet(pl, s) && Positive(sim)
    requires Wants(pl, s, t) ==> call
    ensures |Tick(pl, s, t, call, sim).inst| == |s.inst| == pl.numInputs
    ensures Total(pl, m, Tick(pl, s, t, call, sim), pl.numInputs) <= Total(pl, m, s, pl.numInputs)
    ensures Wants(pl, s, t) ==> Total(pl, m, Tick(pl, s, t, call, sim), pl.numInputs) < Total(pl, m, s, pl.numInputs)
  {
    var s' := Tick(pl, s, t, call, sim);
    TickKeeps(pl, s, t, call, sim);
    FollowingLowersTotal(pl, call, s, s', m);
    if Wants(pl, s, t) {
      var i, p := WantedCallProgresses(pl, s, t, sim, m);
      SameStatesStayLowered(pl, m, s, Communicate(pl, s, t, true, sim), s', i, p);
    }
  }
}
