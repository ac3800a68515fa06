/** The workload and its list of waiting models (src/managers/workload_manager.py). */
module Workloads {
  import opened Sorting

  /** One row of the workload: injection time, inputs, model number. */
  datatype Entry = Entry(time: real, inputs: nat, model: nat)

  /** A waiting model and how often it could not be mapped. */
  datatype Waiting = Waiting(entry: Entry, age: nat)

  // ----- what the ready list should be ---------------------------------------------------------------------

  ghost predicate Distinct(w: seq<Entry>) { forall i, j | 0 <= i < j < |w| :: w[i].model != w[j].model }

  /** The latest time asked about, if any. */
  datatype Horizon = Never | Until(time: real)

  predicate Due(e: Entry, h: Horizon) { h.Until? && e.time <= h.time }

  function Later(h: Horizon, t: real): Horizon { if h.Until? && h.time >= t then h else Until(t) }

  /** Entries that are due and not injected, in workload order. */
  function Pending(w: seq<Entry>, h: Horizon, injected: set<nat>): seq<Entry> {
    if w == [] then []
    else
      var e := w[|w| - 1];
      Pending(w[..|w| - 1], h, injected) + (if Due(e, h) && e.model !in injected then [e] else [])
  }

  function Entries(ready: seq<Waiting>): (r: seq<Entry>)
    ensures |r| == |ready| && forall i | 0 <= i < |r| :: r[i] == ready[i].entry
  {
    seq(|ready|, i requires 0 <= i < |ready| => ready[i].entry)
  }

  /** The age of a model in the ready list, zero when it is not there. */
  function Age(ready: seq<Waiting>, model: nat): nat {
    if ready == [] then 0 else if ready[0].entry.model == model then ready[0].age else Age(ready[1..], model)
  }

  lemma {:induction false} PendingMembers(w: seq<Entry>, h: Horizon, injected: set<nat>, e: Entry)
    ensures e in Pending(w, h, injected) <==> e in w && Due(e, h) && e.model !in injected
  {
    if w != [] {
      PendingMembers(w[..|w| - 1], h, injected, e);
      assert w == w[..|w| - 1] + [w[|w| - 1]];
    }
  }

  /** Once a sorted workload reaches an entry that is not due, nothing after it is. */
  lemma {:induction false} PendingOfNone(w: seq<Entry>, h: Horizon, injected: set<nat>)
    requires forall i | 0 <= i < |w| :: !Due(w[i], h) || w[i].model in injected
    ensures Pending(w, h, injected) == []
  {
    if w != [] { PendingOfNone(w[..|w| - 1], h, injected); }
  }

  lemma {:induction false} PendingConcat(a: seq<Entry>, b: seq<Entry>, h: Horizon, injected: set<nat>)
    ensures Pending(a + b, h, injected) == Pending(a, h, injected) + Pending(b, h, injected)
    decreases |b|
  {
    if b == [] { assert a + b == a; }
    else {
      PendingConcat(a, b[..|b| - 1], h, injected);
      assert (a + b)[..|a + b| - 1] == a + b[..|b| - 1];
    }
  }

  /** Injecting one more model removes just its entry. */
  lemma {:induction false} PendingWithout(w: seq<Entry>, h: Horizon, injected: set<nat>, m: nat)
    ensures Pending(w, h, injected + {m}) == Without(Pending(w, h, injected), m)
  {
    if w != [] {
      var rest, e := w[..|w| - 1], w[|w| - 1];
      PendingWithout(rest, h, injected, m);
      WithoutConcat(Pending(rest, h, injected), if Due(e, h) && e.model !in injected then [e] else [], m);
    }
  }

  function Without(s: seq<Entry>, m: nat): seq<Entry> {
    if s == [] then [] else if s[0].model == m then Without(s[1..], m) else [s[0]] + Without(s[1..], m)
  }

  lemma {:induction false} WithoutConcat(a: seq<Entry>, b: seq<Entry>, m: nat)
    ensures Without(a + b, m) == Without(a, m) + Without(b, m)
  {
    if a == [] { assert a + b == b; }
    else {
      var x, y := Without(a[1..], m), Without(b, m);
      WithoutConcat(a[1..], b, m);
      assert (a + b)[0] == a[0] && (a + b)[1..] == a[1..] + b;
      assert ([a[0]] + x) + y == [a[0]] + (x + y);
    }
  }

  // ----- counting ------------------------------------------------------------------------------------------

  function Models(w: seq<Entry>): set<nat> {
    if w == [] then {} else Models(w[..|w| - 1]) + {w[|w| - 1].model}
  }

  lemma {:induction false} ModelsMembers(w: seq<Entry>, m: nat)
    ensures m in Models(w) <==> exists i :: 0 <= i < |w| && w[i].model == m
  {
    if w != [] { ModelsMembers(w[..|w| - 1], m); }
  }

  function Uninjected(w: seq<Entry>, injected: set<nat>): nat {
    if w == [] then 0 else Uninjected(w[..|w| - 1], injected) + (if w[|w| - 1].model in injected then 0 else 1)
  }

  /** Counting the workload against the injected set counts the entries not injected. */
  lemma {:induction false} CountUninjected(w: seq<Entry>, injected: set<nat>)
    requires Distinct(w) && injected <= Models(w)
    ensures |w| - |injected| == Uninjected(w, injected)
  {
    if w == [] { assert injected == {}; }
    else {
      var rest, e := w[..|w| - 1], w[|w| - 1];
      ModelsMembers(rest, e.model);
      var fewer := injected - {e.model};
      assert fewer <= Models(rest);
      CountUninjected(rest, fewer);
      SameBefore(rest, injected, e.model);
      assert e.model in injected ==> injected == fewer + {e.model};
      assert e.model !in injected ==> injected == fewer;
    }
  }

  lemma {:induction false} SameBefore(w: seq<Entry>, injected: set<nat>, m: nat)
    requires m !in Models(w)
    ensures Uninjected(w, injected - {m}) == Uninjected(w, injected)
  {
    if w != [] { SameBefore(w[..|w| - 1], injected, m); }
  }

  // ----- the ready list grows at its end -------------------------------------------------------------------

  function ByTime(): Entry -> real { (e: Entry) => e.time }
  function ByReadyTime(): Waiting -> real { (x: Waiting) => x.entry.time }

  /** Entries due by h come first in a sorted workload; k is how many. */
  ghost predicate DuePrefix(w: seq<Entry>, h: Horizon, k: nat) {
    k <= |w| && (forall i | 0 <= i < k :: Due(w[i], h)) && forall i | k <= i < |w| :: !Due(w[i], h)
  }

  lemma {:induction false} FindDuePrefix(w: seq<Entry>, h: Horizon) returns (k: nat)
    requires Sorted(w, ByTime())
    ensures DuePrefix(w, h, k)
  {
    if w == [] || Due(w[|w| - 1], h) {
      k := |w|;
      forall i | 0 <= i < k ensures Due(w[i], h) { assert ByTime()(w[i]) <= ByTime()(w[|w| - 1]); }
    } else {
      k := FindDuePrefix(w[..|w| - 1], h);
      assert forall i | k <= i < |w| - 1 :: w[..|w| - 1][i] == w[i];
    }
  }

  /** Only the due prefix is pending, and there a later horizon changes nothing. */
  lemma {:induction false} SameWhenDue(w: seq<Entry>, h: Horizon, g: Horizon, injected: set<nat>)
    requires forall i | 0 <= i < |w| :: Due(w[i], h) && Due(w[i], g)
    ensures Pending(w, h, injected) == Pending(w, g, injected)
  {
    if w != [] { SameWhenDue(w[..|w| - 1], h, g, injected); }
  }

  lemma PendingIsPrefix(w: seq<Entry>, h: Horizon, t: real, injected: set<nat>, k: nat)
    requires DuePrefix(w, h, k)
    ensures Pending(w, h, injected) == Pending(w[..k], Later(h, t), injected)
  {
    assert w == w[..k] + w[k..];
    PendingConcat(w[..k], w[k..], h, injected);
    PendingOfNone(w[k..], h, injected);
    SameWhenDue(w[..k], h, Later(h, t), injected);
  }

  /** The latest injection time of a workload. */
  function LastTime(w: seq<Entry>): real {
    if w == [] then 0.0
    else
      var t := LastTime(w[..|w| - 1]);
      if w[|w| - 1].time > t then w[|w| - 1].time else t
  }

  lemma {:induction false} NotAfterLast(w: seq<Entry>, i: nat)
    requires i < |w|
    ensures w[i].time <= LastTime(w)
  {
    if i < |w| - 1 { NotAfterLast(w[..|w| - 1], i); }
  }

  /** With a late horizon everything that is not injected is pending; with any other, a first part of it. */
  lemma PendingIsPrefixOfAll(w: seq<Entry>, h: Horizon, injected: set<nat>)
    requires Sorted(w, ByTime())
    ensures Pending(w, h, injected) <= Pending(w, Until(LastTime(w)), injected)
    ensures h.Until? && h.time >= LastTime(w) ==> Pending(w, h, injected) == Pending(w, Until(LastTime(w)), injected)
  {
    var last := Until(LastTime(w));
    forall i | 0 <= i < |w| ensures Due(w[i], last) { NotAfterLast(w, i); }
    var k := FindDuePrefix(w, h);
    assert w == w[..k] + w[k..];
    PendingConcat(w[..k], w[k..], h, injected);
    PendingConcat(w[..k], w[k..], last, injected);
    PendingOfNone(w[k..], h, injected);
    SameWhenDue(w[..k], h, last, injected);
    if h.Until? && h.time >= LastTime(w) { SameWhenDue(w, h, last, injected); }
  }

  lemma PendingStep(w: seq<Entry>, n: nat, h: Horizon, injected: set<nat>)
    requires n < |w|
    ensures Pending(w[..n + 1], h, injected) ==
            Pending(w[..n], h, injected) + (if Due(w[n], h) && w[n].model !in injected then [w[n]] else [])
  {
    assert w[..n + 1][..n] == w[..n];
  }

  lemma {:induction false} PendingIsOrdered(w: seq<Entry>, h: Horizon, injected: set<nat>)
    requires Sorted(w, ByTime()) && Distinct(w)
    ensures Sorted(Pending(w, h, injected), ByTime()) && Distinct(Pending(w, h, injected))
  {
    if w != [] {
      var rest, e := w[..|w| - 1], w[|w| - 1];
      PendingIsOrdered(rest, h, injected);
      var p := Pending(rest, h, injected);
      forall i | 0 <= i < |p| ensures ByTime()(p[i]) <= ByTime()(e) && p[i].model != e.model {
        PendingMembers(rest, h, injected, p[i]);
        assert p[i] in rest;
      }
    }
  }

  /** The waiting models other than m. */
  function Dropped(ready: seq<Waiting>, m: nat): seq<Waiting> {
    if ready == [] then []
    else if ready[0].entry.model == m then Dropped(ready[1..], m)
    else [ready[0]] + Dropped(ready[1..], m)
  }

  lemma {:induction false} DroppedEntries(ready: seq<Waiting>, m: nat)
    ensures Entries(Dropped(ready, m)) == Without(Entries(ready), m)
  {
    if ready != [] {
      DroppedEntries(ready[1..], m);
      assert Entries(ready)[1..] == Entries(ready[1..]);
    }
  }

  method Keep(ready: seq<Waiting>, m: nat) returns (kept: seq<Waiting>)
    ensures kept == Dropped(ready, m)
  {
    kept := [];
    for i := 0 to |ready|
      invariant kept + Dropped(ready[i..], m) == Dropped(ready, m)
    {
      assert ready[i..][1..] == ready[i + 1..];
      if ready[i].entry.model != m {
        assert kept + ([ready[i]] + Dropped(ready[i + 1..], m)) == (kept + [ready[i]]) + Dropped(ready[i + 1..], m);
        kept := kept + [ready[i]];
      }
    }
  }

  predicate IsWaiting(ready: seq<Waiting>, m: nat) { exists i | 0 <= i < |ready| :: ready[i].entry.model == m }

  /** The list has only gained models without failures, at its end. */
  ghost predicate Grown(before: seq<Waiting>, ready: seq<Waiting>) {
    before <= ready && forall i | |before| <= i < |ready| :: ready[i].age == 0
  }

  lemma GrownByOne(before: seq<Waiting>, ready: seq<Waiting>, e: Entry)
    requires Grown(before, ready)
    ensures Grown(before, ready + [Waiting(e, 0)])
  {
  }

  function Reach(n: nat, k: nat): nat { if n < k then k else n }

  /** Looking at entry n: it joins the list exactly when it is newly due. */
  lemma ReadyStep(w: seq<Entry>, n: nat, k: nat, h: Horizon, now: real, injected: set<nat>, ready: seq<Waiting>)
    requires Distinct(w) && DuePrefix(w, h, k) && n < |w|
    requires Entries(ready) == Pending(w[..Reach(n, k)], Later(h, now), injected)
    ensures w[n].model !in injected && !IsWaiting(ready, w[n].model) && w[n].time <= now ==>
              Entries(ready + [Waiting(w[n], 0)]) == Pending(w[..Reach(n + 1, k)], Later(h, now), injected)
    ensures !(w[n].model !in injected && !IsWaiting(ready, w[n].model) && w[n].time <= now) ==>
              Entries(ready) == Pending(w[..Reach(n + 1, k)], Later(h, now), injected)
  {
    PendingModels(w, Reach(n, k), Later(h, now), injected, ready, n);
    if n >= k { PendingStep(w, n, Later(h, now), injected); }
  }

  class WorkloadManager {
    const workload: seq<Entry>
    const threshold: int
    var injected: set<nat>
    var ready: seq<Waiting>
    ghost var horizon: Horizon

    /** The ready list is the sorted workload, filtered to what is due by the latest time asked and not injected. */
    ghost predicate Valid()
      reads this
    {
      && Sorted(workload, ByTime()) && Distinct(workload) && injected <= Models(workload)
      && Entries(ready) == Pending(workload, horizon, injected)
    }

    constructor (rows: seq<Entry>, threshold: int)
      requires Distinct(rows)
      ensures Valid() && injected == {} && ready == [] && horizon == Never && this.threshold == threshold
      ensures multiset(workload) == multiset(rows) && Stable(rows, workload, ByTime())
    {
      var sorted := SortBy(rows, ByTime());
      DistinctIsKept(rows, sorted);
      PendingOfNone(sorted, Never, {});
      workload, this.threshold, injected, ready, horizon := sorted, threshold, {}, [], Never;
    }

    /** Appends the models that have become due. */
    method UpdateReady(now: real)
      requires Valid()
      modifies this`ready, this`horizon
      ensures Valid() && horizon == Later(old(horizon), now)
      ensures Grown(old(ready), ready)
    {
      ghost var h0, h := horizon, Later(horizon, now);
      ghost var k := FindDuePrefix(workload, horizon);
      PendingIsPrefix(workload, horizon, now, injected, k);
      ghost var started := ready;
      assert Reach(0, k) == k && Reach(|workload|, k) == |workload|;
      for n := 0 to |workload|
        invariant Entries(ready) == Pending(workload[..Reach(n, k)], h, injected)
        invariant Grown(started, ready)
      {
        var e := workload[n];
        ReadyStep(workload, n, k, h0, now, injected, ready);
        GrownByOne(started, ready, e);
        if e.model !in injected && !IsWaiting(ready, e.model) {
          if e.time <= now { ready := ready + [Waiting(e, 0)]; }
        }
      }
      horizon := h;
      assert workload[..|workload|] == workload;
    }

    /** get_models_to_inject: the waiting models, oldest first. Sorting never moves anything. */
    method GetModelsToInject(now: real) returns (models: seq<Entry>)
      requires Valid()
      modifies this`ready, this`horizon
      ensures Valid() && (workload != [] ==> horizon == Later(old(horizon), now))
      ensures Grown(old(ready), ready)
      ensures models == Entries(ready) == Pending(workload, horizon, injected)
    {
      if workload == [] { return []; }
      UpdateReady(now);
      if ready == [] { return []; }
      PendingIsOrdered(workload, horizon, injected);
      assert Sorted(ready, ByReadyTime()) by {
        forall i, j | 0 <= i < j < |ready| ensures ByReadyTime()(ready[i]) <= ByReadyTime()(ready[j]) {
          assert ByTime()(Entries(ready)[i]) <= ByTime()(Entries(ready)[j]);
        }
      }
      ready := SortBy(ready, ByReadyTime());
      models := Entries(ready);
    }

    /** One failure more for a waiting model. */
    method IncrementFailureAge(model: nat)
      requires Valid()
      modifies this`ready
      ensures Valid() && ready == Aged(old(ready), model)
    {
      var i := 0;
      while i < |ready| && ready[i].entry.model != model
        invariant i <= |ready| && forall k | 0 <= k < i :: ready[k].entry.model != model
      {
        i := i + 1;
      }
      if i == |ready| {
        AgedAbsent(ready, model);
      } else {
        AgedAt(ready, model, i);
        ready := ready[i := ready[i].(age := ready[i].age + 1)];
      }
    }

    method IsModelBlocking(model: nat) returns (b: bool)
      requires Valid()
      ensures b <==> IsWaiting(ready, model) && Age(ready, model) >= threshold
    {
      ModelsDiffer();
      for i := 0 to |ready|
        invariant forall k | 0 <= k < i :: ready[k].entry.model != model
      {
        if ready[i].entry.model == model {
          AgeAt(ready, i);
          return ready[i].age >= threshold;
        }
      }
      b := false;
    }

    lemma ModelsDiffer()
      requires Valid()
      ensures DistinctModels(ready)
    {
      PendingIsOrdered(workload, horizon, injected);
      forall i, j | 0 <= i < j < |ready| ensures ready[i].entry.model != ready[j].entry.model {
        assert Entries(ready)[i].model != Entries(ready)[j].model;
      }
    }

    method MarkModelInjected(model: nat)
      requires Valid()
      modifies this`ready, this`injected
      ensures injected == old(injected) + {model} && ready == Dropped(old(ready), model)
      ensures model in Models(workload) ==> Valid()
    {
      PendingWithout(workload, horizon, injected, model);
      DroppedEntries(ready, model);
      injected := injected + {model};
      ready := Keep(ready, model);
    }

    /** The number of workload entries not yet injected. */
    method GetRemainingCount() returns (n: int)
      requires Valid()
      ensures n == Uninjected(workload, injected)
    {
      CountUninjected(workload, injected);
      n := |workload| - |injected|;
    }
  }

  lemma {:induction false} AgedAt(ready: seq<Waiting>, m: nat, i: nat)
    requires i < |ready| && ready[i].entry.model == m && forall k | 0 <= k < i :: ready[k].entry.model != m
    ensures Aged(ready, m) == ready[i := ready[i].(age := ready[i].age + 1)]
    ensures Entries(Aged(ready, m)) == Entries(ready)
  {
    if i > 0 { AgedAt(ready[1..], m, i - 1); }
  }

  lemma {:induction false} AgedAbsent(ready: seq<Waiting>, m: nat)
    requires forall k | 0 <= k < |ready| :: ready[k].entry.model != m
    ensures Aged(ready, m) == ready
  {
    if ready != [] { AgedAbsent(ready[1..], m); }
  }

  lemma DistinctIsKept(a: seq<Entry>, b: seq<Entry>)
    requires Distinct(a) && multiset(a) == multiset(b)
    ensures Distinct(b)
  {
    RearrangedNoDuplicates(a, b);
    forall i, j | 0 <= i < j < |b| ensures b[i].model != b[j].model {
      assert b[i] in multiset(a) && b[j] in multiset(a);
    }
  }

  /** Among entries of the first m positions, a model is waiting exactly when its entry is pending. */
  lemma PendingModels(w: seq<Entry>, m: nat, h: Horizon, injected: set<nat>, ready: seq<Waiting>, n: nat)
    requires m <= |w| && n < |w| && Distinct(w) && Entries(ready) == Pending(w[..m], h, injected)
    ensures IsWaiting(ready, w[n].model) <==> n < m && Due(w[n], h) && w[n].model !in injected
  {
    var e := w[n];
    forall i | 0 <= i < |ready| && ready[i].entry.model == e.model ensures n < m && Due(e, h) && e.model !in injected {
      PendingMembers(w[..m], h, injected, ready[i].entry);
      assert Entries(ready)[i] == ready[i].entry;
    }
    if n < m && Due(e, h) && e.model !in injected {
      assert w[..m][n] == e;
      PendingMembers(w[..m], h, injected, e);
      var i :| 0 <= i < |Entries(ready)| && Entries(ready)[i] == e;
      assert ready[i].entry == e;
    }
  }

  // ----- ages ----------------------------------------------------------------------------------------------

  ghost predicate DistinctModels(ready: seq<Waiting>) {
    forall i, j | 0 <= i < j < |ready| :: ready[i].entry.model != ready[j].entry.model
  }

  lemma {:induction false} AgeAt(ready: seq<Waiting>, i: nat)
    requires i < |ready| && DistinctModels(ready)
    ensures Age(ready, ready[i].entry.model) == ready[i].age
  {
    if i > 0 {
      assert ready[0].entry.model != ready[i].entry.model;
      AgeAt(ready[1..], i - 1);
    }
  }

  lemma {:induction false} AgeOfAbsent(ready: seq<Waiting>, m: nat)
    requires forall i | 0 <= i < |ready| :: ready[i].entry.model != m
    ensures Age(ready, m) == 0
  {
    if ready != [] { AgeOfAbsent(ready[1..], m); }
  }

  /** The list with one failure more for model m. */
  function Aged(ready: seq<Waiting>, m: nat): seq<Waiting> {
    if ready == [] then []
    else if ready[0].entry.model == m then [ready[0].(age := ready[0].age + 1)] + ready[1..]
    else [ready[0]] + Aged(ready[1..], m)
  }

  lemma {:induction false} AgesAfterFailure(ready: seq<Waiting>, m: nat, x: nat)
    ensures Age(Aged(ready, m), x) ==
            Age(ready, x) + (if x == m && IsWaiting(ready, m) then 1 else 0)
  {
    if ready != [] && ready[0].entry.model != m {
      AgesAfterFailure(ready[1..], m, x);
      assert Aged(ready, m)[1..] == Aged(ready[1..], m);
      assert IsWaiting(ready, m) ==> IsWaiting(ready[1..], m) by {
        if i :| 0 <= i < |ready| && ready[i].entry.model == m { assert ready[1..][i - 1].entry.model == m; }
      }
    } else if ready != [] {
      assert Aged(ready, m)[1..] == ready[1..];
    }
  }

  lemma {:induction false} AgesAfterDrop(ready: seq<Waiting>, m: nat, x: nat)
    requires x != m
    ensures Age(Dropped(ready, m), x) == Age(ready, x)
  {
    if ready != [] {
      AgesAfterDrop(ready[1..], m, x);
      if ready[0].entry.model != m { assert Dropped(ready, m)[1..] == Dropped(ready[1..], m); }
    }
  }
}
