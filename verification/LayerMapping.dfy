/** Choosing the order of chiplets for a layer and mapping the layer along it (src/mapping/model_mapper.py). */
module LayerMapping {
  import opened Options
  import opened LayerUnits
  import opened NearestNeighbour

  /** A chiplet as the mapper sees it; `metric` is the value of the active preference metric. */
  datatype Site = Site(spec: Spec, io: bool, metric: real)

  /** Chiplets the model may use (all when empty) and the chiplet it would like to start on. */
  datatype Preference = Preference(allowed: set<nat>, start: Option<nat>)

  predicate Built(sites: seq<Site>) { forall i | 0 <= i < |sites| && !sites[i].io :: Buildable(sites[i].spec) }

  predicate Eligible(sites: seq<Site>, before: seq<int>, pref: Preference, i: nat) {
    i < |sites| == |before| && before[i] > 0 && !sites[i].io && (pref.allowed == {} || i in pref.allowed)
  }

  /** Units that the whole layer would need on each chiplet. */
  function Needs(l: Layer, sites: seq<Site>): (r: seq<int>)
    requires Built(sites)
    ensures |r| == |sites|
    ensures forall i | 0 <= i < |r| :: r[i] == if sites[i].io then 0 else Units(l, sites[i].spec)
  {
    seq(|sites|, i requires 0 <= i < |sites| => if sites[i].io then 0 else Units(l, sites[i].spec))
  }

  /** Weights per unit on each chiplet. */
  function UnitMemories(sites: seq<Site>): (r: seq<real>)
    requires Built(sites)
    ensures |r| == |sites|
    ensures forall i | 0 <= i < |r| :: r[i] == if sites[i].io then 0.0 else UnitMemory(sites[i].spec)
  {
    seq(|sites|, i requires 0 <= i < |sites| => if sites[i].io then 0.0 else UnitMemory(sites[i].spec))
  }

  // ----- sorting -------------------------------------------------------------------------------------------

  /** Nearer first, then more free memory, then the better metric. An unreachable chiplet has no distance. */
  datatype Key = Key(distance: Option<nat>, memory: int, metric: real)

  predicate Less(a: Key, b: Key) {
    if a.distance != b.distance then a.distance.Some? && (b.distance.None? || a.distance.value < b.distance.value)
    else if a.memory != b.memory then a.memory > b.memory
    else a.metric > b.metric
  }

  /** Equal keys keep the order of the chiplet numbers. */
  predicate Precedes(keys: seq<Key>, i: nat, j: nat)
    requires i < |keys| && j < |keys|
  {
    Less(keys[i], keys[j]) || (keys[i] == keys[j] && i < j)
  }

  lemma PrecedesIsTotal(keys: seq<Key>, i: nat, j: nat)
    requires i < |keys| && j < |keys| && i != j
    ensures Precedes(keys, i, j) <==> !Precedes(keys, j, i)
  {
  }

  lemma PrecedesIsTransitive(keys: seq<Key>, i: nat, j: nat, k: nat)
    requires i < |keys| && j < |keys| && k < |keys| && Precedes(keys, i, j) && Precedes(keys, j, k)
    ensures Precedes(keys, i, k)
  {
  }

  predicate Within(ids: seq<nat>, n: nat) { forall k | 0 <= k < |ids| :: ids[k] < n }

  predicate Increasing(ids: seq<nat>) { forall a, b | 0 <= a < b < |ids| :: ids[a] < ids[b] }

  predicate InOrder(ids: seq<nat>, keys: seq<Key>)
    requires Within(ids, |keys|)
  {
    forall a, b | 0 <= a < b < |ids| :: Precedes(keys, ids[a], ids[b])
  }

  /** Puts x behind every id that does not come after it. */
  method Insert(ids: seq<nat>, x: nat, keys: seq<Key>) returns (r: seq<nat>)
    requires x < |keys| && Within(ids, |keys|) && InOrder(ids, keys) && forall k | 0 <= k < |ids| :: ids[k] < x
    ensures Within(r, |keys|) && InOrder(r, keys)
    ensures forall y :: y in r <==> y in ids || y == x
  {
    var p := 0;
    while p < |ids| && !Less(keys[x], keys[ids[p]])
      invariant 0 <= p <= |ids|
      invariant forall k | 0 <= k < p :: Precedes(keys, ids[k], x)
    {
      p := p + 1;
    }
    r := ids[..p] + [x] + ids[p..];
    if p < |ids| {
      forall k | p < k < |ids| ensures Precedes(keys, x, ids[k]) { PrecedesIsTransitive(keys, x, ids[p], ids[k]); }
    }
  }

  /** A stable sort of chiplet numbers by key. */
  method SortByKey(ids: seq<nat>, keys: seq<Key>) returns (r: seq<nat>)
    requires Within(ids, |keys|) && Increasing(ids)
    ensures Within(r, |keys|) && InOrder(r, keys)
    ensures forall y :: y in r <==> y in ids
  {
    r := [];
    for n := 0 to |ids|
      invariant Within(r, |keys|) && InOrder(r, keys)
      invariant forall y :: y in r <==> y in ids[..n]
    {
      assert ids[..n + 1] == ids[..n] + [ids[n]];
      assert forall k | 0 <= k < |r| :: r[k] in ids[..n];
      r := Insert(r, ids[n], keys);
    }
    assert ids[..|ids|] == ids;
  }

  lemma OrderIsDistinct(ids: seq<nat>, keys: seq<Key>)
    requires Within(ids, |keys|) && InOrder(ids, keys)
    ensures Distinct(ids)
  {
  }

  // ----- candidates and the starting chiplet ---------------------------------------------------------------

  method Candidates(sites: seq<Site>, before: seq<int>, pref: Preference) returns (ids: seq<nat>)
    requires |sites| == |before|
    ensures Increasing(ids) && Within(ids, |sites|)
    ensures forall i: nat :: i in ids <==> Eligible(sites, before, pref, i)
  {
    ids := [];
    for n := 0 to |sites|
      invariant Increasing(ids) && Within(ids, n)
      invariant forall i: nat :: i in ids <==> i < n && Eligible(sites, before, pref, i)
    {
      if before[n] > 0 && !sites[n].io && (pref.allowed == {} || n in pref.allowed) { ids := ids + [n]; }
    }
  }

  function UnitSize(s: Site): int
    requires !s.io ==> Buildable(s.spec)
  {
    if s.io then 0 else UnitMemory(s.spec).Floor
  }

  function FreeMemory(sites: seq<Site>, before: seq<int>, i: nat): int
    requires i < |sites| == |before| && Built(sites)
  {
    before[i] * UnitSize(sites[i])
  }

  /** Keys of all chiplets as seen from a map of distances. */
  function Keys(sites: seq<Site>, before: seq<int>, far: map<nat, nat>): (r: seq<Key>)
    requires |sites| == |before| && Built(sites)
    ensures |r| == |sites|
    ensures forall i | 0 <= i < |r| ::
              r[i] == Key(if i in far then Some(far[i]) else None, FreeMemory(sites, before, i), sites[i].metric)
  {
    seq(|sites|, i requires 0 <= i < |sites| =>
      Key(if i in far then Some(far[i]) else None, FreeMemory(sites, before, i), sites[i].metric))
  }

  /** The first chiplet with the largest share of the previous layer. */
  predicate LargestShare(action: seq<real>, i: nat) {
    && i < |action| && action[i] > 0.0
    && (forall k | 0 <= k < |action| :: action[k] <= action[i])
    && (forall k | 0 <= k < i :: action[k] < action[i])
  }

  method FindLargest(action: seq<real>) returns (r: Option<nat>)
    ensures r.Some? ==> LargestShare(action, r.value)
    ensures r.None? <==> forall k | 0 <= k < |action| :: action[k] <= 0.0
  {
    r := None;
    for n := 0 to |action|
      invariant r.Some? ==> r.value < n && LargestShare(action[..n], r.value)
      invariant r.None? <==> forall k | 0 <= k < n :: action[k] <= 0.0
    {
      if action[n] > 0.0 && (r.None? || action[n] > action[r.value]) { r := Some(n); }
    }
    assert action[..|action|] == action;
  }

  /** The chiplet the first layer starts on, when some chiplet is available. */
  predicate FirstChiplet(sites: seq<Site>, before: seq<int>, pref: Preference, i: nat)
    requires |sites| == |before| && Built(sites)
  {
    && Eligible(sites, before, pref, i)
    && if pref.start.Some? && Eligible(sites, before, pref, pref.start.value) then i == pref.start.value
       else forall j: nat | j < |sites| && j != i && Eligible(sites, before, pref, j) ::
              Precedes(Keys(sites, before, map[]), i, j)
  }

  datatype Reason = NoAvailableChiplets | NoChipletConnections | InsufficientMemory | NoPreviousChiplet

  datatype Choice = Chosen(chiplet: nat) | NoChoice(why: Reason)

  /** Where the layer starts: on the first layer's chiplet, or where most of the previous layer went. */
  method ChooseStart(sites: seq<Site>, before: seq<int>, pref: Preference, previous: Option<seq<real>>)
    returns (r: Choice)
    requires |sites| == |before| && Built(sites)
    ensures previous.None? ==> (r.NoChoice? <==> forall i: nat :: !Eligible(sites, before, pref, i))
    ensures previous.None? ==> (r.NoChoice? ==> r.why == NoAvailableChiplets)
    ensures previous.None? && r.Chosen? ==> FirstChiplet(sites, before, pref, r.chiplet)
    ensures previous.Some? ==> (r.NoChoice? <==> forall k | 0 <= k < |previous.value| :: previous.value[k] <= 0.0)
    ensures previous.Some? ==> (r.NoChoice? ==> r.why == NoPreviousChiplet)
    ensures previous.Some? && r.Chosen? ==> LargestShare(previous.value, r.chiplet)
  {
    if previous.Some? {
      var best := FindLargest(previous.value);
      return if best.Some? then Chosen(best.value) else NoChoice(NoPreviousChiplet);
    }
    var ids := Candidates(sites, before, pref);
    if ids == [] { return NoChoice(NoAvailableChiplets); }
    assert Eligible(sites, before, pref, ids[0]);
    if pref.start.Some? && pref.start.value in ids { return Chosen(pref.start.value); }
    var sorted := SortByKey(ids, Keys(sites, before, map[]));
    assert ids[0] in sorted;
    assert sorted[0] in ids;
    forall j: nat | j < |sites| && j != sorted[0] && Eligible(sites, before, pref, j)
      ensures Precedes(Keys(sites, before, map[]), sorted[0], j)
    {
      assert j in sorted;
    }
    r := Chosen(sorted[0]);
  }

  // ----- mapping one layer ---------------------------------------------------------------------------------

  datatype Result = Mapped(split: Split) | Refused(why: Reason)

  const TOLERANCE: nat := 10

  /** Only eligible chiplets that the layer can use have a share, and they are the ones that lost units. */
  ghost predicate FairlyCharged(sites: seq<Site>, before: seq<int>, pref: Preference, need: seq<int>, s: Split) {
    && |sites| == |before| == |need| == |s.after| == |s.action|
    && (forall i | 0 <= i < |before| :: 0 <= s.after[i] <= before[i] && s.action[i] >= 0.0)
    && (forall i | 0 <= i < |before| :: s.action[i] > 0.0 <==> s.after[i] < before[i])
    && (forall i: nat | i < |before| && s.action[i] > 0.0 :: Eligible(sites, before, pref, i) && need[i] > 0)
  }

  /** Every eligible chiplet that the layer can use and that precedes a used chiplet is empty. */
  ghost predicate Greedy(sites: seq<Site>, before: seq<int>, pref: Preference, need: seq<int>, far: map<nat, nat>,
                         s: Split)
    requires |sites| == |before| == |need| == |s.after| == |s.action| && Built(sites)
  {
    forall i: nat, j: nat | i < |before| && j < |before| && s.action[i] > 0.0 && Eligible(sites, before, pref, j) &&
        need[j] > 0
      && Precedes(Keys(sites, before, far), j, i) :: s.after[j] == 0
  }

  /** Shares are at most the whole layer, and miss at most the tolerance and one weight per chiplet used. */
  ghost predicate Complete(c: nat, action: seq<real>) {
    Total(action) <= 100.0 && Portion(c, 100.0 - Total(action)) <= TOLERANCE as real + Used(action) as real
  }

  ghost predicate PaidFor(c: nat, before: seq<int>, unit: seq<real>, s: Split) {
    && |before| == |unit| == |s.after|
    && Memory(before, s.after, unit) >= c as real - TOLERANCE as real - Used(s.action) as real
  }

  /** What each chiplet could take of the layer on its own. */
  ghost function Capacities(sites: seq<Site>, before: seq<int>, pref: Preference, need: seq<int>): (r: seq<real>)
    requires |sites| == |before| == |need|
    ensures |r| == |before|
    ensures forall i: nat | i < |r| ::
              r[i] == if Eligible(sites, before, pref, i) then Capacity(before[i], need[i]) else 0.0
  {
    seq(|before|, i requires 0 <= i < |before| =>
      if Eligible(sites, before, pref, i) then Capacity(before[i], need[i]) else 0.0)
  }

  /** The order of the allocation loop lists exactly the eligible chiplets. */
  ghost predicate ListsEligible(order: seq<nat>, sites: seq<Site>, before: seq<int>, pref: Preference) {
    forall i: nat :: i in order <==> Eligible(sites, before, pref, i)
  }

  lemma SuccessIsComplete(order: seq<nat>, before: seq<int>, need: seq<int>, c: nat)
    requires Fits(order, before, need) && Run(order, |order|, before, need, c).left <= TOLERANCE
    ensures Complete(c, Run(order, |order|, before, need, c).action)
  {
    RunBalanced(order, |order|, before, need, c);
  }

  lemma RunIsFair(order: seq<nat>, sites: seq<Site>, before: seq<int>, pref: Preference, need: seq<int>, c: nat)
    requires Fits(order, before, need) && |sites| == |before| && ListsEligible(order, sites, before, pref)
    ensures FairlyCharged(sites, before, pref, need, Run(order, |order|, before, need, c))
  {
    RunCharges(order, |order|, before, need, c);
    assert order[..|order|] == order;
  }

  lemma RunIsGreedy(order: seq<nat>, sites: seq<Site>, before: seq<int>, pref: Preference, need: seq<int>, c: nat,
                    far: map<nat, nat>)
    requires Fits(order, before, need) && |sites| == |before| && ListsEligible(order, sites, before, pref)
    requires Built(sites)
    requires InOrder(order, Keys(sites, before, far))
    ensures Greedy(sites, before, pref, need, far, Run(order, |order|, before, need, c))
  {
    var s, keys := Run(order, |order|, before, need, c), Keys(sites, before, far);
    RunDrains(order, |order|, before, need, c);
    RunIsFair(order, sites, before, pref, need, c);
    assert order[..|order|] == order;
    forall i: nat, j: nat | i < |before| && j < |before| && s.action[i] > 0.0 && Eligible(sites, before, pref, j) &&
        need[j] > 0
      && Precedes(keys, j, i) ensures s.after[j] == 0
    {
      var m :| 0 <= m < |order| && order[m] == i;
      var k :| 0 <= k < |order| && order[k] == j;
      if m <= k { OrderAgrees(order, keys, m, k); }
    }
  }

  lemma OrderAgrees(order: seq<nat>, keys: seq<Key>, m: nat, k: nat)
    requires Within(order, |keys|) && InOrder(order, keys) && m <= k < |order|
    ensures !Precedes(keys, order[k], order[m])
  {
    if m < k { PrecedesIsTotal(keys, order[m], order[k]); }
  }

  lemma LeftIsUnassigned(c: nat, s: Split)
    requires Balanced(c, s) && s.left > TOLERANCE
    ensures Portion(c, Total(s.action)) < (c - TOLERANCE) as real
  {
    PortionMinus(c, 100.0, s.percent);
    assert Portion(c, 100.0) == c as real;
  }

  /** A refused layer does not fit: all eligible chiplets together can take less than the layer minus the tolerance. */
  lemma RefusalIsHonest(order: seq<nat>, sites: seq<Site>, before: seq<int>, pref: Preference, need: seq<int>, c: nat)
    requires Fits(order, before, need) && |sites| == |before| && ListsEligible(order, sites, before, pref)
    requires Run(order, |order|, before, need, c).left > TOLERANCE
    ensures Portion(c, Total(Capacities(sites, before, pref, need))) < (c - TOLERANCE) as real
  {
    RunBalanced(order, |order|, before, need, c);
    LeftIsUnassigned(c, Run(order, |order|, before, need, c));
    RunExhausts(order, |order|, before, need, c);
    ExhaustedIsCapacities(order, sites, before, pref, need, Run(order, |order|, before, need, c));
  }

  lemma ExhaustedIsCapacities(order: seq<nat>, sites: seq<Site>, before: seq<int>, pref: Preference, need: seq<int>,
                              s: Split)
    requires |sites| == |before| == |need| && ListsEligible(order, sites, before, pref)
    requires Exhausted(order[..|order|], before, need, s)
    ensures s.action == Capacities(sites, before, pref, need)
  {
    assert order[..|order|] == order;
  }

  lemma RunIsPaidFor(order: seq<nat>, before: seq<int>, need: seq<int>, c: nat, unit: seq<real>)
    requires Fits(order, before, need) && Roomy(c, need, unit) && Run(order, |order|, before, need, c).left <= TOLERANCE
    ensures PaidFor(c, before, unit, Run(order, |order|, before, need, c))
  {
    RunPays(order, |order|, before, need, c, unit);
    NothingTaken(before, unit);
    NoShares(Start(before, c).action);
  }

  lemma WeightedLayersAreRoomy(l: Layer, sites: seq<Site>)
    requires Built(sites) && (l.kind.Conv? || l.kind.Fc?)
    ensures Roomy(Required(l), Needs(l, sites), UnitMemories(sites))
  {
    forall i | 0 <= i < |sites| && Needs(l, sites)[i] > 0
      ensures RoomyAt(Required(l), Needs(l, sites)[i], UnitMemories(sites)[i])
    {
      WeightedLayersAreCovered(l, sites[i].spec);
      UnitMemoryIsPositive(sites[i].spec);
    }
  }

  lemma UnitMemoryIsPositive(s: Spec)
    requires Buildable(s)
    ensures UnitMemory(s) > 0.0
  {
    if s.Imc? { ImcUnitMemory(s); }
  }

  // ----- layers that end up nowhere ------------------------------------------------------------------------

  /** The layer has no weights, or no eligible chiplet can use it: it has no case, or every chiplet it could use is
      full. */
  ghost predicate Homeless(l: Layer, sites: seq<Site>, before: seq<int>, pref: Preference)
    requires |sites| == |before| && Built(sites)
  {
    Required(l) == 0 || forall i: nat | Eligible(sites, before, pref, i) :: Needs(l, sites)[i] <= 0
  }

  /** No chiplet has a share. */
  ghost predicate Nowhere(action: seq<real>) { forall i | 0 <= i < |action| :: action[i] <= 0.0 }

  lemma SomeWeightsGoSomewhere(order: seq<nat>, n: nat, before: seq<int>, need: seq<int>, c: nat)
    requires n <= |order| && Fits(order, before, need) && c > 0 && Nowhere(Run(order, n, before, need, c).action)
    ensures Run(order, n, before, need, c).left > 0
  {
    var s := Run(order, n, before, need, c);
    RunBalanced(order, n, before, need, c);
    RunCharges(order, n, before, need, c);
    NoShares(s.action);
    assert Portion(c, 100.0) == c as real;
  }

  /** The shares are all zero exactly for a homeless layer. */
  lemma NowhereIsHomeless(order: seq<nat>, l: Layer, sites: seq<Site>, before: seq<int>, pref: Preference)
    requires Built(sites) && Fits(order, before, Needs(l, sites)) && ListsEligible(order, sites, before, pref)
    ensures Nowhere(Run(order, |order|, before, Needs(l, sites), Required(l)).action) <==>
              Homeless(l, sites, before, pref)
  {
    var need, c, n := Needs(l, sites), Required(l), |order|;
    var s := Run(order, n, before, need, c);
    RunIsFair(order, sites, before, pref, need, c);
    if c == 0 { RunStops(order, 0, n, before, need, c); }
    else if Nowhere(s.action) {
      SomeWeightsGoSomewhere(order, n, before, need, c);
      RunDrains(order, n, before, need, c);
      assert order[..n] == order;
      forall i: nat | Eligible(sites, before, pref, i) ensures need[i] <= 0 {
        var k :| 0 <= k < n && order[k] == i;
        assert s.after[order[k]] == before[i];
      }
    }
  }

  /** Only a layer of at most the tolerated weights is ever mapped nowhere, and it takes no unit. */
  lemma NowhereIsTiny(l: Layer, sites: seq<Site>, before: seq<int>, pref: Preference, s: Split)
    requires Built(sites) && FairlyCharged(sites, before, pref, Needs(l, sites), s) && Complete(Required(l), s.action)
    requires Nowhere(s.action)
    ensures Required(l) <= TOLERANCE && s.after == before
  {
    NoShares(s.action);
    assert Portion(Required(l), 100.0) == Required(l) as real;
  }

  /** A one-dimensional convolution has no case on any chiplet. */
  lemma Conv1dIsHomeless(l: Layer, sites: seq<Site>, before: seq<int>, pref: Preference)
    requires |sites| == |before| && Built(sites) && l.kind.Conv1d?
    ensures Homeless(l, sites, before, pref)
  {
  }

  /** Where a layer starts. */
  ghost predicate StartsAt(sites: seq<Site>, before: seq<int>, pref: Preference, previous: Option<seq<real>>,
                           start: nat)
    requires |sites| == |before| && Built(sites)
  {
    if previous.None? then FirstChiplet(sites, before, pref, start) else LargestShare(previous.value, start)
  }

  function DistancesFrom(near: map<nat, map<nat, nat>>, start: nat): map<nat, nat> {
    if start in near then near[start] else map[]
  }

  /** The split is the run of the allocation loop along the eligible chiplets in order of preference. */
  ghost predicate Allocated(l: Layer, sites: seq<Site>, before: seq<int>, pref: Preference, far: map<nat, nat>,
                            s: Split)
    requires |sites| == |before| && Built(sites)
  {
    exists order :: AllocatedAlong(order, l, sites, before, pref, far, s)
  }

  ghost predicate AllocatedAlong(order: seq<nat>, l: Layer, sites: seq<Site>, before: seq<int>, pref: Preference,
                                 far: map<nat, nat>, s: Split)
    requires |sites| == |before| && Built(sites)
  {
    && Fits(order, before, Needs(l, sites)) && ListsEligible(order, sites, before, pref)
    && InOrder(order, Keys(sites, before, far)) && s == Run(order, |order|, before, Needs(l, sites), Required(l))
  }

  // ----- the mapper is deterministic -----------------------------------------------------------------------

  function FirstOf(ids: seq<nat>): nat { if ids == [] then 0 else ids[0] }

  lemma {:induction false} OneOrder(a: seq<nat>, b: seq<nat>, keys: seq<Key>)
    requires Within(a, |keys|) && Within(b, |keys|) && InOrder(a, keys) && InOrder(b, keys)
    requires forall i: nat :: i in a <==> i in b
    ensures a == b
  {
    if a == [] {
      assert b == [] || FirstOf(b) in b;
    } else {
      assert a[0] in b && b != [];
      assert b[0] in a;
      SameFirst(a, b, keys);
      forall i: nat ensures i in a[1..] <==> i in b[1..] {
        InTail(a, keys, i);
        InTail(b, keys, i);
      }
      OneOrder(a[1..], b[1..], keys);
      assert a == [a[0]] + a[1..] && b == [b[0]] + b[1..];
    }
  }

  lemma SameFirst(a: seq<nat>, b: seq<nat>, keys: seq<Key>)
    requires Within(a, |keys|) && Within(b, |keys|) && InOrder(a, keys) && InOrder(b, keys) && a != [] && b != []
    requires a[0] in b && b[0] in a
    ensures a[0] == b[0]
  {
    var i :| 0 <= i < |b| && b[i] == a[0];
    var j :| 0 <= j < |a| && a[j] == b[0];
    if a[0] != b[0] { PrecedesIsTotal(keys, a[0], b[0]); }
  }

  lemma InTail(a: seq<nat>, keys: seq<Key>, i: nat)
    requires Within(a, |keys|) && InOrder(a, keys) && a != []
    ensures i in a[1..] <==> i in a && i != a[0]
  {
    OrderIsDistinct(a, keys);
    if i in a && i != a[0] {
      var k :| 0 <= k < |a| && a[k] == i;
      assert a[1..][k - 1] == i;
    }
    if i in a[1..] {
      var k :| 0 <= k < |a[1..]| && a[1..][k] == i;
      assert a[k + 1] == i && a[0] != a[k + 1];
    }
  }

  /** There is one order of preference, so one allocation. */
  lemma OneAllocation(l: Layer, sites: seq<Site>, before: seq<int>, pref: Preference, far: map<nat, nat>, s: Split,
                      t: Split)
    requires |sites| == |before| && Built(sites)
    requires Allocated(l, sites, before, pref, far, s) && Allocated(l, sites, before, pref, far, t)
    ensures s == t
  {
    var a :| AllocatedAlong(a, l, sites, before, pref, far, s);
    var b :| AllocatedAlong(b, l, sites, before, pref, far, t);
    OneOrder(a, b, Keys(sites, before, far));
  }

  /** And one chiplet to start on. */
  lemma OneStart(sites: seq<Site>, before: seq<int>, pref: Preference, previous: Option<seq<real>>, a: nat, b: nat)
    requires |sites| == |before| && Built(sites)
    requires StartsAt(sites, before, pref, previous, a) && StartsAt(sites, before, pref, previous, b)
    ensures a == b
  {
    if previous.None? && a != b && !(pref.start.Some? && Eligible(sites, before, pref, pref.start.value)) {
      PrecedesIsTotal(Keys(sites, before, map[]), a, b);
    }
  }

  predicate Connected(sites: seq<Site>, near: map<nat, map<nat, nat>>, start: nat) {
    DistancesFrom(near, start) != map[] || |sites| <= 1
  }

  /** The next layer leaves more than the tolerance over. */
  ghost predicate LeavesOver(l: Layer, sites: seq<Site>, near: map<nat, map<nat, nat>>, pref: Preference,
                             before: seq<int>,
                             previous: Option<seq<real>>, start: nat)
    requires |sites| == |before| && Built(sites)
  {
    && StartsAt(sites, before, pref, previous, start) && Connected(sites, near, start)
    && exists s :: Allocated(l, sites, before, pref, DistancesFrom(near, start), s) && s.left > TOLERANCE
  }

  /** A layer that leaves weights over is not mapped, from the same units. */
  lemma OverOrMapped(l: Layer, sites: seq<Site>, near: map<nat, map<nat, nat>>, pref: Preference, before: seq<int>,
                     previous: Option<seq<real>>, a: nat, s: Split, b: nat)
    requires |sites| == |before| && Built(sites) && LeavesOver(l, sites, near, pref, before, previous, a)
    ensures !MappedFrom(l, sites, near, pref, before, previous, s, b)
  {
    if MappedFrom(l, sites, near, pref, before, previous, s, b) {
      OneStart(sites, before, pref, previous, a, b);
      var t :| Allocated(l, sites, before, pref, DistancesFrom(near, a), t) && t.left > TOLERANCE;
      OneAllocation(l, sites, before, pref, DistancesFrom(near, a), s, t);
    }
  }

  /** The same units and the same previous layer give the same split. */
  lemma OneMapping(l: Layer, sites: seq<Site>, near: map<nat, map<nat, nat>>, pref: Preference, before: seq<int>,
                   previous: Option<seq<real>>, s: Split, a: nat, t: Split, b: nat)
    requires |sites| == |before| && Built(sites)
    requires MappedFrom(l, sites, near, pref, before, previous, s, a)
    requires MappedFrom(l, sites, near, pref, before, previous, t, b)
    ensures s == t
  {
    OneStart(sites, before, pref, previous, a, b);
    OneAllocation(l, sites, before, pref, DistancesFrom(near, a), s, t);
  }

  /** What mapping a layer from the chiplet `start` promises. */
  ghost predicate MappedFrom(l: Layer, sites: seq<Site>, near: map<nat, map<nat, nat>>, pref: Preference,
                             before: seq<int>,
                             previous: Option<seq<real>>, s: Split, start: nat)
    requires |sites| == |before| && Built(sites)
  {
    && StartsAt(sites, before, pref, previous, start)
    && Allocated(l, sites, before, pref, DistancesFrom(near, start), s) && s.left <= TOLERANCE
    && Connected(sites, near, start)
    && FairlyCharged(sites, before, pref, Needs(l, sites), s)
    && Greedy(sites, before, pref, Needs(l, sites), DistancesFrom(near, start), s)
    && Complete(Required(l), s.action)
    && (l.kind.Conv? || l.kind.Fc? ==> PaidFor(Required(l), before, UnitMemories(sites), s))
    && (Nowhere(s.action) <==> Homeless(l, sites, before, pref))
  }

  lemma RunIsMapped(order: seq<nat>, l: Layer, sites: seq<Site>, near: map<nat, map<nat, nat>>, pref: Preference,
                    before: seq<int>, previous: Option<seq<real>>, s: Split, start: nat)
    requires |sites| == |before| && Built(sites) && StartsAt(sites, before, pref, previous, start)
    requires AllocatedAlong(order, l, sites, before, pref, DistancesFrom(near, start), s) && s.left <= TOLERANCE
    requires Connected(sites, near, start)
    ensures MappedFrom(l, sites, near, pref, before, previous, s, start)
  {
    var c, need := Required(l), Needs(l, sites);
    SuccessIsComplete(order, before, need, c);
    RunIsFair(order, sites, before, pref, need, c);
    RunIsGreedy(order, sites, before, pref, need, c, DistancesFrom(near, start));
    NowhereIsHomeless(order, l, sites, before, pref);
    if l.kind.Conv? || l.kind.Fc? {
      WeightedLayersAreRoomy(l, sites);
      RunIsPaidFor(order, before, need, c, UnitMemories(sites));
    }
  }

  /** Maps one layer. `previous` holds the shares of the layer before it, if any; `near` the distances from each
      chiplet of the network. */
  method MapLayer(l: Layer, sites: seq<Site>, near: map<nat, map<nat, nat>>, pref: Preference, before: seq<int>,
                  previous: Option<seq<real>>) returns (r: Result, ghost start: nat)
    requires |sites| == |before| && Built(sites) && forall i | 0 <= i < |before| :: before[i] >= 0
    ensures r.Mapped? ==> MappedFrom(l, sites, near, pref, before, previous, r.split, start)
    ensures r == Refused(NoAvailableChiplets) <==> previous.None? && forall i: nat :: !Eligible(sites, before, pref, i)
    ensures r == Refused(NoPreviousChiplet) <==> previous.Some? && Nowhere(previous.value)
    ensures r == Refused(NoChipletConnections) ==>
            StartsAt(sites, before, pref, previous, start) && !Connected(sites, near, start)
    ensures r == Refused(InsufficientMemory) ==>
            Portion(Required(l), Total(Capacities(sites, before, pref, Needs(l, sites)))) <
                (Required(l) - TOLERANCE) as real
    ensures r == Refused(InsufficientMemory) ==> LeavesOver(l, sites, near, pref, before, previous, start)
  {
    start := 0;
    var c, need := Required(l), Needs(l, sites);
    var choice := ChooseStart(sites, before, pref, previous);
    if choice.NoChoice? { return Refused(choice.why), start; }
    start := choice.chiplet;
    var distances := DistancesFrom(near, choice.chiplet);
    if distances == map[] && |sites| > 1 { return Refused(NoChipletConnections), start; }
    var ids := Candidates(sites, before, pref);
    var order := SortByKey(ids, Keys(sites, before, distances));
    OrderIsDistinct(order, Keys(sites, before, distances));
    var s := Allocate(order, before, need, c);
    if s.left - TOLERANCE > 0 {
      RefusalIsHonest(order, sites, before, pref, need, c);
      assert AllocatedAlong(order, l, sites, before, pref, distances, s);
      return Refused(InsufficientMemory), start;
    }
    RunIsMapped(order, l, sites, near, pref, before, previous, s, start);
    r := Mapped(s);
  }
}
