/** Capacity units of chiplets and the mapping of a whole model (src/core/chiplet.py, src/core/system.py,
    src/mapping/model_mapper.py). */
module Capacity {
  import opened Reals
  import opened Options
  import opened LayerUnits
  import opened NearestNeighbour
  import opened LayerMapping

  function TotalUnits(s: Site): nat {
    match s.spec
    case Imc(_, _, _, _, crossbars) => crossbars
    case Cmos(weights) => weights
  }

  function Clamped(units: int, total: nat): int { if units < 0 then 0 else if units > total then total else units }

  class Chiplet {
    const site: Site
    var crossbarsAvailable: int
    var availableWeights: int

    /** get_available_capacity_units: crossbars, or weights on CMOS. */
    function Available(): int
      reads this
    {
      if site.spec.Cmos? then availableWeights else crossbarsAvailable
    }

    ghost predicate Valid()
      reads this
    {
      0 <= Available() <= TotalUnits(site)
    }

    constructor (site: Site)
      ensures this.site == site && Valid() && Available() == TotalUnits(site)
    {
      this.site := site;
      crossbarsAvailable, availableWeights := TotalUnits(site), TotalUnits(site);
    }

    method SetAvailableCrossbars(units: int) returns (ok: bool)
      requires site.spec.Imc?
      modifies this`crossbarsAvailable
      ensures ok <==> 0 <= units <= TotalUnits(site)
      ensures Available() == if ok then units else old(Available())
    {
      if units < 0 || units > TotalUnits(site) { return false; }
      crossbarsAvailable := units;
      ok := true;
    }

    method SetAvailable(units: int) returns (ok: bool)
      modifies this`crossbarsAvailable, this`availableWeights
      ensures ok && Valid() && Available() == Clamped(units, TotalUnits(site))
    {
      var u := if units < 0 then 0 else units;
      if site.spec.Cmos? {
        availableWeights := if u > TotalUnits(site) then TotalUnits(site) else u;
        ok := true;
      } else {
        ok := SetAvailableCrossbars(if u > TotalUnits(site) then TotalUnits(site) else u);
      }
    }
  }

  /** The units lie between zero and each chiplet's total. */
  ghost predicate InRange(units: seq<int>, sites: seq<Site>) {
    |units| == |sites| && forall i | 0 <= i < |units| :: 0 <= units[i] <= TotalUnits(sites[i])
  }

  class System {
    const chiplets: seq<Chiplet>

    function Sites(): (r: seq<Site>)
      ensures |r| == |chiplets| && forall i | 0 <= i < |r| :: r[i] == chiplets[i].site
    {
      seq(|chiplets|, i requires 0 <= i < |chiplets| => chiplets[i].site)
    }

    ghost predicate Valid()
      reads chiplets
    {
      && (forall i, j | 0 <= i < j < |chiplets| :: chiplets[i] != chiplets[j])
      && (forall i | 0 <= i < |chiplets| :: chiplets[i].Valid())
      && Built(Sites())
    }

    ghost function Available(): (r: seq<int>)
      reads chiplets
      ensures |r| == |chiplets| && forall i | 0 <= i < |r| :: r[i] == chiplets[i].Available()
    {
      seq(|chiplets|, i requires 0 <= i < |chiplets| reads chiplets => chiplets[i].Available())
    }

    constructor (sites: seq<Site>)
      requires Built(sites)
      ensures Valid() && fresh(chiplets) && Sites() == sites
      ensures |chiplets| == |sites| && forall i | 0 <= i < |sites| :: Available()[i] == TotalUnits(sites[i])
    {
      var all: seq<Chiplet> := [];
      for i := 0 to |sites|
        invariant |all| == i && fresh(all)
        invariant forall k | 0 <= k < i ::
                    all[k].site == sites[k] && all[k].Valid() && all[k].Available() == TotalUnits(sites[k])
        invariant forall j, k | 0 <= j < k < i :: all[j] != all[k]
      {
        var c := new Chiplet(sites[i]);
        all := all + [c];
      }
      chiplets := all;
    }

    lemma AvailableInRange()
      requires Valid()
      ensures InRange(Available(), Sites())
    {
      forall i | 0 <= i < |chiplets| ensures 0 <= Available()[i] <= TotalUnits(Sites()[i]) {
        assert chiplets[i].Valid();
      }
    }

    method GetAvailable() returns (r: seq<int>)
      requires Valid()
      ensures r == Available() && InRange(r, Sites())
    {
      r := [];
      for i := 0 to |chiplets|
        invariant r == Available()[..i]
      {
        r := r + [chiplets[i].Available()];
      }
      AvailableInRange();
    }

    /** update_capacity_availability. Values in range are stored as they are: no clamp ever changes them. */
    method Update(units: seq<int>) returns (ok: bool)
      requires Valid() && |units| == |chiplets|
      modifies chiplets
      ensures ok && Valid()
      ensures InRange(units, Sites()) ==> Available() == units
      ensures forall i | 0 <= i < |chiplets| :: Available()[i] == Clamped(units[i], TotalUnits(Sites()[i]))
    {
      for i := 0 to |chiplets|
        invariant Valid()
        invariant forall k | 0 <= k < i :: chiplets[k].Available() == Clamped(units[k], TotalUnits(Sites()[k]))
      {
        ok := chiplets[i].SetAvailable(units[i]);
      }
      ok := true;
    }
  }

  // ----- mapping a model -----------------------------------------------------------------------------------

  datatype Mapping =
    | Generated(shares: seq<seq<real>>, used: seq<int>)
    | NotGenerated(why: Reason)

  /** The model may use a chiplet at all. */
  predicate Usable(sites: seq<Site>, pref: Preference, i: nat) {
    i < |sites| && !sites[i].io && (pref.allowed == {} || i in pref.allowed)
  }

  /** No layer sits on an I/O chiplet or a chiplet the model may not use, every layer loses at most the tolerance and
      one weight per chiplet, and a compute chiplet is charged exactly when some layer sits on it. */
  ghost predicate Sound(model: seq<Layer>, sites: seq<Site>, pref: Preference, shares: seq<seq<real>>, used: seq<int>) {
    && |shares| <= |model| && |used| == |sites|
    && (forall k | 0 <= k < |shares| :: |shares[k]| == |sites| && Complete(Required(model[k]), shares[k]))
    && (forall k, i | 0 <= k < |shares| && 0 <= i < |sites| && shares[k][i] > 0.0 :: Usable(sites, pref, i))
    && (forall i | 0 <= i < |sites| && !sites[i].io :: used[i] >= 0 && (used[i] > 0 <==> Hosts(shares, i)))
  }

  ghost predicate Hosts(shares: seq<seq<real>>, i: nat) {
    exists k :: 0 <= k < |shares| && i < |shares[k]| && shares[k][i] > 0.0
  }

  function Difference(a: seq<int>, b: seq<int>): (r: seq<int>)
    requires |a| == |b|
    ensures |r| == |a| && forall i | 0 <= i < |r| :: r[i] == a[i] - b[i]
  {
    seq(|a|, i requires 0 <= i < |a| => a[i] - b[i])
  }

  /** Free units with those of I/O chiplets hidden. */
  function Hidden(units: seq<int>, sites: seq<Site>): (r: seq<int>)
    requires |units| == |sites|
    ensures |r| == |units| && forall i | 0 <= i < |r| :: r[i] == if sites[i].io then 0 else units[i]
  {
    seq(|units|, i requires 0 <= i < |units| => if sites[i].io then 0 else units[i])
  }

  /** A layer that the free units cannot take. */
  ghost predicate TooBig(l: Layer, sites: seq<Site>, free: seq<int>, pref: Preference)
    requires |sites| == |free| && Built(sites)
  {
    Portion(Required(l), Total(Capacities(sites, free, pref, Needs(l, sites)))) < (Required(l) - TOLERANCE) as real
  }

  // ----- the history of a mapping: the splits of its layers so far -----------------------------------------

  /** A model to be mapped on the free units of a system. */
  datatype Job = Job(model: seq<Layer>, sites: seq<Site>, near: map<nat, map<nat, nat>>, pref: Preference,
                     initial: seq<int>)

  predicate Posed(job: Job) { |job.initial| == |job.sites| && Built(job.sites) }

  /** Free units when layer k is met. */
  ghost function FreeAt(job: Job, splits: seq<Split>, k: nat): seq<int>
    requires Posed(job) && k <= |splits|
  {
    if k == 0 then Hidden(job.initial, job.sites) else splits[k - 1].after
  }

  ghost function PreviousAt(splits: seq<Split>, k: nat): Option<seq<real>>
    requires k <= |splits|
  {
    if k == 0 then None else Some(splits[k - 1].action)
  }

  function Shares(splits: seq<Split>): (r: seq<seq<real>>)
    ensures |r| == |splits| && forall k | 0 <= k < |r| :: r[k] == splits[k].action
  {
    seq(|splits|, k requires 0 <= k < |splits| => splits[k].action)
  }

  /** The layer was mapped as promised. */
  ghost predicate MappedWell(job: Job, l: Layer, before: seq<int>, previous: Option<seq<real>>, s: Split)
    requires Posed(job)
  {
    |before| == |job.sites| && exists start :: MappedFrom(l, job.sites, job.near, job.pref, before, previous, s, start)
  }

  /** So was layer k, from the units that the layers before it left. */
  ghost predicate MappedAt(job: Job, splits: seq<Split>, k: nat)
    requires Posed(job) && k < |splits| <= |job.model|
  {
    MappedWell(job, job.model[k], FreeAt(job, splits, k), PreviousAt(splits, k), splits[k])
  }

  ghost predicate Follows(job: Job, splits: seq<Split>)
    requires Posed(job)
  {
    |splits| <= |job.model| && forall k | 0 <= k < |splits| :: MappedAt(job, splits, k)
  }

  lemma LengthsFollow(job: Job, splits: seq<Split>, k: nat)
    requires Posed(job) && Follows(job, splits) && k <= |splits|
    ensures |FreeAt(job, splits, k)| == |job.sites|
  {
    if k > 0 { assert MappedAt(job, splits, k - 1); }
  }

  lemma FollowsNext(job: Job, splits: seq<Split>, s: Split)
    requires Posed(job) && Follows(job, splits) && |splits| < |job.model|
    requires MappedWell(job, job.model[|splits|], FreeAt(job, splits, |splits|), PreviousAt(splits, |splits|), s)
    ensures Follows(job, splits + [s])
  {
    forall k | 0 <= k < |splits + [s]| ensures MappedAt(job, splits + [s], k) {
      MappedUpTo(job, splits, s, k);
    }
  }

  lemma MappedUpTo(job: Job, splits: seq<Split>, s: Split, k: nat)
    requires Posed(job) && Follows(job, splits) && |splits| < |job.model| && k <= |splits|
    requires MappedWell(job, job.model[|splits|], FreeAt(job, splits, |splits|), PreviousAt(splits, |splits|), s)
    ensures MappedAt(job, splits + [s], k)
  {
    if k < |splits| {
      assert MappedAt(job, splits, k);
      MappedStays(job, splits, splits + [s], k);
    } else {
      MappedLast(job, splits, s);
    }
  }

  lemma MappedLast(job: Job, splits: seq<Split>, s: Split)
    requires Posed(job) && |splits| < |job.model|
    requires MappedWell(job, job.model[|splits|], FreeAt(job, splits, |splits|), PreviousAt(splits, |splits|), s)
    ensures MappedAt(job, splits + [s], |splits|)
  {
    SameMet(job, splits, splits + [s], |splits|);
  }

  /** What layer k meets depends on the splits before it only. */
  lemma SameMet(job: Job, splits: seq<Split>, next: seq<Split>, k: nat)
    requires Posed(job) && splits <= next && k <= |splits|
    ensures FreeAt(job, next, k) == FreeAt(job, splits, k) && PreviousAt(next, k) == PreviousAt(splits, k)
  {
  }

  lemma MappedStays(job: Job, splits: seq<Split>, next: seq<Split>, k: nat)
    requires Posed(job) && splits <= next && |next| <= |job.model| && k < |splits| && MappedAt(job, splits, k)
    ensures MappedAt(job, next, k)
  {
    SameMet(job, splits, next, k);
  }

  /** The next layer does not fit into the free units. */
  ghost predicate Overflows(job: Job, splits: seq<Split>)
    requires Posed(job) && |splits| < |job.model|
  {
    var free := FreeAt(job, splits, |splits|);
    && |free| == |job.sites| && TooBig(job.model[|splits|], job.sites, free, job.pref)
    && exists start ::
        LeavesOver(job.model[|splits|], job.sites, job.near, job.pref, free, PreviousAt(splits, |splits|), start)
  }

  /** The next layer starts on a chiplet from which nothing is reachable. */
  ghost predicate Disconnected(job: Job, splits: seq<Split>)
    requires Posed(job)
  {
    var free := FreeAt(job, splits, |splits|);
    && |free| == |job.sites|
    && exists start ::
         StartsAt(job.sites, free, job.pref, PreviousAt(splits, |splits|), start) &&
             !Connected(job.sites, job.near, start)
  }

  /** Layer k met units none of which it could use. */
  ghost predicate HomelessAt(job: Job, splits: seq<Split>, k: nat)
    requires Posed(job) && k < |splits| <= |job.model|
  {
    |FreeAt(job, splits, k)| == |job.sites| && Homeless(job.model[k], job.sites, FreeAt(job, splits, k), job.pref)
  }

  /** Why the mapping stops with these splits. */
  ghost predicate Halts(job: Job, splits: seq<Split>, why: Reason)
    requires Posed(job)
  {
    && |splits| < |job.model|
    && match why
       case NoAvailableChiplets => splits == [] && forall i: nat :: !Eligible(job.sites, job.initial, job.pref, i)
       case NoPreviousChiplet => splits != [] && HomelessAt(job, splits, |splits| - 1)
       case InsufficientMemory => Overflows(job, splits)
       case NoChipletConnections => Disconnected(job, splits)
  }

  lemma MappedFacts(job: Job, splits: seq<Split>, k: nat)
    requires Posed(job) && Follows(job, splits) && k < |splits|
    ensures |FreeAt(job, splits, k)| == |job.sites|
    ensures FairlyCharged(job.sites, FreeAt(job, splits, k), job.pref, Needs(job.model[k], job.sites), splits[k])
    ensures Complete(Required(job.model[k]), splits[k].action)
  {
    assert MappedAt(job, splits, k);
  }

  lemma MappedIsPaidFor(job: Job, splits: seq<Split>, k: nat)
    requires Posed(job) && Follows(job, splits) && k < |splits| && (job.model[k].kind.Conv? || job.model[k].kind.Fc?)
    ensures PaidFor(Required(job.model[k]), FreeAt(job, splits, k), UnitMemories(job.sites), splits[k])
  {
    assert MappedAt(job, splits, k);
  }

  /** A layer is mapped nowhere exactly when it is homeless; then it has few weights and is the last one mapped. */
  lemma NowhereAt(job: Job, splits: seq<Split>, k: nat)
    requires Posed(job) && k < |splits| && Follows(job, splits)
    ensures Nowhere(splits[k].action) <==> HomelessAt(job, splits, k)
    ensures Nowhere(splits[k].action) ==> Required(job.model[k]) <= TOLERANCE && |splits| == k + 1
  {
    assert MappedAt(job, splits, k);
    if Nowhere(splits[k].action) {
      NowhereIsTiny(job.model[k], job.sites, FreeAt(job, splits, k), job.pref, splits[k]);
      if k + 1 < |splits| { NextHasPrevious(job, splits, k); }
    }
  }

  lemma NextHasPrevious(job: Job, splits: seq<Split>, k: nat)
    requires Posed(job) && k + 1 < |splits| && Follows(job, splits)
    ensures !Nowhere(splits[k].action)
  {
    assert MappedAt(job, splits, k + 1);
    PreviousIsSomewhere(job, job.model[k + 1], FreeAt(job, splits, k + 1), splits[k].action, splits[k + 1]);
  }

  lemma PreviousIsSomewhere(job: Job, l: Layer, before: seq<int>, previous: seq<real>, s: Split)
    requires Posed(job) && MappedWell(job, l, before, Some(previous), s)
    ensures !Nowhere(previous)
  {
    var start :| MappedFrom(l, job.sites, job.near, job.pref, before, Some(previous), s, start);
    assert LargestShare(previous, start);
  }

  /** Every layer but the last has more weights than the tolerance. */
  predicate Heavy(model: seq<Layer>) { forall k | 0 <= k < |model| - 1 :: Required(model[k]) > TOLERANCE }

  /** A heavy model never leaves its next layer without a previous chiplet. */
  lemma HeavyModelsHavePrevious(job: Job, splits: seq<Split>)
    requires Posed(job) && Follows(job, splits) && Heavy(job.model)
    ensures !Halts(job, splits, NoPreviousChiplet)
  {
    if 0 < |splits| < |job.model| { NowhereAt(job, splits, |splits| - 1); }
  }

  /** A layer that no chiplet of the system can ever use. */
  ghost predicate Unusable(l: Layer, sites: seq<Site>, pref: Preference)
    requires Built(sites)
  {
    Required(l) == 0 || forall i: nat | Usable(sites, pref, i) :: Needs(l, sites)[i] <= 0
  }

  /** With such a layer before the last, no mapping gets past it, whatever the free units. */
  lemma UnusableLayersBlock(job: Job, splits: seq<Split>, k: nat)
    requires Posed(job) && Follows(job, splits) && k < |job.model| && Unusable(job.model[k], job.sites, job.pref)
    ensures |splits| <= k + 1
  {
    if k < |splits| {
      LengthsFollow(job, splits, k);
      assert HomelessAt(job, splits, k);
      NowhereAt(job, splits, k);
    }
  }

  lemma NextLayerIsSound(model: seq<Layer>, sites: seq<Site>, pref: Preference, first: seq<int>, before: seq<int>,
                         shares: seq<seq<real>>, split: Split, next: seq<seq<real>>)
    requires next == shares + [split.action] && |shares| < |model| && |first| == |before| == |sites| && Built(sites)
    requires Sound(model, sites, pref, shares, Difference(first, before))
    requires FairlyCharged(sites, before, pref, Needs(model[|shares|], sites), split)
    requires Complete(Required(model[|shares|]), split.action)
    ensures Sound(model, sites, pref, next, Difference(first, split.after))
  {
    var used := Difference(first, split.after);
    forall k, i | 0 <= k < |next| && 0 <= i < |sites| && next[k][i] > 0.0 ensures Usable(sites, pref, i) {
      if k == |shares| { assert Eligible(sites, before, pref, i); }
    }
    forall i | 0 <= i < |sites| && !sites[i].io ensures used[i] >= 0 && (used[i] > 0 <==> Hosts(next, i)) {
      HostsNext(shares, split.action, i);
    }
  }

  lemma HostsNext(shares: seq<seq<real>>, action: seq<real>, i: nat)
    requires i < |action|
    ensures Hosts(shares + [action], i) <==> Hosts(shares, i) || action[i] > 0.0
  {
    var next := shares + [action];
    if action[i] > 0.0 { assert next[|shares|][i] > 0.0; }
    if k :| 0 <= k < |shares| && i < |shares[k]| && shares[k][i] > 0.0 { assert next[k][i] > 0.0; }
  }

  /** Units that the first n layers took. */
  ghost function TakenAt(job: Job, splits: seq<Split>, n: nat): (r: seq<int>)
    requires Posed(job) && n <= |splits| && |FreeAt(job, splits, n)| == |job.sites|
  {
    Difference(job.initial, FreeAt(job, splits, n))
  }

  /** The first n layers of a history are mapped soundly. */
  ghost predicate SoundAt(job: Job, splits: seq<Split>, n: nat)
    requires Posed(job) && n <= |splits|
  {
    && |FreeAt(job, splits, n)| == |job.sites|
    && Sound(job.model, job.sites, job.pref, Shares(splits)[..n], TakenAt(job, splits, n))
  }

  lemma SoundNext(job: Job, splits: seq<Split>, n: nat)
    requires Posed(job) && Follows(job, splits) && n < |splits| && SoundAt(job, splits, n)
    ensures SoundAt(job, splits, n + 1)
  {
    var past, next := Shares(splits)[..n], Shares(splits)[..n + 1];
    assert next == past + [splits[n].action];
    MappedFacts(job, splits, n);
    NextLayerIsSound(job.model, job.sites, job.pref, job.initial, FreeAt(job, splits, n), past, splits[n], next);
  }

  lemma SoundFirst(job: Job, splits: seq<Split>)
    requires Posed(job)
    ensures SoundAt(job, splits, 0)
  {
    assert forall i :: !Hosts([], i);
  }

  lemma {:induction false} HistoryIsSound(job: Job, splits: seq<Split>, n: nat)
    requires Posed(job) && Follows(job, splits) && n <= |splits|
    ensures SoundAt(job, splits, n)
  {
    if n == 0 { SoundFirst(job, splits); }
    else {
      HistoryIsSound(job, splits, n - 1);
      SoundNext(job, splits, n - 1);
    }
  }

  // ----- the memory of a whole model -----------------------------------------------------------------------

  /** Weights that the units of the first n layers must hold; only convolution and fully connected layers promise it. */
  ghost function Owed(model: seq<Layer>, splits: seq<Split>, n: nat): real
    requires n <= |splits| <= |model|
  {
    if n == 0 then 0.0
    else
      var l := model[n - 1];
      Owed(model, splits, n - 1) +
      if l.kind.Conv? || l.kind.Fc?
      then Required(l) as real - TOLERANCE as real - Used(splits[n - 1].action) as real else 0.0
  }

  lemma {:induction false} MemoryAdds(a: seq<int>, b: seq<int>, c: seq<int>, unit: seq<real>)
    requires |a| == |b| == |c| == |unit|
    ensures Memory(a, b, unit) + Memory(b, c, unit) == Memory(a, c, unit)
    decreases |a|
  {
    if a != [] {
      var n := |a| - 1;
      MemoryAdds(a[..n], b[..n], c[..n], unit[..n]);
      UnitsAdd((a[n] - b[n]) as real, (b[n] - c[n]) as real, unit[n]);
    }
  }

  lemma UnitsAdd(x: real, y: real, m: real)
    ensures x * m + y * m == (x + y) * m
  {
  }

  lemma {:induction false} MemoryNonNegative(a: seq<int>, b: seq<int>, unit: seq<real>)
    requires |a| == |b| == |unit|
    requires forall i | 0 <= i < |a| :: b[i] <= a[i] && unit[i] >= 0.0
    ensures Memory(a, b, unit) >= 0.0
    decreases |a|
  {
    if a != [] {
      var n := |a| - 1;
      MemoryNonNegative(a[..n], b[..n], unit[..n]);
      ProductNonNegative((a[n] - b[n]) as real, unit[n]);
    }
  }

  lemma UnitsHoldSomething(sites: seq<Site>)
    requires Built(sites)
    ensures forall i | 0 <= i < |sites| :: UnitMemories(sites)[i] >= 0.0
  {
    forall i | 0 <= i < |sites| ensures UnitMemories(sites)[i] >= 0.0 {
      if !sites[i].io { UnitMemoryIsPositive(sites[i].spec); }
    }
  }

  lemma LayerIsPaidFor(job: Job, splits: seq<Split>, m: nat)
    requires Posed(job) && Follows(job, splits) && m < |splits|
    ensures |FreeAt(job, splits, m)| == |splits[m].after| == |job.sites|
    ensures Memory(FreeAt(job, splits, m), splits[m].after, UnitMemories(job.sites)) >=
            Owed(job.model, splits, m + 1) - Owed(job.model, splits, m)
  {
    MappedFacts(job, splits, m);
    if job.model[m].kind.Conv? || job.model[m].kind.Fc? { MappedIsPaidFor(job, splits, m); }
    else {
      UnitsHoldSomething(job.sites);
      MemoryNonNegative(FreeAt(job, splits, m), splits[m].after, UnitMemories(job.sites));
    }
  }

  /** The units that a mapping takes hold the weights of the whole model, up to the tolerance and one weight per chiplet
      of each layer. */
  lemma {:induction false} ModelIsPaidFor(job: Job, splits: seq<Split>, n: nat)
    requires Posed(job) && Follows(job, splits) && n <= |splits|
    ensures |FreeAt(job, splits, n)| == |job.sites|
    ensures Memory(Hidden(job.initial, job.sites), FreeAt(job, splits, n), UnitMemories(job.sites)) >=
            Owed(job.model, splits, n)
  {
    var all, unit := Hidden(job.initial, job.sites), UnitMemories(job.sites);
    if n == 0 { NothingTaken(all, unit); }
    else {
      var m: nat := n - 1;
      ModelIsPaidFor(job, splits, m);
      MappedFacts(job, splits, m);
      MemoryAdds(all, FreeAt(job, splits, m), splits[m].after, unit);
      LayerIsPaidFor(job, splits, m);
    }
  }

  // ----- the loop over the layers --------------------------------------------------------------------------

  datatype Plan = Planned(shares: seq<seq<real>>, free: seq<int>) | Blocked(why: Reason)

  lemma HiddenIsEligible(job: Job)
    requires Posed(job)
    ensures forall i: nat :: Eligible(job.sites, Hidden(job.initial, job.sites), job.pref, i) <==>
                             Eligible(job.sites, job.initial, job.pref, i)
  {
  }

  lemma MappedNext(job: Job, splits: seq<Split>, s: Split, start: nat)
    requires Posed(job) && Follows(job, splits) && |splits| < |job.model|
    requires InRange(FreeAt(job, splits, |splits|), job.sites)
    requires MappedFrom(job.model[|splits|], job.sites, job.near, job.pref, FreeAt(job, splits, |splits|),
                        PreviousAt(splits, |splits|), s, start)
    ensures Follows(job, splits + [s]) && InRange(s.after, job.sites)
    ensures forall i | 0 <= i < |job.sites| :: s.after[i] <= FreeAt(job, splits, |splits|)[i]
  {
    FollowsNext(job, splits, s);
    MappedFacts(job, splits + [s], |splits|);
  }

  lemma OverflowsNow(job: Job, splits: seq<Split>, start: nat)
    requires Posed(job) && |splits| < |job.model| && |FreeAt(job, splits, |splits|)| == |job.sites|
    requires TooBig(job.model[|splits|], job.sites, FreeAt(job, splits, |splits|), job.pref)
    requires LeavesOver(job.model[|splits|], job.sites, job.near, job.pref, FreeAt(job, splits, |splits|),
                        PreviousAt(splits, |splits|), start)
    ensures Overflows(job, splits)
  {
  }

  lemma DisconnectedNow(job: Job, splits: seq<Split>, start: nat)
    requires Posed(job) && |FreeAt(job, splits, |splits|)| == |job.sites| && !Connected(job.sites, job.near, start)
    requires StartsAt(job.sites, FreeAt(job, splits, |splits|), job.pref, PreviousAt(splits, |splits|), start)
    ensures Disconnected(job, splits)
  {
  }

  /** One turn of the loop. */
  method MapNext(job: Job, free: seq<int>, shares: seq<seq<real>>, ghost splits: seq<Split>) returns (r: Result)
    requires Posed(job) && Follows(job, splits) && |splits| < |job.model| && shares == Shares(splits)
    requires free == FreeAt(job, splits, |splits|) && InRange(free, job.sites)
    ensures r.Mapped? ==> Follows(job, splits + [r.split]) && InRange(r.split.after, job.sites)
    ensures r.Mapped? ==> forall i | 0 <= i < |free| :: r.split.after[i] <= free[i]
    ensures r.Mapped? && splits == [] ==> exists i: nat :: Eligible(job.sites, job.initial, job.pref, i)
    ensures r.Refused? ==> Halts(job, splits, r.why)
    ensures r == Refused(NoAvailableChiplets) <==> Halts(job, splits, NoAvailableChiplets)
    ensures r == Refused(NoPreviousChiplet) <==> Halts(job, splits, NoPreviousChiplet)
  {
    var n := |shares|;
    var previous: Option<seq<real>> := if n == 0 then None else Some(shares[n - 1]);
    ghost var start;
    r, start := MapLayer(job.model[n], job.sites, job.near, job.pref, free, previous);
    if n > 0 { NowhereAt(job, splits, n - 1); }
    if n == 0 { HiddenIsEligible(job); }
    if r.Mapped? { MappedNext(job, splits, r.split, start); }
    else if r.why == InsufficientMemory { OverflowsNow(job, splits, start); }
    else if r.why == NoChipletConnections { DisconnectedNow(job, splits, start); }
  }

  /** How the loop over the layers ends, with its history. */
  ghost predicate Ends(job: Job, splits: seq<Split>, r: Plan)
    requires Posed(job)
  {
    && Follows(job, splits)
    && (r.Planned? <==> |splits| == |job.model|)
    && (r.Planned? ==> r.shares == Shares(splits) && r.free == FreeAt(job, splits, |splits|))
    && (r.Blocked? ==> Halts(job, splits, r.why))
    && (r == Blocked(NoPreviousChiplet) <==> Halts(job, splits, NoPreviousChiplet))
  }

  /** The loop over the layers, against a private copy of the free units. The history is what it did for each layer. */
  method MapLayers(job: Job) returns (r: Plan, ghost splits: seq<Split>)
    requires Posed(job) && InRange(job.initial, job.sites)
    ensures Ends(job, splits, r)
    ensures r.Planned? ==> InRange(r.free, job.sites) && forall i | 0 <= i < |job.sites| :: r.free[i] <= job.initial[i]
    ensures r.Planned? ==> Sound(job.model, job.sites, job.pref, r.shares, Difference(job.initial, r.free))
    ensures r == Blocked(NoAvailableChiplets) <==>
            job.model != [] && forall i: nat :: !Eligible(job.sites, job.initial, job.pref, i)
    ensures Heavy(job.model) ==> r != Blocked(NoPreviousChiplet)
  {
    var free := Hidden(job.initial, job.sites);
    var shares: seq<seq<real>> := [];
    splits := [];
    for n := 0 to |job.model|
      invariant |splits| == n && Follows(job, splits) && shares == Shares(splits)
      invariant free == FreeAt(job, splits, n) && InRange(free, job.sites)
      invariant forall i | 0 <= i < |job.sites| :: free[i] <= job.initial[i]
      invariant n > 0 ==> exists i: nat :: Eligible(job.sites, job.initial, job.pref, i)
    {
      var layer := MapNext(job, free, shares, splits);
      if layer.Refused? {
        if Heavy(job.model) { HeavyModelsHavePrevious(job, splits); }
        return Blocked(layer.why), splits;
      }
      free, shares, splits := layer.split.after, shares + [layer.split.action], splits + [layer.split];
    }
    HistoryIsSound(job, splits, |splits|);
    assert shares == Shares(splits)[..|splits|];
    r := Planned(shares, free);
  }

  // ----- the mapping of a model is determined --------------------------------------------------------------

  lemma SameNext(job: Job, l: Layer, before: seq<int>, previous: Option<seq<real>>, s: Split, t: Split)
    requires Posed(job) && MappedWell(job, l, before, previous, s) && MappedWell(job, l, before, previous, t)
    ensures s == t
  {
    var a :| MappedFrom(l, job.sites, job.near, job.pref, before, previous, s, a);
    var b :| MappedFrom(l, job.sites, job.near, job.pref, before, previous, t, b);
    OneMapping(l, job.sites, job.near, job.pref, before, previous, s, a, t, b);
  }

  /** Two histories of a job agree as far as both go. */
  lemma {:induction false} SameHistory(job: Job, a: seq<Split>, b: seq<Split>, n: nat)
    requires Posed(job) && Follows(job, a) && Follows(job, b) && n <= |a| && n <= |b|
    ensures a[..n] == b[..n]
  {
    if n > 0 {
      var m: nat := n - 1;
      SameHistory(job, a, b, m);
      SameMet(job, a[..m], a, m);
      SameMet(job, a[..m], b, m);
      assert MappedAt(job, a, m) && MappedAt(job, b, m);
      SameNext(job, job.model[m], FreeAt(job, a, m), PreviousAt(a, m), a[m], b[m]);
      assert a[..n] == a[..m] + [a[m]] && b[..n] == b[..m] + [b[m]];
    }
  }

  /** Where a history halts, no other history goes on. */
  lemma HaltsForAll(job: Job, a: seq<Split>, b: seq<Split>, why: Reason)
    requires Posed(job) && Follows(job, a) && Follows(job, b) && Halts(job, a, why) && |a| <= |b|
    ensures |a| == |b|
  {
    if |a| < |b| {
      assert MappedAt(job, b, |a|);
      SameHistory(job, a, b, |a|);
      assert a == a[..|a|];
      SameMet(job, a, b, |a|);
      if why == NoPreviousChiplet { NothingAfterNowhere(job, a, b); } else { NotMappedNext(job, a, why, b); }
    }
  }

  lemma NotMappedNext(job: Job, a: seq<Split>, why: Reason, b: seq<Split>)
    requires Posed(job) && Halts(job, a, why) && why != NoPreviousChiplet && |a| < |b| <= |job.model|
    requires FreeAt(job, b, |a|) == FreeAt(job, a, |a|) && PreviousAt(b, |a|) == PreviousAt(a, |a|)
    ensures !MappedAt(job, b, |a|)
  {
    var l, free, previous, s := job.model[|a|], FreeAt(job, a, |a|), PreviousAt(a, |a|), b[|a|];
    if start :| MappedFrom(l, job.sites, job.near, job.pref, free, previous, s, start) {
      match why
      case NoAvailableChiplets => HiddenIsEligible(job);
      case InsufficientMemory =>
        var x :| LeavesOver(l, job.sites, job.near, job.pref, free, previous, x);
        OverOrMapped(l, job.sites, job.near, job.pref, free, previous, x, s, start);
      case NoChipletConnections =>
        var x :| StartsAt(job.sites, free, job.pref, previous, x) && !Connected(job.sites, job.near, x);
        OneStart(job.sites, free, job.pref, previous, x, start);
    }
  }

  lemma NothingAfterNowhere(job: Job, a: seq<Split>, b: seq<Split>)
    requires Posed(job) && Follows(job, a) && Halts(job, a, NoPreviousChiplet) && |a| < |b| <= |job.model|
    requires PreviousAt(b, |a|) == PreviousAt(a, |a|)
    ensures !MappedAt(job, b, |a|)
  {
    NowhereAt(job, a, |a| - 1);
    if MappedAt(job, b, |a|) {
      PreviousIsSomewhere(job, job.model[|a|], FreeAt(job, b, |a|), a[|a| - 1].action, b[|a|]);
    }
  }

  /** A history halts for one reason. */
  lemma OneReason(job: Job, a: seq<Split>, why: Reason, other: Reason)
    requires Posed(job) && Halts(job, a, why) && Halts(job, a, other) && why != NoPreviousChiplet
    requires other != NoPreviousChiplet
    ensures why == other
  {
    var free, previous := FreeAt(job, a, |a|), PreviousAt(a, |a|);
    HiddenIsEligible(job);
    if why != NoAvailableChiplets && other != NoAvailableChiplets && why != other {
      var x :| StartsAt(job.sites, free, job.pref, previous, x) && Connected(job.sites, job.near, x);
      var y :| StartsAt(job.sites, free, job.pref, previous, y) && !Connected(job.sites, job.near, y);
      OneStart(job.sites, free, job.pref, previous, x, y);
    }
  }

  /** The outcome of mapping a model on given free units is determined. */
  lemma OneEnd(job: Job, a: seq<Split>, r: Plan, b: seq<Split>, q: Plan)
    requires Posed(job) && Ends(job, a, r) && Ends(job, b, q)
    ensures a == b && r == q
  {
    if |a| < |b| { HaltsForAll(job, a, b, r.why); }
    if |b| < |a| { HaltsForAll(job, b, a, q.why); }
    SameHistory(job, a, b, |a|);
    assert a == a[..|a|] && b == b[..|b|];
    if r.Blocked? && q.Blocked? && r.why != NoPreviousChiplet && q.why != NoPreviousChiplet {
      OneReason(job, a, r.why, q.why);
    }
  }

  // ----- two models whose next layer has no previous chiplet -----------------------------------------------

  const ONE_CHIPLET := [Site(Cmos(100), false, 0.0)]

  const ANYWHERE := Preference({}, None)

  function OnOne(model: seq<Layer>): Job { Job(model, ONE_CHIPLET, map[], ANYWHERE, [100]) }

  lemma NothingFitsNowhere(l: Layer, sites: seq<Site>, free: seq<int>, pref: Preference)
    requires |sites| == |free| == 1 && Built(sites) && Required(l) <= TOLERANCE
    requires Eligible(sites, free, pref, 0) ==> Needs(l, sites)[0] <= 0
    ensures !TooBig(l, sites, free, pref)
  {
    var all := Capacities(sites, free, pref, Needs(l, sites));
    assert all == [0.0];
    NoShares(all);
  }

  /** A one-dimensional convolution of few weights is mapped nowhere, and the layer after it is blocked. */
  lemma TinyConv1dBlocks(splits: seq<Split>, r: Plan)
    requires Ends(OnOne([Layer(Conv1d, 2, 2), Layer(Fc, 2, 2)]), splits, r)
    ensures r == Blocked(NoPreviousChiplet)
  {
    var job := OnOne([Layer(Conv1d, 2, 2), Layer(Fc, 2, 2)]);
    UnusableLayersBlock(job, splits, 0);
    if splits == [] {
      assert Eligible(job.sites, job.initial, job.pref, 0);
      NothingFitsNowhere(job.model[0], job.sites, Hidden(job.initial, job.sites), job.pref);
    } else {
      assert HomelessAt(job, splits, 0);
    }
  }

  lemma WholeUnits()
    ensures UnitsFor(100, 100, 100) == 100 && ShareOf(100, 100) == 100.0
  {
    var r: int, s: real := UnitsFor(100, 100, 100), ShareOf(100, 100);
    assert (r as real - 1.0) * 100.0 < 10000.0 <= r as real * 100.0;
  }

  predicate Repeats(order: seq<nat>, a: nat, b: nat) { a < |order| && b < |order| && order[a] == order[b] }

  lemma OnlyZero(order: seq<nat>)
    requires Distinct(order) && 0 in order && forall k | 0 <= k < |order| :: order[k] < 1
    ensures order == [0]
  {
    assert !Repeats(order, 0, 1);
  }

  lemma WholeAlong(order: seq<nat>, far: map<nat, nat>, s: Split)
    requires AllocatedAlong(order, Layer(Fc, 10, 10), ONE_CHIPLET, [100], ANYWHERE, far, s)
    ensures s.after == [0]
  {
    assert Eligible(ONE_CHIPLET, [100], ANYWHERE, 0) && 0 in order;
    OnlyZero(order);
    var need := Needs(Layer(Fc, 10, 10), ONE_CHIPLET);
    assert need == [100];
    WholeUnits();
    assert Run(order, 0, [100], need, 100) == Start([100], 100);
  }

  /** A layer of exactly the chiplet's size takes all of it. */
  lemma WholeChipletIsTaken(job: Job, previous: Option<seq<real>>, s: Split)
    requires job.sites == ONE_CHIPLET && job.pref == ANYWHERE && Posed(job)
    requires MappedWell(job, Layer(Fc, 10, 10), [100], previous, s)
    ensures s.after == [0]
  {
    var start :| MappedFrom(Layer(Fc, 10, 10), job.sites, job.near, job.pref, [100], previous, s, start);
    var far := DistancesFrom(job.near, start);
    var order :| AllocatedAlong(order, Layer(Fc, 10, 10), job.sites, [100], job.pref, far, s);
    WholeAlong(order, far, s);
  }

  /** So is the layer after a hostable layer of few weights that finds every chiplet full. */
  lemma FullChipletBlocks(splits: seq<Split>, r: Plan)
    requires Ends(OnOne([Layer(Fc, 10, 10), Layer(Fc, 2, 2), Layer(Fc, 2, 2)]), splits, r)
    ensures r == Blocked(NoPreviousChiplet)
  {
    var job := OnOne([Layer(Fc, 10, 10), Layer(Fc, 2, 2), Layer(Fc, 2, 2)]);
    if splits == [] { BigLayerFits(job, splits); }
    else {
      assert MappedAt(job, splits, 0);
      assert Hidden(job.initial, job.sites) == [100];
      WholeChipletIsTaken(job, None, splits[0]);
      FullFromNowOn(job, splits, r);
    }
  }

  lemma BigLayerFits(job: Job, splits: seq<Split>)
    requires job == OnOne([Layer(Fc, 10, 10), Layer(Fc, 2, 2), Layer(Fc, 2, 2)]) && splits == []
    ensures !Overflows(job, splits) && !Halts(job, splits, NoAvailableChiplets)
  {
    var free := Hidden(job.initial, job.sites);
    assert Eligible(job.sites, job.initial, job.pref, 0) && Eligible(job.sites, free, job.pref, 0);
    WholeUnits();
    var all := Capacities(job.sites, free, job.pref, Needs(job.model[0], job.sites));
    assert all == [100.0];
    assert Total(all) == Total(all[..0]) + all[0];
  }

  lemma FullFromNowOn(job: Job, splits: seq<Split>, r: Plan)
    requires job == OnOne([Layer(Fc, 10, 10), Layer(Fc, 2, 2), Layer(Fc, 2, 2)]) && Ends(job, splits, r)
    requires splits != [] && splits[0].after == [0]
    ensures r == Blocked(NoPreviousChiplet)
  {
    if |splits| == 1 { NothingFitsNowhere(job.model[1], job.sites, splits[0].after, job.pref); }
    else {
      assert HomelessAt(job, splits, 1);
      NowhereAt(job, splits, 1);
    }
  }

  class ModelMapper {
    const system: System
    const near: map<nat, map<nat, nat>>

    constructor (system: System, near: map<nat, map<nat, nat>>)
      ensures this.system == system && this.near == near
    {
      this.system, this.near := system, near;
    }

    /** The model against the units that are free now. */
    ghost function JobOf(model: seq<Layer>, pref: Preference): (job: Job)
      reads system.chiplets
      requires system.Valid()
      ensures Posed(job)
    {
      Job(model, system.Sites(), near, pref, system.Available())
    }

    /** Commits the new free units only if every layer fits. */
    method GenerateMapping(model: seq<Layer>, pref: Preference) returns (r: Mapping, ghost splits: seq<Split>)
      requires system.Valid()
      modifies system.chiplets
      ensures system.Valid()
      ensures Follows(old(JobOf(model, pref)), splits) && (r.Generated? <==> |splits| == |model|)
      ensures r.NotGenerated? ==> system.Available() == old(system.Available())
      ensures r.NotGenerated? ==> Ends(old(JobOf(model, pref)), splits, Blocked(r.why))
      ensures r.Generated? ==> exists free :: Ends(old(JobOf(model, pref)), splits, Planned(r.shares, free))
      ensures r == NotGenerated(NoAvailableChiplets) <==>
              model != [] && forall i: nat :: !Eligible(system.Sites(), old(system.Available()), pref, i)
      ensures r == NotGenerated(NoPreviousChiplet) <==> Halts(old(JobOf(model, pref)), splits, NoPreviousChiplet)
      ensures Heavy(model) ==> r != NotGenerated(NoPreviousChiplet)
      ensures r.Generated? ==> r.shares == Shares(splits) && Sound(model, system.Sites(), pref, r.shares, r.used)
      ensures r.Generated? ==> forall i | 0 <= i < |system.chiplets| ::
                  r.used[i] >= 0 && system.Available()[i] + r.used[i] == old(system.Available())[i]
    {
      var initial := system.GetAvailable();
      var plan;
      plan, splits := MapLayers(Job(model, system.Sites(), near, pref, initial));
      match plan
      case Blocked(why) => r := NotGenerated(why);
      case Planned(shares, free) =>
        var ok := system.Update(free);
        r := Generated(shares, Difference(initial, free));
    }
  }
}
