/** Which models an idle or a busy system takes, postpones or fails on (src/sim/global_manager.py with
    src/mapping/model_mapper.py). */
module Placement {
  import Options
  import opened Reals
  import opened LayerUnits
  import opened NearestNeighbour
  import opened LayerMapping
  import opened Capacity
  import opened Injection

  // ----- more free units never hurt the quick check --------------------------------------------------------

  lemma SiteWeightsGrow(s: Site, a: int, b: int)
    requires a <= b && (!s.io ==> Buildable(s.spec))
    ensures SiteWeights(s, a) <= SiteWeights(s, b)
  {
    if !s.io {
      UnitMemoryIsPositive(s.spec);
      ScaleUp(a as real, b as real, UnitMemory(s.spec));
    }
  }

  lemma {:induction false} FreeWeightsGrow(sites: seq<Site>, a: seq<int>, b: seq<int>)
    requires Built(sites) && |sites| == |a| == |b| && forall i | 0 <= i < |a| :: a[i] <= b[i]
    ensures FreeWeights(sites, a) <= FreeWeights(sites, b)
  {
    if sites != [] {
      var n := |sites| - 1;
      FreeWeightsGrow(sites[..n], a[..n], b[..n]);
      SiteWeightsGrow(sites[n], a[n], b[n]);
    }
  }

  /** A model that the quick check turns down on an idle system is never taken. */
  lemma QuickCheckNeverPasses(layers: seq<Layer>, pref: Preference, sites: seq<Site>, near: map<nat, map<nat, nat>>)
    requires Built(sites) && Demand(layers) as real <= SystemMemory(sites)
    requires Demand(layers) > FreeWeights(sites, FullUnits(sites))
    ensures AlwaysPostpones(layers, pref, sites, near)
  {
    forall free: seq<int> | InRange(free, sites) ensures Postpones(layers, pref, sites, near, free) {
      FreeWeightsGrow(sites, free, FullUnits(sites));
    }
  }

  // ----- models that never end the program -----------------------------------------------------------------

  lemma StartsOnChiplet(job: Job, splits: seq<Split>, start: nat)
    requires Posed(job) && Follows(job, splits) && |FreeAt(job, splits, |splits|)| == |job.sites|
    requires StartsAt(job.sites, FreeAt(job, splits, |splits|), job.pref, PreviousAt(splits, |splits|), start)
    ensures start < |job.sites|
  {
    if splits != [] { MappedFacts(job, splits, |splits| - 1); }
  }

  lemma ConnectedJobsNeverFail(job: Job)
    requires Posed(job) && Heavy(job.model) && forall i: nat | i < |job.sites| :: Connected(job.sites, job.near, i)
    ensures !MapperFails(job)
  {
    if BlockedBy(job, NoPreviousChiplet) {
      var splits :| Ends(job, splits, Blocked(NoPreviousChiplet));
      HeavyModelsHavePrevious(job, splits);
    }
    if BlockedBy(job, NoChipletConnections) {
      var splits :| Ends(job, splits, Blocked(NoChipletConnections));
      var start :| StartsAt(job.sites, FreeAt(job, splits, |splits|), job.pref, PreviousAt(splits, |splits|), start) &&
                   !Connected(job.sites, job.near, start);
      StartsOnChiplet(job, splits, start);
    }
  }

  /** On a connected system, a model that is not too large and whose layers but the last have more than ten weights is
      taken or postponed, and never ends the program. */
  lemma HeavyModelsNeverBreak(layers: seq<Layer>, pref: Preference, sites: seq<Site>, near: map<nat, map<nat, nat>>,
                              free: seq<int>)
    requires Built(sites) && |free| == |sites| && Heavy(layers) && Demand(layers) as real <= SystemMemory(sites)
    requires forall i: nat | i < |sites| :: Connected(sites, near, i)
    ensures !Breaks(layers, pref, sites, near, free)
  {
    ConnectedJobsNeverFail(Job(layers, sites, near, pref, free));
  }

  lemma HeavyModelsAreNotRisky(i: Injector, m: nat)
    requires m in i.models && Built(i.fleet.system.Sites()) && Heavy(i.models[m])
    requires Demand(i.models[m]) as real <= SystemMemory(i.fleet.system.Sites())
    requires forall k: nat | k < |i.fleet.system.Sites()| :: Connected(i.fleet.system.Sites(), i.fleet.mapper.near, k)
    ensures !i.Risky(m)
  {
    forall free: seq<int> | InRange(free, i.fleet.system.Sites()) ensures !i.BreaksWith(m, free) {
      HeavyModelsNeverBreak(i.models[m], i.PrefOf(m), i.fleet.system.Sites(), i.fleet.mapper.near, free);
    }
  }

  // ----- how a job of two layers ends ----------------------------------------------------------------------

  lemma FirstFollows(job: Job, l: Layer, free: seq<int>, s: Split)
    requires Posed(job) && |job.model| > 0 && l == job.model[0] && free == Hidden(job.initial, job.sites)
    requires MappedWell(job, l, free, Options.None, s)
    ensures Follows(job, [s])
  {
    FollowsNext(job, [], s);
    assert [] + [s] == [s];
  }

  lemma SecondFollows(job: Job, l: Layer, s: Split, t: Split)
    requires Posed(job) && |job.model| > 1 && l == job.model[1] && Follows(job, [s])
    requires MappedWell(job, l, s.after, Options.Some(s.action), t)
    ensures Follows(job, [s, t])
  {
    FollowsNext(job, [s], t);
    assert [s] + [t] == [s, t];
  }

  lemma OverflowsOnSecond(job: Job, l: Layer, s: Split, start: nat)
    requires Posed(job) && |job.model| > 1 && l == job.model[1]
    requires |s.after| == |job.sites| && TooBig(l, job.sites, s.after, job.pref)
    requires LeavesOver(l, job.sites, job.near, job.pref, s.after, Options.Some(s.action), start)
    ensures Overflows(job, [s])
  {
    OverflowsNow(job, [s], start);
  }

  /** The first layer is mapped and the second leaves weights over: the mapper gives up. */
  lemma GivesUpOnSecond(job: Job, s: Split)
    requires Posed(job) && |job.model| > 1 && Follows(job, [s]) && !Nowhere(s.action) && Overflows(job, [s])
    ensures MapperGivesUp(job)
  {
    NowhereAt(job, [s], 0);
    assert Ends(job, [s], Blocked(InsufficientMemory));
  }

  /** Every layer is mapped: the mapper does not give up. */
  lemma MappedIsNotBlocked(job: Job, splits: seq<Split>)
    requires Posed(job) && Follows(job, splits) && |splits| == |job.model|
    ensures !MapperGivesUp(job)
  {
    var plan := Planned(Shares(splits), FreeAt(job, splits, |splits|));
    assert Ends(job, splits, plan);
    if BlockedBy(job, InsufficientMemory) {
      var b :| Ends(job, b, Blocked(InsufficientMemory));
      OneEnd(job, splits, plan, b, Blocked(InsufficientMemory));
    } else if BlockedBy(job, NoAvailableChiplets) {
      var b :| Ends(job, b, Blocked(NoAvailableChiplets));
      OneEnd(job, splits, plan, b, Blocked(NoAvailableChiplets));
    }
  }

  // ----- a model that is never taken -----------------------------------------------------------------------

  const ONE_CROSSBAR := [Site(Imc(128, 128, 8, 8, 1), false, 0.0)]

  const SMALL := Layer(Fc, 64, 64)

  function CrossbarJob(): Job { Job([SMALL, SMALL], ONE_CROSSBAR, map[], ANYWHERE, [1]) }

  lemma SmallNeedsOne()
    ensures Built(ONE_CROSSBAR) && Needs(SMALL, ONE_CROSSBAR) == [1] && Required(SMALL) == 4096
    ensures UnitsFor(4096, 1, 4096) == 1 && FullUnits(ONE_CROSSBAR) == [1]
  {
    var s := ONE_CROSSBAR[0].spec;
    assert ColumnRatio(64, s) == 0.5 && RowRatio(64, s) == 0.5;
    assert Ceil(0.5) == 1;
    var r: int := UnitsFor(4096, 1, 4096);
    assert (r as real - 1.0) * 4096.0 < 4096.0 <= r as real * 4096.0;
  }

  /** The first layer takes the only crossbar. */
  lemma FirstTakesAll() returns (s: Split)
    ensures Posed(CrossbarJob()) && MappedWell(CrossbarJob(), SMALL, [1], Options.None, s) && s.after == [0]
    ensures s.action == [100.0]
  {
    SmallNeedsOne();
    var need := Needs(SMALL, ONE_CROSSBAR);
    assert Fits([0], [1], need);
    s := Run([0], 1, [1], need, 4096);
    assert Run([0], 0, [1], need, 4096) == Start([1], 4096);
    assert Eligible(ONE_CROSSBAR, [1], ANYWHERE, 0);
    assert FirstChiplet(ONE_CROSSBAR, [1], ANYWHERE, 0);
    assert AllocatedAlong([0], SMALL, ONE_CROSSBAR, [1], ANYWHERE, map[], s);
    RunIsMapped([0], SMALL, ONE_CROSSBAR, map[], ANYWHERE, [1], Options.None, s, 0);
  }

  /** The second finds nothing. */
  lemma SecondFindsNothing()
    ensures Posed(CrossbarJob()) && TooBig(SMALL, ONE_CROSSBAR, [0], ANYWHERE)
    ensures LeavesOver(SMALL, ONE_CROSSBAR, map[], ANYWHERE, [0], Options.Some([100.0]), 0)
  {
    SmallNeedsOne();
    var need := Needs(SMALL, ONE_CROSSBAR);
    var all := Capacities(ONE_CROSSBAR, [0], ANYWHERE, need);
    assert all == [0.0];
    NoShares(all);
    assert LargestShare([100.0], 0);
    var s := Run([], 0, [0], need, 4096);
    assert AllocatedAlong([], SMALL, ONE_CROSSBAR, [0], ANYWHERE, map[], s);
  }

  lemma CrossbarMapperGivesUp()
    ensures Posed(CrossbarJob()) && MapperGivesUp(CrossbarJob())
  {
    var s := FirstTakesAll();
    SecondFindsNothing();
    FirstFollows(CrossbarJob(), SMALL, [1], s);
    OverflowsOnSecond(CrossbarJob(), SMALL, s, 0);
    GivesUpOnSecond(CrossbarJob(), s);
  }

  lemma CrossbarPostpones(free: seq<int>)
    requires InRange(free, ONE_CROSSBAR)
    ensures Built(ONE_CROSSBAR) && Postpones([SMALL, SMALL], ANYWHERE, ONE_CROSSBAR, map[], free)
  {
    CrossbarMemory();
    SmallDemand();
    if free[0] == 0 { assert free == [0]; }
    else {
      assert free == [1];
      CrossbarMapperGivesUp();
    }
  }

  /** Two layers of 64 by 64 weights fill half the memory of one 128 by 128 crossbar and pass both capacity checks, but
      each takes a crossbar of its own: the model is postponed whatever is free. */
  lemma HalfFullModelIsNeverTaken()
    ensures Built(ONE_CROSSBAR) && AlwaysPostpones([SMALL, SMALL], ANYWHERE, ONE_CROSSBAR, map[])
    ensures Demand([SMALL, SMALL]) <= FreeWeights(ONE_CROSSBAR, FullUnits(ONE_CROSSBAR))
  {
    SmallNeedsOne();
    CrossbarMemory();
    SmallDemand();
    forall free: seq<int> | InRange(free, ONE_CROSSBAR)
      ensures Postpones([SMALL, SMALL], ANYWHERE, ONE_CROSSBAR, map[], free)
    {
      CrossbarPostpones(free);
    }
  }

  lemma SmallDemand()
    ensures Demand([SMALL, SMALL]) == 8192
  {
    var m := [SMALL, SMALL];
    assert m[..1] == [SMALL] && [SMALL][..0] == [];
    assert Demand([SMALL]) == Demand([SMALL][..0]) + Required(SMALL);
    assert Demand(m) == Demand(m[..1]) + Required(m[1]);
  }

  lemma CrossbarMemory()
    ensures Built(ONE_CROSSBAR) && SystemMemory(ONE_CROSSBAR) == 16384.0
    ensures FreeWeights(ONE_CROSSBAR, [1]) == 16384 && FreeWeights(ONE_CROSSBAR, [0]) == 0
  {
    assert ONE_CROSSBAR[..0] == [];
    assert UnitMemory(ONE_CROSSBAR[0].spec) == 16384.0;
  }

  // ----- a model that only a busy system takes -------------------------------------------------------------

  /** One large crossbar, and five small ones with more memory altogether. */
  const PAIR := [Site(Imc(128, 128, 8, 8, 1), false, 0.0), Site(Imc(64, 64, 8, 8, 5), false, 0.0)]

  const LINKS: map<nat, map<nat, nat>> := map[0 := map[0 := 0, 1 := 1], 1 := map[0 := 1, 1 := 0]]

  const SQUARE := Layer(Fc, 128, 128)
  const WIDE := Layer(Fc, 64, 256)

  function PairJob(free: seq<int>): Job { Job([SQUARE, WIDE], PAIR, LINKS, ANYWHERE, free) }

  lemma PairNeeds()
    ensures Built(PAIR) && Needs(SQUARE, PAIR) == [1, 4] && Needs(WIDE, PAIR) == [2, 4]
    ensures Required(SQUARE) == Required(WIDE) == 16384 && FullUnits(PAIR) == [1, 5]
    ensures UnitSize(PAIR[0]) == 16384 && UnitSize(PAIR[1]) == 4096
  {
    var a, b := PAIR[0].spec, PAIR[1].spec;
    assert ColumnRatio(128, a) == 1.0 && RowRatio(128, a) == 1.0;
    assert ColumnRatio(256, a) == 2.0 && RowRatio(64, a) == 0.5;
    assert ColumnRatio(128, b) == 2.0 && RowRatio(128, b) == 2.0;
    assert ColumnRatio(256, b) == 4.0 && RowRatio(64, b) == 1.0;
    assert UnitMemory(a) == 16384.0 && UnitMemory(b) == 4096.0;
  }

  lemma NothingHidden(free: seq<int>)
    requires |free| == 2
    ensures Hidden(free, PAIR) == free
  {
  }

  lemma PairUnits()
    ensures UnitsFor(16384, 1, 16384) == 1 && UnitsFor(16384, 4, 16384) == 4 && UnitsFor(12288, 2, 16384) == 2
    ensures ShareOf(1, 4) == 25.0 && ShareOf(1, 2) == 50.0 && WeightsOf(25.0, 16384) == 4096
    ensures WeightsOf(50.0, 16384) == 8192
  {
    var x: int, y: int, z: int := UnitsFor(16384, 1, 16384), UnitsFor(16384, 4, 16384), UnitsFor(12288, 2, 16384);
    assert (x as real - 1.0) * 16384.0 < 16384.0 <= x as real * 16384.0;
    assert (y as real - 1.0) * 16384.0 < 65536.0 <= y as real * 16384.0;
    assert (z as real - 1.0) * 16384.0 < 24576.0 <= z as real * 16384.0;
    assert Portion(16384, 25.0) == 4096.0 && Portion(16384, 50.0) == 8192.0;
  }

  /** Idle, the small crossbars come first: the square layer takes four of them. */
  lemma IdleFirst() returns (s: Split)
    ensures Posed(PairJob([1, 5])) && MappedWell(PairJob([1, 5]), SQUARE, [1, 5], Options.None, s)
    ensures s.after == [1, 1] && s.action == [0.0, 100.0]
  {
    PairNeeds();
    PairUnits();
    var free, order := [1, 5], [1, 0];
    assert Fits(order, free, [1, 4]);
    assert Run(order, 0, free, [1, 4], 16384) == Start(free, 16384);
    assert Run(order, 1, free, [1, 4], 16384) == Split([1, 1], [0.0, 100.0], 0, 0.0);
    s := Run(order, 2, free, [1, 4], 16384);
    assert Eligible(PAIR, free, ANYWHERE, 0) && Eligible(PAIR, free, ANYWHERE, 1);
    assert FirstChiplet(PAIR, free, ANYWHERE, 1);
    assert AllocatedAlong(order, SQUARE, PAIR, free, ANYWHERE, LINKS[1], s);
    RunIsMapped(order, SQUARE, PAIR, LINKS, ANYWHERE, free, Options.None, s, 1);
  }

  /** The wide layer then finds one of each, which is three quarters of what it needs. */
  lemma IdleTooBig()
    ensures Posed(PairJob([1, 5])) && TooBig(WIDE, PAIR, [1, 1], ANYWHERE)
  {
    PairNeeds();
    PairUnits();
    assert Eligible(PAIR, [1, 1], ANYWHERE, 0) && Eligible(PAIR, [1, 1], ANYWHERE, 1);
    var all := Capacities(PAIR, [1, 1], ANYWHERE, [2, 4]);
    assert all == [50.0, 25.0] && all[..1] == [50.0] && [50.0][..0] == [];
    assert Total([50.0]) == 50.0;
  }

  lemma IdleRest()
    ensures Fits([1, 0], [1, 1], [2, 4])
    ensures Run([1, 0], 2, [1, 1], [2, 4], 16384) == Split([0, 0], [50.0, 25.0], 4096, 25.0)
  {
    PairUnits();
    var free, order := [1, 1], [1, 0];
    assert Fits(order, free, [2, 4]);
    assert Run(order, 0, free, [2, 4], 16384) == Start(free, 16384);
    assert Run(order, 1, free, [2, 4], 16384) == Split([1, 0], [0.0, 25.0], 12288, 75.0);
  }

  lemma IdleSecond()
    ensures Posed(PairJob([1, 5])) && LeavesOver(WIDE, PAIR, LINKS, ANYWHERE, [1, 1], Options.Some([0.0, 100.0]), 1)
  {
    PairNeeds();
    IdleRest();
    assert Eligible(PAIR, [1, 1], ANYWHERE, 0) && Eligible(PAIR, [1, 1], ANYWHERE, 1);
    assert LargestShare([0.0, 100.0], 1);
    assert AllocatedAlong([1, 0], WIDE, PAIR, [1, 1], ANYWHERE, LINKS[1], Split([0, 0], [50.0, 25.0], 4096, 25.0));
  }

  lemma IdleFollows() returns (s: Split)
    ensures Posed(PairJob([1, 5])) && Follows(PairJob([1, 5]), [s]) && s.after == [1, 1] && s.action == [0.0, 100.0]
  {
    s := IdleFirst();
    NothingHidden([1, 5]);
    FirstFollows(PairJob([1, 5]), SQUARE, [1, 5], s);
  }

  lemma IdleGivesUp()
    ensures Posed(PairJob([1, 5])) && MapperGivesUp(PairJob([1, 5]))
  {
    var s := IdleFollows();
    IdleTooBig();
    IdleSecond();
    OverflowsOnSecond(PairJob([1, 5]), WIDE, s, 1);
    GivesUpOnSecond(PairJob([1, 5]), s);
  }

  /** With one small crossbar taken, the large one comes first: the square layer fills it. */
  lemma BusyFirst() returns (s: Split)
    ensures Posed(PairJob([1, 4])) && MappedWell(PairJob([1, 4]), SQUARE, [1, 4], Options.None, s)
    ensures s.after == [0, 4] && s.action == [100.0, 0.0]
  {
    PairNeeds();
    PairUnits();
    var free, order := [1, 4], [0, 1];
    assert Fits(order, free, [1, 4]);
    assert Run(order, 0, free, [1, 4], 16384) == Start(free, 16384);
    assert Run(order, 1, free, [1, 4], 16384) == Split([0, 4], [100.0, 0.0], 0, 0.0);
    s := Run(order, 2, free, [1, 4], 16384);
    assert Eligible(PAIR, free, ANYWHERE, 0) && Eligible(PAIR, free, ANYWHERE, 1);
    assert FirstChiplet(PAIR, free, ANYWHERE, 0);
    assert AllocatedAlong(order, SQUARE, PAIR, free, ANYWHERE, LINKS[0], s);
    RunIsMapped(order, SQUARE, PAIR, LINKS, ANYWHERE, free, Options.None, s, 0);
  }

  /** And the wide layer has the four small ones. */
  lemma BusySecond() returns (s: Split)
    ensures Posed(PairJob([1, 4])) && MappedWell(PairJob([1, 4]), WIDE, [0, 4], Options.Some([100.0, 0.0]), s)
  {
    PairNeeds();
    PairUnits();
    var free, order := [0, 4], [1];
    assert Fits(order, free, [2, 4]);
    assert Run(order, 0, free, [2, 4], 16384) == Start(free, 16384);
    s := Run(order, 1, free, [2, 4], 16384);
    assert s == Split([0, 0], [0.0, 100.0], 0, 0.0);
    assert LargestShare([100.0, 0.0], 0) && Eligible(PAIR, free, ANYWHERE, 1);
    assert AllocatedAlong(order, WIDE, PAIR, free, ANYWHERE, LINKS[0], s);
    RunIsMapped(order, WIDE, PAIR, LINKS, ANYWHERE, free, Options.Some([100.0, 0.0]), s, 0);
  }

  lemma BusyFollows() returns (s: Split)
    ensures Posed(PairJob([1, 4])) && Follows(PairJob([1, 4]), [s]) && s.after == [0, 4] && s.action == [100.0, 0.0]
  {
    s := BusyFirst();
    NothingHidden([1, 4]);
    FirstFollows(PairJob([1, 4]), SQUARE, [1, 4], s);
  }

  lemma BusyMaps()
    ensures Posed(PairJob([1, 4])) && !MapperGivesUp(PairJob([1, 4]))
  {
    var s := BusyFollows();
    var t := BusySecond();
    SecondFollows(PairJob([1, 4]), WIDE, s, t);
    MappedIsNotBlocked(PairJob([1, 4]), [s, t]);
  }

  lemma PairMemory()
    ensures Built(PAIR) && SystemMemory(PAIR) == 36864.0 && FreeWeights(PAIR, [1, 4]) == 32768
    ensures Demand([SQUARE, WIDE]) == 32768
  {
    PairNeeds();
    assert UnitMemory(PAIR[0].spec) == 16384.0 && UnitMemory(PAIR[1].spec) == 4096.0;
    assert PAIR[..1][..0] == [] && PAIR[..1][0] == PAIR[0];
    assert SystemMemory(PAIR[..1]) == 16384.0;
    var free := [1, 4];
    assert free[..1][..0] == [] && FreeWeights(PAIR[..1], free[..1]) == 16384;
    var m := [SQUARE, WIDE];
    assert m[..1] == [SQUARE] && [SQUARE][..0] == [];
    assert Demand([SQUARE]) == Demand([SQUARE][..0]) + Required(SQUARE);
  }

  /** More free units can hurt the mapper: an idle system postpones this model, and one on which a single small crossbar
      is taken takes it. */
  lemma OnlyBusySystemTakes()
    ensures Built(PAIR) && InRange([1, 4], PAIR) && IdlePostpones([SQUARE, WIDE], ANYWHERE, PAIR, LINKS)
    ensures !Postpones([SQUARE, WIDE], ANYWHERE, PAIR, LINKS, [1, 4])
  {
    PairNeeds();
    PairMemory();
    IdleGivesUp();
    BusyMaps();
  }
}
