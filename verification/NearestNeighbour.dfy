/** Nearest-neighbour split of one layer over the chiplets (src/mapping/model_mapper.py). Chiplet i of the model is
    chiplet id i + 1 of the program. */
module NearestNeighbour {
  import opened Reals
  import opened LayerUnits

  // ----- sums over chiplets --------------------------------------------------------------------------------

  function Total(s: seq<real>): real { if s == [] then 0.0 else Total(s[..|s| - 1]) + s[|s| - 1] }

  /** Chiplets with a positive share. */
  function Used(s: seq<real>): nat {
    if s == [] then 0 else Used(s[..|s| - 1]) + (if s[|s| - 1] > 0.0 then 1 else 0)
  }

  lemma {:induction false} ShareSet(s: seq<real>, i: nat, v: real)
    requires i < |s| && s[i] == 0.0 && v > 0.0
    ensures Total(s[i := v]) == Total(s) + v && Used(s[i := v]) == Used(s) + 1
  {
    var n, t := |s| - 1, s[i := v];
    if i == n { assert t[..n] == s[..n]; }
    else {
      ShareSet(s[..n], i, v);
      assert t[..n] == s[..n][i := v];
    }
  }

  lemma {:induction false} NoShares(s: seq<real>)
    requires forall i | 0 <= i < |s| :: s[i] == 0.0
    ensures Total(s) == 0.0 && Used(s) == 0
  {
    if s != [] { NoShares(s[..|s| - 1]); }
  }

  /** Weights held by the units taken from each chiplet. */
  function Memory(before: seq<int>, after: seq<int>, unit: seq<real>): real
    requires |before| == |after| == |unit|
    decreases |before|
  {
    if before == [] then 0.0
    else
      var n := |before| - 1;
      Memory(before[..n], after[..n], unit[..n]) + (before[n] - after[n]) as real * unit[n]
  }

  lemma {:induction false} MemoryTaken(before: seq<int>, after: seq<int>, unit: seq<real>, i: nat, v: int)
    requires |before| == |after| == |unit| && i < |before| && after[i] == before[i]
    ensures Memory(before, after[i := v], unit) == Memory(before, after, unit) + (before[i] - v) as real * unit[i]
    decreases |before|
  {
    var n := |before| - 1;
    if i == n { assert after[i := v][..n] == after[..n]; }
    else {
      MemoryTaken(before[..n], after[..n], unit[..n], i, v);
      assert after[i := v][..n] == after[..n][i := v];
    }
  }

  lemma {:induction false} NothingTaken(before: seq<int>, unit: seq<real>)
    requires |before| == |unit|
    ensures Memory(before, before, unit) == 0.0
    decreases |before|
  {
    if before != [] { NothingTaken(before[..|before| - 1], unit[..|before| - 1]); }
  }

  // ----- one chiplet's share -------------------------------------------------------------------------------

  /** Weights of a layer of c weights that a percentage stands for. */
  function Portion(c: nat, percent: real): real { c as real * percent / 100.0 }

  /** The counter of weights left agrees with the percentage left, up to one weight for each of k roundings. */
  ghost predicate Rounded(c: nat, left: int, percent: real, k: nat) {
    0 <= left && left as real <= Portion(c, percent) <= left as real + k as real
  }

  /** Units that the remaining weights need on a chiplet where the whole layer needs `full`. */
  function UnitsFor(left: int, full: int, c: nat): (r: int)
    requires c > 0
    ensures (r as real - 1.0) * c as real < left as real * full as real <= r as real * c as real
  {
    var x, w := left as real * full as real, c as real;
    var r := Ceil(x / w);
    Cancels(x, w);
    QuotientAtMost(x, w, x / w, r as real);
    QuotientAbove(x, w, x / w, r as real - 1.0);
    r
  }

  /** Percentage of the layer that `have` units stand for. */
  function ShareOf(have: int, full: int): (s: real)
    requires full > 0
    ensures s * full as real == have as real * 100.0
  {
    (have * 100) as real / full as real
  }

  /** Weights, rounded up, that a share stands for. */
  function WeightsOf(share: real, c: nat): int { Ceil(Portion(c, share)) }

  lemma FullShare(left: int, full: int, c: nat)
    requires c > 0 && left > 0 && full > 0
    ensures UnitsFor(left, full, c) >= 1
    ensures UnitsFor(left, full, c) as real * c as real >= left as real * full as real
  {
    var r := UnitsFor(left, full, c);
    ProductPositive(left as real, full as real);
    if r <= 0 { ScaleUp(r as real, 0.0, c as real); }
  }

  /** h units of f, of a layer of w weights, stand for the share s and for d weights: less than l if h w < l f. */
  lemma PartialReals(h: real, f: real, w: real, l: real, s: real, d: real)
    requires h > 0.0 && f > 0.0 && w > 0.0 && s * f == h * 100.0 && d * 100.0 == w * s && h * w < l * f
    ensures s > 0.0 && 0.0 < d < l && d * f == h * w
  {
    Associates(w, s, f);
    Associates(w, h, 100.0);
    assert (d * 100.0) * f == (w * h) * 100.0;
    assert (d * 100.0) * f == (d * f) * 100.0;
    assert d * f == w * h;
    CancelStrictly(d, l, f);
    ProductPositive(h, w);
    PositiveFactor(d, f, h * w);
    PositiveFactor(s, f, h * 100.0);
  }

  /** A chiplet that cannot take all the remaining weights takes fewer of them. */
  lemma PartialShare(have: int, left: int, full: int, c: nat, share: real, d: real)
    requires c > 0 && left > 0 && full > 0 && 0 < have < UnitsFor(left, full, c)
    requires share == ShareOf(have, full) && d == Portion(c, share)
    ensures share > 0.0 && 0.0 < d < left as real && d * full as real == have as real * c as real
  {
    BelowUnits(have as real, UnitsFor(left, full, c) as real, c as real, left as real * full as real);
    PortionTimes(c, share);
    PartialReals(have as real, full as real, c as real, left as real, share, d);
  }

  lemma BelowUnits(h: real, u: real, w: real, x: real)
    requires w > 0.0 && h <= u - 1.0 && (u - 1.0) * w < x
    ensures h * w < x
  {
    ScaleUp(h, u - 1.0, w);
  }

  lemma PortionTimes(c: nat, percent: real)
    ensures Portion(c, percent) * 100.0 == c as real * percent
  {
  }

  lemma PortionMinus(c: nat, percent: real, share: real)
    ensures Portion(c, percent - share) == Portion(c, percent) - Portion(c, share)
  {
  }

  /** Units that stand for d weights hold at least d weights. */
  lemma UnitsHold(units: int, full: int, c: nat, d: real, m: real)
    requires full > 0 && c > 0 && m >= 0.0 && units >= 0
    requires units as real * c as real >= d * full as real && full as real * m >= c as real
    ensures units as real * m >= d
  {
    if d > 0.0 {
      var u, f, w := units as real, full as real, c as real;
      assert u * (f * m) >= u * w by { ScaleUp(w, f * m, u); }
      assert u * (f * m) == (u * m) * f;
      assert (u * m) * f >= d * f;
      if u * m < d { ScaleStrictly(u * m, d, f); }
    }
  }

  // ----- the allocation loop -------------------------------------------------------------------------------

  /** Units left on each chiplet, share of each chiplet, weights and percentage left. */
  datatype Split = Split(after: seq<int>, action: seq<real>, left: int, percent: real)

  /** The layer meets chiplet i, where all of it would need `full` units. */
  function Meet(s: Split, i: nat, full: int, c: nat): (r: Split)
    requires i < |s.after| == |s.action|
    ensures |r.after| == |r.action| == |s.after|
  {
    if s.left <= 0 || s.after[i] <= 0 || full <= 0 then s
    else
      var units := if c > 0 then UnitsFor(s.left, full, c) else 0;
      if s.after[i] >= units then
        Split(s.after[i := s.after[i] - units], s.action[i := s.action[i] + s.percent], 0, 0.0)
      else
        var share := ShareOf(s.after[i], full);
        Split(s.after[i := 0], s.action[i := s.action[i] + share], s.left - WeightsOf(share, c), s.percent - share)
  }

  predicate Distinct(order: seq<nat>) { forall a, b | 0 <= a < b < |order| :: order[a] != order[b] }

  ghost predicate Fits(order: seq<nat>, before: seq<int>, need: seq<int>) {
    && |need| == |before| && Distinct(order) && (forall k | 0 <= k < |order| :: order[k] < |need|)
    && forall i | 0 <= i < |before| :: before[i] >= 0
  }

  function Start(before: seq<int>, c: nat): Split { Split(before, seq(|before|, _ => 0.0), c, 100.0) }

  /** The split after the first n chiplets of the order. */
  ghost function Run(order: seq<nat>, n: nat, before: seq<int>, need: seq<int>, c: nat): (r: Split)
    requires n <= |order| && Fits(order, before, need)
    ensures |r.after| == |r.action| == |before|
  {
    if n == 0 then Start(before, c) else Meet(Run(order, n - 1, before, need, c), order[n - 1], need[order[n - 1]], c)
  }

  lemma {:induction false} RunStops(order: seq<nat>, n: nat, m: nat, before: seq<int>, need: seq<int>, c: nat)
    requires n <= m <= |order| && Fits(order, before, need) && Run(order, n, before, need, c).left <= 0
    ensures Run(order, m, before, need, c) == Run(order, n, before, need, c)
  {
    if n < m { RunStops(order, n, m - 1, before, need, c); }
  }

  /** The loop of the mapper over the chiplets in order of preference. */
  method Allocate(order: seq<nat>, before: seq<int>, need: seq<int>, c: nat) returns (s: Split)
    requires Fits(order, before, need)
    ensures s == Run(order, |order|, before, need, c)
  {
    var after, action, left, percent := before, seq(|before|, _ => 0.0), c, 100.0;
    var n := 0;
    while n < |order| && left > 0
      invariant n <= |order| && left <= c && Split(after, action, left, percent) == Run(order, n, before, need, c)
    {
      RunLowers(order, n + 1, before, need, c);
      var i, have, full := order[n], after[order[n]], need[order[n]];
      if have > 0 && full > 0 {
        var units := UnitsFor(left, full, c);
        var share: real;
        if have >= units {
          after, share, percent, left := after[i := have - units], percent, 0.0, 0;
        } else {
          share := ShareOf(have, full);
          after, percent, left := after[i := 0], percent - share, left - WeightsOf(share, c);
        }
        action := action[i := action[i] + share];
      }
      n := n + 1;
    }
    if n < |order| { RunStops(order, n, |order|, before, need, c); }
    s := Split(after, action, left, percent);
  }

  lemma {:induction false} RunLowers(order: seq<nat>, n: nat, before: seq<int>, need: seq<int>, c: nat)
    requires n <= |order| && Fits(order, before, need)
    ensures Run(order, n, before, need, c).left <= c
  {
    if n > 0 {
      RunLowers(order, n - 1, before, need, c);
      var s, full := Run(order, n - 1, before, need, c), need[order[n - 1]];
      if s.left > 0 && s.after[order[n - 1]] > 0 && full > 0 { NonNegativeShare(s.after[order[n - 1]], full, c); }
    }
  }

  lemma NonNegativeShare(have: int, full: int, c: nat)
    requires have > 0 && full > 0
    ensures WeightsOf(ShareOf(have, full), c) >= 0
  {
    var share := ShareOf(have, full);
    assert share > 0.0;
    assert share * c as real >= 0.0;
  }

  // ----- what the split keeps ------------------------------------------------------------------------------

  /** Chiplets not yet met are as they were. */
  lemma {:induction false} RunFresh(order: seq<nat>, n: nat, m: nat, before: seq<int>, need: seq<int>, c: nat)
    requires n <= m < |order| && Fits(order, before, need)
    ensures Run(order, n, before, need, c).action[order[m]] == 0.0
    ensures Run(order, n, before, need, c).after[order[m]] == before[order[m]]
  {
    if n > 0 { RunFresh(order, n - 1, m, before, need, c); }
  }

  /** Counters: weights left, percentage left, shares so far. */
  ghost predicate Balanced(c: nat, s: Split) {
    Rounded(c, s.left, s.percent, Used(s.action)) && Total(s.action) + s.percent == 100.0 && s.percent >= 0.0
  }

  /** The last chiplet takes everything left. */
  lemma BalanceLast(c: nat, s: Split, i: nat)
    requires Balanced(c, s) && s.left > 0 && i < |s.action| && s.action[i] == 0.0
    ensures s.percent > 0.0 && Balanced(c, Split(s.after, s.action[i := s.percent], 0, 0.0))
  {
    ShareSet(s.action, i, s.percent);
  }

  lemma RoundPartial(c: nat, left: int, percent: real, k: nat, share: real, d: real)
    requires Rounded(c, left, percent, k) && c > 0 && d == Portion(c, share) && 0.0 < d < left as real
    ensures Rounded(c, left - WeightsOf(share, c), percent - share, k + 1) && percent - share >= 0.0
  {
    PortionMinus(c, percent, share);
    assert d <= WeightsOf(share, c) as real < d + 1.0;
    assert WeightsOf(share, c) <= left;
    NonNegativePercent(c, percent - share);
  }

  lemma BalancePartial(c: nat, s: Split, i: nat, have: int, full: int, share: real)
    requires Balanced(c, s) && s.left > 0 && i < |s.action| && s.action[i] == 0.0
    requires c > 0 && full > 0 && 0 < have < UnitsFor(s.left, full, c) && share == ShareOf(have, full)
    ensures share > 0.0
    ensures Balanced(c, Split(s.after, s.action[i := share], s.left - WeightsOf(share, c), s.percent - share))
  {
    PartialShare(have, s.left, full, c, share, Portion(c, share));
    RoundPartial(c, s.left, s.percent, Used(s.action), share, Portion(c, share));
    ShareSet(s.action, i, share);
  }

  lemma NonNegativePercent(c: nat, percent: real)
    requires c > 0 && Portion(c, percent) >= 0.0
    ensures percent >= 0.0
  {
  }

  lemma MeetBalances(c: nat, s: Split, i: nat, full: int)
    requires Balanced(c, s) && s.left <= c && i < |s.action| == |s.after| && s.action[i] == 0.0
    ensures Balanced(c, Meet(s, i, full, c))
  {
    if s.left > 0 && s.after[i] > 0 && full > 0 {
      if s.after[i] >= UnitsFor(s.left, full, c) { BalanceLast(c, s, i); }
      else { BalancePartial(c, s, i, s.after[i], full, ShareOf(s.after[i], full)); }
    }
  }

  /** Rounding bound: the weight counter never exceeds what the percentage left stands for, and falls short of it by at
      most one weight per chiplet used. */
  lemma {:induction false} RunBalanced(order: seq<nat>, n: nat, before: seq<int>, need: seq<int>, c: nat)
    requires n <= |order| && Fits(order, before, need)
    ensures Balanced(c, Run(order, n, before, need, c))
  {
    if n == 0 {
      NoShares(Start(before, c).action);
      assert Portion(c, 100.0) == c as real;
    } else {
      RunBalanced(order, n - 1, before, need, c);
      RunFresh(order, n - 1, n - 1, before, need, c);
      RunLowers(order, n - 1, before, need, c);
      MeetBalances(c, Run(order, n - 1, before, need, c), order[n - 1], need[order[n - 1]]);
    }
  }

  /** A chiplet has a share exactly when at least one unit was taken from it, and only chiplets met so far that the
      layer can use have one. */
  ghost predicate Charged(met: seq<nat>, before: seq<int>, need: seq<int>, s: Split) {
    && |before| == |need| == |s.after| == |s.action|
    && (forall i | 0 <= i < |before| :: 0 <= s.after[i] <= before[i] && s.action[i] >= 0.0)
    && (forall i | 0 <= i < |before| :: s.action[i] > 0.0 <==> s.after[i] < before[i])
    && (forall i: nat | i < |before| && s.action[i] > 0.0 :: i in met && need[i] > 0)
  }

  /** Every usable chiplet that comes before a used one is empty; while weights are left, so is every one met. */
  ghost predicate Drained(met: seq<nat>, need: seq<int>, s: Split)
    requires |need| == |s.after| == |s.action| && forall k | 0 <= k < |met| :: met[k] < |need|
  {
    && (forall j, m | 0 <= j < m < |met| && s.action[met[m]] > 0.0 && need[met[j]] > 0 :: s.after[met[j]] == 0)
    && (s.left > 0 ==> forall j | 0 <= j < |met| && need[met[j]] > 0 :: s.after[met[j]] == 0)
  }

  /** What meeting a fresh chiplet i may do: nothing, or take units from it and give it a share. */
  ghost predicate Advances(s: Split, t: Split, i: nat, full: int) {
    && i < |s.after| == |s.action| == |t.after| == |t.action| && s.action[i] == 0.0
    && (t == s || (full > 0 && s.left > 0 && 0 <= t.after[i] < s.after[i] && t.action[i] > 0.0))
    && t.after == s.after[i := t.after[i]] && t.action == s.action[i := t.action[i]]
    && (t.left > 0 ==> s.left > 0 && (full <= 0 || t.after[i] <= 0))
  }

  lemma MeetAdvances(s: Split, i: nat, full: int, c: nat)
    requires i < |s.after| == |s.action| && s.action[i] == 0.0 && Balanced(c, s) && s.left <= c
    ensures Advances(s, Meet(s, i, full, c), i, full)
  {
    if s.left > 0 && s.after[i] > 0 && full > 0 {
      FullShare(s.left, full, c);
      if s.after[i] >= UnitsFor(s.left, full, c) { BalanceLast(c, s, i); }
      else { BalancePartial(c, s, i, s.after[i], full, ShareOf(s.after[i], full)); }
    }
  }

  lemma RunAdvances(order: seq<nat>, n: nat, before: seq<int>, need: seq<int>, c: nat)
    requires n < |order| && Fits(order, before, need)
    ensures Advances(Run(order, n, before, need, c), Run(order, n + 1, before, need, c), order[n], need[order[n]])
    ensures Run(order, n, before, need, c).after[order[n]] == before[order[n]]
  {
    RunFresh(order, n, n, before, need, c);
    RunBalanced(order, n, before, need, c);
    RunLowers(order, n, before, need, c);
    MeetAdvances(Run(order, n, before, need, c), order[n], need[order[n]], c);
  }

  lemma ChargeNext(order: seq<nat>, n: nat, before: seq<int>, need: seq<int>, s: Split, t: Split)
    requires n < |order| && Fits(order, before, need) && Charged(order[..n], before, need, s)
    requires Advances(s, t, order[n], need[order[n]]) && s.after[order[n]] == before[order[n]]
    ensures Charged(order[..n + 1], before, need, t)
  {
    assert order[..n + 1] == order[..n] + [order[n]];
  }

  lemma {:induction false} RunCharges(order: seq<nat>, n: nat, before: seq<int>, need: seq<int>, c: nat)
    requires n <= |order| && Fits(order, before, need)
    ensures Charged(order[..n], before, need, Run(order, n, before, need, c))
  {
    if n > 0 {
      var m: nat := n - 1;
      RunCharges(order, m, before, need, c);
      RunAdvances(order, m, before, need, c);
      ChargeNext(order, m, before, need, Run(order, m, before, need, c), Run(order, n, before, need, c));
    }
  }

  lemma DrainNext(order: seq<nat>, n: nat, before: seq<int>, need: seq<int>, s: Split, t: Split)
    requires n < |order| && Fits(order, before, need) && |s.after| == |s.action| == |need|
    requires Drained(order[..n], need, s) && Charged(order[..n + 1], before, need, t)
    requires Advances(s, t, order[n], need[order[n]])
    ensures Drained(order[..n + 1], need, t)
  {
    var met := order[..n];
    forall j, m | 0 <= j < m < n + 1 && t.action[order[m]] > 0.0 && need[order[j]] > 0 ensures t.after[order[j]] == 0 {
      assert met[j] == order[j];
      if m < n { assert met[m] == order[m]; }
    }
    forall j | 0 <= j < n + 1 && t.left > 0 && need[order[j]] > 0 ensures t.after[order[j]] == 0 {
      if j < n { assert met[j] == order[j]; }
    }
  }

  /** Greedy locality along the order. */
  lemma {:induction false} RunDrains(order: seq<nat>, n: nat, before: seq<int>, need: seq<int>, c: nat)
    requires n <= |order| && Fits(order, before, need)
    ensures Drained(order[..n], need, Run(order, n, before, need, c))
  {
    if n > 0 {
      var m: nat := n - 1;
      RunDrains(order, m, before, need, c);
      RunAdvances(order, m, before, need, c);
      RunCharges(order, n, before, need, c);
      DrainNext(order, m, before, need, Run(order, m, before, need, c), Run(order, n, before, need, c));
    }
  }

  // ----- the memory that is paid for -----------------------------------------------------------------------

  /** The full count of units holds the layer. */
  ghost predicate RoomyAt(c: nat, full: int, unit: real) {
    unit >= 0.0 && full as real * unit >= c as real
  }

  /** So on every chiplet the layer can use. */
  ghost predicate Roomy(c: nat, need: seq<int>, unit: seq<real>) {
    |need| == |unit| && forall i | 0 <= i < |need| && need[i] > 0 :: RoomyAt(c, need[i], unit[i])
  }

  lemma TakenHolds(before: seq<int>, after: seq<int>, unit: seq<real>, i: nat, v: int, full: int, c: nat, d: real,
                   m: real)
    requires |before| == |after| == |unit| && i < |before| && after[i] == before[i] && 0 <= v <= after[i]
    requires c > 0 && full > 0 && RoomyAt(c, full, unit[i]) && m == Memory(before, after, unit)
    requires (after[i] - v) as real * c as real >= d * full as real
    ensures Memory(before, after[i := v], unit) >= m + d
  {
    MemoryTaken(before, after, unit, i, v);
    UnitsHold(after[i] - v, full, c, d, unit[i]);
  }

  /** Going from s to t pays for the weights taken off the counter, up to one per new chiplet. */
  ghost predicate Pays(before: seq<int>, unit: seq<real>, s: Split, t: Split) {
    && |before| == |unit| == |s.after| == |t.after|
    && Memory(before, t.after, unit) - Memory(before, s.after, unit) >=
       (s.left - t.left) as real - (Used(t.action) - Used(s.action)) as real
  }

  lemma LastPays(s: Split, i: nat, full: int, c: nat, before: seq<int>, unit: seq<real>, units: int)
    requires i < |s.after| == |s.action| == |before| == |unit| && s.action[i] == 0.0 && s.after[i] == before[i]
    requires 0 < s.left <= c && full > 0 && RoomyAt(c, full, unit[i]) && Balanced(c, s)
    requires units == UnitsFor(s.left, full, c) <= s.after[i]
    ensures Pays(before, unit, s, Split(s.after[i := s.after[i] - units], s.action[i := s.percent], 0, 0.0))
  {
    FullShare(s.left, full, c);
    BalanceLast(c, s, i);
    ShareSet(s.action, i, s.percent);
    TakenHolds(before, s.after, unit, i, s.after[i] - units, full, c, s.left as real, Memory(before, s.after, unit));
  }

  lemma PartialPays(s: Split, i: nat, full: int, c: nat, before: seq<int>, unit: seq<real>, share: real, d: real)
    requires i < |s.after| == |s.action| == |before| == |unit| && s.action[i] == 0.0 && s.after[i] == before[i]
    requires 0 < s.left <= c && full > 0 && RoomyAt(c, full, unit[i])
    requires 0 < s.after[i] < UnitsFor(s.left, full, c) && share == ShareOf(s.after[i], full) && d == Portion(c, share)
    ensures Pays(before, unit, s,
                 Split(s.after[i := 0], s.action[i := share], s.left - WeightsOf(share, c), s.percent - share))
  {
    PartialShare(s.after[i], s.left, full, c, share, d);
    ShareSet(s.action, i, share);
    assert WeightsOf(share, c) as real < d + 1.0;
    TakenHolds(before, s.after, unit, i, 0, full, c, d, Memory(before, s.after, unit));
  }

  lemma MeetPays(s: Split, i: nat, full: int, c: nat, before: seq<int>, unit: seq<real>)
    requires i < |s.after| == |s.action| == |before| == |unit| && s.action[i] == 0.0 && s.after[i] == before[i]
    requires s.left <= c && (full > 0 ==> RoomyAt(c, full, unit[i])) && Balanced(c, s)
    ensures Pays(before, unit, s, Meet(s, i, full, c))
  {
    if s.left > 0 && s.after[i] > 0 && full > 0 {
      if s.after[i] >= UnitsFor(s.left, full, c) { LastPays(s, i, full, c, before, unit, UnitsFor(s.left, full, c)); }
      else {
        var share := ShareOf(s.after[i], full);
        PartialPays(s, i, full, c, before, unit, share, Portion(c, share));
      }
    }
  }

  lemma RunStepPays(order: seq<nat>, n: nat, before: seq<int>, need: seq<int>, c: nat, unit: seq<real>)
    requires n < |order| && Fits(order, before, need) && Roomy(c, need, unit)
    ensures Pays(before, unit, Run(order, n, before, need, c), Run(order, n + 1, before, need, c))
  {
    RunFresh(order, n, n, before, need, c);
    RunBalanced(order, n, before, need, c);
    RunLowers(order, n, before, need, c);
    MeetPays(Run(order, n, before, need, c), order[n], need[order[n]], c, before, unit);
  }

  /** The units charged hold the layer's weights, except those left over and one per chiplet used. */
  lemma {:induction false} RunPays(order: seq<nat>, n: nat, before: seq<int>, need: seq<int>, c: nat, unit: seq<real>)
    requires n <= |order| && Fits(order, before, need) && Roomy(c, need, unit)
    ensures Pays(before, unit, Start(before, c), Run(order, n, before, need, c))
  {
    if n > 0 {
      RunPays(order, n - 1, before, need, c, unit);
      RunStepPays(order, n - 1, before, need, c, unit);
    }
  }

  // ----- refusals ------------------------------------------------------------------------------------------

  /** What a chiplet could take of the layer with all its units. */
  function Capacity(have: int, full: int): real { if have > 0 && full > 0 then ShareOf(have, full) else 0.0 }

  /** While weights are left, every chiplet met has given all it has. */
  ghost predicate Exhausted(met: seq<nat>, before: seq<int>, need: seq<int>, s: Split) {
    && |before| == |need| == |s.action|
    && forall i: nat | i < |before| :: s.action[i] == if i in met then Capacity(before[i], need[i]) else 0.0
  }

  lemma MeetGivesAll(s: Split, i: nat, full: int, c: nat)
    requires i < |s.after| == |s.action| && s.action[i] == 0.0 && Meet(s, i, full, c).left > 0
    ensures Meet(s, i, full, c).action == s.action[i := Capacity(s.after[i], full)]
  {
  }

  lemma {:induction false} RunExhausts(order: seq<nat>, n: nat, before: seq<int>, need: seq<int>, c: nat)
    requires n <= |order| && Fits(order, before, need) && Run(order, n, before, need, c).left > 0
    ensures Exhausted(order[..n], before, need, Run(order, n, before, need, c))
  {
    if n > 0 {
      var m: nat := n - 1;
      RunAdvances(order, m, before, need, c);
      RunExhausts(order, m, before, need, c);
      MeetGivesAll(Run(order, m, before, need, c), order[m], need[order[m]], c);
      assert order[..n] == order[..m] + [order[m]];
      assert order[m] !in order[..m];
    }
  }
}
