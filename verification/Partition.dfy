/** Splitting the output channels of a layer over its chiplets and repairing the rounding in place
    (src/mapping/layer_partitioner.py). */
module Partition {
  import opened Sorting
  import Phases

  function SumOf(s: seq<int>): int { if s == [] then 0 else SumOf(s[..|s| - 1]) + s[|s| - 1] }

  lemma {:induction false} SumSet(s: seq<int>, i: nat, v: int)
    requires i < |s|
    ensures SumOf(s[i := v]) == SumOf(s) + v - s[i]
  {
    var n := |s| - 1;
    if i == n { assert s[i := v][..n] == s[..n]; }
    else {
      SumSet(s[..n], i, v);
      assert s[i := v][..n] == s[..n][i := v];
    }
  }

  lemma {:induction false} SumAtLeast(s: seq<int>)
    requires forall i | 0 <= i < |s| :: s[i] >= 1
    ensures SumOf(s) >= |s|
  {
    if s != [] { SumAtLeast(s[..|s| - 1]); }
  }

  lemma {:induction false} SumOfOnes(s: seq<int>)
    requires forall i | 0 <= i < |s| :: s[i] == 1
    ensures SumOf(s) == |s|
  {
    if s != [] { SumOfOnes(s[..|s| - 1]); }
  }

  function Max(x: int, y: int): int { if x >= y then x else y }

  /** Every chunk has a channel, and together they have as many as the layer, or one each if that is more. */
  ghost predicate Repaired(s: seq<int>, original: int) {
    (forall i | 0 <= i < |s| :: s[i] >= 1) && (s != [] ==> SumOf(s) == Max(original, |s|))
  }

  predicate FirstSmallest(s: seq<int>, p: nat) {
    p < |s| && (forall i | 0 <= i < |s| :: s[p] <= s[i]) && forall i | 0 <= i < p :: s[p] < s[i]
  }

  predicate FirstLargest(s: seq<int>, p: nat) {
    p < |s| && (forall i | 0 <= i < |s| :: s[i] <= s[p]) && forall i | 0 <= i < p :: s[i] < s[p]
  }

  method Sum(a: array<int>) returns (total: int)
    ensures total == SumOf(a[..])
  {
    total := 0;
    for i := 0 to a.Length
      invariant total == SumOf(a[..i])
    {
      assert a[..i + 1][..i] == a[..i];
      total := total + a[i];
    }
    assert a[..a.Length] == a[..];
  }

  method FindSmallest(a: array<int>) returns (p: nat)
    requires a.Length > 0
    ensures FirstSmallest(a[..], p)
  {
    p := 0;
    for i := 1 to a.Length
      invariant p < i && FirstSmallest(a[..i], p)
    {
      if a[i] < a[p] { p := i; }
    }
    assert a[..a.Length] == a[..];
  }

  method FindLargest(a: array<int>) returns (p: nat)
    requires a.Length > 0
    ensures FirstLargest(a[..], p)
  {
    p := 0;
    for i := 1 to a.Length
      invariant p < i && FirstLargest(a[..i], p)
    {
      if a[i] > a[p] { p := i; }
    }
    assert a[..a.Length] == a[..];
  }

  /** Sets one entry and says so about the sum. */
  method Put(a: array<int>, p: nat, v: int)
    requires p < a.Length
    modifies a
    ensures a[..] == old(a[..])[p := v] && SumOf(a[..]) == old(SumOf(a[..])) + v - old(a[p])
  {
    SumSet(a[..], p, v);
    a[p] := v;
    assert a[..] == old(a[..])[p := v];
  }

  ghost predicate AddedTo(before: seq<int>, after: seq<int>, difference: int, p: nat) {
    FirstSmallest(before, p) && after == before[p := before[p] + difference]
  }

  /** Too few channels: the first smallest chunk gets the missing ones. */
  method HandleTooFew(a: array<int>, difference: int, ghost original: int)
    requires difference > 0 && SumOf(a[..]) + difference == original && forall i | 0 <= i < a.Length :: a[i] >= 1
    modifies a
    ensures Repaired(a[..], original)
    ensures a.Length > 0 ==> exists p: nat :: AddedTo(old(a[..]), a[..], difference, p)
  {
    if a.Length == 0 { return; }
    var p := FindSmallest(a);
    SumAtLeast(a[..]);
    Put(a, p, a[p] + difference);
    assert AddedTo(old(a[..]), a[..], difference, p);
  }

  /** Indices other than p, largest chunk first. */
  ghost predicate BySize(order: seq<nat>, s: seq<int>, p: nat) {
    && NoDuplicates(order) && (forall k | 0 <= k < |order| :: order[k] < |s|)
    && (forall i: nat :: i in order <==> i < |s| && i != p)
    && forall j, k | 0 <= j < k < |order| :: s[order[j]] >= s[order[k]]
  }

  method OthersBySize(s: seq<int>, p: nat) returns (order: seq<nat>)
    requires p < |s|
    ensures BySize(order, s, p)
  {
    var ids: seq<nat> := [];
    for n := 0 to |s|
      invariant NoDuplicates(ids) && (forall k | 0 <= k < |ids| :: ids[k] < n)
      invariant forall i: nat :: i in ids <==> i < n && i != p
    {
      if n != p { ids := ids + [n]; }
    }
    order := SortBy(ids, Size(s));
    RearrangedNoDuplicates(ids, order);
    forall i: nat ensures i in order <==> i < |s| && i != p {
      assert i in order <==> i in multiset(order);
      assert i in ids <==> i in multiset(ids);
    }
    assert forall k | 0 <= k < |order| :: order[k] in order;
    forall j, k | 0 <= j < k < |order| ensures s[order[j]] >= s[order[k]] {
      assert Size(s)(order[j]) <= Size(s)(order[k]);
    }
  }

  /** Larger chunks sort first. */
  function Size(s: seq<int>): nat -> real { (i: nat) => if i < |s| then -(s[i] as real) else 0.0 }

  /** The excess after cutting the first n chunks of the order: each of them is down to one channel while any excess is
      left, and those before a chunk that was cut are down to one in any case. */
  ghost predicate Cutting(before: seq<int>, now: seq<int>, order: seq<nat>, p: nat, n: nat, left: int, original: int) {
    && |now| == |before| && p < |now| && n <= |order| && (forall k | 0 <= k < |order| :: order[k] < |now|)
    && left <= 0 && SumOf(now) + left == original && now[p] == 1
    && (forall i | 0 <= i < |now| :: 1 <= now[i] <= before[i])
    && (left < 0 ==> forall k | 0 <= k < n :: now[order[k]] == 1)
    && (forall k | n <= k < |order| :: now[order[k]] == before[order[k]])
    && forall j, k | 0 <= j < k < n && now[order[k]] < before[order[k]] :: now[order[j]] == 1
  }

  lemma CutNext(before: seq<int>, now: seq<int>, order: seq<nat>, p: nat, n: nat, left: int, original: int, cut: int)
    requires Cutting(before, now, order, p, n, left, original) && BySize(order, before, p) && n < |order| && left < 0
    requires cut == if now[order[n]] - 1 < -left then now[order[n]] - 1 else -left
    ensures Cutting(before, now[order[n] := now[order[n]] - cut], order, p, n + 1, left + cut, original)
  {
    SumSet(now, order[n], now[order[n]] - cut);
    assert order[n] in order;
  }

  /** Larger chunks are cut before smaller ones. */
  lemma LargerFirst(before: seq<int>, now: seq<int>, order: seq<nat>, p: nat, n: nat, left: int, original: int, i: nat,
                    j: nat)
    requires Cutting(before, now, order, p, n, left, original) && BySize(order, before, p)
    requires i < |now| && j < |now| && i != p && now[i] < before[i] < before[j]
    ensures now[j] == 1
  {
    if j != p {
      assert i in order && j in order;
      var x :| 0 <= x < |order| && order[x] == i;
      var y :| 0 <= y < |order| && order[y] == j;
      assert y < x < n;
    }
  }

  lemma CutEnough(before: seq<int>, now: seq<int>, order: seq<nat>, p: nat, n: nat, left: int, original: int)
    requires Cutting(before, now, order, p, n, left, original) && BySize(order, before, p)
    requires (n == |order| || left == 0)
    ensures Repaired(now, original)
  {
    if left < 0 {
      forall i: nat | i < |now| ensures now[i] == 1 {
        if i != p {
          assert i in order;
          var k :| 0 <= k < |order| && order[k] == i;
        }
      }
      SumOfOnes(now);
    } else {
      SumAtLeast(now);
    }
  }

  /** Takes the rest of the excess from the other chunks, down to one channel each and larger chunks first. */
  method Distribute(a: array<int>, p: nat, remaining: int, ghost original: int)
    requires p < a.Length && a[p] == 1 && remaining < 0 && SumOf(a[..]) + remaining == original
    requires forall i | 0 <= i < a.Length :: a[i] >= 1
    modifies a
    ensures Repaired(a[..], original) && forall i | 0 <= i < a.Length :: a[i] <= old(a[i])
    ensures forall i, j | 0 <= i < a.Length && 0 <= j < a.Length && i != p && a[i] < old(a[i]) < old(a[j]) :: a[j] == 1
  {
    ghost var before := a[..];
    var order := OthersBySize(a[..], p);
    var left, n := remaining, 0;
    while n < |order| && left != 0
      invariant n <= |order| && Cutting(before, a[..], order, p, n, left, original)
    {
      var i := order[n];
      var cut := if a[i] - 1 < -left then a[i] - 1 else -left;
      CutNext(before, a[..], order, p, n, left, original, cut);
      ghost var now := a[..];
      if cut > 0 { a[i] := a[i] - cut; }
      assert a[..] == now[i := now[i] - cut];
      left, n := left + cut, n + 1;
    }
    CutEnough(before, a[..], order, p, n, left, original);
    forall i: nat, j: nat | i < a.Length && j < a.Length && i != p && a[i] < before[i] < before[j] ensures a[j] == 1 {
      LargerFirst(before, a[..], order, p, n, left, original, i, j);
    }
  }

  /** Chunk p gives up the excess; if it cannot, it keeps one channel and larger chunks give before smaller ones. */
  ghost predicate CutFrom(before: seq<int>, after: seq<int>, difference: int, p: nat)
    requires |before| == |after|
  {
    && FirstLargest(before, p)
    && (before[p] + difference >= 1 ==> after == before[p := before[p] + difference])
    && (before[p] + difference < 1 ==> after[p] == 1 && LargestGiveFirst(before, after, p))
  }

  ghost predicate LargestGiveFirst(before: seq<int>, after: seq<int>, p: nat)
    requires |before| == |after|
  {
    forall i, j | 0 <= i < |before| && 0 <= j < |before| && i != p && after[i] < before[i] < before[j] :: after[j] == 1
  }

  /** The largest chunk is down to one channel, and the others give the rest. */
  method CutOthers(a: array<int>, p: nat, difference: int, ghost original: int)
    requires difference < 0 && SumOf(a[..]) + difference == original && forall i | 0 <= i < a.Length :: a[i] >= 1
    requires FirstLargest(a[..], p) && a[p] + difference < 1
    modifies a
    ensures Repaired(a[..], original) && CutFrom(old(a[..]), a[..], difference, p)
    ensures forall i | 0 <= i < a.Length :: a[i] <= old(a[i])
  {
    ghost var before := a[..];
    var remaining := difference - (1 - a[p]);
    Put(a, p, 1);
    ghost var cut := a[..];
    assert forall i | 0 <= i < a.Length :: a[i] == cut[i];
    Distribute(a, p, remaining, original);
    assert forall i | 0 <= i < a.Length && i != p :: cut[i] == before[i];
    assert a[p] == 1;
  }

  /** Too many channels: the first largest chunk gives up the excess, and the others what it cannot. */
  method HandleTooMany(a: array<int>, difference: int, ghost original: int)
    requires difference < 0 && SumOf(a[..]) + difference == original && forall i | 0 <= i < a.Length :: a[i] >= 1
    modifies a
    ensures Repaired(a[..], original) && forall i | 0 <= i < a.Length :: a[i] <= old(a[i])
    ensures a.Length > 0 ==> exists p: nat :: CutFrom(old(a[..]), a[..], difference, p)
  {
    if a.Length == 0 { return; }
    var p := FindLargest(a);
    if a[p] + difference < 1 { CutOthers(a, p, difference, original); }
    else {
      Put(a, p, a[p] + difference);
      SumAtLeast(a[..]);
      assert CutFrom(old(a[..]), a[..], difference, p);
    }
  }

  /** A chunk's share of the channels, at least one. */
  function Chunk(original: int, percent: real): (r: int)
    ensures r >= 1
  {
    Max(1, Phases.Round(original as real * percent / 100.0))
  }

  /** The chunks before any repair. */
  function Chunks(original: int, percents: seq<real>): (r: seq<int>)
    ensures |r| == |percents| && forall i | 0 <= i < |r| :: r[i] == Chunk(original, percents[i]) && r[i] >= 1
  {
    seq(|percents|, i requires 0 <= i < |percents| => Chunk(original, percents[i]))
  }

  /** How the chunks are repaired: not at all, in the first smallest one, or from the largest down. */
  ghost predicate Adjusted(before: seq<int>, after: seq<int>, original: int) {
    var difference := original - SumOf(before);
    && |before| == |after| && Repaired(after, original)
    && (difference == 0 ==> after == before)
    && (difference > 0 && before != [] ==> exists p: nat :: AddedTo(before, after, difference, p))
    && (difference < 0 && before != [] ==> exists p: nat :: CutFrom(before, after, difference, p))
  }

  /** Repairs the rounding; chunks that already add up stay as they are. */
  method AdjustForRoundingErrors(a: array<int>, original: int)
    requires forall i | 0 <= i < a.Length :: a[i] >= 1
    modifies a
    ensures Adjusted(old(a[..]), a[..], original)
  {
    var total := Sum(a);
    SumAtLeast(a[..]);
    if total != original {
      var difference := original - total;
      if difference > 0 {
        HandleTooFew(a, difference, original);
      } else {
        HandleTooMany(a, difference, original);
      }
    }
  }

  /** partition_layer on the channel counts: whatever the shares, the chunks end up repaired. */
  method PartitionLayer(original: int, percents: seq<real>) returns (chunks: array<int>)
    ensures fresh(chunks) && Adjusted(Chunks(original, percents), chunks[..], original)
  {
    chunks := new int[|percents|];
    for i := 0 to |percents|
      invariant chunks[..i] == Chunks(original, percents)[..i]
    {
      chunks[i] := Chunk(original, percents[i]);
      assert chunks[..i + 1] == chunks[..i] + [chunks[i]];
    }
    assert chunks[..] == Chunks(original, percents);
    assert forall i | 0 <= i < chunks.Length :: chunks[i] == chunks[..][i];
    AdjustForRoundingErrors(chunks, original);
  }
}
