/** The depth-first topological sort of _sort_execution_order (src/core/mapped_model.py). */
module ExecutionOrder {

  /** Dependencies by phase id. */
  type Graph = seq<seq<nat>>

  ghost predicate Closed(g: Graph) { forall p, d | 0 <= p < |g| && d in g[p] :: d < |g| }

  /** rank witnesses that the graph has no cycle. */
  ghost predicate Ranked(g: Graph, rank: nat -> nat) {
    forall p: nat, d | p < |g| && d in g[p] :: rank(d) < rank(p)
  }

  ghost predicate NoDup(o: seq<nat>) { forall i, j | 0 <= i < j < |o| :: o[i] != o[j] }

  /** Every phase from position lo on comes after all its dependencies. */
  ghost predicate Ordered(g: Graph, o: seq<nat>, lo: nat) {
    forall k, d | lo <= k < |o| && o[k] < |g| && d in g[o[k]] :: d in o[..k]
  }

  /** A state of the search: emitted phases are visited, without repetition. */
  ghost predicate Search(g: Graph, visited: set<nat>, o: seq<nat>) {
    && (forall q | q in o :: q in visited)
    && (forall q | q in visited :: q < |g|)
    && NoDup(o)
  }

  /** Visited but not yet emitted: still on the recursion stack. */
  ghost predicate Pending(visited: set<nat>, o: seq<nat>, q: nat) { q in visited && q !in o }

  /** The step from (visited, o) to (v, o') only appends, and emits all that it visits. */
  ghost predicate Advance(g: Graph, visited: set<nat>, o: seq<nat>, v: set<nat>, o': seq<nat>) {
    && Search(g, v, o') && visited <= v && o <= o'
    && (forall q :: Pending(v, o', q) <==> Pending(visited, o, q))
  }

  ghost predicate Above(rank: nat -> nat, visited: set<nat>, o: seq<nat>, p: nat) {
    forall q | Pending(visited, o, q) :: rank(p) < rank(q)
  }

  /** What was appended ranks at most `top` and is in dependency order. */
  ghost predicate Sorted(g: Graph, rank: nat -> nat, o: seq<nat>, o': seq<nat>, top: nat) {
    && (forall k | |o| <= k < |o'| :: rank(o'[k]) <= top)
    && Ordered(g, o', |o|)
  }

  lemma AdvanceTrans(g: Graph, v0: set<nat>, o0: seq<nat>, v1: set<nat>, o1: seq<nat>, v2: set<nat>, o2: seq<nat>)
    requires Advance(g, v0, o0, v1, o1) && Advance(g, v1, o1, v2, o2)
    ensures Advance(g, v0, o0, v2, o2)
  {
  }

  lemma SortedTrans(g: Graph, rank: nat -> nat, o0: seq<nat>, o1: seq<nat>, o2: seq<nat>, top: nat)
    requires o0 <= o1 <= o2 && Sorted(g, rank, o0, o1, top) && Sorted(g, rank, o1, o2, top)
    ensures Sorted(g, rank, o0, o2, top)
  {
    forall k, d | |o0| <= k < |o2| && o2[k] < |g| && d in g[o2[k]] ensures d in o2[..k] {
      if k < |o1| { assert o2[k] == o1[k] && o1[..k] == o2[..k]; }
    }
  }

  /** The first j dependencies of p are emitted, in order. */
  ghost predicate DepsEmitted(g: Graph, rank: nat -> nat, p: nat, j: nat, sorted: seq<nat>, o: seq<nat>)
    requires p < |g| && j <= |g[p]|
  {
    (forall m | 0 <= m < j :: g[p][m] in o) && Sorted(g, rank, sorted, o, rank(p))
  }

  method Visit(g: Graph, p: nat, visited: set<nat>, sorted: seq<nat>, ghost rank: nat -> nat)
    returns (v: set<nat>, o: seq<nat>)
    requires Closed(g) && p < |g| && Search(g, visited, sorted)
    ensures Advance(g, visited, sorted, v, o) && p in v
    ensures Ranked(g, rank) && Above(rank, visited, sorted, p) ==> p in o && Sorted(g, rank, sorted, o, rank(p))
    decreases Ids(|g|) - visited
  {
    if p in visited {
      assert p in sorted || Pending(visited, sorted, p);
      return visited, sorted;
    }
    v, o := visited + {p}, sorted;
    ghost var ranked := Ranked(g, rank) && Above(rank, visited, sorted, p);
    for j := 0 to |g[p]|
      invariant Advance(g, visited + {p}, sorted, v, o)
      invariant ranked ==> DepsEmitted(g, rank, p, j, sorted, o)
    {
      var d := g[p][j];
      assert d in g[p];
      assert Pending(visited + {p}, sorted, p) && p in v;
      ghost var v0, o0 := v, o;
      v, o := Visit(g, d, v, o, rank);
      AdvanceTrans(g, visited + {p}, sorted, v0, o0, v, o);
      if ranked { DepVisited(g, rank, p, j, visited, sorted, v0, o0, o); }
    }
    assert Pending(v, o, p);
    Emit(g, visited, sorted, v, o, p, rank);
    o := o + [p];
  }

  lemma DepVisited(g: Graph, rank: nat -> nat, p: nat, j: nat, visited: set<nat>, sorted: seq<nat>, v0: set<nat>,
                   o0: seq<nat>, o: seq<nat>)
    requires p < |g| && j < |g[p]| && Ranked(g, rank) && Above(rank, visited, sorted, p) && p !in visited
    requires Advance(g, visited + {p}, sorted, v0, o0) && DepsEmitted(g, rank, p, j, sorted, o0) && o0 <= o
    requires Above(rank, v0, o0, g[p][j]) ==> g[p][j] in o && Sorted(g, rank, o0, o, rank(g[p][j]))
    ensures DepsEmitted(g, rank, p, j + 1, sorted, o)
  {
    var d := g[p][j];
    assert d in g[p];
    forall q | Pending(v0, o0, q) ensures rank(d) < rank(q) {
      assert Pending(visited + {p}, sorted, q);
      if q != p { assert Pending(visited, sorted, q); }
    }
    SortedTrans(g, rank, sorted, o0, o, rank(p));
  }

  lemma Emit(g: Graph, visited: set<nat>, sorted: seq<nat>, v: set<nat>, o: seq<nat>, p: nat, rank: nat -> nat)
    requires Closed(g) && p < |g| && Search(g, visited, sorted) && p !in visited && p !in o
    requires Advance(g, visited + {p}, sorted, v, o) && p in v
    ensures Advance(g, visited, sorted, v, o + [p])
    ensures DepsEmitted(g, rank, p, |g[p]|, sorted, o) ==> Sorted(g, rank, sorted, o + [p], rank(p))
  {
    var o' := o + [p];
    forall q ensures Pending(v, o', q) <==> Pending(visited, sorted, q) {
      assert Pending(v, o, q) <==> Pending(visited + {p}, sorted, q);
    }
    if DepsEmitted(g, rank, p, |g[p]|, sorted, o) {
      forall k, d | |sorted| <= k < |o'| && o'[k] < |g| && d in g[o'[k]] ensures d in o'[..k] {
        if k < |o| { assert o'[..k] == o[..k]; } else { assert o'[..k] == o; }
      }
    }
  }

  ghost function Ids(n: nat): (r: set<nat>)
    ensures |r| == n && forall p: nat :: p in r <==> p < n
  {
    if n == 0 then {} else Ids(n - 1) + {n - 1}
  }

  /** The order is a permutation of all phases and, when the graph has no cycle, puts every phase
      after all of its dependencies. */
  method Sort(g: Graph, ghost rank: nat -> nat) returns (o: seq<nat>)
    requires Closed(g)
    ensures NoDup(o) && |o| == |g| && (forall p: nat :: p in o <==> p < |g|)
    ensures Ranked(g, rank) ==> Ordered(g, o, 0)
  {
    var visited: set<nat> := {};
    o := [];
    for p := 0 to |g|
      invariant Advance(g, {}, [], visited, o)
      invariant forall q: nat | q < p :: q in visited
      invariant Ranked(g, rank) ==> Ordered(g, o, 0)
    {
      ghost var v0, o0 := visited, o;
      visited, o := Visit(g, p, visited, o, rank);
      AdvanceTrans(g, {}, [], v0, o0, visited, o);
      if Ranked(g, rank) { OrderedAppend(g, rank, o0, o, rank(p)); }
    }
    forall p: nat ensures p in o <==> p < |g| {
      assert Pending(visited, o, p) <==> Pending({}, [], p);
    }
    NoDupSize(o, |g|);
  }

  lemma OrderedAppend(g: Graph, rank: nat -> nat, o0: seq<nat>, o: seq<nat>, top: nat)
    requires o0 <= o && Ordered(g, o0, 0) && Sorted(g, rank, o0, o, top)
    ensures Ordered(g, o, 0)
  {
    forall k, d | 0 <= k < |o| && o[k] < |g| && d in g[o[k]] ensures d in o[..k] {
      if k < |o0| { assert o[..k] == o0[..k]; }
    }
  }

  ghost function Elems(o: seq<nat>): set<nat> { set p | p in o }

  lemma NoDupSize(o: seq<nat>, n: nat)
    requires NoDup(o) && forall p: nat :: p in o <==> p < n
    ensures |o| == n
  {
    ElemsSize(o);
    assert Elems(o) == Ids(n);
  }

  lemma {:induction false} ElemsSize(o: seq<nat>)
    requires NoDup(o)
    ensures |Elems(o)| == |o|
  {
    if o != [] {
      var k := |o| - 1;
      ElemsSize(o[..k]);
      assert o == o[..k] + [o[k]];
      assert Elems(o) == Elems(o[..k]) + {o[k]};
    }
  }
}
