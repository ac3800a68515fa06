/** Stable sorting by a real key. */
module Sorting {

  predicate Sorted<T>(s: seq<T>, key: T -> real) { forall i, j | 0 <= i < j < |s| :: key(s[i]) <= key(s[j]) }

  /** The elements with key v, in order. */
  function WithKey<T>(s: seq<T>, key: T -> real, v: real): seq<T> {
    if s == [] then []
    else WithKey(s[..|s| - 1], key, v) + if key(s[|s| - 1]) == v then [s[|s| - 1]] else []
  }

  lemma {:induction false} WithKeyConcat<T>(a: seq<T>, b: seq<T>, key: T -> real, v: real)
    ensures WithKey(a + b, key, v) == WithKey(a, key, v) + WithKey(b, key, v)
    decreases |b|
  {
    if b == [] { assert a + b == a; }
    else {
      WithKeyConcat(a, b[..|b| - 1], key, v);
      assert (a + b)[..|a + b| - 1] == a + b[..|b| - 1];
    }
  }

  lemma {:induction false} NoneWithKey<T>(s: seq<T>, key: T -> real, v: real)
    requires forall i | 0 <= i < |s| :: key(s[i]) != v
    ensures WithKey(s, key, v) == []
  {
    if s != [] { NoneWithKey(s[..|s| - 1], key, v); }
  }

  /** Elements with equal keys keep their order. */
  ghost predicate Stable<T(!new)>(s: seq<T>, r: seq<T>, key: T -> real) {
    forall v: real :: WithKey(r, key, v) == WithKey(s, key, v)
  }

  lemma InsertIsStable<T>(s: seq<T>, x: T, p: nat, key: T -> real, v: real)
    requires p <= |s| && forall i | p <= i < |s| :: key(x) < key(s[i])
    ensures WithKey(s[..p] + [x] + s[p..], key, v) == WithKey(s + [x], key, v)
  {
    var a, b := s[..p], s[p..];
    WithKeyConcat(a + [x], b, key, v);
    WithKeyConcat(a, [x], key, v);
    WithKeyConcat(s, [x], key, v);
    WithKeyConcat(a, b, key, v);
    assert s == a + b;
    if key(x) == v { NoneWithKey(b, key, v); } else { NoneWithKey([x], key, v); }
  }

  lemma InsertKeeps<T>(s: seq<T>, x: T, p: nat, key: T -> real)
    requires Sorted(s, key) && p <= |s|
    requires (forall i | 0 <= i < p :: key(s[i]) <= key(x)) && forall i | p <= i < |s| :: key(x) <= key(s[i])
    ensures Sorted(s[..p] + [x] + s[p..], key)
  {
  }

  method FindPlace<T>(s: seq<T>, x: T, key: T -> real) returns (p: nat)
    requires Sorted(s, key)
    ensures p <= |s| && (forall i | 0 <= i < p :: key(s[i]) <= key(x)) && forall i | p <= i < |s| :: key(x) < key(s[i])
  {
    p := |s|;
    while p > 0 && key(s[p - 1]) > key(x)
      invariant p <= |s| && forall i | p <= i < |s| :: key(x) < key(s[i])
    {
      p := p - 1;
    }
  }

  method Insert<T(!new)>(s: seq<T>, x: T, key: T -> real) returns (r: seq<T>)
    requires Sorted(s, key)
    ensures Stable(s + [x], r, key)
    ensures Sorted(r, key) && multiset(r) == multiset(s) + multiset{x}
    ensures (forall i | 0 <= i < |s| :: key(s[i]) <= key(x)) ==> r == s + [x]
  {
    var p := FindPlace(s, x, key);
    InsertKeeps(s, x, p, key);
    r := s[..p] + [x] + s[p..];
    assert s == s[..p] + s[p..];
    forall v: real ensures WithKey(r, key, v) == WithKey(s + [x], key, v) { InsertIsStable(s, x, p, key, v); }
  }

  lemma AppendIsStable<T(!new)>(s: seq<T>, r: seq<T>, x: T, key: T -> real)
    requires Stable(s, r, key)
    ensures Stable(s + [x], r + [x], key)
  {
    forall v: real ensures WithKey(r + [x], key, v) == WithKey(s + [x], key, v) {
      WithKeyConcat(r, [x], key, v);
      WithKeyConcat(s, [x], key, v);
    }
  }

  /** A stable sort by key; a list already in order stays as it is. */
  method SortBy<T(!new)>(s: seq<T>, key: T -> real) returns (r: seq<T>)
    ensures Sorted(r, key) && multiset(r) == multiset(s) && Stable(s, r, key)
    ensures Sorted(s, key) ==> r == s
  {
    r := [];
    for n := 0 to |s|
      invariant Sorted(r, key) && multiset(r) == multiset(s[..n]) && Stable(s[..n], r, key)
      invariant Sorted(s, key) ==> r == s[..n]
    {
      assert s[..n + 1] == s[..n] + [s[n]];
      AppendIsStable(s[..n], r, s[n], key);
      r := Insert(r, s[n], key);
    }
    assert s[..|s|] == s;
  }

  predicate NoDuplicates<T(==)>(s: seq<T>) { forall i, j | 0 <= i < j < |s| :: s[i] != s[j] }

  /** Rearranging a list without duplicates makes none. */
  lemma RearrangedNoDuplicates<T>(a: seq<T>, b: seq<T>)
    requires NoDuplicates(a) && multiset(a) == multiset(b)
    ensures NoDuplicates(b)
  {
    forall i, j | 0 <= i < j < |b| ensures b[i] != b[j] {
      assert b == b[..j] + [b[j]] + b[j + 1..];
      AtMostOnce(a, b[j]);
      assert b[i] in b[..j];
    }
  }

  lemma {:induction false} AtMostOnce<T>(s: seq<T>, x: T)
    requires NoDuplicates(s)
    ensures multiset(s)[x] <= 1
  {
    if s != [] {
      var rest, last := s[..|s| - 1], s[|s| - 1];
      AtMostOnce(rest, x);
      assert s == rest + [last];
      assert last !in rest;
    }
  }
}
