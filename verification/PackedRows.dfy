/** The compressed-row form of the conductance matrix: packing with zero padding, rebuilding, and the
    padded product of the native solver (integrations/thermal_model/package_class.py). */
module PackedRows {
  import opened Options
  import opened Sums
  import opened ThermalNetwork

  /** Row i holds the non-zero values of the dense row and their columns, padded to a common width
      with zeros at the last column. */
  datatype Packed = Packed(values: seq<seq<real>>, index: seq<seq<nat>>, width: nat)

  /** Columns below n with a non-zero value, in order. */
  function NonZero(row: seq<real>, n: nat): (r: seq<nat>)
    requires n <= |row|
    ensures |r| <= n && forall k | 0 <= k < |r| :: r[k] < n && row[r[k]] != 0.0
  {
    if n == 0 then []
    else if row[n - 1] != 0.0 then NonZero(row, n - 1) + [n - 1]
    else NonZero(row, n - 1)
  }

  ghost predicate RowPacked(row: seq<real>, values: seq<real>, index: seq<nat>, width: nat) {
    var nz := NonZero(row, |row|);
    && nz != [] && |nz| <= width && |values| == |index| == width
    && (forall k | 0 <= k < |nz| :: index[k] == nz[k] && values[k] == row[nz[k]])
    && (forall k | |nz| <= k < width :: index[k] == nz[|nz| - 1] && values[k] == 0.0)
  }

  ghost predicate IsPacking(dense: seq<seq<real>>, pk: Packed) {
    && |pk.values| == |pk.index| == |dense|
    && (forall i | 0 <= i < |dense| :: RowPacked(dense[i], pk.values[i], pk.index[i], pk.width))
    && (exists i | 0 <= i < |dense| :: |NonZero(dense[i], |dense[i]|)| == pk.width)
  }

  // ----- packing ------------------------------------------------------------------------------------------

  method FindNonZero(row: seq<real>) returns (nz: seq<nat>)
    ensures nz == NonZero(row, |row|)
  {
    nz := [];
    for j := 0 to |row|
      invariant nz == NonZero(row, j)
    {
      if row[j] != 0.0 { nz := nz + [j]; }
    }
  }

  method PackRow(row: seq<real>, nz: seq<nat>, width: nat) returns (values: seq<real>, index: seq<nat>)
    requires nz == NonZero(row, |row|) && nz != [] && |nz| <= width
    ensures RowPacked(row, values, index, width)
  {
    values, index := [], [];
    for k := 0 to width
      invariant |values| == |index| == k
      invariant forall m | 0 <= m < k && m < |nz| :: index[m] == nz[m] && values[m] == row[nz[m]]
      invariant forall m | |nz| <= m < k :: index[m] == nz[|nz| - 1] && values[m] == 0.0
    {
      if k < |nz| { values, index := values + [row[nz[k]]], index + [nz[k]]; }
      else { values, index := values + [0.0], index + [nz[|nz| - 1]]; }
    }
  }

  /** Fails, as the source does, on an empty matrix and on a row without a non-zero value. */
  method Pack(dense: seq<seq<real>>) returns (r: Option<Packed>)
    ensures r.None? <==> dense == [] || exists i | 0 <= i < |dense| :: NonZero(dense[i], |dense[i]|) == []
    ensures r.Some? ==> IsPacking(dense, r.value)
  {
    if dense == [] { return None; }
    var columns: seq<seq<nat>> := [];
    var width, widest := 0, 0;
    for i := 0 to |dense|
      invariant |columns| == i && (if i == 0 then width == 0 else 0 <= widest < i && |columns[widest]| == width)
      invariant forall m | 0 <= m < i ::
                  columns[m] == NonZero(dense[m], |dense[m]|) && |columns[m]| <= width && columns[m] != []
    {
      var nz := FindNonZero(dense[i]);
      if nz == [] { return None; }
      columns := columns + [nz];
      if |nz| > width { width, widest := |nz|, i; }
    }
    var values: seq<seq<real>>, index: seq<seq<nat>> := [], [];
    for i := 0 to |dense|
      invariant |values| == |index| == i
      invariant forall m | 0 <= m < i :: RowPacked(dense[m], values[m], index[m], width)
    {
      var v, c := PackRow(dense[i], columns[i], width);
      values, index := values + [v], index + [c];
    }
    r := Some(Packed(values, index, width));
  }

  // ----- the padded product --------------------------------------------------------------------------------

  function Term(v: real, x: seq<real>, j: nat): real { v * At(x, j) }

  /** Product of the first k packed entries of a row with x. */
  function PaddedDot(values: seq<real>, index: seq<nat>, x: seq<real>, k: nat): real
    requires k <= |values| == |index|
  {
    if k == 0 then 0.0 else PaddedDot(values, index, x, k - 1) + Term(values[k - 1], x, index[k - 1])
  }

  /** Entries of a row times those of x. */
  function TermsOf(row: seq<real>, x: seq<real>): nat -> real { (j: nat) => Term(At(row, j), x, j) }

  function DenseDot(row: seq<real>, x: seq<real>, n: nat): real { Sum(TermsOf(row, x), n) }

  function ColumnsDot(row: seq<real>, nz: seq<nat>, x: seq<real>): real {
    if nz == [] then 0.0
    else ColumnsDot(row, nz[..|nz| - 1], x) + Term(At(row, nz[|nz| - 1]), x, nz[|nz| - 1])
  }

  lemma {:induction false} NonZeroColumnsSuffice(row: seq<real>, x: seq<real>, n: nat)
    requires n <= |row|
    ensures ColumnsDot(row, NonZero(row, n), x) == DenseDot(row, x, n)
  {
    if n > 0 {
      var m: nat := n - 1;
      NonZeroColumnsSuffice(row, x, m);
      if row[m] == 0.0 { ZeroTerm(x, m); } else { AppendColumn(row, NonZero(row, m), x, m); }
    }
  }

  lemma ZeroTerm(x: seq<real>, j: nat)
    ensures Term(0.0, x, j) == 0.0
  {
  }

  lemma AppendColumn(row: seq<real>, nz: seq<nat>, x: seq<real>, m: nat)
    ensures ColumnsDot(row, nz + [m], x) == ColumnsDot(row, nz, x) + Term(At(row, m), x, m)
  {
    assert (nz + [m])[..|nz|] == nz;
  }

  /** The first k columns, or all of them. */
  function FirstOf(nz: seq<nat>, k: nat): seq<nat> { if k < |nz| then nz[..k] else nz }

  lemma ColumnsDotStep(row: seq<real>, nz: seq<nat>, x: seq<real>, k: nat)
    requires 0 < k <= |nz|
    ensures ColumnsDot(row, FirstOf(nz, k), x) ==
              ColumnsDot(row, FirstOf(nz, k - 1), x) + Term(At(row, nz[k - 1]), x, nz[k - 1])
  {
    assert FirstOf(nz, k) == nz[..k] && nz[..k][..k - 1] == nz[..k - 1];
  }

  lemma {:induction false} PaddedIsColumns(row: seq<real>, values: seq<real>, index: seq<nat>, width: nat, x: seq<real>,
                                           k: nat)
    requires RowPacked(row, values, index, width) && k <= width
    ensures PaddedDot(values, index, x, k) == ColumnsDot(row, FirstOf(NonZero(row, |row|), k), x)
  {
    var nz := NonZero(row, |row|);
    if k > 0 {
      PaddedIsColumns(row, values, index, width, x, k - 1);
      if k <= |nz| {
        ColumnsDotStep(row, nz, x, k);
        assert values[k - 1] == At(row, nz[k - 1]) && index[k - 1] == nz[k - 1];
      } else {
        assert values[k - 1] == 0.0;
      }
    }
  }

  /** The padded product of a packed row equals the dense product, for every vector. */
  lemma PaddedProductIsDense(row: seq<real>, values: seq<real>, index: seq<nat>, width: nat, x: seq<real>)
    requires RowPacked(row, values, index, width)
    ensures PaddedDot(values, index, x, width) == DenseDot(row, x, |row|)
  {
    PaddedIsColumns(row, values, index, width, x, width);
    NonZeroColumnsSuffice(row, x, |row|);
  }

  // ----- rebuilding ----------------------------------------------------------------------------------------

  function Unit(n: nat, j: nat): (r: seq<real>)
    ensures forall i: nat :: At(r, i) == if i == j && i < n then 1.0 else 0.0
  {
    seq(n, i => if i == j then 1.0 else 0.0)
  }

  /** What the first k populated entries of a row add up to at column j. */
  function Collected(values: seq<real>, index: seq<nat>, j: nat, k: nat): real
    requires k <= |values| == |index|
  {
    if k == 0 then 0.0
    else Collected(values, index, j, k - 1) + if values[k - 1] != 0.0 && index[k - 1] == j then values[k - 1] else 0.0
  }

  lemma {:induction false} CollectedIsDot(values: seq<real>, index: seq<nat>, n: nat, j: nat, k: nat)
    requires k <= |values| == |index| && j < n
    ensures Collected(values, index, j, k) == PaddedDot(values, index, Unit(n, j), k)
  {
    if k > 0 { CollectedIsDot(values, index, n, j, k - 1); }
  }

  lemma RebuiltEntry(row: seq<real>, values: seq<real>, index: seq<nat>, width: nat, j: nat)
    requires RowPacked(row, values, index, width) && j < |row|
    ensures Collected(values, index, j, width) == row[j]
  {
    var n := |row|;
    CollectedIsDot(values, index, n, j, width);
    PaddedProductIsDense(row, values, index, width, Unit(n, j));
    SumSingle(TermsOf(row, Unit(n, j)), j, n);
  }

  /** Summing the populated entries into a zero matrix gives back the matrix that was packed. */
  method Rebuild(pk: Packed, n: nat, ghost dense: seq<seq<real>>) returns (m: array2<real>)
    requires IsPacking(dense, pk) && |dense| == n && forall i | 0 <= i < n :: |dense[i]| == n
    ensures m.Length0 == n && m.Length1 == n
    ensures forall i, j | 0 <= i < n && 0 <= j < n :: m[i, j] == dense[i][j]
  {
    m := new real[n, n]((_, _) => 0.0);
    for i := 0 to n
      invariant forall p, q | 0 <= p < i && 0 <= q < n :: m[p, q] == dense[p][q]
      invariant forall p, q | i <= p < n && 0 <= q < n :: m[p, q] == 0.0
    {
      var values, index := pk.values[i], pk.index[i];
      assert RowPacked(dense[i], values, index, pk.width);
      for k := 0 to pk.width
        invariant forall p, q | 0 <= p < i && 0 <= q < n :: m[p, q] == dense[p][q]
        invariant forall q | 0 <= q < n :: m[i, q] == Collected(values, index, q, k)
        invariant forall p, q | i < p < n && 0 <= q < n :: m[p, q] == 0.0
      {
        if values[k] != 0.0 { m[i, index[k]] := m[i, index[k]] + values[k]; }
      }
      forall q | 0 <= q < n ensures m[i, q] == dense[i][q] { RebuiltEntry(dense[i], values, index, pk.width, q); }
    }
  }

  // ----- when packing succeeds -----------------------------------------------------------------------------

  /** A node's row has a non-zero entry exactly when the node touches ambient or another node. */
  lemma RowIsZeroIffIsolated(net: Net, a: nat)
    requires Physical(net) && a < net.n
    ensures (forall b: nat | b < net.n :: Entry(net, a, b) == 0.0)
            <==> net.conv(a) == 0.0 && forall b: nat | b < net.n :: net.g(a, b) == 0.0
  {
    if net.conv(a) == 0.0 && forall b: nat | b < net.n :: net.g(a, b) == 0.0 {
      SumZero((b: nat) => net.g(a, b), net.n);
    }
    if forall b: nat | b < net.n :: Entry(net, a, b) == 0.0 {
      forall b: nat | b < net.n ensures net.g(a, b) == 0.0 { assert Entry(net, a, b) == 0.0; }
      SumZero((b: nat) => net.g(a, b), net.n);
      assert Entry(net, a, a) == 0.0;
    }
  }
}
