/** From layers of nodes to the assembled conductance matrix: the nested loops of connect_nodes and
    connect_layers (integrations/thermal_model/package_class.py, layer_class.py). */
module ThermalAssembly {
  import opened Sums
  import opened ThermalNetwork
  import opened ThermalGeometry

  type Layers = seq<seq<Node>>

  ghost predicate AllPositive(layers: Layers) {
    forall k, i | 0 <= k < |layers| && 0 <= i < |layers[k]| :: layers[k][i].Positive()
  }

  // ----- global numbering --------------------------------------------------------------------------------

  /** Number of nodes in the layers below k. */
  function Offset(layers: Layers, k: nat): nat
    requires k <= |layers|
  {
    if k == 0 then 0 else Offset(layers, k - 1) + |layers[k - 1]|
  }

  function Total(layers: Layers): nat { Offset(layers, |layers|) }

  /** The layer of global node a, searching the first k layers from the top. */
  function LayerOf(layers: Layers, a: nat, k: nat): (r: nat)
    requires k <= |layers| && a < Offset(layers, k)
    ensures r < k && Offset(layers, r) <= a < Offset(layers, r + 1)
  {
    if a >= Offset(layers, k - 1) then k - 1 else LayerOf(layers, a, k - 1)
  }

  lemma {:induction false} OffsetMonotone(layers: Layers, j: nat, k: nat)
    requires j <= k <= |layers|
    ensures Offset(layers, j) <= Offset(layers, k)
    decreases k - j
  {
    if j < k { OffsetMonotone(layers, j, k - 1); }
  }

  /** Layer and position determine the global number, and the other way round. */
  lemma LayerOfAt(layers: Layers, k: nat, i: nat)
    requires k < |layers| && i < |layers[k]|
    ensures Offset(layers, k) + i < Total(layers)
    ensures LayerOf(layers, Offset(layers, k) + i, |layers|) == k
  {
    OffsetMonotone(layers, k + 1, |layers|);
    var a := Offset(layers, k) + i;
    var r := LayerOf(layers, a, |layers|);
    if r < k { OffsetMonotone(layers, r + 1, k); }
    if k < r { OffsetMonotone(layers, k + 1, r); }
  }

  // ----- the network of a package --------------------------------------------------------------------------

  /** Conductance between node i of layer k and node j of layer l. */
  function Between(layers: Layers, k: nat, i: nat, l: nat, j: nat): real
    requires k < |layers| && i < |layers[k]| && l < |layers| && j < |layers[l]| && AllPositive(layers)
  {
    if k == l then (if i == j then 0.0 else Lateral(layers[k][i], layers[l][j]))
    else if l == k + 1 then Vertical(layers[k][i], layers[l][j])
    else if k == l + 1 then Vertical(layers[l][j], layers[k][i])
    else 0.0
  }

  lemma BetweenLaws(layers: Layers, k: nat, i: nat, l: nat, j: nat)
    requires k < |layers| && i < |layers[k]| && l < |layers| && j < |layers[l]| && AllPositive(layers)
    ensures Between(layers, k, i, l, j) == Between(layers, l, j, k, i) && Between(layers, k, i, l, j) >= 0.0
  {
    var a, b := layers[k][i], layers[l][j];
    LateralLaws(a, b);
    VerticalIsNonNegative(a, b);
    VerticalIsNonNegative(b, a);
  }

  function NodeAt(layers: Layers, a: nat): Node
    requires a < Total(layers)
  {
    var k := LayerOf(layers, a, |layers|);
    layers[k][a - Offset(layers, k)]
  }

  /** Layer of global node a and its position in the layer. */
  function Place(layers: Layers, a: nat): (r: (nat, nat))
    requires a < Total(layers)
    ensures r.0 < |layers| && r.1 < |layers[r.0]| && a == Offset(layers, r.0) + r.1
  {
    var k := LayerOf(layers, a, |layers|);
    (k, a - Offset(layers, k))
  }

  function Link(layers: Layers, a: nat, b: nat): real
    requires AllPositive(layers)
  {
    if a < Total(layers) && b < Total(layers) then
      var (k, i) := Place(layers, a);
      var (l, j) := Place(layers, b);
      Between(layers, k, i, l, j)
    else 0.0
  }

  function Ambience(layers: Layers, a: nat): real
    requires AllPositive(layers)
  {
    if a < Total(layers) then
      var k := LayerOf(layers, a, |layers|);
      assert layers[k][a - Offset(layers, k)].Positive();
      NodeAt(layers, a).ToAmbient()
    else 0.0
  }

  function InverseCapacitance(layers: Layers, a: nat): real {
    if a < Total(layers) && NodeAt(layers, a).Heat() != 0.0 then 1.0 / NodeAt(layers, a).Heat() else 1.0
  }

  function Package(layers: Layers): Net
    requires AllPositive(layers)
  {
    Net(Total(layers), (a: nat, b: nat) => Link(layers, a, b), (a: nat) => Ambience(layers, a),
        (a: nat) => InverseCapacitance(layers, a))
  }

  /** Every package with positive geometry and materials is a physical network, so heat balance,
      the maximum principle and their consequences apply to it. */
  lemma PackageIsPhysical(layers: Layers)
    requires AllPositive(layers)
    ensures Physical(Package(layers))
  {
    forall a: nat, b: nat | a < Total(layers) && b < Total(layers)
      ensures Link(layers, a, b) == Link(layers, b, a) && Link(layers, a, b) >= 0.0
    {
      var p, q := Place(layers, a), Place(layers, b);
      BetweenLaws(layers, p.0, p.1, q.0, q.1);
    }
    forall a: nat | a < Total(layers)
      ensures Link(layers, a, a) == 0.0 && Ambience(layers, a) >= 0.0 && InverseCapacitance(layers, a) > 0.0
    {
      var k := LayerOf(layers, a, |layers|);
      assert layers[k][a - Offset(layers, k)].Positive();
      NodeConstantsArePhysical(NodeAt(layers, a));
    }
  }

  // ----- assembly ------------------------------------------------------------------------------------------

  method ConnectLayers(bottom: seq<Node>, top: seq<Node>) returns (c: array2<real>)
    requires (forall i | 0 <= i < |bottom| :: bottom[i].Positive()) && (forall j | 0 <= j < |top| :: top[j].Positive())
    ensures fresh(c) && c.Length0 == |bottom| && c.Length1 == |top|
    ensures forall i, j | 0 <= i < |bottom| && 0 <= j < |top| :: c[i, j] == Vertical(bottom[i], top[j])
  {
    c := new real[|bottom|, |top|]((_, _) => 0.0);
    for i := 0 to |bottom|
      invariant forall p, q | 0 <= p < i && 0 <= q < |top| :: c[p, q] == Vertical(bottom[p], top[q])
      invariant forall p, q | i <= p < |bottom| && 0 <= q < |top| :: c[p, q] == 0.0
    {
      for j := 0 to |top|
        invariant forall p, q | 0 <= p < i && 0 <= q < |top| :: c[p, q] == Vertical(bottom[p], top[q])
        invariant forall q | 0 <= q < j :: c[i, q] == Vertical(bottom[i], top[q])
        invariant forall p, q | i <= p < |bottom| && 0 <= q < |top| && (p > i || q >= j) :: c[p, q] == 0.0
      {
        var b, t := bottom[i], top[j];
        b.ConductancesPositive();
        t.ConductancesPositive();
        SeriesLaws(0.0, b.Gz(), b.AreaXY(), t.Gz(), t.AreaXY());
        var area := SharedArea(b, t);
        if area > 0.0 { c[i, j] := Series(area, b.Gz(), b.AreaXY(), t.Gz(), t.AreaXY()); }
      }
    }
  }

  method ConnectNodes(layer: seq<Node>) returns (c: array2<real>)
    requires forall i | 0 <= i < |layer| :: layer[i].Positive()
    ensures fresh(c) && c.Length0 == |layer| && c.Length1 == |layer|
    ensures forall i, j | 0 <= i < |layer| && 0 <= j < |layer| ::
              c[i, j] == if i == j then 0.0 else Lateral(layer[i], layer[j])
  {
    c := new real[|layer|, |layer|]((_, _) => 0.0);
    for i := 0 to |layer|
      invariant forall p, q | 0 <= p < i && 0 <= q < |layer| ::
                  c[p, q] == if p == q then 0.0 else Lateral(layer[p], layer[q])
    {
      for j := 0 to |layer|
        invariant forall p, q | 0 <= p < i && 0 <= q < |layer| ::
                    c[p, q] == if p == q then 0.0 else Lateral(layer[p], layer[q])
        invariant forall q | 0 <= q < j :: c[i, q] == if i == q then 0.0 else Lateral(layer[i], layer[q])
      {
        if i == j { c[i, j] := 0.0; } else { c[i, j] := Lateral(layer[i], layer[j]); }
      }
    }
  }

  /** The vertical conductances of all pairs of neighbouring layers. */
  ghost predicate Stacked(layers: Layers, shared: seq<array2<real>>)
    requires AllPositive(layers)
    reads shared
  {
    && |shared| + 1 == |layers|
    && (forall k | 0 <= k < |shared| :: shared[k].Length0 == |layers[k]| && shared[k].Length1 == |layers[k + 1]|)
    && (forall k, i, j | 0 <= k < |shared| && 0 <= i < |layers[k]| && 0 <= j < |layers[k + 1]| ::
          shared[k][i, j] == Vertical(layers[k][i], layers[k + 1][j]))
  }

  /** Row a of g, up to column n, is what the package says; column n is the way to ambient. */
  ghost predicate RowDone(layers: Layers, g: array2<real>, a: nat)
    requires AllPositive(layers) && g.Length0 == Total(layers) && g.Length1 == Total(layers) + 1
    reads g
  {
    a < Total(layers) ==>
      && (forall b: nat | b < Total(layers) :: g[a, b] == Link(layers, a, b))
      && g[a, Total(layers)] == Ambience(layers, a)
  }

  lemma PlaceAt(layers: Layers, k: nat, i: nat)
    requires k < |layers| && i < |layers[k]|
    ensures Offset(layers, k) + i < Total(layers) && Place(layers, Offset(layers, k) + i) == (k, i)
  {
    LayerOfAt(layers, k, i);
  }

  lemma LinkAt(layers: Layers, k: nat, i: nat, b: nat, q: (nat, nat))
    requires AllPositive(layers) && k < |layers| && i < |layers[k]| && b < Total(layers) && q == Place(layers, b)
    ensures Offset(layers, k) + i < Total(layers)
    ensures Link(layers, Offset(layers, k) + i, b) == Between(layers, k, i, q.0, q.1)
  {
    PlaceAt(layers, k, i);
  }

  method CopySlice(g: array2<real>, a: nat, start: nat, values: seq<real>)
    requires a < g.Length0 && start + |values| <= g.Length1
    modifies g
    ensures forall p, q | 0 <= p < g.Length0 && 0 <= q < g.Length1 ::
              g[p, q] == if p == a && start <= q < start + |values| then values[q - start] else old(g[p, q])
  {
    for j := 0 to |values|
      invariant forall p, q | 0 <= p < g.Length0 && 0 <= q < g.Length1 ::
                  g[p, q] == if p == a && start <= q < start + j then values[q - start] else old(g[p, q])
    {
      g[a, start + j] := values[j];
    }
  }

  /** The row of conductances of node i of layer k to the layer l, as the loops see it. */
  ghost predicate SliceOf(layers: Layers, k: nat, i: nat, l: nat, values: seq<real>)
    requires AllPositive(layers) && k < |layers| && i < |layers[k]| && l < |layers|
  {
    |values| == |layers[l]| && forall j | 0 <= j < |values| :: values[j] == Between(layers, k, i, l, j)
  }

  ghost predicate Slices(layers: Layers, k: nat, i: nat, own: seq<real>, below: seq<real>, above: seq<real>)
    requires AllPositive(layers) && k < |layers| && i < |layers[k]|
  {
    && SliceOf(layers, k, i, k, own)
    && (if k > 0 then SliceOf(layers, k, i, k - 1, below) else below == [])
    && (if k + 1 < |layers| then SliceOf(layers, k, i, k + 1, above) else above == [])
  }

  /** What the three slices leave in column b. */
  ghost function Cell(layers: Layers, k: nat, own: seq<real>, below: seq<real>, above: seq<real>, b: nat): real
    requires k < |layers|
  {
    var off := Offset(layers, k);
    if off <= b < off + |own| then own[b - off]
    else if off - |below| <= b < off then below[b - (off - |below|)]
    else if off + |own| <= b < off + |own| + |above| then above[b - (off + |own|)]
    else 0.0
  }

  lemma CellIsBetween(layers: Layers, k: nat, i: nat, own: seq<real>, below: seq<real>, above: seq<real>, b: nat,
                      q: (nat, nat))
    requires AllPositive(layers) && k < |layers| && i < |layers[k]| && b < Total(layers)
    requires Slices(layers, k, i, own, below, above)
    requires q == Place(layers, b)
    ensures Cell(layers, k, own, below, above, b) == Between(layers, k, i, q.0, q.1)
  {
    ColumnIn(layers, k, b);
    if q.0 == k { assert SliceOf(layers, k, i, k, own); }
    else if q.0 + 1 == k { assert SliceOf(layers, k, i, k - 1, below); }
    else if q.0 == k + 1 { assert SliceOf(layers, k, i, k + 1, above); }
  }

  lemma CellIsLink(layers: Layers, k: nat, i: nat, own: seq<real>, below: seq<real>, above: seq<real>, b: nat)
    requires AllPositive(layers) && k < |layers| && i < |layers[k]| && b < Total(layers)
    requires Slices(layers, k, i, own, below, above)
    ensures Offset(layers, k) + i < Total(layers)
    ensures Cell(layers, k, own, below, above, b) == Link(layers, Offset(layers, k) + i, b)
  {
    LinkAt(layers, k, i, b, Place(layers, b));
    CellIsBetween(layers, k, i, own, below, above, b, Place(layers, b));
  }

  /** The three slices of row a. */
  method CopySlices(layers: Layers, g: array2<real>, k: nat, a: nat, own: seq<real>, below: seq<real>, above: seq<real>)
    requires k < |layers| && g.Length0 == Total(layers) && g.Length1 == Total(layers) + 1 && a < Total(layers)
    requires |own| == |layers[k]| && |below| == (if k > 0 then |layers[k - 1]| else 0)
    requires |above| == if k + 1 < |layers| then |layers[k + 1]| else 0
    requires forall q | 0 <= q < g.Length1 :: g[a, q] == 0.0
    modifies g
    ensures forall b: nat | b < Total(layers) :: g[a, b] == Cell(layers, k, own, below, above, b)
    ensures forall p, q | 0 <= p < g.Length0 && 0 <= q < g.Length1 && p != a :: g[p, q] == old(g[p, q])
  {
    var off := Offset(layers, k);
    OffsetMonotone(layers, k + 1, |layers|);
    CopySlice(g, a, off, own);
    if k > 0 { CopySlice(g, a, off - |below|, below); }
    if k + 1 < |layers| {
      OffsetMonotone(layers, k + 2, |layers|);
      CopySlice(g, a, off + |own|, above);
    }
  }

  method FillRow(layers: Layers, g: array2<real>, k: nat, i: nat, a: nat, own: seq<real>, below: seq<real>,
                 above: seq<real>)
    requires AllPositive(layers) && g.Length0 == Total(layers) && g.Length1 == Total(layers) + 1
    requires k < |layers| && i < |layers[k]| && a == Offset(layers, k) + i < Total(layers)
    requires Slices(layers, k, i, own, below, above)
    requires forall q | 0 <= q < g.Length1 :: g[a, q] == 0.0
    modifies g
    ensures RowDone(layers, g, a)
    ensures forall p, q | 0 <= p < g.Length0 && 0 <= q < g.Length1 && p != a :: g[p, q] == old(g[p, q])
  {
    CopySlices(layers, g, k, a, own, below, above);
    LayerOfAt(layers, k, i);
    g[a, Total(layers)] := layers[k][i].ToAmbient();
    forall b: nat | b < Total(layers) ensures g[a, b] == Link(layers, a, b) {
      CellIsLink(layers, k, i, own, below, above, b);
    }
  }

  /** Which slice a column falls into. */
  lemma ColumnIn(layers: Layers, k: nat, b: nat)
    requires k < |layers| && b < Total(layers)
    ensures var l := LayerOf(layers, b, |layers|);
            && (l == k <==> Offset(layers, k) <= b < Offset(layers, k) + |layers[k]|)
            && (k > 0 ==> (l == k - 1 <==> Offset(layers, k) - |layers[k - 1]| <= b < Offset(layers, k)))
            && (k + 1 < |layers| ==>
                  (l == k + 1 <==>
                      Offset(layers, k) + |layers[k]| <= b < Offset(layers, k) + |layers[k]| + |layers[k + 1]|))
  {
    var l := LayerOf(layers, b, |layers|);
    if l < k { OffsetMonotone(layers, l + 1, k); if l + 1 < k { OffsetMonotone(layers, l + 1, k - 1); } }
    if k < l { OffsetMonotone(layers, k + 1, l); if k + 1 < l { OffsetMonotone(layers, k + 2, l); } }
  }

  /** Rows below `lo` are done and rows from there on are still zero. */
  ghost predicate DoneBelow(layers: Layers, g: array2<real>, lo: nat)
    requires AllPositive(layers) && g.Length0 == Total(layers) && g.Length1 == Total(layers) + 1
    reads g
  {
    && (forall a: nat | a < lo :: RowDone(layers, g, a))
    && (forall p, q | lo <= p < g.Length0 && 0 <= q < g.Length1 :: g[p, q] == 0.0)
  }

  /** Filling row a alone moves the border by one. */
  method FillNextRow(layers: Layers, g: array2<real>, k: nat, i: nat, a: nat, own: seq<real>, below: seq<real>,
                     above: seq<real>)
    requires AllPositive(layers) && g.Length0 == Total(layers) && g.Length1 == Total(layers) + 1
    requires k < |layers| && i < |layers[k]| && a == Offset(layers, k) + i < Total(layers)
    requires Slices(layers, k, i, own, below, above) && DoneBelow(layers, g, a)
    modifies g
    ensures DoneBelow(layers, g, a + 1)
  {
    FillRow(layers, g, k, i, a, own, below, above);
    forall p: nat | p < a ensures RowDone(layers, g, p) { assert old(RowDone(layers, g, p)); }
  }

  /** The slices of node i of layer k, read off the layer's own and the shared conductances. */
  method SlicesOf(layers: Layers, k: nat, i: nat, xy: array2<real>, shared: seq<array2<real>>)
    returns (own: seq<real>, below: seq<real>, above: seq<real>)
    requires AllPositive(layers) && Stacked(layers, shared) && k < |layers| && i < |layers[k]|
    requires xy.Length0 == |layers[k]| && xy.Length1 == |layers[k]|
    requires forall j | 0 <= j < |layers[k]| :: xy[i, j] == if i == j then 0.0 else Lateral(layers[k][i], layers[k][j])
    ensures Slices(layers, k, i, own, below, above)
  {
    own, below, above := [], [], [];
    for j := 0 to |layers[k]|
      invariant |own| == j && forall q | 0 <= q < j :: own[q] == Between(layers, k, i, k, q)
    {
      own := own + [xy[i, j]];
    }
    if k > 0 {
      var b := shared[k - 1];
      for j := 0 to |layers[k - 1]|
        invariant |below| == j && forall q | 0 <= q < j :: below[q] == Between(layers, k, i, k - 1, q)
      {
        below := below + [b[j, i]];
      }
    }
    if k + 1 < |layers| {
      for j := 0 to |layers[k + 1]|
        invariant |above| == j && forall q | 0 <= q < j :: above[q] == Between(layers, k, i, k + 1, q)
      {
        above := above + [shared[k][i, j]];
      }
    }
  }

  /** The rows of layer k: convection, the layer itself, the layer below and the layer above. */
  method FillLayer(layers: Layers, g: array2<real>, k: nat, off: nat, xy: array2<real>, shared: seq<array2<real>>)
    requires AllPositive(layers) && Stacked(layers, shared) && k < |layers| && off == Offset(layers, k)
    requires g.Length0 == Total(layers) && g.Length1 == Total(layers) + 1 && g != xy && g !in shared
    requires xy.Length0 == |layers[k]| && xy.Length1 == |layers[k]|
    requires forall i, j | 0 <= i < |layers[k]| && 0 <= j < |layers[k]| ::
               xy[i, j] == if i == j then 0.0 else Lateral(layers[k][i], layers[k][j])
    requires DoneBelow(layers, g, off)
    modifies g
    ensures DoneBelow(layers, g, off + |layers[k]|)
  {
    OffsetMonotone(layers, k + 1, |layers|);
    for i := 0 to |layers[k]|
      invariant DoneBelow(layers, g, off + i)
    {
      assert Stacked(layers, shared);
      var own, below, above := SlicesOf(layers, k, i, xy, shared);
      FillNextRow(layers, g, k, i, off + i, own, below, above);
    }
  }

  method FillRows(layers: Layers, shared: seq<array2<real>>) returns (g: array2<real>)
    requires AllPositive(layers) && Stacked(layers, shared)
    ensures fresh(g) && g.Length0 == Total(layers) && g.Length1 == Total(layers) + 1
    ensures forall a: nat :: RowDone(layers, g, a)
  {
    var n := Total(layers);
    g := new real[n, n + 1]((_, _) => 0.0);
    var off := 0;
    for k := 0 to |layers|
      invariant off == Offset(layers, k) && fresh(g) && Stacked(layers, shared) && DoneBelow(layers, g, off)
    {
      var xy := ConnectNodes(layers[k]);
      FillLayer(layers, g, k, off, xy, shared);
      off := off + |layers[k]|;
    }
  }

  method StackLayers(layers: Layers) returns (shared: seq<array2<real>>)
    requires |layers| >= 1 && AllPositive(layers)
    ensures Stacked(layers, shared)
  {
    shared := [];
    for k := 0 to |layers| - 1
      invariant |shared| == k
      invariant forall m | 0 <= m < k :: shared[m].Length0 == |layers[m]| && shared[m].Length1 == |layers[m + 1]|
      invariant forall m, i, j | 0 <= m < k && 0 <= i < |layers[m]| && 0 <= j < |layers[m + 1]| ::
                  shared[m][i, j] == Vertical(layers[m][i], layers[m + 1][j])
    {
      var c := ConnectLayers(layers[k], layers[k + 1]);
      shared := shared + [c];
    }
  }

  /** The sum of a filled row is the diagonal entry of the package's matrix. */
  method RowTotal(layers: Layers, g: array2<real>, a: nat) returns (sum: real)
    requires AllPositive(layers) && g.Length0 == Total(layers) && g.Length1 == Total(layers) + 1
    requires a < Total(layers) && RowDone(layers, g, a)
    ensures sum == Diagonal(Package(layers), a)
  {
    var n := Total(layers);
    ghost var net := Package(layers);
    ghost var f := (b: nat) => net.g(a, b);
    sum := 0.0;
    for b := 0 to n
      invariant sum == Sum(f, b)
    {
      sum := sum + g[a, b];
    }
    sum := sum + g[a, n];
    SumSame(f, (b: nat) => net.g(a, b), n);
  }

  /** Row a of the matrix: diagonal minus conductances. */
  method SubtractRow(layers: Layers, g: array2<real>, m: array2<real>, a: nat)
    requires AllPositive(layers) && g.Length0 == Total(layers) && g.Length1 == Total(layers) + 1
    requires m != g && m.Length0 == Total(layers) && m.Length1 == Total(layers) && a < Total(layers)
    requires RowDone(layers, g, a)
    modifies m
    ensures forall p, q | 0 <= p < m.Length0 && 0 <= q < m.Length1 ::
              m[p, q] == if p == a then Entry(Package(layers), a, q) else old(m[p, q])
  {
    var diagonal := RowTotal(layers, g, a);
    for b := 0 to m.Length1
      invariant forall p, q | 0 <= p < m.Length0 && 0 <= q < m.Length1 ::
                  m[p, q] == if p == a && q < b then Entry(Package(layers), a, q) else old(m[p, q])
    {
      assert g[a, b] == Link(layers, a, b);
      m[a, b] := (if a == b then diagonal else 0.0) - g[a, b];
    }
  }

  /** The assembled conductance matrix of a package of at least two layers. */
  method Assemble(layers: Layers) returns (m: array2<real>)
    requires |layers| >= 2 && AllPositive(layers)
    ensures m.Length0 == Total(layers) && m.Length1 == Total(layers)
    ensures forall a, b | 0 <= a < Total(layers) && 0 <= b < Total(layers) :: m[a, b] == Entry(Package(layers), a, b)
  {
    var shared := StackLayers(layers);
    var g := FillRows(layers, shared);
    var n := Total(layers);
    m := new real[n, n];
    for a := 0 to n
      modifies m
      invariant forall p, q | 0 <= p < a && 0 <= q < n :: m[p, q] == Entry(Package(layers), p, q)
    {
      assert RowDone(layers, g, a);
      SubtractRow(layers, g, m, a);
    }
  }
}
