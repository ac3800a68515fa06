/** Watts in equal watts out: from per-chiplet watt traces through percent rows and power blocks to
    the power of every thermal node (src/post/thermal_adapter.py, integrations/thermal_model/
    power_class.py and layer_class.py). */
module PowerMap {
  import opened Reals
  import opened Sums
  import opened ThermalGeometry

  // ----- intervals -----------------------------------------------------------------------------------------

  datatype Span = Span(start: real, len: real)

  function End(c: Span): real { c.start + c.len }

  /** Length that span k shares with the block [b, b + l]. */
  function Shared(spans: seq<Span>, b: real, l: real): nat -> real {
    (k: nat) => if k < |spans| then Overlap(spans[k].start, spans[k].len, b, l) else 0.0
  }

  /** Total length of the block covered by the first k spans. */
  function Covered(spans: seq<Span>, b: real, l: real, k: nat): real {
    Sum(Shared(spans, b, l), k)
  }

  /** Spans lo..hi lie end to end. */
  ghost predicate Contiguous(spans: seq<Span>, lo: nat, hi: nat) {
    && lo < hi <= |spans|
    && (forall k | lo <= k < hi :: spans[k].len >= 0.0)
    && (forall k | lo < k < hi :: spans[k].start == End(spans[k - 1]))
  }

  /** The block lies inside the contiguous spans lo..hi, and the other spans keep clear of those. */
  ghost predicate Spanned(spans: seq<Span>, lo: nat, hi: nat, b: real, l: real) {
    && Contiguous(spans, lo, hi)
    && spans[lo].start <= b && b + l <= End(spans[hi - 1])
    && (forall k | 0 <= k < lo :: End(spans[k]) <= spans[lo].start)
    && (forall k | hi <= k < |spans| :: spans[k].start >= End(spans[hi - 1]))
  }

  lemma OverlapSplits(x: real, l1: real, l2: real, b: real, l: real)
    requires l1 >= 0.0 && l2 >= 0.0 && l >= 0.0
    ensures Overlap(x, l1, b, l) + Overlap(x + l1, l2, b, l) == Overlap(x, l1 + l2, b, l)
  {
  }

  lemma {:induction false} CoveredBelow(spans: seq<Span>, lo: nat, hi: nat, b: real, l: real, k: nat)
    requires Spanned(spans, lo, hi, b, l) && l >= 0.0 && k <= hi
    ensures k <= lo ==> Covered(spans, b, l, k) == 0.0
    ensures k > lo ==> Covered(spans, b, l, k) == Overlap(spans[lo].start, End(spans[k - 1]) - spans[lo].start, b, l)
    ensures k > lo ==> End(spans[k - 1]) >= spans[lo].start
  {
    if k > 0 {
      CoveredBelow(spans, lo, hi, b, l, k - 1);
      if k > lo + 1 { OverlapSplits(spans[lo].start, End(spans[k - 2]) - spans[lo].start, spans[k - 1].len, b, l); }
    }
  }

  /** Tiling: a spanned block is covered exactly once. */
  lemma {:induction false} SpannedIsCovered(spans: seq<Span>, lo: nat, hi: nat, b: real, l: real, k: nat)
    requires Spanned(spans, lo, hi, b, l) && l >= 0.0 && hi <= k <= |spans|
    ensures Covered(spans, b, l, k) == l
    decreases k
  {
    CoveredBelow(spans, lo, hi, b, l, hi);
    if k > hi { SpannedIsCovered(spans, lo, hi, b, l, k - 1); }
  }

  // ----- the spans that create_nodes makes -----------------------------------------------------------------

  /** n cells of equal length. */
  function Uniform(start: real, len: real, n: nat): (r: seq<Span>)
    ensures |r| == n && forall i | 0 <= i < n :: r[i] == Span(i as real * len + start, len)
  {
    seq(n, i => Span(i as real * len + start, len))
  }

  lemma UniformTiles(start: real, len: real, n: nat)
    requires n > 0 && len >= 0.0
    ensures Tiles(Uniform(start, len, n), start, start + n as real * len)
  {
    forall k: nat | 0 < k < n ensures Uniform(start, len, n)[k].start == End(Uniform(start, len, n)[k - 1]) {
      UniformStep(start, len, n, k);
    }
    UniformEnd(start, len, n);
  }

  lemma UniformStep(start: real, len: real, n: nat, k: nat)
    requires 0 < k < n
    ensures Uniform(start, len, n)[k].start == End(Uniform(start, len, n)[k - 1])
  {
    NextMultiple(k as real, len);
  }

  lemma UniformEnd(start: real, len: real, n: nat)
    requires n > 0
    ensures Uniform(start, len, n)[0].start == start && End(Uniform(start, len, n)[n - 1]) == start + n as real * len
  {
    NextMultiple(n as real, len);
  }

  lemma NextMultiple(k: real, len: real)
    ensures k * len == (k - 1.0) * len + len
  {
  }

  /** calculate_length_for_non_uniform_nodes: cells meet half-way between neighbouring nodes. */
  function NonUniformCell(nodes: seq<real>, i: nat, start: real, end: real): Span
    requires |nodes| >= 2 && i < |nodes|
  {
    if i == 0 then Span(start, nodes[0] + ((nodes[0] + nodes[1]) / 2.0 - nodes[0]))
    else if i == |nodes| - 1 then
      Span((nodes[i] + nodes[i - 1]) / 2.0 + start,
           (end - (nodes[i] + start)) + (nodes[i] - (nodes[i] + nodes[i - 1]) / 2.0))
    else Span((nodes[i] + nodes[i - 1]) / 2.0 + start,
              (nodes[i] + nodes[i + 1]) / 2.0 - (nodes[i] + nodes[i - 1]) / 2.0)
  }

  function NonUniform(nodes: seq<real>, start: real, end: real): (r: seq<Span>)
    requires |nodes| >= 2
    ensures |r| == |nodes| && forall i | 0 <= i < |r| :: r[i] == NonUniformCell(nodes, i, start, end)
  {
    seq(|nodes|, i requires 0 <= i < |nodes| => NonUniformCell(nodes, i, start, end))
  }

  /** Whatever the node positions, the cells run from start to end without gap or overlap. */
  lemma NonUniformTiles(nodes: seq<real>, start: real, end: real)
    requires |nodes| >= 2 && nodes[0] >= 0.0 && start + nodes[|nodes| - 1] <= end
    requires forall i | 0 < i < |nodes| :: nodes[i - 1] <= nodes[i]
    ensures Tiles(NonUniform(nodes, start, end), start, end)
  {
    var r := NonUniform(nodes, start, end);
    forall k | 0 <= k < |nodes| ensures r[k].len >= 0.0 {
      if 0 < k < |nodes| - 1 { assert nodes[k - 1] <= nodes[k] && nodes[k] <= nodes[k + 1]; }
      if k == 0 { assert nodes[0] <= nodes[1]; }
      if k == |nodes| - 1 { assert nodes[k - 1] <= nodes[k]; }
    }
  }

  // ----- blocks and cells ----------------------------------------------------------------------------------

  datatype Block = Block(x: real, y: real, lx: real, ly: real, maxPower: real, fraction: seq<real>)

  function BlockArea(b: Block): real { b.lx * b.ly }

  datatype Cell = Cell(x: real, y: real, xl: real, yl: real, source: bool)

  /** A product grid of cells, numbered row by row. */
  datatype Grid = Grid(xs: seq<Span>, ys: seq<Span>, source: bool)

  function CellArea(c: Cell, b: Block): real { OverlapArea(c.x, c.y, c.xl, c.yl, b.x, b.y, b.lx, b.ly) }

  /** The area of the block that the cell takes power from. */
  function Taken(c: Cell, b: Block): real {
    if c.source && CellArea(c, b) > 0.0 then CellArea(c, b) else 0.0
  }

  function CellAt(g: Grid, i: nat, j: nat): Cell
    requires i < |g.xs| && j < |g.ys|
  {
    Cell(g.xs[i].start, g.ys[j].start, g.xs[i].len, g.ys[j].len, g.source)
  }

  /** Cells of row i below column j. */
  function RowCells(g: Grid, i: nat, j: nat): (r: seq<Cell>)
    requires i < |g.xs| && j <= |g.ys|
    ensures |r| == j
  {
    if j == 0 then []
    else RowCells(g, i, j - 1) + [CellAt(g, i, j - 1)]
  }

  function GridCells(g: Grid, i: nat): seq<Cell>
    requires i <= |g.xs|
  {
    if i == 0 then [] else GridCells(g, i - 1) + RowCells(g, i - 1, |g.ys|)
  }

  function AllCells(grids: seq<Grid>): seq<Cell> {
    if grids == [] then []
    else AllCells(grids[..|grids| - 1]) + GridCells(grids[|grids| - 1], |grids[|grids| - 1].xs|)
  }

  /** Sum of a quantity over the cells. */
  function Fold(t: Cell -> real, cells: seq<Cell>): real {
    if cells == [] then 0.0 else Fold(t, cells[..|cells| - 1]) + t(cells[|cells| - 1])
  }

  lemma {:induction false} FoldConcat(t: Cell -> real, a: seq<Cell>, c: seq<Cell>)
    ensures Fold(t, a + c) == Fold(t, a) + Fold(t, c)
    decreases |c|
  {
    if c == [] { assert a + c == a; }
    else {
      FoldConcat(t, a, c[..|c| - 1]);
      assert (a + c)[..|a + c| - 1] == a + c[..|c| - 1];
    }
  }

  /** On the cells, h is k times g. */
  ghost predicate Multiple(h: Cell -> real, k: real, g: Cell -> real, cells: seq<Cell>) {
    forall i | 0 <= i < |cells| :: h(cells[i]) == k * g(cells[i])
  }

  lemma {:induction false} FoldScale(g: Cell -> real, k: real, h: Cell -> real, cells: seq<Cell>, a: real, w: real)
    requires Multiple(h, k, g, cells) && Fold(g, cells) == a && k * a == w
    ensures Fold(h, cells) == w
  {
    if cells != [] {
      var last := |cells| - 1;
      var b := Fold(g, cells[..last]);
      FoldScale(g, k, h, cells[..last], b, k * b);
      Distributes(k, b, g(cells[last]));
    }
  }

  lemma {:induction false} FoldAdd(f: Cell -> real, g: Cell -> real, h: Cell -> real, cells: seq<Cell>)
    requires forall i | 0 <= i < |cells| :: h(cells[i]) == f(cells[i]) + g(cells[i])
    ensures Fold(h, cells) == Fold(f, cells) + Fold(g, cells)
  {
    if cells != [] { FoldAdd(f, g, h, cells[..|cells| - 1]); }
  }

  lemma {:induction false} FoldZero(t: Cell -> real, cells: seq<Cell>)
    requires forall i | 0 <= i < |cells| :: t(cells[i]) == 0.0
    ensures Fold(t, cells) == 0.0
  {
    if cells != [] { FoldZero(t, cells[..|cells| - 1]); }
  }

  /** Row i holds the values of f. */
  ghost predicate RowValues(t: Cell -> real, g: Grid, i: nat, f: nat -> real)
    requires i < |g.xs|
  {
    forall k: nat | k < |g.ys| :: t(CellAt(g, i, k)) == f(k)
  }

  lemma {:induction false} RowFold(t: Cell -> real, g: Grid, i: nat, j: nat, f: nat -> real)
    requires i < |g.xs| && j <= |g.ys| && RowValues(t, g, i, f)
    ensures Fold(t, RowCells(g, i, j)) == Sum(f, j)
  {
    if j > 0 {
      RowFold(t, g, i, j - 1, f);
      assert RowCells(g, i, j)[..j - 1] == RowCells(g, i, j - 1);
    }
  }

  /** Row a of the grid sums to r(a). */
  ghost predicate RowTotals(t: Cell -> real, g: Grid, r: nat -> real) {
    forall a: nat | a < |g.xs| :: Fold(t, RowCells(g, a, |g.ys|)) == r(a)
  }

  lemma {:induction false} GridFold(t: Cell -> real, g: Grid, i: nat, r: nat -> real)
    requires i <= |g.xs| && RowTotals(t, g, r)
    ensures Fold(t, GridCells(g, i)) == Sum(r, i)
  {
    if i > 0 {
      GridFold(t, g, i - 1, r);
      FoldConcat(t, GridCells(g, i - 1), RowCells(g, i - 1, |g.ys|));
    }
  }

  function ScaledBy(y: real, f: nat -> real): nat -> real { (k: nat) => y * f(k) }

  lemma {:induction false} SumScaledBy(y: real, f: nat -> real, n: nat, x: real)
    requires x == Sum(f, n)
    ensures Sum(ScaledBy(y, f), n) == y * x
  {
    if n > 0 {
      SumScaledBy(y, f, n - 1, Sum(f, n - 1));
      Distributes(y, Sum(f, n - 1), f(n - 1));
    }
  }

  function TakenFrom(b: Block): Cell -> real { (c: Cell) => Taken(c, b) }

  /** Area of the block that the cells take power from. */
  function TakenBy(cells: seq<Cell>, b: Block): real { Fold(TakenFrom(b), cells) }

  lemma OverlapNonNegative(x: real, l: real, b: real, bl: real)
    ensures Overlap(x, l, b, bl) >= 0.0 && (Overlap(x, l, b, bl) > 0.0 ==> bl > 0.0)
  {
  }

  lemma CellTakes(g: Grid, b: Block, i: nat, j: nat)
    requires i < |g.xs| && j < |g.ys| && g.source
    ensures Taken(CellAt(g, i, j), b) == Shared(g.xs, b.x, b.lx)(i) * Shared(g.ys, b.y, b.ly)(j)
  {
    ProductNonNegative(Shared(g.xs, b.x, b.lx)(i), Shared(g.ys, b.y, b.ly)(j));
  }

  lemma RowIsScaled(g: Grid, b: Block, i: nat, o: real)
    requires i < |g.xs| && g.source && o == Shared(g.xs, b.x, b.lx)(i)
    ensures RowValues(TakenFrom(b), g, i, ScaledBy(o, Shared(g.ys, b.y, b.ly)))
  {
    forall k: nat | k < |g.ys| ensures TakenFrom(b)(CellAt(g, i, k)) == ScaledBy(o, Shared(g.ys, b.y, b.ly))(k) {
      CellTakes(g, b, i, k);
    }
  }

  lemma ScaledRow(t: Cell -> real, g: Grid, i: nat, o: real, oy: nat -> real, y: real)
    requires i < |g.xs| && RowValues(t, g, i, ScaledBy(o, oy)) && y == Sum(oy, |g.ys|)
    ensures Fold(t, RowCells(g, i, |g.ys|)) == o * y
  {
    RowFold(t, g, i, |g.ys|, ScaledBy(o, oy));
    SumScaledBy(o, oy, |g.ys|, y);
  }

  lemma RowTakes(g: Grid, b: Block, i: nat, o: real, y: real)
    requires i < |g.xs| && g.source && o == Shared(g.xs, b.x, b.lx)(i) && y == Covered(g.ys, b.y, b.ly, |g.ys|)
    ensures Fold(TakenFrom(b), RowCells(g, i, |g.ys|)) == o * y
  {
    RowIsScaled(g, b, i, o);
    ScaledRow(TakenFrom(b), g, i, o, Shared(g.ys, b.y, b.ly), y);
  }

  lemma RowsTake(g: Grid, b: Block, y: real)
    requires g.source && y == Covered(g.ys, b.y, b.ly, |g.ys|)
    ensures RowTotals(TakenFrom(b), g, ScaledBy(y, Shared(g.xs, b.x, b.lx)))
  {
    forall a: nat | a < |g.xs|
      ensures Fold(TakenFrom(b), RowCells(g, a, |g.ys|)) == ScaledBy(y, Shared(g.xs, b.x, b.lx))(a)
    {
      RowTakes(g, b, a, Shared(g.xs, b.x, b.lx)(a), y);
    }
  }

  lemma ScaledGrid(t: Cell -> real, g: Grid, y: real, ox: nat -> real, x: real)
    requires RowTotals(t, g, ScaledBy(y, ox)) && x == Sum(ox, |g.xs|)
    ensures Fold(t, GridCells(g, |g.xs|)) == y * x
  {
    GridFold(t, g, |g.xs|, ScaledBy(y, ox));
    SumScaledBy(y, ox, |g.xs|, x);
  }

  /** A source grid takes from a block the product of what it covers in x and in y. */
  lemma GridTakes(g: Grid, b: Block, x: real, y: real)
    requires g.source && x == Covered(g.xs, b.x, b.lx, |g.xs|) && y == Covered(g.ys, b.y, b.ly, |g.ys|)
    ensures TakenBy(GridCells(g, |g.xs|), b) == x * y
  {
    RowsTake(g, b, y);
    ScaledGrid(TakenFrom(b), g, y, Shared(g.xs, b.x, b.lx), x);
  }

  // ----- where blocks lie ----------------------------------------------------------------------------------

  /** The block lies inside some contiguous spans. */
  ghost predicate Within(spans: seq<Span>, b: real, l: real) { exists lo, hi :: Spanned(spans, lo, hi, b, l) }

  lemma WithinIsCovered(spans: seq<Span>, b: real, l: real)
    requires Within(spans, b, l) && l >= 0.0
    ensures Covered(spans, b, l, |spans|) == l
  {
    var lo, hi :| Spanned(spans, lo, hi, b, l);
    SpannedIsCovered(spans, lo, hi, b, l, |spans|);
  }

  /** The block lies inside the grid. */
  ghost predicate Inside(g: Grid, b: Block) { Within(g.xs, b.x, b.lx) && Within(g.ys, b.y, b.ly) }

  /** No cell of the grid reaches the block in x, or none does in y. */
  ghost predicate Apart(g: Grid, b: Block) {
    || (forall k | 0 <= k < |g.xs| :: Overlap(g.xs[k].start, g.xs[k].len, b.x, b.lx) == 0.0)
    || (forall k | 0 <= k < |g.ys| :: Overlap(g.ys[k].start, g.ys[k].len, b.y, b.ly) == 0.0)
  }

  lemma InsideIsWhole(g: Grid, b: Block)
    requires g.source && b.lx > 0.0 && b.ly > 0.0 && Inside(g, b)
    ensures TakenBy(GridCells(g, |g.xs|), b) == BlockArea(b)
  {
    WithinIsCovered(g.xs, b.x, b.lx);
    WithinIsCovered(g.ys, b.y, b.ly);
    GridTakes(g, b, b.lx, b.ly);
  }

  lemma ApartIsNothing(g: Grid, b: Block)
    requires g.source && Apart(g, b)
    ensures TakenBy(GridCells(g, |g.xs|), b) == 0.0
  {
    GridTakes(g, b, Covered(g.xs, b.x, b.lx, |g.xs|), Covered(g.ys, b.y, b.ly, |g.ys|));
    if forall k | 0 <= k < |g.xs| :: Overlap(g.xs[k].start, g.xs[k].len, b.x, b.lx) == 0.0 {
      SumZero(Shared(g.xs, b.x, b.lx), |g.xs|);
    } else {
      SumZero(Shared(g.ys, b.y, b.ly), |g.ys|);
    }
  }

  lemma {:induction false} RowSources(g: Grid, i: nat, j: nat)
    requires i < |g.xs| && j <= |g.ys|
    ensures forall k | 0 <= k < j :: RowCells(g, i, j)[k].source == g.source
  {
    if j > 0 { RowSources(g, i, j - 1); }
  }

  lemma {:induction false} GridSources(g: Grid, i: nat)
    requires i <= |g.xs|
    ensures forall k | 0 <= k < |GridCells(g, i)| :: GridCells(g, i)[k].source == g.source
  {
    if i > 0 {
      GridSources(g, i - 1);
      RowSources(g, i - 1, |g.ys|);
    }
  }

  /** Of the source grids, exactly the one numbered `home` holds the block. */
  ghost predicate Placed(grids: seq<Grid>, b: Block, home: nat) {
    && b.lx > 0.0 && b.ly > 0.0
    && home < |grids| && grids[home].source && Inside(grids[home], b)
    && forall k | 0 <= k < |grids| && k != home && grids[k].source :: Apart(grids[k], b)
  }

  /** Together the grids take a placed block exactly once. */
  lemma {:induction false} PlacedIsTakenOnce(grids: seq<Grid>, b: Block, home: nat, k: nat)
    requires Placed(grids, b, home) && k <= |grids|
    ensures TakenBy(AllCells(grids[..k]), b) == if home < k then BlockArea(b) else 0.0
  {
    if k > 0 {
      PlacedIsTakenOnce(grids, b, home, k - 1);
      assert grids[..k][..k - 1] == grids[..k - 1];
      var g := grids[k - 1];
      FoldConcat(TakenFrom(b), AllCells(grids[..k - 1]), GridCells(g, |g.xs|));
      if k - 1 == home { InsideIsWhole(g, b); }
      else if g.source { ApartIsNothing(g, b); }
      else { GridSources(g, |g.xs|); FoldZero(TakenFrom(b), GridCells(g, |g.xs|)); }
    }
  }

  // ----- layouts -------------------------------------------------------------------------------------------

  /** The spans run from lo to hi without gap or overlap. */
  ghost predicate Tiles(spans: seq<Span>, lo: real, hi: real) {
    Contiguous(spans, 0, |spans|) && spans[0].start == lo && End(spans[|spans| - 1]) == hi
  }

  lemma TilesHold(spans: seq<Span>, lo: real, hi: real, b: real, l: real)
    requires Tiles(spans, lo, hi) && lo <= b && b + l <= hi
    ensures Within(spans, b, l)
  {
    assert Spanned(spans, 0, |spans|, b, l);
  }

  lemma {:induction false} TilesStay(spans: seq<Span>, lo: real, hi: real, k: nat)
    requires Tiles(spans, lo, hi) && k < |spans|
    ensures lo <= spans[k].start
  {
    if k > 0 { TilesStay(spans, lo, hi, k - 1); }
  }

  lemma {:induction false} TilesEnd(spans: seq<Span>, lo: real, hi: real, k: nat)
    requires Tiles(spans, lo, hi) && k < |spans|
    ensures End(spans[k]) <= hi
    decreases |spans| - k
  {
    if k + 1 < |spans| {
      TilesEnd(spans, lo, hi, k + 1);
      assert spans[k + 1].start == End(spans[k]);
    }
  }

  lemma TilesMiss(spans: seq<Span>, lo: real, hi: real, b: real, l: real)
    requires Tiles(spans, lo, hi) && (hi <= b || b + l <= lo)
    ensures forall k | 0 <= k < |spans| :: Overlap(spans[k].start, spans[k].len, b, l) == 0.0
  {
    forall k | 0 <= k < |spans| ensures Overlap(spans[k].start, spans[k].len, b, l) == 0.0 {
      TilesStay(spans, lo, hi, k);
      TilesEnd(spans, lo, hi, k);
    }
  }

  /** A chiplet of a layer whose chiplets differ: a rectangle, its node counts, and whether it has power blocks. */
  datatype Chiplet = Chiplet(x: real, y: real, lx: real, ly: real, nx: nat, ny: nat, source: bool)

  predicate Proper(c: Chiplet) { c.lx >= 0.0 && c.ly >= 0.0 && c.nx > 0 && c.ny > 0 }

  function GridOf(c: Chiplet): Grid
    requires Proper(c)
  {
    Grid(Uniform(c.x, c.lx / c.nx as real, c.nx), Uniform(c.y, c.ly / c.ny as real, c.ny), c.source)
  }

  function GridsOf(chiplets: seq<Chiplet>): (r: seq<Grid>)
    requires forall k | 0 <= k < |chiplets| :: Proper(chiplets[k])
    ensures |r| == |chiplets| && forall k | 0 <= k < |r| :: r[k] == GridOf(chiplets[k])
  {
    seq(|chiplets|, k requires 0 <= k < |chiplets| => GridOf(chiplets[k]))
  }

  predicate Disjoint(c: Chiplet, d: Chiplet) {
    c.x + c.lx <= d.x || d.x + d.lx <= c.x || c.y + c.ly <= d.y || d.y + d.ly <= c.y
  }

  predicate Holds(c: Chiplet, b: Block) {
    c.x <= b.x && b.x + b.lx <= c.x + c.lx && c.y <= b.y && b.y + b.ly <= c.y + c.ly
  }

  lemma EvenSplitTiles(x: real, l: real, n: nat)
    requires l >= 0.0 && n > 0
    ensures Tiles(Uniform(x, l / n as real, n), x, x + l)
  {
    assert l / n as real >= 0.0;
    UniformTiles(x, l / n as real, n);
    Cancels(l, n as real);
  }

  /** On chiplets that do not overlap, a block inside its own chiplet is placed. */
  lemma BlockOnChipletIsPlaced(chiplets: seq<Chiplet>, b: Block, home: nat)
    requires forall k | 0 <= k < |chiplets| :: Proper(chiplets[k])
    requires forall j, k | 0 <= j < k < |chiplets| :: Disjoint(chiplets[j], chiplets[k])
    requires b.lx > 0.0 && b.ly > 0.0 && home < |chiplets| && chiplets[home].source && Holds(chiplets[home], b)
    ensures Placed(GridsOf(chiplets), b, home)
  {
    var grids, c := GridsOf(chiplets), chiplets[home];
    EvenSplitTiles(c.x, c.lx, c.nx);
    EvenSplitTiles(c.y, c.ly, c.ny);
    TilesHold(grids[home].xs, c.x, c.x + c.lx, b.x, b.lx);
    TilesHold(grids[home].ys, c.y, c.y + c.ly, b.y, b.ly);
    forall k | 0 <= k < |grids| && k != home ensures Apart(grids[k], b) {
      assert Disjoint(chiplets[k], c) || Disjoint(c, chiplets[k]);
      OtherChipletIsApart(chiplets[k], c, b);
    }
  }

  lemma OtherChipletIsApart(d: Chiplet, c: Chiplet, b: Block)
    requires Proper(d) && (Disjoint(d, c) || Disjoint(c, d)) && Holds(c, b)
    ensures Apart(GridOf(d), b)
  {
    EvenSplitTiles(d.x, d.lx, d.nx);
    EvenSplitTiles(d.y, d.ly, d.ny);
    if d.x + d.lx <= b.x || b.x + b.lx <= d.x { TilesMiss(GridOf(d).xs, d.x, d.x + d.lx, b.x, b.lx); }
    else { TilesMiss(GridOf(d).ys, d.y, d.y + d.ly, b.y, b.ly); }
  }

  /** Where chiplet m of a row starts: after the end of the one before it, plus the spacing. */
  function StartOf(start: real, pitch: real, m: nat): real {
    if m == 0 then start else StartOf(start, pitch, m - 1) + pitch
  }

  /** Spans of n identical chiplets in a row, `pitch` apart, each divided by `cells`. */
  function Repeated(cells: real -> seq<Span>, start: real, pitch: real, n: nat): seq<Span> {
    if n == 0 then [] else Repeated(cells, start, pitch, n - 1) + cells(StartOf(start, pitch, n - 1))
  }

  /** Spans lo..hi tile [x, y] and the others keep clear of it. */
  ghost predicate Located(spans: seq<Span>, lo: nat, hi: nat, x: real, y: real) {
    && Contiguous(spans, lo, hi) && spans[lo].start == x && End(spans[hi - 1]) == y
    && (forall k | 0 <= k < lo :: End(spans[k]) <= x)
    && (forall k | hi <= k < |spans| :: spans[k].start >= y)
  }

  ghost predicate Divides(cells: real -> seq<Span>, len: real) {
    forall x: real :: Tiles(cells(x), x, x + len)
  }

  lemma {:induction false} RepeatedEnds(cells: real -> seq<Span>, len: real, start: real, pitch: real, n: nat, x: real)
    requires Divides(cells, len) && 0.0 <= len <= pitch && n > 0 && x == StartOf(start, pitch, n - 1)
    ensures forall k | 0 <= k < |Repeated(cells, start, pitch, n)| ::
              End(Repeated(cells, start, pitch, n)[k]) <= x + len
  {
    var last := cells(x);
    assert Tiles(last, x, x + len);
    forall k | 0 <= k < |last| ensures End(last[k]) <= x + len { TilesEnd(last, x, x + len, k); }
    if n > 1 {
      RepeatedEnds(cells, len, start, pitch, n - 1, x - pitch);
    }
  }

  lemma AppendKeepsLocated(a: seq<Span>, c: seq<Span>, lo: nat, hi: nat, x: real, y: real, z: real, w: real)
    requires Located(a, lo, hi, x, y) && Tiles(c, z, w) && y <= z
    ensures Located(a + c, lo, hi, x, y)
  {
    forall k | 0 <= k < |c| ensures c[k].start >= y { TilesStay(c, z, w, k); }
  }

  lemma AppendLocates(a: seq<Span>, c: seq<Span>, z: real, w: real)
    requires Tiles(c, z, w) && forall k | 0 <= k < |a| :: End(a[k]) <= z
    ensures Located(a + c, |a|, |a| + |c|, z, w)
  {
    var s := a + c;
    assert forall k | |a| <= k < |s| :: s[k] == c[k - |a|];
  }

  /** Chiplet m of a row of identical chiplets occupies exactly its own interval. */
  lemma {:induction false} RepeatedLocates(cells: real -> seq<Span>, len: real, start: real, pitch: real, n: nat,
                                           m: nat, x: real)
    returns (lo: nat, hi: nat)
    requires Divides(cells, len) && 0.0 <= len <= pitch && m < n && x == StartOf(start, pitch, m)
    ensures Located(Repeated(cells, start, pitch, n), lo, hi, x, x + len)
  {
    var k: nat := n - 1;
    if m == k { lo, hi := LastLocates(cells, len, start, pitch, m); }
    else {
      lo, hi := RepeatedLocates(cells, len, start, pitch, k, m, x);
      PitchOrder(start, pitch, m, k - 1);
      EarlierStaysLocated(cells, len, start, pitch, k, lo, hi, x);
    }
  }

  lemma LastLocates(cells: real -> seq<Span>, len: real, start: real, pitch: real, m: nat) returns (lo: nat, hi: nat)
    requires Divides(cells, len) && 0.0 <= len <= pitch
    ensures Located(Repeated(cells, start, pitch, m + 1), lo, hi, StartOf(start, pitch, m),
                    StartOf(start, pitch, m) + len)
  {
    var z, before := StartOf(start, pitch, m), Repeated(cells, start, pitch, m);
    assert Tiles(cells(z), z, z + len);
    if m > 0 { RepeatedEnds(cells, len, start, pitch, m, z - pitch); }
    AppendLocates(before, cells(z), z, z + len);
    lo, hi := |before|, |before| + |cells(z)|;
  }

  lemma EarlierStaysLocated(cells: real -> seq<Span>, len: real, start: real, pitch: real, k: nat,
                            lo: nat, hi: nat, x: real)
    requires Divides(cells, len) && 0.0 <= len <= pitch && k > 0 && x <= StartOf(start, pitch, k - 1)
    requires Located(Repeated(cells, start, pitch, k), lo, hi, x, x + len)
    ensures Located(Repeated(cells, start, pitch, k + 1), lo, hi, x, x + len)
  {
    var z := StartOf(start, pitch, k);
    assert Tiles(cells(z), z, z + len);
    AppendKeepsLocated(Repeated(cells, start, pitch, k), cells(z), lo, hi, x, x + len, z, z + len);
  }

  lemma {:induction false} PitchOrder(start: real, pitch: real, m: nat, n: nat)
    requires m <= n && pitch >= 0.0
    ensures StartOf(start, pitch, m) <= StartOf(start, pitch, n)
  {
    if m < n { PitchOrder(start, pitch, m, n - 1); }
  }

  /** A block inside one chiplet of the row lies within the row's spans. */
  lemma RepeatedHolds(cells: real -> seq<Span>, len: real, start: real, pitch: real, n: nat, m: nat, b: real, l: real)
    requires Divides(cells, len) && 0.0 <= len <= pitch && m < n
    requires StartOf(start, pitch, m) <= b && b + l <= StartOf(start, pitch, m) + len
    ensures Within(Repeated(cells, start, pitch, n), b, l)
  {
    var lo, hi := RepeatedLocates(cells, len, start, pitch, n, m, StartOf(start, pitch, m));
    assert Spanned(Repeated(cells, start, pitch, n), lo, hi, b, l);
  }

  /** A block with a home among the grids is taken whole. */
  lemma PlacedIsTakenWhole(grids: seq<Grid>, b: Block, home: nat)
    requires Placed(grids, b, home)
    ensures TakenWhole(AllCells(grids), b)
  {
    ProductPositive(b.lx, b.ly);
    assert grids[..|grids|] == grids;
    PlacedIsTakenOnce(grids, b, home, |grids|);
  }

  /** One grid: a block within its spans in both directions is taken whole. */
  lemma WithinGridIsTakenWhole(xs: seq<Span>, ys: seq<Span>, b: Block)
    requires b.lx > 0.0 && b.ly > 0.0 && Within(xs, b.x, b.lx) && Within(ys, b.y, b.ly)
    ensures TakenWhole(AllCells([Grid(xs, ys, true)]), b)
  {
    PlacedIsTakenWhole([Grid(xs, ys, true)], b, 0);
  }

  /** A layer that is not under chiplets: a block inside a grid without gaps. */
  lemma BlockInPackageIsTaken(xs: seq<Span>, ys: seq<Span>, x0: real, x1: real, y0: real, y1: real, b: Block)
    requires Tiles(xs, x0, x1) && Tiles(ys, y0, y1) && b.lx > 0.0 && b.ly > 0.0
    requires x0 <= b.x && b.x + b.lx <= x1 && y0 <= b.y && b.y + b.ly <= y1
    ensures TakenWhole(AllCells([Grid(xs, ys, true)]), b)
  {
    TilesHold(xs, x0, x1, b.x, b.lx);
    TilesHold(ys, y0, y1, b.y, b.ly);
    WithinGridIsTakenWhole(xs, ys, b);
  }

  /** Identical chiplets in rows and columns: `cells` divides each chiplet's side of length `len`. */
  datatype Axis = Axis(cells: real -> seq<Span>, len: real, start: real, pitch: real, count: nat)

  function SpansOf(a: Axis): seq<Span> { Repeated(a.cells, a.start, a.pitch, a.count) }

  ghost predicate Regular(a: Axis) { Divides(a.cells, a.len) && 0.0 <= a.len <= a.pitch }

  /** The interval lies on chiplet m of the axis. */
  ghost predicate OnNumber(a: Axis, m: nat, b: real, l: real) {
    m < a.count && StartOf(a.start, a.pitch, m) <= b && b + l <= StartOf(a.start, a.pitch, m) + a.len
  }

  /** On identical chiplets with gaps between them, a block inside one of them is taken whole. */
  lemma BlockOnIdenticalChipletsIsTaken(x: Axis, y: Axis, b: Block, i: nat, j: nat)
    requires Regular(x) && Regular(y) && b.lx > 0.0 && b.ly > 0.0
    requires OnNumber(x, i, b.x, b.lx) && OnNumber(y, j, b.y, b.ly)
    ensures TakenWhole(AllCells([Grid(SpansOf(x), SpansOf(y), true)]), b)
  {
    RepeatedHolds(x.cells, x.len, x.start, x.pitch, x.count, i, b.x, b.lx);
    RepeatedHolds(y.cells, y.len, y.start, y.pitch, y.count, j, b.y, b.ly);
    WithinGridIsTakenWhole(SpansOf(x), SpansOf(y), b);
  }

  function ListedCells(nodes: seq<real>, len: real): real -> seq<Span>
    requires |nodes| >= 2
  {
    x => NonUniform(nodes, x, x + len)
  }

  function EqualCells(n: nat, len: real): real -> seq<Span>
    requires n > 0
  {
    x => Uniform(x, len / n as real, n)
  }

  /** Listed node positions divide every chiplet the same way. */
  lemma NonUniformDivides(nodes: seq<real>, len: real)
    requires |nodes| >= 2 && nodes[0] >= 0.0 && nodes[|nodes| - 1] <= len
    requires forall i | 0 < i < |nodes| :: nodes[i - 1] <= nodes[i]
    ensures Divides(ListedCells(nodes, len), len)
  {
    forall x: real ensures Tiles(ListedCells(nodes, len)(x), x, x + len) { NonUniformTiles(nodes, x, x + len); }
  }

  /** So does a number of equal cells. */
  lemma UniformDivides(n: nat, len: real)
    requires n > 0 && len >= 0.0
    ensures Divides(EqualCells(n, len), len)
  {
    forall x: real ensures Tiles(EqualCells(n, len)(x), x, x + len) { EvenSplitTiles(x, len, n); }
  }

  /** On chiplets that do not overlap, a block inside its own chiplet is taken whole. */
  lemma BlockOnChipletIsTaken(chiplets: seq<Chiplet>, b: Block, home: nat)
    requires forall k | 0 <= k < |chiplets| :: Proper(chiplets[k])
    requires forall j, k | 0 <= j < k < |chiplets| :: Disjoint(chiplets[j], chiplets[k])
    requires b.lx > 0.0 && b.ly > 0.0 && home < |chiplets| && chiplets[home].source && Holds(chiplets[home], b)
    ensures TakenWhole(AllCells(GridsOf(chiplets)), b)
  {
    BlockOnChipletIsPlaced(chiplets, b, home);
    PlacedIsTakenWhole(GridsOf(chiplets), b, home);
  }

  // ----- node power ----------------------------------------------------------------------------------------

  lemma TakenNeedsArea(c: Cell, b: Block)
    requires CellArea(c, b) > 0.0
    ensures BlockArea(b) > 0.0
  {
    var ox, oy := Overlap(c.x, c.xl, b.x, b.lx), Overlap(c.y, c.yl, b.y, b.ly);
    OverlapNonNegative(c.x, c.xl, b.x, b.lx);
    OverlapNonNegative(c.y, c.yl, b.y, b.ly);
    assert CellArea(c, b) == ox * oy;
    assert ox > 0.0 && oy > 0.0;
  }

  /** The part of the block's maximum power that falls on the cell. */
  function MaxShare(c: Cell, b: Block): real
    requires CellArea(c, b) > 0.0
  {
    TakenNeedsArea(c, b);
    b.maxPower * CellArea(c, b) / BlockArea(b)
  }

  /** What one block adds to one node at step s. */
  function Contribution(c: Cell, b: Block, s: nat): real
    requires s < |b.fraction|
  {
    if c.source && CellArea(c, b) > 0.0 then MaxShare(c, b) * b.fraction[s] else 0.0
  }

  ghost predicate Steps(blocks: seq<Block>, steps: nat) {
    forall k | 0 <= k < |blocks| :: |blocks[k].fraction| == steps
  }

  /** Power of a node from the first n blocks. */
  function NodePower(c: Cell, blocks: seq<Block>, n: nat, s: nat): real
    requires n <= |blocks| && forall k | 0 <= k < |blocks| :: s < |blocks[k].fraction|
  {
    if n == 0 then 0.0 else NodePower(c, blocks, n - 1, s) + Contribution(c, blocks[n - 1], s)
  }

  /** Node area left after the first n blocks. */
  function Leftover(c: Cell, blocks: seq<Block>, n: nat): real
    requires n <= |blocks|
  {
    if n == 0 then c.xl * c.yl else Leftover(c, blocks, n - 1) - Taken(c, blocks[n - 1])
  }

  const SLACK := 0.0001

  predicate Filled(c: Cell, blocks: seq<Block>) {
    !c.source || -SLACK <= Leftover(c, blocks, |blocks|) <= SLACK
  }

  predicate AllFilled(cells: seq<Cell>, blocks: seq<Block>) { forall i | 0 <= i < |cells| :: Filled(cells[i], blocks) }

  datatype Powers = Powers(rows: seq<seq<real>>) | NotFilled(node: nat)

  /** Layer.get_power. A layer of homogeneous chiplets is one grid whose nodes all count as sources. */
  method GetPower(cells: seq<Cell>, blocks: seq<Block>, steps: nat) returns (r: Powers)
    requires Steps(blocks, steps)
    ensures r.Powers? <==> AllFilled(cells, blocks)
    ensures r.Powers? ==> |r.rows| == |cells| && forall i | 0 <= i < |cells| :: |r.rows[i]| == steps
    ensures r.Powers? ==> forall i, s: nat | 0 <= i < |cells| && s < steps ::
                r.rows[i][s] == NodePower(cells[i], blocks, |blocks|, s)
    ensures r.NotFilled? ==> r.node < |cells| && !Filled(cells[r.node], blocks) &&
                             forall i | 0 <= i < r.node :: Filled(cells[i], blocks)
  {
    var power: seq<seq<real>> := [];
    for i := 0 to |cells|
      invariant |power| == i
      invariant forall k | 0 <= k < i :: |power[k]| == steps && Filled(cells[k], blocks)
      invariant forall k, s: nat | 0 <= k < i && s < steps :: power[k][s] == NodePower(cells[k], blocks, |blocks|, s)
    {
      var nodePower, left := OneNode(cells[i], blocks, steps);
      if cells[i].source && (left > SLACK || left < -SLACK) { return NotFilled(i); }
      power := power + [nodePower];
    }
    r := Powers(power);
  }

  function AddScaled(power: seq<real>, k: real, f: seq<real>): (r: seq<real>)
    requires |power| == |f|
    ensures |r| == |f| && forall s | 0 <= s < |f| :: r[s] == power[s] + k * f[s]
  {
    seq(|f|, s requires 0 <= s < |f| => power[s] + k * f[s])
  }

  /** The node's power over all steps, from the first n blocks. */
  ghost predicate PowerUpTo(power: seq<real>, c: Cell, blocks: seq<Block>, n: nat, steps: nat)
    requires n <= |blocks| && Steps(blocks, steps)
  {
    |power| == steps && forall s: nat | s < steps :: power[s] == NodePower(c, blocks, n, s)
  }

  lemma BlockAdds(power: seq<real>, c: Cell, blocks: seq<Block>, n: nat, steps: nat, most: real)
    requires n < |blocks| && Steps(blocks, steps) && PowerUpTo(power, c, blocks, n, steps)
    requires c.source && CellArea(c, blocks[n]) > 0.0 && most == MaxShare(c, blocks[n])
    ensures PowerUpTo(AddScaled(power, most, blocks[n].fraction), c, blocks, n + 1, steps)
  {
    var added := AddScaled(power, most, blocks[n].fraction);
    forall s: nat | s < steps ensures added[s] == NodePower(c, blocks, n + 1, s) {
      assert Contribution(c, blocks[n], s) == most * blocks[n].fraction[s];
    }
  }

  method OneNode(c: Cell, blocks: seq<Block>, steps: nat) returns (power: seq<real>, left: real)
    requires Steps(blocks, steps)
    ensures PowerUpTo(power, c, blocks, |blocks|, steps)
    ensures c.source ==> left == Leftover(c, blocks, |blocks|)
  {
    power, left := seq(steps, _ => 0.0), c.xl * c.yl;
    if c.source {
      for k := 0 to |blocks|
        invariant PowerUpTo(power, c, blocks, k, steps)
        invariant left == Leftover(c, blocks, k)
      {
        var b := blocks[k];
        if CellArea(c, b) > 0.0 {
          var most := MaxShare(c, b);
          left := left - CellArea(c, b);
          BlockAdds(power, c, blocks, k, steps, most);
          power := AddScaled(power, most, b.fraction);
        }
      }
    } else {
      forall s: nat | s < steps ensures NodePower(c, blocks, |blocks|, s) == 0.0 { SilentNode(c, blocks, |blocks|, s); }
    }
  }

  lemma {:induction false} SilentNode(c: Cell, blocks: seq<Block>, n: nat, s: nat)
    requires !c.source && n <= |blocks| && forall k | 0 <= k < |blocks| :: s < |blocks[k].fraction|
    ensures NodePower(c, blocks, n, s) == 0.0
  {
    if n > 0 { SilentNode(c, blocks, n - 1, s); }
  }

  // ----- conservation --------------------------------------------------------------------------------------

  /** Power of each node from the first n blocks at step s. */
  function PowerFrom(blocks: seq<Block>, s: nat): nat -> Cell -> real
    requires forall k | 0 <= k < |blocks| :: s < |blocks[k].fraction|
  {
    (n: nat) => (c: Cell) => if n <= |blocks| then NodePower(c, blocks, n, s) else 0.0
  }

  /** What block k adds to each node at step s. */
  function AddedBy(blocks: seq<Block>, s: nat): nat -> Cell -> real
    requires forall k | 0 <= k < |blocks| :: s < |blocks[k].fraction|
  {
    (k: nat) => (c: Cell) => if k < |blocks| then Contribution(c, blocks[k], s) else 0.0
  }

  function Factor(b: Block, s: nat): real
    requires s < |b.fraction|
  {
    if BlockArea(b) > 0.0 then b.maxPower * b.fraction[s] / BlockArea(b) else 0.0
  }

  lemma ContributionIsScaled(c: Cell, b: Block, s: nat)
    requires s < |b.fraction|
    ensures Contribution(c, b, s) == Factor(b, s) * Taken(c, b)
  {
    if c.source && CellArea(c, b) > 0.0 {
      TakenNeedsArea(c, b);
      Scaled(b.maxPower, CellArea(c, b), BlockArea(b), b.fraction[s]);
    }
  }

  lemma Scaled(m: real, c: real, a: real, f: real)
    requires a > 0.0
    ensures m * c / a * f == m * f / a * c
  {
  }

  function BlockWatts(b: Block, s: nat): real
    requires s < |b.fraction|
  {
    b.maxPower * b.fraction[s]
  }

  /** Watts of block k at step s. */
  function WattsOf(blocks: seq<Block>, s: nat): nat -> real
    requires forall k | 0 <= k < |blocks| :: s < |blocks[k].fraction|
  {
    (k: nat) => if k < |blocks| then BlockWatts(blocks[k], s) else 0.0
  }

  /** The cells take every block, whole and once. */
  ghost predicate Tiled(cells: seq<Cell>, blocks: seq<Block>) {
    forall k | 0 <= k < |blocks| :: TakenWhole(cells, blocks[k])
  }

  ghost predicate TakenWhole(cells: seq<Cell>, b: Block) { BlockArea(b) > 0.0 && TakenBy(cells, b) == BlockArea(b) }

  lemma FactorCancels(b: Block, s: nat)
    requires s < |b.fraction| && BlockArea(b) > 0.0
    ensures Factor(b, s) * BlockArea(b) == BlockWatts(b, s)
  {
    Cancels(b.maxPower * b.fraction[s], BlockArea(b));
  }

  lemma ContributionsAreScaled(blocks: seq<Block>, s: nat, k: nat, cells: seq<Cell>)
    requires k < |blocks| && forall k | 0 <= k < |blocks| :: s < |blocks[k].fraction|
    ensures Multiple(AddedBy(blocks, s)(k), Factor(blocks[k], s), TakenFrom(blocks[k]), cells)
  {
    forall i | 0 <= i < |cells|
      ensures AddedBy(blocks, s)(k)(cells[i]) == Factor(blocks[k], s) * TakenFrom(blocks[k])(cells[i])
    {
      ContributionIsScaled(cells[i], blocks[k], s);
    }
  }

  /** Over all nodes, a block that is taken whole contributes exactly its own power. */
  lemma TakenBlockTotal(cells: seq<Cell>, blocks: seq<Block>, s: nat, k: nat)
    requires k < |blocks| && forall k | 0 <= k < |blocks| :: s < |blocks[k].fraction|
    requires TakenWhole(cells, blocks[k])
    ensures Fold(AddedBy(blocks, s)(k), cells) == BlockWatts(blocks[k], s)
  {
    var b := blocks[k];
    ContributionsAreScaled(blocks, s, k, cells);
    FactorCancels(b, s);
    FoldScale(TakenFrom(b), Factor(b, s), AddedBy(blocks, s)(k), cells, BlockArea(b), BlockWatts(b, s));
  }

  /** And only then: a block with power that is not taken whole arrives with another power than its own. */
  lemma OnlyWholeBlocksArrive(cells: seq<Cell>, blocks: seq<Block>, s: nat, k: nat)
    requires k < |blocks| && forall k | 0 <= k < |blocks| :: s < |blocks[k].fraction|
    requires BlockArea(blocks[k]) > 0.0 && BlockWatts(blocks[k], s) != 0.0
    ensures Fold(AddedBy(blocks, s)(k), cells) == BlockWatts(blocks[k], s) <==> TakenWhole(cells, blocks[k])
  {
    BlockArrives(cells, blocks, s, k);
    FactorCancels(blocks[k], s);
    SameShare(Factor(blocks[k], s), TakenBy(cells, blocks[k]), BlockArea(blocks[k]),
              Fold(AddedBy(blocks, s)(k), cells), BlockWatts(blocks[k], s));
  }

  lemma BlockArrives(cells: seq<Cell>, blocks: seq<Block>, s: nat, k: nat)
    requires k < |blocks| && forall k | 0 <= k < |blocks| :: s < |blocks[k].fraction|
    ensures Factor(blocks[k], s) * TakenBy(cells, blocks[k]) == Fold(AddedBy(blocks, s)(k), cells)
  {
    ContributionsAreScaled(blocks, s, k, cells);
    FoldScale(TakenFrom(blocks[k]), Factor(blocks[k], s), AddedBy(blocks, s)(k), cells, TakenBy(cells, blocks[k]),
              Factor(blocks[k], s) * TakenBy(cells, blocks[k]));
  }

  lemma SameShare(f: real, x: real, y: real, fx: real, fy: real)
    requires f * x == fx && f * y == fy && fy != 0.0
    ensures fx == fy <==> x == y
  {
    if f > 0.0 {
      if fx == fy { CancelFactor(x, y, f); }
    } else if f < 0.0 {
      if fx == fy { CancelFactor(x, y, -f); }
    }
  }

  ghost predicate Builds(p: nat -> Cell -> real, q: nat -> Cell -> real, cells: seq<Cell>, n: nat) {
    forall k: nat, i: nat | k < n && i < |cells| :: p(k + 1)(cells[i]) == p(k)(cells[i]) + q(k)(cells[i])
  }

  lemma {:induction false} Telescope(p: nat -> Cell -> real, q: nat -> Cell -> real, w: nat -> real, cells: seq<Cell>,
                                     n: nat)
    requires forall i: nat | i < |cells| :: p(0)(cells[i]) == 0.0
    requires Builds(p, q, cells, n) && forall k: nat | k < n :: Fold(q(k), cells) == w(k)
    ensures Fold(p(n), cells) == Sum(w, n)
  {
    if n == 0 { FoldZero(p(0), cells); }
    else {
      Telescope(p, q, w, cells, n - 1);
      FoldAdd(p(n - 1), q(n - 1), p(n), cells);
    }
  }

  lemma PowersBuild(blocks: seq<Block>, s: nat, cells: seq<Cell>)
    requires forall k | 0 <= k < |blocks| :: s < |blocks[k].fraction|
    ensures Builds(PowerFrom(blocks, s), AddedBy(blocks, s), cells, |blocks|)
  {
  }

  /** The nodes of a layer together carry exactly the power of its blocks, at every step. */
  lemma PowerIsConserved(cells: seq<Cell>, blocks: seq<Block>, s: nat)
    requires forall k | 0 <= k < |blocks| :: s < |blocks[k].fraction|
    requires Tiled(cells, blocks)
    ensures Fold(PowerFrom(blocks, s)(|blocks|), cells) == Sum(WattsOf(blocks, s), |blocks|)
  {
    var p, q, w := PowerFrom(blocks, s), AddedBy(blocks, s), WattsOf(blocks, s);
    PowersBuild(blocks, s, cells);
    forall k: nat | k < |blocks| ensures Fold(q(k), cells) == w(k) { TakenBlockTotal(cells, blocks, s, k); }
    Telescope(p, q, w, cells, |blocks|);
  }
}
