/** How many capacity units a layer needs on a chiplet, and when those units hold its weights
    (src/mapping/model_mapper.py). */
module LayerUnits {
  import opened Reals

  // ----- requirements --------------------------------------------------------------------------------------

  function Ceil(r: real): (c: int)
    ensures r <= c as real < r + 1.0
  {
    -((-r).Floor)
  }

  datatype LayerKind = Conv | Fc | SelfAttention | Conv1d

  /** A layer as a matrix: filter size by output channels, input by output features, or inner by output dimension. */
  datatype Layer = Layer(kind: LayerKind, rows: nat, columns: nat)

  /** The resource counter that the mapper splits. */
  function Required(l: Layer): nat { l.rows * l.columns }

  /** An in-memory-compute chiplet counts crossbars, a CMOS chiplet single weights. */
  datatype Spec =
    | Imc(rows: nat, columns: nat, bitsPerCell: nat, bitsPerWeight: nat, crossbars: nat)
    | Cmos(weights: nat)

  predicate Buildable(s: Spec) {
    s.Imc? ==> s.rows > 0 && s.columns > 0 && s.bitsPerCell > 0 && s.bitsPerWeight > 0
  }

  /** Weights held by one capacity unit. */
  function UnitMemory(s: Spec): real
    requires Buildable(s)
  {
    match s
    case Imc(rows, columns, cell, weight, _) => (rows * columns * cell) as real / weight as real
    case Cmos(_) => 1.0
  }

  /** Columns of crossbars that c columns of weights fill, before rounding up. */
  function ColumnRatio(c: nat, s: Spec): real
    requires Buildable(s) && s.Imc?
  {
    c as real * s.bitsPerWeight as real / s.bitsPerCell as real / s.columns as real
  }

  function RowRatio(r: nat, s: Spec): real
    requires Buildable(s) && s.Imc?
  {
    r as real / s.rows as real
  }

  /** Crossbars for a matrix of r rows and c columns of weights. */
  function Crossbars(r: nat, c: nat, s: Spec): int
    requires Buildable(s) && s.Imc?
  {
    Ceil(ColumnRatio(c, s)) * Ceil(RowRatio(r, s))
  }

  /** Units that the full layer takes on one chiplet. Attention counts an output-by-output matrix, and
      one-dimensional convolution has no case. */
  function Units(l: Layer, s: Spec): int
    requires Buildable(s)
  {
    match (s, l.kind)
    case (_, Conv1d) => 0
    case (Cmos(_), SelfAttention) => l.columns * l.columns
    case (Cmos(_), _) => l.rows * l.columns
    case (Imc(_, _, _, _, _), SelfAttention) => Crossbars(l.columns, l.columns, s)
    case (Imc(_, _, _, _, _), _) => Crossbars(l.rows, l.columns, s)
  }

  /** The charged units hold the whole layer. */
  ghost predicate Covers(l: Layer, s: Spec)
    requires Buildable(s)
  {
    Units(l, s) as real * UnitMemory(s) >= Required(l) as real
  }

  lemma CeilProduct(x: real, y: real, p: int, q: int)
    requires 0.0 <= x <= p as real && 0.0 <= y <= q as real
    ensures p as real * q as real >= x * y
  {
    assert p as real * q as real >= p as real * y >= x * y;
  }

  lemma CrossbarIdentity(r: real, c: real, x: real, y: real, m: real, rows: real, wide: real, weight: real)
    requires weight > 0.0 && y * rows == r && x * wide == c * weight && m * weight == rows * wide
    ensures x * y * m == r * c
  {
    assert (x * y * m) * weight == (x * y) * (m * weight);
    assert (x * y) * (rows * wide) == (y * rows) * (x * wide);
    assert (r * c) * weight == r * (c * weight);
    CancelFactor(x * y * m, r * c, weight);
  }

  lemma RatioFacts(r: nat, c: nat, s: Spec, wide: real)
    requires Buildable(s) && s.Imc? && wide == s.columns as real * s.bitsPerCell as real
    ensures ColumnRatio(c, s) * wide == c as real * s.bitsPerWeight as real && ColumnRatio(c, s) >= 0.0
    ensures RowRatio(r, s) * s.rows as real == r as real && RowRatio(r, s) >= 0.0
  {
    var n := c as real * s.bitsPerWeight as real;
    var d := n / s.bitsPerCell as real;
    assert d * s.bitsPerCell as real == n;
    assert ColumnRatio(c, s) * s.columns as real == d;
  }

  lemma RealProduct(p: int, q: int)
    ensures (p * q) as real == p as real * q as real
  {
  }

  lemma ImcUnitMemory(s: Spec)
    requires Buildable(s) && s.Imc?
    ensures UnitMemory(s) * s.bitsPerWeight as real == s.rows as real * (s.columns as real * s.bitsPerCell as real)
    ensures UnitMemory(s) > 0.0
  {
    RealProduct(s.rows, s.columns);
    RealProduct(s.rows * s.columns, s.bitsPerCell);
  }

  /** Rounding columns and rows up separately never undercounts the crossbars of a matrix. */
  lemma CrossbarsCover(r: nat, c: nat, s: Spec)
    requires Buildable(s) && s.Imc?
    ensures Crossbars(r, c, s) as real * UnitMemory(s) >= (r * c) as real
  {
    var p, q := Ceil(ColumnRatio(c, s)), Ceil(RowRatio(r, s));
    CrossbarsCoverAs(r, c, p, q, s, UnitMemory(s));
    RealProduct(p, q);
    RealProduct(r, c);
  }

  lemma CrossbarsCoverAs(r: nat, c: nat, p: int, q: int, s: Spec, m: real)
    requires Buildable(s) && s.Imc? && m == UnitMemory(s)
    requires ColumnRatio(c, s) <= p as real && RowRatio(r, s) <= q as real
    ensures p as real * q as real * m >= r as real * c as real
  {
    var x, y, wide := ColumnRatio(c, s), RowRatio(r, s), s.columns as real * s.bitsPerCell as real;
    ImcUnitMemory(s);
    RatioFacts(r, c, s, wide);
    CeilProduct(x, y, p, q);
    CrossbarIdentity(r as real, c as real, x, y, m, s.rows as real, wide, s.bitsPerWeight as real);
    ScaleUp(x * y, p as real * q as real, m);
  }

  /** Convolution and fully connected layers are charged for at least their weights on every chiplet. */
  lemma WeightedLayersAreCovered(l: Layer, s: Spec)
    requires Buildable(s) && (l.kind.Conv? || l.kind.Fc?)
    ensures Covers(l, s)
  {
    if s.Imc? { CrossbarsCover(l.rows, l.columns, s); }
  }

  /** Weights that the charge for an attention layer of c columns holds. */
  function AttentionHolds(c: nat, s: Spec): real
    requires Buildable(s)
  {
    Units(Layer(SelfAttention, 0, c), s) as real * UnitMemory(s)
  }

  /** The most rows of c columns that this is enough for. */
  function RowLimit(c: nat, s: Spec): int
    requires Buildable(s) && c > 0
  {
    (AttentionHolds(c, s) / c as real).Floor
  }

  lemma AttentionCovers(l: Layer, s: Spec, r: real, c: real)
    requires Buildable(s) && l.kind.SelfAttention? && r == l.rows as real && c == l.columns as real
    ensures Covers(l, s) <==> r * c <= AttentionHolds(l.columns, s)
  {
    RealProduct(l.rows, l.columns);
    assert Units(l, s) == Units(Layer(SelfAttention, 0, l.columns), s);
  }

  /** Attention is charged by its output dimension alone, so the charge covers the product exactly up to a number of
      inner rows that the output dimension determines. */
  lemma AttentionIsCoveredUpTo(l: Layer, s: Spec)
    requires Buildable(s) && l.kind.SelfAttention? && l.columns > 0
    ensures Covers(l, s) <==> l.rows <= RowLimit(l.columns, s)
  {
    var r, c, have := l.rows as real, l.columns as real, AttentionHolds(l.columns, s);
    AttentionCovers(l, s, r, c);
    Cancels(have, c);
    QuotientThreshold(r, have, c, have / c);
    FloorThreshold(l.rows, have / c);
  }

  /** On CMOS the limit is the output dimension itself. */
  lemma AttentionOnCmos(l: Layer, s: Spec)
    requires s.Cmos? && l.kind.SelfAttention? && l.columns > 0
    ensures RowLimit(l.columns, s) == l.columns && (Covers(l, s) <==> l.rows <= l.columns)
  {
    AttentionIsCoveredUpTo(l, s);
    CmosLimit(l.columns, s);
  }

  lemma CmosLimit(c: nat, s: Spec)
    requires s.Cmos? && c > 0
    ensures RowLimit(c, s) == c
  {
    RealProduct(c, c);
    Squares(c as real);
  }

  /** On crossbars rounding up can only raise it. */
  lemma AttentionOnCrossbars(c: nat, s: Spec)
    requires Buildable(s) && s.Imc? && c > 0
    ensures RowLimit(c, s) >= c
  {
    var l := Layer(SelfAttention, c, c);
    CrossbarsCover(c, c, s);
    AttentionIsCoveredUpTo(l, s);
  }

  /** The query-key product of a vision transformer: 768 by 197. */
  lemma AttentionCanBeUndercharged()
    ensures !Covers(Layer(SelfAttention, 768, 197), Cmos(1000000))
  {
    AttentionOnCmos(Layer(SelfAttention, 768, 197), Cmos(1000000));
  }
}
