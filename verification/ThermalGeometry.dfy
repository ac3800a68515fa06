/** Nodes of the thermal grid and the conductances between them
    (integrations/thermal_model/common.py and node_class.py). */
module ThermalGeometry {

  function Min(a: real, b: real): real { if a < b then a else b }
  function Max(a: real, b: real): real { if a < b then b else a }
  function Abs(a: real): real { if a < 0.0 then -a else a }

  // ----- common.py --------------------------------------------------------------------------------------

  /** Half-cell conductance in W/K for lengths in mm. */
  function Conductance(conductivity: real, area: real, thickness: real): real
    requires thickness != 0.0
  {
    conductivity * area * 2.0 / (thickness * 1000.0)
  }

  function ConvectionConductance(h: real, area: real): real { h * area / 1000000.0 }

  function Capacitance(specificHeat: real, volume: real, density: real): real {
    specificHeat * volume * density / 1000000000.0
  }

  /** Length common to [x1, x1 + l1] and [x2, x2 + l2]. */
  function Overlap(x1: real, l1: real, x2: real, l2: real): real { Max(0.0, Min(x1 + l1, x2 + l2) - Max(x1, x2)) }

  function OverlapArea(x1: real, y1: real, xl1: real, yl1: real, x2: real, y2: real, xl2: real, yl2: real): real {
    Overlap(x1, xl1, x2, xl2) * Overlap(y1, yl1, y2, yl2)
  }

  // ----- nodes --------------------------------------------------------------------------------------------

  datatype Material = Material(density: real, specificHeat: real, kx: real, ky: real, kz: real)

  /** A layer touches ambient from below, from above, or not at all. */
  datatype Boundary = Inner | Ambient(htc: real)

  datatype Node = Node(x: real, y: real, xl: real, yl: real, thickness: real, material: Material, boundary: Boundary)
  {
    ghost predicate Positive() {
      && xl > 0.0 && yl > 0.0 && thickness > 0.0
      && material.density > 0.0 && material.specificHeat > 0.0
      && material.kx > 0.0 && material.ky > 0.0 && material.kz > 0.0
      && (boundary.Ambient? ==> boundary.htc >= 0.0)
    }

    function AreaXY(): real { xl * yl }

    function Gx(): real requires xl != 0.0 { Conductance(material.kx, yl * thickness, xl) }
    function Gy(): real requires yl != 0.0 { Conductance(material.ky, xl * thickness, yl) }
    function Gz(): real requires thickness != 0.0 { Conductance(material.kz, xl * yl, thickness) }

    function Heat(): real { Capacitance(material.specificHeat, xl * yl * thickness, material.density) }

    /** Convection in series with the half cell above or below it. */
    function ToAmbient(): real
      requires Positive()
    {
      ConductancesPositive();
      if boundary.Inner? then 0.0
      else
        var c := ConvectionConductance(boundary.htc, xl * yl);
        c * Gz() / (c + Gz())
    }

    lemma ConductancesPositive()
      requires Positive()
      ensures Gx() > 0.0 && Gy() > 0.0 && Gz() > 0.0
      ensures AreaXY() > 0.0
      ensures boundary.Ambient? ==> ConvectionConductance(boundary.htc, xl * yl) >= 0.0
    {
      ConductanceIsPositive(material.kx, yl, thickness, xl);
      ConductanceIsPositive(material.ky, xl, thickness, yl);
      ConductanceIsPositive(material.kz, xl, yl, thickness);
    }
  }

  lemma ConductanceIsPositive(k: real, a: real, b: real, d: real)
    requires k > 0.0 && a > 0.0 && b > 0.0 && d > 0.0
    ensures a * b > 0.0 && Conductance(k, a * b, d) > 0.0
  {
    assert a * b > 0.0;
    assert k * (a * b) > 0.0;
  }

  lemma NodeConstantsArePhysical(m: Node)
    requires m.Positive()
    ensures m.ToAmbient() >= 0.0 && m.Heat() > 0.0
  {
    m.ConductancesPositive();
    assert m.xl * m.yl * m.thickness > 0.0;
    assert m.material.specificHeat * (m.xl * m.yl * m.thickness) > 0.0;
    assert m.material.specificHeat * (m.xl * m.yl * m.thickness) * m.material.density > 0.0;
    if m.boundary.Ambient? {
      var c := ConvectionConductance(m.boundary.htc, m.xl * m.yl);
      assert c * m.Gz() >= 0.0;
    }
  }

  // ----- conductance within a layer ----------------------------------------------------------------------

  /** Two half cells in series across a shared edge: ga over width wa, gb over width wb. */
  function Series(common: real, ga: real, wa: real, gb: real, wb: real): real
    requires ga * wb + gb * wa != 0.0
  {
    common * ga * gb / (ga * wb + gb * wa)
  }

  lemma SeriesLaws(common: real, ga: real, wa: real, gb: real, wb: real)
    requires common >= 0.0 && ga > 0.0 && wa > 0.0 && gb > 0.0 && wb > 0.0
    ensures ga * wb + gb * wa > 0.0
    ensures Series(common, ga, wa, gb, wb) >= 0.0
    ensures Series(common, ga, wa, gb, wb) == Series(common, gb, wb, ga, wa)
  {
    assert ga * wb > 0.0 && gb * wa > 0.0;
    assert common * ga >= 0.0;
    assert common * ga * gb >= 0.0;
    assert common * ga * gb == common * gb * ga;
  }

  const TOLERANCE: real := 0.0001

  predicate Touches(x1: real, x2: real) { Abs(x1 - x2) < TOLERANCE }

  /** Across a horizontal edge: nodes above or below each other. */
  function AcrossY(a: Node, b: Node): real
    requires a.Positive() && b.Positive()
  {
    a.ConductancesPositive();
    b.ConductancesPositive();
    SeriesLaws(0.0, a.Gy(), a.xl, b.Gy(), b.xl);
    Series(Overlap(a.x, a.xl, b.x, b.xl), a.Gy(), a.xl, b.Gy(), b.xl)
  }

  /** Across a vertical edge: nodes beside each other. */
  function AcrossX(a: Node, b: Node): real
    requires a.Positive() && b.Positive()
  {
    a.ConductancesPositive();
    b.ConductancesPositive();
    SeriesLaws(0.0, a.Gx(), a.yl, b.Gx(), b.yl);
    Series(Overlap(a.y, a.yl, b.y, b.yl), a.Gx(), a.yl, b.Gx(), b.yl)
  }

  /** Conductance between two different nodes of the same layer. */
  function Lateral(a: Node, b: Node): real
    requires a.Positive() && b.Positive()
  {
    if Touches(b.y + b.yl, a.y) then AcrossY(a, b)
    else if Touches(b.y - a.yl, a.y) then AcrossY(a, b)
    else if Touches(b.x + b.xl, a.x) then AcrossX(a, b)
    else if Touches(b.x - a.xl, a.x) then AcrossX(a, b)
    else 0.0
  }

  lemma AcrossLaws(a: Node, b: Node)
    requires a.Positive() && b.Positive()
    ensures AcrossY(a, b) == AcrossY(b, a) && AcrossY(a, b) >= 0.0
    ensures AcrossX(a, b) == AcrossX(b, a) && AcrossX(a, b) >= 0.0
  {
    a.ConductancesPositive();
    b.ConductancesPositive();
    SeriesLaws(Overlap(a.x, a.xl, b.x, b.xl), a.Gy(), a.xl, b.Gy(), b.xl);
    SeriesLaws(Overlap(a.y, a.yl, b.y, b.yl), a.Gx(), a.yl, b.Gx(), b.yl);
  }

  /** Heat conducts equally well both ways, and never backwards. */
  lemma LateralLaws(a: Node, b: Node)
    requires a.Positive() && b.Positive()
    ensures Lateral(a, b) == Lateral(b, a) && Lateral(a, b) >= 0.0
  {
    AcrossLaws(a, b);
  }

  // ----- conductance between layers -----------------------------------------------------------------------

  function SharedArea(a: Node, b: Node): real { OverlapArea(a.x, a.y, a.xl, a.yl, b.x, b.y, b.xl, b.yl) }

  function Vertical(bottom: Node, top: Node): real
    requires bottom.Positive() && top.Positive()
  {
    bottom.ConductancesPositive();
    top.ConductancesPositive();
    SeriesLaws(0.0, bottom.Gz(), bottom.AreaXY(), top.Gz(), top.AreaXY());
    if SharedArea(bottom, top) > 0.0
    then Series(SharedArea(bottom, top), bottom.Gz(), bottom.AreaXY(), top.Gz(), top.AreaXY())
    else 0.0
  }

  lemma VerticalIsNonNegative(bottom: Node, top: Node)
    requires bottom.Positive() && top.Positive()
    ensures Vertical(bottom, top) >= 0.0
  {
    bottom.ConductancesPositive();
    top.ConductancesPositive();
    if SharedArea(bottom, top) > 0.0 {
      SeriesLaws(SharedArea(bottom, top), bottom.Gz(), bottom.AreaXY(), top.Gz(), top.AreaXY());
    }
  }
}
