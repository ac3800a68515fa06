/** From watt traces to percent rows, and back through the power grid to the thermal nodes
    (src/post/thermal_adapter.py, integrations/thermal_model/power_class.py). */
module PowerTraces {
  import opened Reals
  import opened Sums
  import opened PowerMap

  // ----- watts to percent rows -----------------------------------------------------------------------------

  datatype Trace = Trace(chiplet: string, watts: seq<real>)
  datatype Row = Row(key: string, percent: seq<real>)

  datatype Conversion =
    | Converted(rows: seq<Row>, maxima: seq<real>, idle: seq<string>)
    | EmptyTrace(chiplet: string)
    | NegativeWatts(chiplet: string)
    | UnequalLength(chiplet: string)

  function RowKey(layer: string, chiplet: string, block: string): string {
    layer + "_" + ("chiplet_" + chiplet) + "_" + block
  }

  /** Rows of different chiplets never share a key. */
  lemma RowKeyIsInjective(layer: string, block: string, c: string, d: string)
    requires RowKey(layer, c, block) == RowKey(layer, d, block)
    ensures c == d
  {
    var head, tail := layer + "_" + "chiplet_", "_" + block;
    assert RowKey(layer, c, block) == head + c + tail && RowKey(layer, d, block) == head + d + tail;
    assert |c| == |d|;
    assert c == (head + c + tail)[|head|..|head| + |c|];
    assert d == (head + d + tail)[|head|..|head| + |d|];
  }

  predicate NonNegative(w: seq<real>) { forall i | 0 <= i < |w| :: w[i] >= 0.0 }

  predicate Usable(traces: seq<Trace>) {
    && (forall i | 0 <= i < |traces| :: traces[i].watts != [] && NonNegative(traces[i].watts))
    && (forall i | 0 <= i < |traces| :: |traces[i].watts| == |traces[0].watts|)
  }

  predicate DistinctChiplets(traces: seq<Trace>) {
    forall i, k | 0 <= i < k < |traces| :: traces[i].chiplet != traces[k].chiplet
  }

  predicate IsMax(m: real, w: seq<real>) { m in w && forall i | 0 <= i < |w| :: w[i] <= m }

  method MaxOf(w: seq<real>) returns (m: real)
    requires w != []
    ensures IsMax(m, w)
  {
    m := w[0];
    for i := 1 to |w|
      invariant m in w && forall k | 0 <= k < i :: w[k] <= m
    {
      if w[i] > m { m := w[i]; }
    }
  }

  /** The row restores the trace: its percentages of the maximum are the watts, and the peak reads 100
      unless the trace is all zero. */
  ghost predicate Restores(row: Row, max: real, w: seq<real>) {
    && |row.percent| == |w|
    && (forall s | 0 <= s < |w| :: max * (row.percent[s] / 100.0) == w[s])
    && (forall s | 0 <= s < |w| :: 0.0 <= row.percent[s] <= 100.0)
    && (100.0 in row.percent <==> exists s :: 0 <= s < |w| && w[s] != 0.0)
  }

  function Percent(w: real, max: real): real {
    if max == 0.0 then 0.0 else w / max * 100.0
  }

  lemma PercentRestores(w: real, max: real)
    requires 0.0 <= w <= max
    ensures max * (Percent(w, max) / 100.0) == w && 0.0 <= Percent(w, max) <= 100.0
    ensures Percent(w, max) == 100.0 <==> w == max && max > 0.0
  {
    if max > 0.0 {
      Cancels(w, max);
      FractionOf(w, max, w / max);
    }
  }

  lemma RowRestores(w: seq<real>, max: real, row: Row)
    requires IsMax(max, w) && NonNegative(w)
    requires |row.percent| == |w| && forall s | 0 <= s < |w| :: row.percent[s] == Percent(w[s], max)
    ensures Restores(row, max, w)
  {
    forall s | 0 <= s < |w|
      ensures max * (row.percent[s] / 100.0) == w[s] && 0.0 <= row.percent[s] <= 100.0
      ensures row.percent[s] == 100.0 <==> w[s] == max && max > 0.0
    {
      PercentRestores(w[s], max);
    }
    var peak :| 0 <= peak < |w| && w[peak] == max;
    assert max > 0.0 ==> row.percent[peak] == 100.0 && w[peak] != 0.0;
  }

  /** The rows and maxima of the first n traces. */
  ghost predicate Rendered(traces: seq<Trace>, layer: string, block: string, rows: seq<Row>, maxima: seq<real>,
                           n: nat) {
    && |rows| == n == |maxima| && n <= |traces|
    && forall k | 0 <= k < n ::
         && rows[k].key == RowKey(layer, traces[k].chiplet, block)
         && IsMax(maxima[k], traces[k].watts)
         && Restores(rows[k], maxima[k], traces[k].watts)
  }

  /** Exactly the chiplets whose maximum is zero are listed. */
  ghost predicate ListsIdle(traces: seq<Trace>, maxima: seq<real>, idle: seq<string>) {
    && |maxima| <= |traces|
    && forall c :: c in idle <==> exists k :: 0 <= k < |maxima| && traces[k].chiplet == c && maxima[k] == 0.0
  }

  lemma ListNextIdle(traces: seq<Trace>, maxima: seq<real>, idle: seq<string>, max: real)
    requires |maxima| < |traces| && ListsIdle(traces, maxima, idle)
    ensures ListsIdle(traces, maxima + [max], if max == 0.0 then idle + [traces[|maxima|].chiplet] else idle)
  {
    var more, next := maxima + [max], if max == 0.0 then idle + [traces[|maxima|].chiplet] else idle;
    forall c ensures c in next <==> exists k :: 0 <= k < |more| && traces[k].chiplet == c && more[k] == 0.0 {
      if max == 0.0 && c == traces[|maxima|].chiplet { assert more[|maxima|] == 0.0; }
      if c in idle {
        var k :| 0 <= k < |maxima| && traces[k].chiplet == c && maxima[k] == 0.0;
        assert more[k] == 0.0;
      }
    }
  }

  /** The row of one trace. */
  method ConvertTrace(t: Trace, layer: string, block: string) returns (row: Row, max: real)
    requires t.watts != [] && NonNegative(t.watts)
    ensures row.key == RowKey(layer, t.chiplet, block) && IsMax(max, t.watts) && Restores(row, max, t.watts)
  {
    max := MaxOf(t.watts);
    var percent := seq(|t.watts|, s requires 0 <= s < |t.watts| => Percent(t.watts[s], max));
    row := Row(RowKey(layer, t.chiplet, block), percent);
    RowRestores(t.watts, max, row);
  }

  lemma UsableNext(traces: seq<Trace>, i: nat)
    requires i < |traces| && Usable(traces[..i]) && traces[i].watts != [] && NonNegative(traces[i].watts)
    requires i > 0 ==> |traces[i].watts| == |traces[0].watts|
    ensures Usable(traces[..i + 1])
  {
    assert forall k | 0 <= k < i :: traces[..i][k] == traces[k];
  }

  /** convert_watts_to_percent_rows, on the traces in the order of their chiplet ids. */
  method ConvertWatts(traces: seq<Trace>, layer: string, block: string) returns (r: Conversion)
    ensures r.Converted? <==> Usable(traces)
    ensures r.Converted? ==> Rendered(traces, layer, block, r.rows, r.maxima, |traces|)
    ensures r.Converted? ==> ListsIdle(traces, r.maxima, r.idle)
  {
    var rows: seq<Row>, maxima: seq<real>, idle: seq<string> := [], [], [];
    for i := 0 to |traces|
      invariant Usable(traces[..i]) && Rendered(traces, layer, block, rows, maxima, i)
      invariant ListsIdle(traces, maxima, idle)
    {
      var t := traces[i];
      if t.watts == [] { return EmptyTrace(t.chiplet); }
      if exists s | 0 <= s < |t.watts| :: t.watts[s] < 0.0 { return NegativeWatts(t.chiplet); }
      if i > 0 && |t.watts| != |traces[0].watts| { return UnequalLength(t.chiplet); }
      UsableNext(traces, i);
      var row, max := ConvertTrace(t, layer, block);
      ListNextIdle(traces, maxima, idle, max);
      rows, maxima := rows + [row], maxima + [max];
      if max == 0.0 { idle := idle + [t.chiplet]; }
    }
    assert traces[..|traces|] == traces;
    r := Converted(rows, maxima, idle);
  }

  // ----- checking the rows ---------------------------------------------------------------------------------

  datatype Check =
    | Accepted
    | EmptyFile
    | EmptyName(row: nat)
    | DuplicateName(row: nat)
    | NoSteps(row: nat)
    | UnequalSteps(row: nat)
    | MissingName(name: string)
    | ExtraName(row: nat)
    | WrongSteps

  /** Row n has a name of its own and as many steps as the first. */
  predicate ProperRow(rows: seq<Row>, n: nat)
    requires n < |rows|
  {
    && rows[n].key != "" && |rows[n].percent| > 0 && |rows[n].percent| == |rows[0].percent|
    && forall k | 0 <= k < n :: rows[k].key != rows[n].key
  }

  predicate HasRow(rows: seq<Row>, name: string) { exists i | 0 <= i < |rows| :: rows[i].key == name }

  method CheckShape(rows: seq<Row>) returns (r: Check)
    ensures r == Accepted <==> rows != [] && forall n | 0 <= n < |rows| :: ProperRow(rows, n)
  {
    if rows == [] { return EmptyFile; }
    for n := 0 to |rows|
      invariant forall k | 0 <= k < n :: ProperRow(rows, k)
    {
      ghost var proper := ProperRow(rows, n);
      if rows[n].key == "" { return EmptyName(n); }
      if exists k | 0 <= k < n :: rows[k].key == rows[n].key { return DuplicateName(n); }
      if rows[n].percent == [] { return NoSteps(n); }
      if |rows[n].percent| != |rows[0].percent| { return UnequalSteps(n); }
    }
    r := Accepted;
  }

  method CheckNames(rows: seq<Row>, names: seq<string>) returns (r: Check)
    ensures r == Accepted <==> (forall k | 0 <= k < |names| :: HasRow(rows, names[k])) &&
                               (forall n | 0 <= n < |rows| :: rows[n].key in names)
  {
    for k := 0 to |names|
      invariant forall j | 0 <= j < k :: HasRow(rows, names[j])
    {
      if !HasRow(rows, names[k]) { return MissingName(names[k]); }
    }
    for n := 0 to |rows|
      invariant forall j | 0 <= j < n :: rows[j].key in names
    {
      if rows[n].key !in names { return ExtraName(n); }
    }
    r := Accepted;
  }

  /** The check of a power file for a transient run: one row of the right length for each block, and no others. */
  ghost predicate Sequenced(rows: seq<Row>, names: seq<string>, steps: nat) {
    && rows != [] && (forall n | 0 <= n < |rows| :: ProperRow(rows, n))
    && (forall k | 0 <= k < |names| :: HasRow(rows, names[k])) && (forall n | 0 <= n < |rows| :: rows[n].key in names)
    && |rows[0].percent| == steps
  }

  method ValidateRows(rows: seq<Row>, names: seq<string>, steps: nat) returns (r: Check)
    ensures r == Accepted <==> Sequenced(rows, names, steps)
  {
    r := CheckShape(rows);
    if r != Accepted { return; }
    r := CheckNames(rows, names);
    if r == Accepted && |rows[0].percent| != steps { r := WrongSteps; }
  }

  /** The row names of the blocks, one on each chiplet. */
  function NamesOf(traces: seq<Trace>, layer: string, block: string): (r: seq<string>)
    ensures |r| == |traces| && forall k | 0 <= k < |r| :: r[k] == RowKey(layer, traces[k].chiplet, block)
  {
    seq(|traces|, k requires 0 <= k < |traces| => RowKey(layer, traces[k].chiplet, block))
  }

  /** What the adapter writes passes the check exactly when there is something to write and its length is right. */
  lemma ConvertedIsSequenced(traces: seq<Trace>, layer: string, block: string, rows: seq<Row>, maxima: seq<real>,
                             steps: nat)
    requires DistinctChiplets(traces) && Usable(traces) && Rendered(traces, layer, block, rows, maxima, |traces|)
    ensures Sequenced(rows, NamesOf(traces, layer, block), steps) <==> traces != [] && |traces[0].watts| == steps
  {
    var names := NamesOf(traces, layer, block);
    forall n | 0 <= n < |rows| ensures ProperRow(rows, n) && rows[n].key in names && HasRow(rows, names[n]) {
      assert rows[n].key == names[n];
      assert |traces[n].watts| == |traces[0].watts|;
      forall k | 0 <= k < n ensures rows[k].key != rows[n].key {
        if rows[k].key == rows[n].key { RowKeyIsInjective(layer, block, traces[k].chiplet, traces[n].chiplet); }
      }
    }
  }

  // ----- reading the rows back -----------------------------------------------------------------------------

  datatype Found = Found(fraction: seq<real>) | Missing

  /** Power_block.create_power_seq for a transient run: the first row with the block's name, as fractions. */
  method CreatePowerSeq(rows: seq<Row>, key: string) returns (r: Found)
    ensures r.Missing? <==> forall i | 0 <= i < |rows| :: rows[i].key != key
    ensures r.Found? ==> exists i ::
                && 0 <= i < |rows| && rows[i].key == key && (forall k | 0 <= k < i :: rows[k].key != key)
                && |r.fraction| == |rows[i].percent|
                && forall s | 0 <= s < |r.fraction| :: r.fraction[s] == rows[i].percent[s] / 100.0
  {
    for i := 0 to |rows|
      invariant forall k | 0 <= k < i :: rows[k].key != key
    {
      if rows[i].key == key {
        var row := rows[i];
        return Found(seq(|row.percent|, s requires 0 <= s < |row.percent| => row.percent[s] / 100.0));
      }
    }
    r := Missing;
  }

  datatype Rect = Rect(x: real, y: real, lx: real, ly: real)

  /** Watts of trace k at step s. */
  function TraceWatts(traces: seq<Trace>, s: nat): nat -> real {
    (k: nat) => if k < |traces| && s < |traces[k].watts| then traces[k].watts[s] else 0.0
  }

  /** The block that carries a trace: its maximum and its fractions multiply back to the watts. */
  ghost predicate Carries(b: Block, t: Trace, at: Rect) {
    && b.x == at.x && b.y == at.y && b.lx == at.lx && b.ly == at.ly
    && |b.fraction| == |t.watts| && forall s | 0 <= s < |t.watts| :: b.maxPower * b.fraction[s] == t.watts[s]
  }

  /** One block per chiplet: resolved maximum from the conversion, sequence from the rows. */
  method BuildBlocks(traces: seq<Trace>, rows: seq<Row>, maxima: seq<real>, layer: string, name: string, at: seq<Rect>)
    returns (blocks: seq<Block>)
    requires DistinctChiplets(traces) && |rows| == |traces| == |maxima| == |at|
    requires forall i | 0 <= i < |traces| ::
                 rows[i].key == RowKey(layer, traces[i].chiplet, name) && Restores(rows[i], maxima[i], traces[i].watts)
    ensures |blocks| == |traces| && forall i | 0 <= i < |traces| :: Carries(blocks[i], traces[i], at[i])
  {
    blocks := [];
    for i := 0 to |traces|
      invariant |blocks| == i && forall k | 0 <= k < i :: Carries(blocks[k], traces[k], at[k])
    {
      var key := RowKey(layer, traces[i].chiplet, name);
      var f := CreatePowerSeq(rows, key);
      assert rows[i].key == key;
      forall k | 0 <= k < |rows| && rows[k].key == key ensures k == i {
        RowKeyIsInjective(layer, name, traces[k].chiplet, traces[i].chiplet);
      }
      blocks := blocks + [Block(at[i].x, at[i].y, at[i].lx, at[i].ly, maxima[i], f.fraction)];
    }
  }

  /** Powers of all nodes at step s, added up. */
  function StepTotal(rows: seq<seq<real>>, s: nat): nat -> real {
    (i: nat) => if i < |rows| && s < |rows[i]| then rows[i][s] else 0.0
  }

  /** Adding up the rows is adding up over the cells. */
  lemma {:induction false} RowsAddUp(rows: seq<seq<real>>, cells: seq<Cell>, t: Cell -> real, s: nat, n: nat)
    requires n <= |rows| == |cells| && forall i: nat | i < |rows| :: s < |rows[i]| && rows[i][s] == t(cells[i])
    ensures Sum(StepTotal(rows, s), n) == Fold(t, cells[..n])
  {
    if n > 0 {
      RowsAddUp(rows, cells, t, s, n - 1);
      assert cells[..n][..n - 1] == cells[..n - 1];
    }
  }

  ghost predicate AllCarry(blocks: seq<Block>, traces: seq<Trace>, at: seq<Rect>, steps: nat) {
    && |blocks| == |traces| == |at|
    && forall i | 0 <= i < |blocks| :: Carries(blocks[i], traces[i], at[i]) && |blocks[i].fraction| == steps
  }

  lemma WattsMatch(blocks: seq<Block>, traces: seq<Trace>, at: seq<Rect>, steps: nat, s: nat)
    requires AllCarry(blocks, traces, at, steps) && s < steps
    ensures Sum(WattsOf(blocks, s), |blocks|) == Sum(TraceWatts(traces, s), |traces|)
  {
    forall k: nat | k < |blocks| ensures WattsOf(blocks, s)(k) == TraceWatts(traces, s)(k) {
      assert Carries(blocks[k], traces[k], at[k]);
    }
    SumSame(WattsOf(blocks, s), TraceWatts(traces, s), |blocks|);
  }

  datatype Outcome =
    | Delivered(power: seq<seq<real>>)
    | Rejected(why: Conversion)
    | Refused(check: Check)
    | Uncovered(node: nat)

  /** A block's place alone. */
  function Outline(at: Rect): Block { Block(at.x, at.y, at.lx, at.ly, 0.0, []) }

  function Outlines(at: seq<Rect>): (r: seq<Block>)
    ensures |r| == |at| && forall k | 0 <= k < |at| :: r[k] == Outline(at[k])
  {
    seq(|at|, k requires 0 <= k < |at| => Outline(at[k]))
  }

  /** Whether a node is covered depends on where the blocks are, not on their power. */
  lemma {:induction false} LeftoverIsGeometric(c: Cell, blocks: seq<Block>, traces: seq<Trace>, at: seq<Rect>,
                                               steps: nat, n: nat)
    requires AllCarry(blocks, traces, at, steps) && n <= |blocks|
    ensures Leftover(c, blocks, n) == Leftover(c, Outlines(at), n)
  {
    if n > 0 {
      LeftoverIsGeometric(c, blocks, traces, at, steps, n - 1);
      assert Carries(blocks[n - 1], traces[n - 1], at[n - 1]);
    }
  }

  lemma FilledIsGeometric(cells: seq<Cell>, blocks: seq<Block>, traces: seq<Trace>, at: seq<Rect>, steps: nat)
    requires AllCarry(blocks, traces, at, steps)
    ensures AllFilled(cells, blocks) == AllFilled(cells, Outlines(at))
  {
    forall i | 0 <= i < |cells| ensures Filled(cells[i], blocks) == Filled(cells[i], Outlines(at)) {
      LeftoverIsGeometric(cells[i], blocks, traces, at, steps, |blocks|);
    }
  }

  /** So does whether the cells take the blocks whole. */
  lemma TilingIsGeometric(cells: seq<Cell>, blocks: seq<Block>, traces: seq<Trace>, at: seq<Rect>, steps: nat)
    requires AllCarry(blocks, traces, at, steps) && Tiled(cells, Outlines(at))
    ensures Tiled(cells, blocks)
  {
    forall k | 0 <= k < |blocks| ensures TakenWhole(cells, blocks[k]) {
      assert Carries(blocks[k], traces[k], at[k]);
      SameWhole(cells, Outlines(at)[k], blocks[k]);
    }
  }

  lemma SameWhole(cells: seq<Cell>, b: Block, c: Block)
    requires b.x == c.x && b.y == c.y && b.lx == c.lx && b.ly == c.ly && TakenWhole(cells, b)
    ensures TakenWhole(cells, c)
  {
    TakenIsGeometric(cells, b, c);
    assert BlockArea(b) == BlockArea(c);
  }

  lemma {:induction false} TakenIsGeometric(cells: seq<Cell>, b: Block, c: Block)
    requires b.x == c.x && b.y == c.y && b.lx == c.lx && b.ly == c.ly
    ensures Fold(TakenFrom(b), cells) == Fold(TakenFrom(c), cells)
  {
    if cells != [] { TakenIsGeometric(cells[..|cells| - 1], b, c); }
  }

  lemma PowersAddUp(cells: seq<Cell>, at: seq<Rect>, blocks: seq<Block>, traces: seq<Trace>,
                    steps: nat, power: seq<seq<real>>, s: nat)
    requires Tiled(cells, Outlines(at)) && AllCarry(blocks, traces, at, steps) && s < steps && |power| == |cells|
    requires forall i: nat | i < |power| ::
               |power[i]| == steps && power[i][s] == NodePower(cells[i], blocks, |blocks|, s)
    ensures Sum(StepTotal(power, s), |power|) == Sum(TraceWatts(traces, s), |traces|)
  {
    var t := PowerFrom(blocks, s)(|blocks|);
    forall i: nat | i < |power| ensures s < |power[i]| && power[i][s] == t(cells[i]) { }
    RowsAddUp(power, cells, t, s, |power|);
    assert cells[..|power|] == cells;
    TilingIsGeometric(cells, blocks, traces, at, steps);
    PowerIsConserved(cells, blocks, s);
    WattsMatch(blocks, traces, at, steps, s);
  }

  /** At every step of the traces, the node powers add up to the watts of the traces. */
  ghost predicate WattsArrive(power: seq<seq<real>>, traces: seq<Trace>) {
    forall s: nat | traces != [] && s < |traces[0].watts| ::
      Sum(StepTotal(power, s), |power|) == Sum(TraceWatts(traces, s), |traces|)
  }

  /** From watt traces to node powers, on any nodes, for a run of the given number of steps. When the nodes tile the
      blocks, whatever is delivered adds up, at every step, to the watts of the traces, idle chiplets included. */
  method DeliverPower(traces: seq<Trace>, layer: string, name: string, at: seq<Rect>, cells: seq<Cell>, steps: nat)
    returns (r: Outcome)
    requires DistinctChiplets(traces) && |at| == |traces|
    ensures r.Rejected? <==> !Usable(traces)
    ensures r.Refused? <==> Usable(traces) && !(traces != [] && |traces[0].watts| == steps)
    ensures r.Delivered? <==>
              Usable(traces) && traces != [] && |traces[0].watts| == steps && AllFilled(cells, Outlines(at))
    ensures r.Delivered? ==> |r.power| == |cells| && (Tiled(cells, Outlines(at)) ==> WattsArrive(r.power, traces))
  {
    var c := ConvertWatts(traces, layer, name);
    if !c.Converted? { return Rejected(c); }
    ConvertedIsSequenced(traces, layer, name, c.rows, c.maxima, steps);
    var check := ValidateRows(c.rows, NamesOf(traces, layer, name), steps);
    if check != Accepted { return Refused(check); }
    var blocks := BuildBlocks(traces, c.rows, c.maxima, layer, name, at);
    assert AllCarry(blocks, traces, at, steps);
    var p := GetPower(cells, blocks, steps);
    FilledIsGeometric(cells, blocks, traces, at, steps);
    match p
    case NotFilled(node) => r := Uncovered(node);
    case Powers(power) =>
      if Tiled(cells, Outlines(at)) {
        forall s: nat | traces != [] && s < |traces[0].watts|
          ensures Sum(StepTotal(power, s), |power|) == Sum(TraceWatts(traces, s), |traces|)
        {
          PowersAddUp(cells, at, blocks, traces, steps, power, s);
        }
      }
      r := Delivered(power);
  }

  // ----- the layouts of the program ------------------------------------------------------------------------

  /** Rectangle k lies on its own source chiplet, and chiplets do not overlap. */
  ghost predicate OnChiplets(chiplets: seq<Chiplet>, at: seq<Rect>, homes: seq<nat>) {
    && (forall k | 0 <= k < |chiplets| :: Proper(chiplets[k]))
    && (forall j, k | 0 <= j < k < |chiplets| :: Disjoint(chiplets[j], chiplets[k]))
    && |homes| == |at|
    && forall k | 0 <= k < |at| ::
         && at[k].lx > 0.0 && at[k].ly > 0.0 && homes[k] < |chiplets| && chiplets[homes[k]].source
         && Holds(chiplets[homes[k]], Outline(at[k]))
  }

  /** Layers whose chiplets differ: watts arrive when every block lies on its chiplet. */
  lemma ChipletsTile(chiplets: seq<Chiplet>, at: seq<Rect>, homes: seq<nat>)
    requires OnChiplets(chiplets, at, homes)
    ensures Tiled(AllCells(GridsOf(chiplets)), Outlines(at))
  {
    forall k | 0 <= k < |at| ensures TakenWhole(AllCells(GridsOf(chiplets)), Outlines(at)[k]) {
      BlockOnChipletIsTaken(chiplets, Outlines(at)[k], homes[k]);
    }
  }

  /** Rectangle k lies on chiplet (i, j) of a regular arrangement, where (i, j) = homes[k]. */
  ghost predicate OnRegular(x: Axis, y: Axis, at: seq<Rect>, homes: seq<(nat, nat)>) {
    && Regular(x) && Regular(y) && |homes| == |at|
    && forall k | 0 <= k < |at| ::
         && at[k].lx > 0.0 && at[k].ly > 0.0
         && OnNumber(x, homes[k].0, at[k].x, at[k].lx) && OnNumber(y, homes[k].1, at[k].y, at[k].ly)
  }

  /** Layers of identical chiplets: the same, for uniform and listed node positions. */
  lemma IdenticalChipletsTile(x: Axis, y: Axis, at: seq<Rect>, homes: seq<(nat, nat)>)
    requires OnRegular(x, y, at, homes)
    ensures Tiled(AllCells([Grid(SpansOf(x), SpansOf(y), true)]), Outlines(at))
  {
    forall k | 0 <= k < |at| ensures TakenWhole(AllCells([Grid(SpansOf(x), SpansOf(y), true)]), Outlines(at)[k]) {
      BlockOnIdenticalChipletsIsTaken(x, y, Outlines(at)[k], homes[k].0, homes[k].1);
    }
  }
}
