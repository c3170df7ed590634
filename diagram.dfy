/**
 * The auto-laid-out ER diagram (`ERDAutoDiagram`): a fixed grid of table boxes
 * followed by curved relationship edges, recorded as a list of draw commands
 * instead of calls on a PDF canvas.
 */
module Diagram {
  import opened Wrappers
  import opened Text
  import opened Simplifier
  import opened Anchors

  datatype Point = Point(x: real, y: real)

  /** A rectangle given by its lower-left corner and its size, as `c.rect` takes it. */
  datatype Box = Box(x: real, y: real, width: real, height: real) {
    function Center(): Point {
      Point(x + width / 2.0, y + height / 2.0)
    }
  }

  /** The two fonts the diagram selects. */
  datatype Font = HelveticaBold10 | Helvetica8

  datatype DrawCmd =
    | FillRect(box: Box, fill: string)
    | DrawText(at: Point, text: string, font: Font)
    | LinkRect(x1: real, y1: real, x2: real, y2: real, target: string)
    | FillCircle(center: Point, radius: real, fill: string)
    | Curve(start: Point, control1: Point, control2: Point, end: Point)
    | FillTriangle(tip: Point, corner1: Point, corner2: Point)

  /** The exceptions `draw` can raise. */
  datatype Failure =
    | DivisionByZero    // no tables: `min(3, 0)` columns
    | UntitledBox       // `drawString` handed a table name that is `None`
    | UnorderableNames  // `sorted` on a relationship endpoint that is `None`

  datatype Drawing = Drawn(commands: seq<DrawCmd>) | Raised(failure: Failure)

  /** The state an `ERDAutoDiagram` is constructed with. */
  datatype ErdDiagram = ErdDiagram(
    tables: seq<Table>,
    relationships: seq<Relationship>,
    destinations: Destinations,
    width: real,
    height: real)

  /** Box and table-heading background colours, cycled by table position. */
  const Palette: seq<string> := ["#D9EAD3", "#CFE2F3", "#FCE5CD", "#F4CCCC"]
  const MarkerColour := "#1155CC"
  const Padding: real := 30.0
  const Gap: real := 20.0
  const OffsetStep: nat := 20
  const ArrowSize: real := 12.0
  const MarkerRadius: real := 6.0
  const MaxColumnLines: nat := 5
  const MaxMeasureLines: nat := 3

  // ---------------------------------------------------------------------------
  // Grid

  /** `min(3, n)`. */
  function GridColumns(n: nat): nat
  {
    if n < 3 then n else 3
  }

  /** `(n + cols - 1) // cols`. */
  function GridRows(n: nat): nat
    requires n > 0
  {
    (n + GridColumns(n) - 1) / GridColumns(n)
  }

  /** The horizontal distance between neighbouring boxes: `box_w + gap`. */
  function ColumnStride(width: real, n: nat): real
    requires n > 0
  {
    (width - Padding * 2.0) / GridColumns(n) as real
  }

  /** The vertical distance between neighbouring boxes: `box_h + gap`. */
  function RowStride(height: real, n: nat): real
    requires n > 0
  {
    (height - Padding * 2.0) / GridRows(n) as real
  }

  /** `box_w`. */
  function BoxWidth(width: real, n: nat): real
    requires n > 0
  {
    ColumnStride(width, n) - Gap
  }

  /** `box_h`. */
  function BoxHeight(height: real, n: nat): real
    requires n > 0
  {
    RowStride(height, n) - Gap
  }

  /** The position of the `k`-th cell along an axis whose cells are `stride` apart. */
  function Step(k: nat, stride: real): real
  {
    k as real * stride
  }

  /** The box in grid cell (`row`, `col`): `x = padding + col * (box_w + gap)`, `y = height - padding - (row + 1) * (box_h + gap) + gap`. */
  function CellBox(d: ErdDiagram, row: nat, col: nat): Box
    requires |d.tables| > 0
  {
    var n := |d.tables|;
    Box(Padding + Step(col, ColumnStride(d.width, n)),
        d.height - Padding - Step(row + 1, RowStride(d.height, n)) + Gap,
        BoxWidth(d.width, n), BoxHeight(d.height, n))
  }

  /** The box of table `idx`: row `idx / cols`, column `idx % cols`. */
  function BoxOf(d: ErdDiagram, idx: nat): Box
    requires |d.tables| > 0
  {
    var cols := GridColumns(|d.tables|);
    CellBox(d, idx / cols, idx % cols)
  }

  /** `rows` is the ceiling of `n / cols`: the grid has room for every table and no empty row. */
  lemma GridCapacity(n: nat)
    requires n > 0
    ensures 1 <= GridColumns(n) <= 3 && GridColumns(n) == (if n < 3 then n else 3)
    ensures (GridRows(n) - 1) * GridColumns(n) < n <= GridRows(n) * GridColumns(n)
  {
    var cols := GridColumns(n);
    if cols == 1 {
    } else if cols == 2 {
    } else {
      assert GridRows(n) == (n + 2) / 3;
    }
  }

  /** Row-major placement: the `col`-th cell of row `r` holds table `r * cols + col`. */
  lemma BoxOfCell(d: ErdDiagram, r: nat, col: nat)
    requires |d.tables| > 0 && col < GridColumns(|d.tables|)
    ensures BoxOf(d, r * GridColumns(|d.tables|) + col) == CellBox(d, r, col)
  {
    var cols := GridColumns(|d.tables|);
    assert (r * cols + col) / cols == r && (r * cols + col) % cols == col;
  }

  // ---------------------------------------------------------------------------
  // Boxes

  /** The lines listed under a box's title: the first 5 column names, then the first 3 measure names. */
  function ColumnLines(t: Table, x: real, top: real): seq<DrawCmd>
  {
    var cs := Take(t.columns, MaxColumnLines);
    seq(|cs|, i requires 0 <= i < |cs| => DrawText(Point(x, top - 10.0 * i as real), Format(cs[i].name), Helvetica8))
  }

  /** Measures keep the font last selected: the column font, or the title font when no column was listed. */
  function MeasureLines(t: Table, x: real, top: real): seq<DrawCmd>
  {
    var shown := |Take(t.columns, MaxColumnLines)|;
    var ms := Take(t.measures, MaxMeasureLines);
    var font := if shown > 0 then Helvetica8 else HelveticaBold10;
    seq(|ms|, i requires 0 <= i < |ms| =>
      DrawText(Point(x, top - 10.0 * (shown + i) as real), "m:" + Format(ms[i].name), font))
  }

  /** The clickable region covering box `b`, pointing at `target`. */
  function BoxLink(b: Box, target: string): DrawCmd
  {
    LinkRect(b.x, b.y, b.x + b.width, b.y + b.height, target)
  }

  /** The filled box and its title, the table's name as it stands (no f-string formats it). */
  function BoxHeading(t: Table, idx: nat, b: Box): seq<DrawCmd>
    requires t.name.Some?
  {
    [FillRect(b, Palette[idx % |Palette|]), DrawText(Point(b.x + 5.0, b.y + b.height - 12.0), t.name.value, HelveticaBold10)]
  }

  /** Everything drawn for table `idx` in box `b`, ending with the link to its detail page. */
  function BoxCommands(t: Table, idx: nat, b: Box, target: string): seq<DrawCmd>
    requires t.name.Some?
  {
    var x := b.x + 5.0;
    var top := b.y + b.height - 24.0;
    BoxHeading(t, idx, b) + ColumnLines(t, x, top) + MeasureLines(t, x, top) + [BoxLink(b, target)]
  }

  /** Every table's name has a destination, as the index loop guarantees. */
  predicate Linkable(d: ErdDiagram)
  {
    forall i :: 0 <= i < |d.tables| ==> d.tables[i].name in d.destinations
  }

  /** The first `k` tables have a name, so their titles can be drawn. */
  predicate Titled(tables: seq<Table>, k: nat)
  {
    k <= |tables| && forall i :: 0 <= i < k ==> tables[i].name.Some?
  }

  /** The commands of the first `k` boxes. */
  function BoxesUpTo(d: ErdDiagram, k: nat): seq<DrawCmd>
    requires 0 < |d.tables| && Titled(d.tables, k) && Linkable(d)
  {
    if k == 0 then []
    else BoxesUpTo(d, k - 1) + BoxCommands(d.tables[k - 1], k - 1, BoxOf(d, k - 1), d.destinations[d.tables[k - 1].name])
  }

  /** `table_positions` after the first `k` boxes: a later box with the same name overwrites. */
  function PositionsUpTo(d: ErdDiagram, k: nat): map<Option<string>, Box>
    requires 0 < |d.tables| && k <= |d.tables|
  {
    if k == 0 then map[]
    else PositionsUpTo(d, k - 1)[d.tables[k - 1].name := BoxOf(d, k - 1)]
  }

  /**
   * Draws one box, with the two loops over the listed columns and measures;
   * the title of a table without a name raises.
   */
  method DrawBox(t: Table, idx: nat, b: Box, target: string) returns (result: Drawing)
    ensures result.Raised? <==> t.name.None?
    ensures result.Raised? ==> result.failure == UntitledBox
    ensures result.Drawn? ==> result.commands == BoxCommands(t, idx, b, target)
  {
    if t.name.None? {
      return Raised(UntitledBox);
    }
    var x := b.x + 5.0;
    var top := b.y + b.height - 24.0;
    var cmds := [FillRect(b, Palette[idx % |Palette|]), DrawText(Point(x, b.y + b.height - 12.0), t.name.value, HelveticaBold10)];
    ghost var heading := BoxHeading(t, idx, b);
    var font := HelveticaBold10;
    var yOffset := top;
    var cs := Take(t.columns, MaxColumnLines);
    for i := 0 to |cs|
      invariant yOffset == top - 10.0 * i as real
      invariant font == if i > 0 then Helvetica8 else HelveticaBold10
      invariant cmds == heading + ColumnLines(t, x, top)[..i]
    {
      font := Helvetica8;
      cmds := cmds + [DrawText(Point(x, yOffset), Format(cs[i].name), font)];
      yOffset := yOffset - 10.0;
    }
    var ms := Take(t.measures, MaxMeasureLines);
    for j := 0 to |ms|
      invariant yOffset == top - 10.0 * (|cs| + j) as real
      invariant cmds == heading + ColumnLines(t, x, top) + MeasureLines(t, x, top)[..j]
    {
      cmds := cmds + [DrawText(Point(x, yOffset), "m:" + Format(ms[j].name), font)];
      yOffset := yOffset - 10.0;
    }
    result := Drawn(cmds + [BoxLink(b, target)]);
  }

  // ---------------------------------------------------------------------------
  // Edges

  predicate Named(r: Relationship)
  {
    r.fromTable.Some? && r.toTable.Some?
  }

  predicate AllNamed(rels: seq<Relationship>)
  {
    forall i :: 0 <= i < |rels| ==> Named(rels[i])
  }

  /** `tuple(sorted([a, b]))`: the two names in ascending order. */
  function SortedPair(a: string, b: string): (string, string)
  {
    if Less(b, a) then (b, a) else (a, b)
  }

  /** The key of the per-pair counter. */
  function PairKey(r: Relationship): (string, string)
    requires Named(r)
  {
    SortedPair(r.fromTable.value, r.toTable.value)
  }

  /** `rel_pairs` after the given relationships: how many edges each pair has seen. */
  function Counters(rels: seq<Relationship>): map<(string, string), nat>
    requires AllNamed(rels)
  {
    if |rels| == 0 then map[]
    else
      var prev := Counters(rels[..|rels| - 1]);
      var key := PairKey(rels[|rels| - 1]);
      var seeded := if key in prev then prev else prev[key := 0];
      seeded[key := seeded[key] + 1]
  }

  /** The counter value relationship `i` reads, before its own increment. */
  function PairCount(rels: seq<Relationship>, i: nat): nat
    requires i < |rels| && AllNamed(rels[..i + 1])
  {
    assert AllNamed(rels[..i]) by { assert forall j :: 0 <= j < i ==> rels[..i][j] == rels[..i + 1][j]; }
    var counters := Counters(rels[..i]);
    var key := PairKey(rels[i]);
    if key in counters then counters[key] else 0
  }

  /** The two corners of the arrowhead at (`x`, `y`); only the `end` orientation is ever drawn. */
  function ArrowCorners(x: real, y: real, atEnd: bool): (Point, Point)
  {
    if atEnd then (Point(x - ArrowSize, y + ArrowSize / 2.0), Point(x - ArrowSize, y - ArrowSize / 2.0))
    else (Point(x + ArrowSize, y + ArrowSize / 2.0), Point(x + ArrowSize, y - ArrowSize / 2.0))
  }

  /** A drawn edge: marker at the origin centre, curve between the shifted centres, arrowhead at the end. */
  function EdgeCommands(from: Box, to: Box, offset: real): seq<DrawCmd>
  {
    var start := Point(from.Center().x, from.Center().y + offset);
    var end := Point(to.Center().x, to.Center().y + offset);
    var ctrlX := (start.x + end.x) / 2.0;
    var corners := ArrowCorners(end.x, end.y, true);
    [ FillCircle(start, MarkerRadius, MarkerColour),
      Curve(start, Point(ctrlX, start.y), Point(ctrlX, end.y), end),
      FillTriangle(end, corners.0, corners.1) ]
  }

  /** The commands for relationship `i`: nothing when an endpoint has no box. */
  function EdgeFor(d: ErdDiagram, i: nat): seq<DrawCmd>
    requires 0 < |d.tables| && i < |d.relationships| && AllNamed(d.relationships[..i + 1])
  {
    var positions := PositionsUpTo(d, |d.tables|);
    var r := d.relationships[i];
    var offset := (PairCount(d.relationships, i) * OffsetStep) as real;
    if r.fromTable in positions && r.toTable in positions then
      EdgeCommands(positions[r.fromTable], positions[r.toTable], offset)
    else []
  }

  /** The commands of the first `k` relationships. */
  function EdgesUpTo(d: ErdDiagram, k: nat): seq<DrawCmd>
    requires 0 < |d.tables| && k <= |d.relationships| && AllNamed(d.relationships[..k])
  {
    if k == 0 then []
    else
      assert AllNamed(d.relationships[..k - 1]) by {
        assert forall j :: 0 <= j < k - 1 ==> d.relationships[..k - 1][j] == d.relationships[..k][j];
      }
      EdgesUpTo(d, k - 1) + EdgeFor(d, k - 1)
  }

  /**
   * What `draw` puts on the canvas, or the exception it raises: with no table
   * the grid divides by zero whatever else is wrong, and a drawing comes out
   * only when every box has a title and every relationship names both tables.
   */
  function DrawSpec(d: ErdDiagram): (r: Drawing)
    requires Linkable(d)
    ensures |d.tables| == 0 ==> r == Raised(DivisionByZero)
    ensures r.Drawn? ==> Titled(d.tables, |d.tables|) && AllNamed(d.relationships)
  {
    if |d.tables| == 0 then Raised(DivisionByZero)
    else if !Titled(d.tables, |d.tables|) then Raised(UntitledBox)
    else if !AllNamed(d.relationships) then Raised(UnorderableNames)
    else
      assert d.relationships[..|d.relationships|] == d.relationships;
      Drawn(BoxesUpTo(d, |d.tables|) + EdgesUpTo(d, |d.relationships|))
  }

  // ---------------------------------------------------------------------------
  // The drawing routine

  /** Placing box `idx` extends the commands and the positions by that box. */
  lemma PlaceStep(d: ErdDiagram, idx: nat)
    requires Titled(d.tables, idx + 1) && Linkable(d)
    ensures BoxesUpTo(d, idx + 1)
      == BoxesUpTo(d, idx) + BoxCommands(d.tables[idx], idx, BoxOf(d, idx), d.destinations[d.tables[idx].name])
    ensures PositionsUpTo(d, idx + 1) == PositionsUpTo(d, idx)[d.tables[idx].name := BoxOf(d, idx)]
  {
  }

  lemma NextRowStart(r: nat, cols: nat)
    ensures (r + 1) * cols == r * cols + cols
  {
  }

  /** `cmds` and `positions` are what the first `idx` boxes produce. */
  predicate Placed(d: ErdDiagram, idx: nat, cmds: seq<DrawCmd>, positions: map<Option<string>, Box>)
  {
    0 < |d.tables| && Titled(d.tables, idx) && Linkable(d)
    && cmds == BoxesUpTo(d, idx) && positions == PositionsUpTo(d, idx)
  }

  /**
   * The inner loop of `draw`: the cells of row `r` from left to right, until the
   * tables run out or a box without a title raises (`untitled`, at table `idx`).
   */
  method PlaceRow(d: ErdDiagram, r: nat, start: nat, cmds0: seq<DrawCmd>, positions0: map<Option<string>, Box>)
    returns (idx: nat, cmds: seq<DrawCmd>, positions: map<Option<string>, Box>, untitled: bool)
    requires Placed(d, start, cmds0, positions0)
    requires start == r * GridColumns(|d.tables|) || start == |d.tables|
    ensures untitled ==> idx < |d.tables| && d.tables[idx].name.None?
    ensures !untitled ==> Placed(d, idx, cmds, positions)
    ensures !untitled ==> idx == start + GridColumns(|d.tables|) || idx == |d.tables|
  {
    var n := |d.tables|;
    var cols := GridColumns(n);
    idx, cmds, positions, untitled := start, cmds0, positions0, false;
    for col := 0 to cols
      invariant Placed(d, idx, cmds, positions)
      invariant (start == r * cols && idx == start + col) || idx == n
    {
      if idx >= n {
        break;
      }
      var table := d.tables[idx];
      var b := CellBox(d, r, col);
      assert b == BoxOf(d, idx) by {
        BoxOfCell(d, r, col);
      }
      var box := DrawBox(table, idx, b, d.destinations[table.name]);
      if box.Raised? {
        untitled := true;
        return;
      }
      PlaceStep(d, idx);
      cmds := cmds + box.commands;
      positions := positions[table.name := b];
      idx := idx + 1;
    }
  }

  /**
   * The two nested loops of `draw` that place the boxes row by row; they stop
   * at the first table without a name.
   */
  method PlaceBoxes(d: ErdDiagram) returns (placed: Option<seq<DrawCmd>>, positions: map<Option<string>, Box>)
    requires |d.tables| > 0 && Linkable(d)
    ensures placed.Some? <==> Titled(d.tables, |d.tables|)
    ensures placed.Some? ==> placed.value == BoxesUpTo(d, |d.tables|) && positions == PositionsUpTo(d, |d.tables|)
  {
    var n := |d.tables|;
    var cols := GridColumns(n);
    var rows := GridRows(n);
    GridCapacity(n);
    var cmds: seq<DrawCmd> := [];
    positions := map[];
    var idx := 0;
    var r := 0;
    while r < rows
      invariant r <= rows && Placed(d, idx, cmds, positions)
      invariant idx == r * cols || idx == n
    {
      var untitled;
      idx, cmds, positions, untitled := PlaceRow(d, r, idx, cmds, positions);
      if untitled {
        return None, positions;
      }
      NextRowStart(r, cols);
      r := r + 1;
    }
    placed := Some(cmds);
  }

  /** Relationship `i` seeds the counter of its own pair with 0 when it is new, then advances it by one. */
  lemma CountersStep(rels: seq<Relationship>, i: nat)
    requires i < |rels| && AllNamed(rels[..i]) && Named(rels[i])
    ensures AllNamed(rels[..i + 1])
    ensures var prev, key := Counters(rels[..i]), PairKey(rels[i]);
      var seeded := if key in prev then prev else prev[key := 0];
      Counters(rels[..i + 1]) == seeded[key := seeded[key] + 1] && PairCount(rels, i) == seeded[key]
  {
    assert rels[..i + 1][..i] == rels[..i];
  }

  /** `rel_pairs` and the commands after the first `i` relationships, all of them named. */
  predicate EdgesDrawn(d: ErdDiagram, i: nat, counters: map<(string, string), nat>, cmds: seq<DrawCmd>)
  {
    0 < |d.tables| && i <= |d.relationships| && AllNamed(d.relationships[..i])
    && counters == Counters(d.relationships[..i]) && cmds == EdgesUpTo(d, i)
  }

  /** One pass of the relationship loop, for a relationship whose endpoints are both named. */
  method DrawEdge(d: ErdDiagram, positions: map<Option<string>, Box>, i: nat,
                  counters0: map<(string, string), nat>, cmds0: seq<DrawCmd>)
    returns (counters: map<(string, string), nat>, cmds: seq<DrawCmd>)
    requires i < |d.relationships| && Named(d.relationships[i]) && EdgesDrawn(d, i, counters0, cmds0)
    requires positions == PositionsUpTo(d, |d.tables|)
    ensures EdgesDrawn(d, i + 1, counters, cmds)
  {
    var rel := d.relationships[i];
    CountersStep(d.relationships, i);
    counters, cmds := counters0, cmds0;
    var pair := SortedPair(rel.fromTable.value, rel.toTable.value);
    assert pair == PairKey(rel);
    if pair !in counters {
      counters := counters[pair := 0];
    }
    var count := counters[pair];
    counters := counters[pair := counters[pair] + 1];
    var offset := (count * OffsetStep) as real;
    if rel.fromTable in positions && rel.toTable in positions {
      var edge := EdgeCommands(positions[rel.fromTable], positions[rel.toTable], offset);
      cmds := cmds + edge;
    }
  }

  /** The loop of `draw` over the relationships, with its per-pair counters. */
  method DrawEdges(d: ErdDiagram, positions: map<Option<string>, Box>) returns (edges: Option<seq<DrawCmd>>)
    requires |d.tables| > 0 && positions == PositionsUpTo(d, |d.tables|)
    ensures AllNamed(d.relationships) <==> edges.Some?
    ensures edges.Some? ==> AllNamed(d.relationships[..|d.relationships|]) && edges.value == EdgesUpTo(d, |d.relationships|)
  {
    var rels := d.relationships;
    var cmds: seq<DrawCmd> := [];
    var counters: map<(string, string), nat> := map[];
    for i := 0 to |rels|
      invariant EdgesDrawn(d, i, counters, cmds)
    {
      if rels[i].fromTable.None? || rels[i].toTable.None? {
        return None;
      }
      counters, cmds := DrawEdge(d, positions, i, counters, cmds);
    }
    assert rels[..|rels|] == rels;
    edges := Some(cmds);
  }

  /** `ERDAutoDiagram.draw`: the grid of boxes, then the relationship edges. */
  method Draw(d: ErdDiagram) returns (result: Drawing)
    requires Linkable(d)
    ensures result == DrawSpec(d)
  {
    if |d.tables| == 0 {
      return Raised(DivisionByZero);
    }
    var placed, positions := PlaceBoxes(d);
    if placed.None? {
      return Raised(UntitledBox);
    }
    var edges := DrawEdges(d, positions);
    if edges.None? {
      return Raised(UnorderableNames);
    }
    result := Drawn(placed.value + edges.value);
  }
}
