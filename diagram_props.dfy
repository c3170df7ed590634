/** What the diagram layout guarantees: grid placement, box contents, links and edge offsets. */
module DiagramProperties {
  import opened Wrappers
  import opened Text
  import opened Simplifier
  import opened Anchors
  import opened Diagram

  // ---------------------------------------------------------------------------
  // Grid cells

  /** Table `i` sits inside the grid, and no two tables share a cell. */
  lemma CellsDistinct(n: nat, i: nat, j: nat)
    requires 0 < n && i < n && j < n
    ensures i / GridColumns(n) < GridRows(n) && i % GridColumns(n) < GridColumns(n)
    ensures i != j ==> (i / GridColumns(n), i % GridColumns(n)) != (j / GridColumns(n), j % GridColumns(n))
  {
    GridCapacity(n);
    var cols := GridColumns(n);
    if cols == 1 {
    } else if cols == 2 {
    } else {
      assert cols == 3;
    }
  }

  // ---------------------------------------------------------------------------
  // Box geometry

  lemma ScaleMonotone(a: nat, b: nat, s: real)
    requires a <= b && s >= 0.0
    ensures a as real * s <= b as real * s
  {
  }

  /**
   * Two different tables get boxes separated by at least the 20-unit gap, side
   * by side or one above the other, so boxes never overlap (for a canvas of at
   * least 60 by 60, the padding on both sides).
   */
  lemma BoxesSeparated(d: ErdDiagram, i: nat, j: nat)
    requires 0 < |d.tables| && i < |d.tables| && j < |d.tables| && i != j
    requires d.width >= 2.0 * Padding && d.height >= 2.0 * Padding
    ensures var a, b := BoxOf(d, i), BoxOf(d, j);
      || a.x + a.width + Gap <= b.x || b.x + b.width + Gap <= a.x
      || a.y + a.height + Gap <= b.y || b.y + b.height + Gap <= a.y
  {
    var n := |d.tables|;
    var cols := GridColumns(n);
    CellsDistinct(n, i, j);
    GridCapacity(n);
    var ci, cj := i % cols, j % cols;
    var ri, rj := i / cols, j / cols;
    var a, b := BoxOf(d, i), BoxOf(d, j);
    assert a == CellBox(d, ri, ci) && b == CellBox(d, rj, cj);
    if ci < cj {
      ColumnsApart(d, ci, cj);
    } else if cj < ci {
      ColumnsApart(d, cj, ci);
    } else if ri < rj {
      RowsApart(d, ri, rj);
    } else {
      assert rj < ri;
      RowsApart(d, rj, ri);
    }
  }

  /** Cells `p < q` along one axis of stride `s` are at least one stride apart. */
  lemma Spread(p: nat, q: nat, s: real)
    requires p < q && s >= 0.0
    ensures Step(p, s) + s <= Step(q, s)
  {
    ScaleMonotone(p + 1, q, s);
    assert (p + 1) as real * s == p as real * s + s;
  }

  /** The next cell is one stride further. */
  lemma StepNext(k: nat, s: real)
    ensures Step(k + 1, s) == Step(k, s) + s
  {
  }

  /** Cells lie between the first cell and the far end of the last. */
  lemma StepBounds(k: nat, count: nat, s: real)
    requires k < count && s >= 0.0
    ensures 0.0 <= Step(k, s) && Step(k, s) + s <= Step(count, s)
  {
    ScaleMonotone(0, k, s);
    Spread(k, count, s);
  }

  /** Of two columns, the left box ends at least one gap before the right box starts. */
  lemma ColumnsApart(d: ErdDiagram, ci: nat, cj: nat)
    requires 0 < |d.tables| && ci < cj && d.width >= 2.0 * Padding
    ensures CellBox(d, 0, ci).x + CellBox(d, 0, ci).width + Gap <= CellBox(d, 0, cj).x
  {
    GridCapacity(|d.tables|);
    Spread(ci, cj, ColumnStride(d.width, |d.tables|));
  }

  /** Of two rows, the lower box ends at least one gap below the upper box. */
  lemma RowsApart(d: ErdDiagram, ri: nat, rj: nat)
    requires 0 < |d.tables| && ri < rj && d.height >= 2.0 * Padding
    ensures CellBox(d, rj, 0).y + CellBox(d, rj, 0).height + Gap <= CellBox(d, ri, 0).y
  {
    var h := RowStride(d.height, |d.tables|);
    GridCapacity(|d.tables|);
    Spread(ri + 1, rj + 1, h);
    StepNext(rj, h);
  }

  /** A stride times the number of cells along an axis spans the canvas minus both paddings. */
  lemma StridesSpan(d: ErdDiagram)
    requires 0 < |d.tables|
    ensures Step(GridColumns(|d.tables|), ColumnStride(d.width, |d.tables|)) == d.width - 2.0 * Padding
    ensures Step(GridRows(|d.tables|), RowStride(d.height, |d.tables|)) == d.height - 2.0 * Padding
  {
    GridCapacity(|d.tables|);
  }

  /** The left edge of column `c`, and the right edge of its box, stay inside the paddings. */
  lemma ColumnInsideCanvas(d: ErdDiagram, c: nat)
    requires 0 < |d.tables| && c < GridColumns(|d.tables|) && d.width >= 2.0 * Padding
    ensures Padding <= CellBox(d, 0, c).x
    ensures CellBox(d, 0, c).x + CellBox(d, 0, c).width <= d.width - Padding - Gap
  {
    GridCapacity(|d.tables|);
    StridesSpan(d);
    StepBounds(c, GridColumns(|d.tables|), ColumnStride(d.width, |d.tables|));
  }

  /** The bottom edge of row `r`, and the top edge of its box, stay inside the paddings. */
  lemma RowInsideCanvas(d: ErdDiagram, r: nat)
    requires 0 < |d.tables| && r < GridRows(|d.tables|) && d.height >= 2.0 * Padding
    ensures Padding + Gap <= CellBox(d, r, 0).y
    ensures CellBox(d, r, 0).y + CellBox(d, r, 0).height <= d.height - Padding
  {
    var h := RowStride(d.height, |d.tables|);
    GridCapacity(|d.tables|);
    StridesSpan(d);
    StepBounds(r, GridRows(|d.tables|), h);
    StepNext(r, h);
  }

  /**
   * Every box lies inside the canvas: 30 units from the left and top edges and,
   * because the last gap is not removed, 50 units from the right and bottom edges.
   */
  lemma BoxInsideCanvas(d: ErdDiagram, i: nat)
    requires 0 < |d.tables| && i < |d.tables|
    requires d.width >= 2.0 * Padding && d.height >= 2.0 * Padding
    ensures var b := BoxOf(d, i);
      && Padding <= b.x && b.x + b.width <= d.width - Padding - Gap
      && Padding + Gap <= b.y && b.y + b.height <= d.height - Padding
  {
    var n := |d.tables|;
    var cols := GridColumns(n);
    CellsDistinct(n, i, i);
    var c, r := i % cols, i / cols;
    ColumnInsideCanvas(d, c);
    RowInsideCanvas(d, r);
    assert BoxOf(d, i) == CellBox(d, r, c);
  }

  // ---------------------------------------------------------------------------
  // Box contents and links

  /**
   * A box lists the names of at most the first 5 columns, in order, then the
   * names of at most the first 3 measures, in order, prefixed with `m:`.
   */
  lemma BoxListsFirstColumnsAndMeasures(t: Table, x: real, top: real)
    ensures var cs, ms := ColumnLines(t, x, top), MeasureLines(t, x, top);
      && |cs| == (if |t.columns| < MaxColumnLines then |t.columns| else MaxColumnLines)
      && |ms| == (if |t.measures| < MaxMeasureLines then |t.measures| else MaxMeasureLines)
      && (forall i :: 0 <= i < |cs| ==> cs[i].DrawText? && cs[i].text == Format(t.columns[i].name))
      && (forall i :: 0 <= i < |ms| ==> ms[i].DrawText? && ms[i].text == "m:" + Format(t.measures[i].name))
      && (forall i :: 0 <= i < |cs| + |ms| ==> (cs + ms)[i].DrawText? && (cs + ms)[i].at.y == top - 10.0 * i as real)
  {
  }

  /** The clickable regions among a list of draw commands, in order. */
  function Links(cmds: seq<DrawCmd>): seq<DrawCmd>
  {
    if |cmds| == 0 then []
    else Links(cmds[..|cmds| - 1]) + (if cmds[|cmds| - 1].LinkRect? then [cmds[|cmds| - 1]] else [])
  }

  lemma {:induction false} LinksOfConcat(a: seq<DrawCmd>, b: seq<DrawCmd>)
    ensures Links(a + b) == Links(a) + Links(b)
    decreases |b|
  {
    if |b| > 0 {
      assert (a + b)[..|a + b| - 1] == a + b[..|b| - 1];
      assert (a + b)[|a + b| - 1] == b[|b| - 1];
      LinksOfConcat(a, b[..|b| - 1]);
    } else {
      assert a + b == a;
    }
  }

  /** The clickable region over table `i`'s box, pointing at its destination. */
  function LinkFor(d: ErdDiagram, i: nat): DrawCmd
    requires 0 < |d.tables| && i < |d.tables| && Linkable(d)
  {
    BoxLink(BoxOf(d, i), d.destinations[d.tables[i].name])
  }

  lemma ColumnLinesHaveNoLinks(t: Table, x: real, top: real)
    ensures Links(ColumnLines(t, x, top)) == []
  {
    NoLinksAmongTexts(ColumnLines(t, x, top));
  }

  lemma MeasureLinesHaveNoLinks(t: Table, x: real, top: real)
    ensures Links(MeasureLines(t, x, top)) == []
  {
    NoLinksAmongTexts(MeasureLines(t, x, top));
  }

  lemma OnlyTheLastLinks(head: seq<DrawCmd>, cs: seq<DrawCmd>, ms: seq<DrawCmd>, link: DrawCmd)
    requires Links(head) == [] && Links(cs) == [] && Links(ms) == [] && link.LinkRect?
    ensures Links(head + cs + ms + [link]) == [link]
  {
    assert Links([link]) == [link] by {
      assert [link][..0] == [];
    }
    LinksOfConcat(head, cs);
    LinksOfConcat(head + cs, ms);
    LinksOfConcat(head + cs + ms, [link]);
  }

  lemma LinksOfBox(t: Table, idx: nat, b: Box, target: string)
    requires t.name.Some?
    ensures Links(BoxCommands(t, idx, b, target)) == [BoxLink(b, target)]
  {
    var x, top := b.x + 5.0, b.y + b.height - 24.0;
    var head, cs, ms := BoxHeading(t, idx, b), ColumnLines(t, x, top), MeasureLines(t, x, top);
    var whole := head + cs + ms + [BoxLink(b, target)];
    assert Links(whole) == [BoxLink(b, target)] by {
      NoLinksAmongTexts(head);
      ColumnLinesHaveNoLinks(t, x, top);
      MeasureLinesHaveNoLinks(t, x, top);
      OnlyTheLastLinks(head, cs, ms, BoxLink(b, target));
    }
  }

  lemma {:induction false} NoLinksAmongTexts(cmds: seq<DrawCmd>)
    requires forall i :: 0 <= i < |cmds| ==> !cmds[i].LinkRect?
    ensures Links(cmds) == []
    decreases |cmds|
  {
    if |cmds| > 0 {
      NoLinksAmongTexts(cmds[..|cmds| - 1]);
    }
  }

  /** Appending commands that hold one link appends that link. */
  lemma LinksAppendOne(prev: seq<DrawCmd>, more: seq<DrawCmd>, link: DrawCmd)
    requires Links(more) == [link]
    ensures Links(prev + more) == Links(prev) + [link]
  {
    LinksOfConcat(prev, more);
  }

  /** The links of the first `k` tables, in table order. */
  function LinksUpTo(d: ErdDiagram, k: nat): (r: seq<DrawCmd>)
    requires 0 < |d.tables| && k <= |d.tables| && Linkable(d)
    ensures |r| == k && forall i :: 0 <= i < k ==> r[i] == LinkFor(d, i)
  {
    if k == 0 then [] else LinksUpTo(d, k - 1) + [LinkFor(d, k - 1)]
  }

  /** Drawing box `k - 1` adds exactly its own link. */
  lemma BoxLinksStep(d: ErdDiagram, k: nat)
    requires 0 < k && Titled(d.tables, k) && Linkable(d)
    ensures Links(BoxesUpTo(d, k)) == Links(BoxesUpTo(d, k - 1)) + [LinkFor(d, k - 1)]
  {
    var t := d.tables[k - 1];
    var box := BoxCommands(t, k - 1, BoxOf(d, k - 1), d.destinations[t.name]);
    LinksOfBox(t, k - 1, BoxOf(d, k - 1), d.destinations[t.name]);
    LinksAppendOne(BoxesUpTo(d, k - 1), box, LinkFor(d, k - 1));
  }

  /** Drawing the first `k` boxes registers exactly one link per table, in table order. */
  lemma {:induction false} BoxLinksInOrder(d: ErdDiagram, k: nat)
    requires 0 < |d.tables| && Titled(d.tables, k) && Linkable(d)
    ensures Links(BoxesUpTo(d, k)) == LinksUpTo(d, k)
  {
    if k > 0 {
      assert Titled(d.tables, k - 1);
      BoxLinksInOrder(d, k - 1);
      BoxLinksStep(d, k);
    }
  }

  lemma EdgeHasNoLinks(d: ErdDiagram, i: nat)
    requires 0 < |d.tables| && i < |d.relationships| && AllNamed(d.relationships[..i + 1])
    ensures Links(EdgeFor(d, i)) == []
  {
    NoLinksAmongTexts(EdgeFor(d, i));
  }

  lemma NamedShorter(rels: seq<Relationship>, k: nat)
    requires 0 < k <= |rels| && AllNamed(rels[..k])
    ensures AllNamed(rels[..k - 1])
  {
    assert forall j :: 0 <= j < k - 1 ==> rels[..k - 1][j] == rels[..k][j];
  }

  lemma {:induction false} EdgesHaveNoLinks(d: ErdDiagram, k: nat)
    requires 0 < |d.tables| && k <= |d.relationships| && AllNamed(d.relationships[..k])
    ensures Links(EdgesUpTo(d, k)) == []
  {
    if k > 0 {
      NamedShorter(d.relationships, k);
      EdgesHaveNoLinks(d, k - 1);
      EdgeHasNoLinks(d, k - 1);
      LinksOfConcat(EdgesUpTo(d, k - 1), EdgeFor(d, k - 1));
    }
  }

  /**
   * In a successful drawing, every table gets exactly one clickable box, in
   * table order, pointing at the destination its name maps to; edges add none.
   */
  lemma DrawingLinksEveryTable(d: ErdDiagram)
    requires Linkable(d) && DrawSpec(d).Drawn?
    ensures var links := Links(DrawSpec(d).commands);
      |links| == |d.tables| && forall i :: 0 <= i < |d.tables| ==> links[i] == LinkFor(d, i)
  {
    var rels := d.relationships;
    assert rels[..|rels|] == rels;
    BoxLinksInOrder(d, |d.tables|);
    EdgesHaveNoLinks(d, |rels|);
    LinksOfConcat(BoxesUpTo(d, |d.tables|), EdgesUpTo(d, |rels|));
  }

  /**
   * `draw` fails exactly when there is no table, some table has no name, or some
   * relationship lacks an endpoint name, and in that order of precedence: the
   * grid is computed first, the boxes are drawn next, the edges last.
   */
  lemma DrawFailures(d: ErdDiagram)
    requires Linkable(d)
    ensures DrawSpec(d) == Raised(DivisionByZero) <==> |d.tables| == 0
    ensures DrawSpec(d) == Raised(UntitledBox) <==>
      |d.tables| > 0 && exists i :: 0 <= i < |d.tables| && d.tables[i].name.None?
    ensures DrawSpec(d) == Raised(UnorderableNames) <==>
      && |d.tables| > 0 && (forall i :: 0 <= i < |d.tables| ==> d.tables[i].name.Some?)
      && exists i :: 0 <= i < |d.relationships| && (d.relationships[i].fromTable.None? || d.relationships[i].toTable.None?)
    ensures DrawSpec(d).Drawn? <==>
      && |d.tables| > 0 && (forall i :: 0 <= i < |d.tables| ==> d.tables[i].name.Some?)
      && forall i :: 0 <= i < |d.relationships| ==> d.relationships[i].fromTable.Some? && d.relationships[i].toTable.Some?
  {
  }

  // ---------------------------------------------------------------------------
  // Box positions seen by the edges

  /** `table_positions` keeps the box of the last table with each name. */
  lemma {:induction false} PositionsLastWins(d: ErdDiagram, k: nat, i: nat)
    requires 0 < |d.tables| && i < k <= |d.tables|
    requires forall j :: i < j < k ==> d.tables[j].name != d.tables[i].name
    ensures d.tables[i].name in PositionsUpTo(d, k)
    ensures PositionsUpTo(d, k)[d.tables[i].name] == BoxOf(d, i)
  {
    if i < k - 1 {
      PositionsLastWins(d, k - 1, i);
    }
  }

  /** A name has a box exactly when some table carries it. */
  lemma {:induction false} PositionKeys(d: ErdDiagram, k: nat)
    requires 0 < |d.tables| && k <= |d.tables|
    ensures PositionsUpTo(d, k).Keys == Names(d.tables[..k])
  {
    if k > 0 {
      PositionKeys(d, k - 1);
      assert d.tables[..k][..k - 1] == d.tables[..k - 1];
    }
  }

  // ---------------------------------------------------------------------------
  // Relationship edges

  /** Sorting the two endpoint names makes the pair key independent of direction. */
  lemma SortedPairSymmetric(a: string, b: string)
    ensures SortedPair(a, b) == SortedPair(b, a)
  {
    if Less(b, a) {
      LessAsymmetric(b, a);
    } else if !Less(a, b) {
      LessTrichotomous(a, b);
    }
  }

  /** Two relationships join the same two tables, in either direction. */
  predicate SamePair(r: Relationship, s: Relationship)
  {
    multiset{r.fromTable, r.toTable} == multiset{s.fromTable, s.toTable}
  }

  /** The pair key identifies the unordered pair of endpoint names: A->B and B->A share a counter. */
  lemma PairKeyUnordered(r: Relationship, s: Relationship)
    requires Named(r) && Named(s)
    ensures PairKey(r) == PairKey(s) <==> SamePair(r, s)
  {
    var a, b := r.fromTable.value, r.toTable.value;
    var c, e := s.fromTable.value, s.toTable.value;
    SortedPairSymmetric(a, b);
    SortedPairSymmetric(c, e);
    if PairKey(r) == PairKey(s) {
      assert multiset{a, b} == multiset{PairKey(r).0, PairKey(r).1};
      assert multiset{c, e} == multiset{PairKey(s).0, PairKey(s).1};
      MultisetOfSome(a, b, c, e);
    }
    if SamePair(r, s) {
      assert multiset{r.fromTable, r.toTable}[Some(a)] >= 1;
      if a == c {
        assert b == e by { PairOfMultiset(Some(a), Some(b), Some(c), Some(e)); }
      } else {
        assert a == e && b == c by { PairOfMultiset(Some(a), Some(b), Some(c), Some(e)); }
      }
    }
  }

  lemma MultisetOfSome(a: string, b: string, c: string, e: string)
    requires multiset{a, b} == multiset{c, e}
    ensures multiset{Some(a), Some(b)} == multiset{Some(c), Some(e)}
  {
    PairOfMultiset(a, b, c, e);
  }

  /** Two two-element multisets are equal exactly when they hold the same elements, possibly swapped. */
  lemma PairOfMultiset<T>(a: T, b: T, c: T, e: T)
    requires multiset{a, b} == multiset{c, e}
    ensures (a == c && b == e) || (a == e && b == c)
  {
    assert a in multiset{c, e};
    if a == c {
      assert multiset{a, b} - multiset{a} == multiset{b};
      assert multiset{c, e} - multiset{c} == multiset{e};
    } else {
      assert a == e;
      assert multiset{a, b} - multiset{a} == multiset{b};
      assert multiset{c, e} - multiset{e} == multiset{c};
    }
  }

  /** How many of `rels` join the same two tables as `r`. */
  function CountOnPair(rels: seq<Relationship>, r: Relationship): nat
  {
    if |rels| == 0 then 0
    else CountOnPair(rels[..|rels| - 1], r) + (if SamePair(rels[|rels| - 1], r) then 1 else 0)
  }

  /** `rel_pairs[key]` counts the relationships seen so far on that unordered pair. */
  lemma {:induction false} CountersCountPairs(rels: seq<Relationship>, r: Relationship)
    requires AllNamed(rels) && Named(r)
    ensures var c := Counters(rels);
      (if PairKey(r) in c then c[PairKey(r)] else 0) == CountOnPair(rels, r)
  {
    if |rels| > 0 {
      var prefix := rels[..|rels| - 1];
      assert AllNamed(prefix) by { assert forall j :: 0 <= j < |prefix| ==> prefix[j] == rels[j]; }
      CountersCountPairs(prefix, r);
      PairKeyUnordered(rels[|rels| - 1], r);
    }
  }

  /**
   * The K-th relationship (counting from 0) between the same two tables, in
   * either direction, is offset by K * 20, whether or not earlier ones were drawn.
   */
  lemma OffsetCountsEarlierEdges(rels: seq<Relationship>, i: nat)
    requires i < |rels| && AllNamed(rels[..i + 1])
    ensures PairCount(rels, i) * OffsetStep == CountOnPair(rels[..i], rels[i]) * 20
  {
    assert AllNamed(rels[..i]) by { assert forall j :: 0 <= j < i ==> rels[..i][j] == rels[..i + 1][j]; }
    assert Named(rels[i]) by { assert rels[..i + 1][i] == rels[i]; }
    CountersCountPairs(rels[..i], rels[i]);
  }

  /** An edge whose endpoint names no table is skipped silently. */
  lemma EdgeSkippedWithoutBox(d: ErdDiagram, i: nat)
    requires 0 < |d.tables| && i < |d.relationships| && AllNamed(d.relationships[..i + 1])
    requires d.relationships[i].fromTable !in Names(d.tables) || d.relationships[i].toTable !in Names(d.tables)
    ensures EdgeFor(d, i) == []
  {
    PositionKeys(d, |d.tables|);
    assert d.tables[..|d.tables|] == d.tables;
  }

  /**
   * An edge between two named tables is drawn between the last box with the
   * origin name and the last box with the destination name, raised by 20 for
   * every earlier relationship between the same two tables in either direction.
   */
  lemma EdgeGeometry(d: ErdDiagram, i: nat, a: nat, b: nat)
    requires 0 < |d.tables| && i < |d.relationships| && AllNamed(d.relationships[..i + 1])
    requires a < |d.tables| && b < |d.tables|
    requires d.relationships[i].fromTable == d.tables[a].name && d.relationships[i].toTable == d.tables[b].name
    ensures EdgeFor(d, i) == EdgeCommands(BoxOf(d, LastWithSameName(d.tables, a)), BoxOf(d, LastWithSameName(d.tables, b)),
                                          (CountOnPair(d.relationships[..i], d.relationships[i]) * 20) as real)
  {
    var positions := PositionsUpTo(d, |d.tables|);
    var la, lb := LastWithSameName(d.tables, a), LastWithSameName(d.tables, b);
    var offset := (CountOnPair(d.relationships[..i], d.relationships[i]) * 20) as real;
    assert d.tables[a].name in positions && positions[d.tables[a].name] == BoxOf(d, la) by {
      PositionsLastWins(d, |d.tables|, la);
    }
    assert d.tables[b].name in positions && positions[d.tables[b].name] == BoxOf(d, lb) by {
      PositionsLastWins(d, |d.tables|, lb);
    }
    assert (PairCount(d.relationships, i) * OffsetStep) as real == offset by {
      OffsetCountsEarlierEdges(d.relationships, i);
    }
  }

  /**
   * An edge runs from the centre of its origin box to the centre of its
   * destination box, both raised by the offset: a marker at the start, a curve
   * whose two control points lie on the horizontal midpoint, and an arrowhead
   * at the end whose base is 12 units to the left of the end point and 12 units tall.
   */
  lemma EdgeShape(from: Box, to: Box, offset: real)
    ensures var start, end := Point(from.Center().x, from.Center().y + offset), Point(to.Center().x, to.Center().y + offset);
      var mid := (from.Center().x + to.Center().x) / 2.0;
      EdgeCommands(from, to, offset) == [
        FillCircle(start, MarkerRadius, MarkerColour),
        Curve(start, Point(mid, start.y), Point(mid, end.y), end),
        FillTriangle(end, Point(end.x - 12.0, end.y + 6.0), Point(end.x - 12.0, end.y - 6.0))]
  {
  }
}
