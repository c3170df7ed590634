/** What the assembled document guarantees: the relationship filter, the section layout and the internal links. */
module DocumentProperties {
  import opened Wrappers
  import opened Text
  import opened Simplifier
  import opened Anchors
  import opened Diagram
  import opened DiagramProperties
  import opened Document

  // ---------------------------------------------------------------------------
  // The relationship filter

  /** The filter keeps the order of the list: filtering a concatenation concatenates the results. */
  lemma {:induction false} RelatedConcat(a: seq<Relationship>, b: seq<Relationship>, name: Option<string>)
    ensures Related(a + b, name) == Related(a, name) + Related(b, name)
    decreases |b|
  {
    if |b| == 0 {
      assert a + b == a;
    } else {
      assert (a + b)[..|a + b| - 1] == a + b[..|b| - 1];
      assert (a + b)[|a + b| - 1] == b[|b| - 1];
      RelatedConcat(a, b[..|b| - 1], name);
    }
  }

  /**
   * A relationship is listed under a table exactly as often as it occurs in
   * the model when it starts or ends at that table, and never otherwise; a
   * relationship from a table to itself is therefore listed once, not twice.
   */
  lemma {:induction false} RelatedCounts(rels: seq<Relationship>, name: Option<string>, r: Relationship)
    ensures multiset(Related(rels, name))[r] ==
      if r.fromTable == name || r.toTable == name then multiset(rels)[r] else 0
  {
    if |rels| > 0 {
      var prefix, last := rels[..|rels| - 1], rels[|rels| - 1];
      RelatedCounts(prefix, name, r);
      assert rels == prefix + [last];
    }
  }

  /** The relationships listed under a table are those of the model that mention it. */
  lemma RelatedMembers(rels: seq<Relationship>, name: Option<string>, r: Relationship)
    ensures r in Related(rels, name) <==> r in rels && (r.fromTable == name || r.toTable == name)
  {
    RelatedCounts(rels, name, r);
  }

  /**
   * A table's relationship section shows the "Nenhum relacionamento." notice
   * exactly when no relationship starts or ends at it, and the grid of its
   * relationships otherwise.
   */
  lemma NoticeIffUnrelated(t: Table, rels: seq<Relationship>)
    ensures var sec := RelationSection(t, rels);
      && |sec| == 3 && sec[0] == RelationsHeading(RelationsOfPrefix + Format(t.name))
      && (sec[1] == Body(NoRelationsNotice) <==>
            forall i :: 0 <= i < |rels| ==> rels[i].fromTable != t.name && rels[i].toTable != t.name)
      && (sec[1].RelationGrid? <==> exists i :: 0 <= i < |rels| && (rels[i].fromTable == t.name || rels[i].toTable == t.name))
      && (sec[1].RelationGrid? ==> sec[1].relationships == Related(rels, t.name))
  {
    var related := Related(rels, t.name);
    if |related| == 0 {
      forall i | 0 <= i < |rels|
        ensures rels[i].fromTable != t.name && rels[i].toTable != t.name
      {
        RelatedMembers(rels, t.name, rels[i]);
      }
    } else {
      RelatedMembers(rels, t.name, related[0]);
    }
  }

  // ---------------------------------------------------------------------------
  // Gathering blocks of one kind

  /** The targets of the index entries among `blocks`, in order. */
  function Targets(blocks: seq<Block>): seq<string>
  {
    if |blocks| == 0 then []
    else Targets(blocks[..|blocks| - 1]) + (if blocks[|blocks| - 1].IndexEntry? then [blocks[|blocks| - 1].target] else [])
  }

  /** The anchors the table headings among `blocks` place, in order. */
  function PlacedAnchors(blocks: seq<Block>): seq<string>
  {
    if |blocks| == 0 then []
    else PlacedAnchors(blocks[..|blocks| - 1]) + (if blocks[|blocks| - 1].TableHeading? then [blocks[|blocks| - 1].anchor] else [])
  }

  /** The number of page breaks among `blocks`. */
  function PageBreaks(blocks: seq<Block>): nat
  {
    if |blocks| == 0 then 0
    else PageBreaks(blocks[..|blocks| - 1]) + (if blocks[|blocks| - 1].PageBreak? then 1 else 0)
  }

  /** The diagrams embedded among `blocks`, in order. */
  function Figures(blocks: seq<Block>): seq<ErdDiagram>
  {
    if |blocks| == 0 then []
    else Figures(blocks[..|blocks| - 1]) + (if blocks[|blocks| - 1].DiagramFigure? then [blocks[|blocks| - 1].diagram] else [])
  }

  /** The four gatherings as one value, to state that they distribute over concatenation at once. */
  datatype Gathered = Gathered(targets: seq<string>, anchors: seq<string>, breaks: nat, figures: seq<ErdDiagram>)
  {
    function Plus(other: Gathered): Gathered
    {
      Gathered(targets + other.targets, anchors + other.anchors, breaks + other.breaks, figures + other.figures)
    }
  }

  function Gather(blocks: seq<Block>): Gathered
  {
    Gathered(Targets(blocks), PlacedAnchors(blocks), PageBreaks(blocks), Figures(blocks))
  }

  const Nothing := Gathered([], [], 0, [])

  lemma {:induction false} GatherConcat(a: seq<Block>, b: seq<Block>)
    ensures Gather(a + b) == Gather(a).Plus(Gather(b))
    decreases |b|
  {
    if |b| == 0 {
      assert a + b == a;
    } else {
      assert (a + b)[..|a + b| - 1] == a + b[..|b| - 1];
      assert (a + b)[|a + b| - 1] == b[|b| - 1];
      GatherConcat(a, b[..|b| - 1]);
    }
  }

  lemma GatherOne(b: Block)
    ensures Gather([b]) == Gathered(
      if b.IndexEntry? then [b.target] else [],
      if b.TableHeading? then [b.anchor] else [],
      if b.PageBreak? then 1 else 0,
      if b.DiagramFigure? then [b.diagram] else [])
  {
    var one := [b];
    assert one[..|one| - 1] == [] && one[|one| - 1] == b;
    assert Targets(one) == Targets([]) + (if b.IndexEntry? then [b.target] else []);
    assert PlacedAnchors(one) == PlacedAnchors([]) + (if b.TableHeading? then [b.anchor] else []);
    assert PageBreaks(one) == PageBreaks([]) + (if b.PageBreak? then 1 else 0);
    assert Figures(one) == Figures([]) + (if b.DiagramFigure? then [b.diagram] else []);
  }

  /** A block that links nowhere, places no anchor, breaks no page and embeds no diagram. */
  predicate Inert(b: Block)
  {
    !b.IndexEntry? && !b.TableHeading? && !b.PageBreak? && !b.DiagramFigure?
  }

  lemma {:induction false} InertGathersNothing(blocks: seq<Block>)
    requires forall i :: 0 <= i < |blocks| ==> Inert(blocks[i])
    ensures Gather(blocks) == Nothing
  {
    if |blocks| > 0 {
      InertGathersNothing(blocks[..|blocks| - 1]);
    }
  }

  lemma {:induction false} MeasuresInert(ms: seq<Measure>, k: nat)
    requires k <= |ms|
    ensures forall i :: 0 <= i < |MeasuresUpTo(ms, k)| ==> Inert(MeasuresUpTo(ms, k)[i])
  {
    if k > 0 {
      MeasuresInert(ms, k - 1);
    }
  }

  lemma {:induction false} RelationSectionsInert(tables: seq<Table>, rels: seq<Relationship>, k: nat)
    requires k <= |tables|
    ensures forall i :: 0 <= i < |RelationSections(tables, rels, k)| ==> Inert(RelationSections(tables, rels, k)[i])
  {
    if k > 0 {
      RelationSectionsInert(tables, rels, k - 1);
    }
  }

  // ---------------------------------------------------------------------------
  // Detail sections

  /** The blocks between a table's heading and its page break. */
  function SectionMiddle(t: Table, idx: nat): seq<Block>
  {
    var colour := Palette[idx % |Palette|];
    (if t.description != "" then [Body(DescriptionPrefix + t.description), Spacer(8)] else [])
    + (if t.source != "" then [SourceNote(t.source), Spacer(8)] else [])
    + [ColumnGrid(colour, t.columns), Spacer(12)]
    + MeasuresUpTo(t.measures, |t.measures|)
  }

  lemma SectionMiddleInert(t: Table, idx: nat)
    ensures forall i :: 0 <= i < |SectionMiddle(t, idx)| ==> Inert(SectionMiddle(t, idx)[i])
  {
    MeasuresInert(t.measures, |t.measures|);
  }

  lemma SectionSplit(t: Table, idx: nat, anchor: string)
    ensures TableSection(t, idx, anchor)
      == [TableHeading(anchor, TablePrefix + Format(t.name), Palette[idx % |Palette|])] + SectionMiddle(t, idx) + [PageBreak]
  {
  }

  lemma SectionGatherParts(head: Block, mid: seq<Block>, sec: seq<Block>)
    requires head.TableHeading? && Gather(mid) == Nothing && sec == [head] + mid + [PageBreak]
    ensures Gather(sec) == Gathered([], [head.anchor], 1, [])
  {
    GatherConcat([head], mid);
    GatherConcat([head] + mid, [PageBreak]);
    GatherOne(head);
    GatherOne(PageBreak);
  }

  /**
   * A detail section places exactly its own anchor, links nowhere, embeds no
   * diagram and holds exactly one page break, its last block.
   */
  lemma TableSectionGather(t: Table, idx: nat, anchor: string)
    ensures var sec := TableSection(t, idx, anchor);
      sec[|sec| - 1] == PageBreak && Gather(sec) == Gathered([], [anchor], 1, [])
  {
    var head := TableHeading(anchor, TablePrefix + Format(t.name), Palette[idx % |Palette|]);
    var mid := SectionMiddle(t, idx);
    assert Gather(mid) == Nothing by {
      SectionMiddleInert(t, idx);
      InertGathersNothing(mid);
    }
    SectionSplit(t, idx, anchor);
    SectionGatherParts(head, mid, TableSection(t, idx, anchor));
  }

  /**
   * A detail section opens with the heading that places its anchor in the
   * table's palette colour, and shows the description right after it exactly
   * when the description is non-empty.
   */
  lemma TableSectionOpening(t: Table, idx: nat, anchor: string)
    ensures var sec := TableSection(t, idx, anchor);
      && sec[0] == TableHeading(anchor, TablePrefix + Format(t.name), Palette[idx % |Palette|])
      && (sec[1] == Body(DescriptionPrefix + t.description) <==> t.description != "")
  {
    SectionSplit(t, idx, anchor);
  }

  lemma {:induction false} MeasuresNoSourceNote(ms: seq<Measure>, k: nat)
    requires k <= |ms|
    ensures forall i :: 0 <= i < |MeasuresUpTo(ms, k)| ==> !MeasuresUpTo(ms, k)[i].SourceNote?
  {
    if k > 0 {
      MeasuresNoSourceNote(ms, k - 1);
    }
  }

  /** The source note appears exactly when the source label is non-empty; the column grid always appears. */
  lemma TableSectionSource(t: Table, idx: nat, anchor: string)
    ensures var sec := TableSection(t, idx, anchor);
      && (SourceNote(t.source) in sec <==> t.source != "")
      && ColumnGrid(Palette[idx % |Palette|], t.columns) in sec
  {
    var sec := TableSection(t, idx, anchor);
    var colour := Palette[idx % |Palette|];
    var head := TableHeading(anchor, TablePrefix + Format(t.name), colour);
    var desc := if t.description != "" then [Body(DescriptionPrefix + t.description), Spacer(8)] else [];
    var src := if t.source != "" then [SourceNote(t.source), Spacer(8)] else [];
    var ms := MeasuresUpTo(t.measures, |t.measures|);
    assert sec == ([head] + desc + src) + [ColumnGrid(colour, t.columns), Spacer(12)] + (ms + [PageBreak]);
    assert sec[|desc| + |src| + 1] == ColumnGrid(colour, t.columns);
    if t.source == "" && SourceNote(t.source) in sec {
      var i :| 0 <= i < |sec| && sec[i] == SourceNote(t.source);
      MeasuresNoSourceNote(t.measures, |t.measures|);
      assert false;
    }
    if t.source != "" {
      assert sec[|desc| + 1] == SourceNote(t.source);
    }
  }

  /** Heading `i` places the anchor of the last table that shares table `i`'s name. */
  lemma HeadingAnchorOfTable(tables: seq<Table>, i: nat)
    requires i < |tables|
    ensures tables[i].name in DestinationsOf(tables)
    ensures DestinationsOf(tables)[tables[i].name] == Anchor(LastWithSameName(tables, i))
  {
    DestinationsLastWins(tables, LastWithSameName(tables, i));
  }

  /**
   * What the first `k` detail sections gather: no links, no diagram, `k` page
   * breaks, and heading `i` placing the anchor `dests` gives table `i`'s name.
   */
  predicate DetailsGathered(tables: seq<Table>, dests: Destinations, k: nat, g: Gathered)
    requires k <= |tables| && Covers(tables, dests)
  {
    && g.targets == [] && g.breaks == k && g.figures == []
    && |g.anchors| == k && forall i :: 0 <= i < k ==> g.anchors[i] == dests[tables[i].name]
  }

  lemma DetailStep(tables: seq<Table>, dests: Destinations, k: nat, prev: seq<Block>, sec: seq<Block>)
    requires 0 < k <= |tables| && Covers(tables, dests) && DetailsGathered(tables, dests, k - 1, Gather(prev))
    requires Gather(sec) == Gathered([], [dests[tables[k - 1].name]], 1, [])
    ensures DetailsGathered(tables, dests, k, Gather(prev + sec))
  {
    GatherConcat(prev, sec);
  }

  lemma {:induction false} DetailSectionsGather(tables: seq<Table>, dests: Destinations, k: nat)
    requires k <= |tables| && Covers(tables, dests)
    ensures DetailsGathered(tables, dests, k, Gather(DetailSections(tables, dests, k)))
  {
    if k > 0 {
      var prev := DetailSections(tables, dests, k - 1);
      var anchor := dests[tables[k - 1].name];
      var sec := TableSection(tables[k - 1], k - 1, anchor);
      assert DetailsGathered(tables, dests, k - 1, Gather(prev)) by {
        DetailSectionsGather(tables, dests, k - 1);
      }
      assert Gather(sec) == Gathered([], [anchor], 1, []) by {
        TableSectionGather(tables[k - 1], k - 1, anchor);
      }
      assert DetailsGathered(tables, dests, k, Gather(DetailSections(tables, dests, k))) by {
        assert DetailSections(tables, dests, k) == prev + sec;
        DetailStep(tables, dests, k, prev, sec);
      }
    }
  }

  /** What the first `k` index entries gather: entry `i` links to `table_<i>`, and nothing else. */
  predicate IndexGathered(k: nat, g: Gathered)
  {
    && g.anchors == [] && g.breaks == 0 && g.figures == []
    && |g.targets| == k && forall i :: 0 <= i < k ==> g.targets[i] == Anchor(i)
  }

  lemma IndexStep(k: nat, prev: seq<Block>, caption: string)
    requires 0 < k && IndexGathered(k - 1, Gather(prev))
    ensures IndexGathered(k, Gather(prev + [IndexEntry(Anchor(k - 1), caption)]))
  {
    var entry := IndexEntry(Anchor(k - 1), caption);
    assert Gather(prev + [entry]) == Gather(prev).Plus(Gathered([Anchor(k - 1)], [], 0, [])) by {
      GatherConcat(prev, [entry]);
      GatherOne(entry);
    }
  }

  lemma {:induction false} IndexEntriesGather(tables: seq<Table>, k: nat)
    requires k <= |tables|
    ensures IndexGathered(k, Gather(IndexEntries(tables, k)))
  {
    if k > 0 {
      IndexEntriesGather(tables, k - 1);
      IndexStep(k, IndexEntries(tables, k - 1), Format(tables[k - 1].name));
    }
  }

  // ---------------------------------------------------------------------------
  // The whole story

  /** The part of the story after the detail sections. */
  function Tail(m: Model): seq<Block>
  {
    [Subtitle(DiagramTitle), Spacer(12), DiagramFigure(DiagramOf(m)), PageBreak]
    + [Subtitle(RelationsTitle), Spacer(12)]
    + RelationSections(m.tables, m.relationships, |m.tables|)
  }

  lemma TailParts(lead: seq<Block>, fig: Block, rest: seq<Block>, tail: seq<Block>)
    requires Gather(lead) == Nothing && Gather(rest) == Nothing && fig.DiagramFigure?
    requires tail == lead + [fig] + [PageBreak] + rest
    ensures Gather(tail) == Gathered([], [], 1, [fig.diagram])
  {
    GatherConcat(lead, [fig]);
    GatherConcat(lead + [fig], [PageBreak]);
    GatherConcat(lead + [fig] + [PageBreak], rest);
    GatherOne(fig);
    GatherOne(PageBreak);
  }

  lemma TailGather(m: Model)
    ensures Gather(Tail(m)) == Gathered([], [], 1, [DiagramOf(m)])
  {
    var lead := [Subtitle(DiagramTitle), Spacer(12)];
    var rest := [Subtitle(RelationsTitle), Spacer(12)] + RelationSections(m.tables, m.relationships, |m.tables|);
    assert Gather(lead) == Nothing by {
      InertGathersNothing(lead);
    }
    assert Gather(rest) == Nothing by {
      RelationSectionsInert(m.tables, m.relationships, |m.tables|);
      InertGathersNothing(rest);
    }
    TailParts(lead, DiagramFigure(DiagramOf(m)), rest, Tail(m));
  }

  /** The story is the header, the index, a page break, the detail sections and the tail. */
  lemma StorySplit(m: Model)
    ensures Covers(m.tables, DestinationsOf(m.tables))
    ensures StorySpec(m)
      == Header + IndexEntries(m.tables, |m.tables|) + [PageBreak]
         + DetailSections(m.tables, DestinationsOf(m.tables), |m.tables|) + Tail(m)
  {
    DestinationsCover(m.tables);
  }

  lemma StoryParts(story: seq<Block>, entries: seq<Block>, dets: seq<Block>, tail: seq<Block>)
    requires story == Header + entries + [PageBreak] + dets + tail
    ensures Gather(story) == Gather(entries).Plus(Gathered([], [], 1, [])).Plus(Gather(dets)).Plus(Gather(tail))
  {
    var a := Header + entries;
    var b := a + [PageBreak];
    var c := b + dets;
    assert Gather(a) == Gather(entries) by {
      GatherConcat(Header, entries);
      InertGathersNothing(Header);
    }
    assert Gather(b) == Gather(a).Plus(Gathered([], [], 1, [])) by {
      GatherConcat(a, [PageBreak]);
      GatherOne(PageBreak);
    }
    assert Gather(c) == Gather(b).Plus(Gather(dets)) by {
      GatherConcat(b, dets);
    }
    GatherConcat(c, tail);
  }

  /**
   * Across the whole story: index entry `i` links to `table_<i>`; the `i`-th
   * heading places the anchor of the last table sharing table `i`'s name;
   * there is one page break per table plus two (after the index and after the
   * diagram); and the story embeds exactly one diagram, over all tables and
   * relationships with the destination map.
   */
  lemma StoryGather(m: Model)
    ensures Covers(m.tables, DestinationsOf(m.tables))
    ensures var g, n := Gather(StorySpec(m)), |m.tables|;
      && |g.targets| == n && (forall i :: 0 <= i < n ==> g.targets[i] == Anchor(i))
      && |g.anchors| == n && (forall i :: 0 <= i < n ==> g.anchors[i] == DestinationsOf(m.tables)[m.tables[i].name])
      && g.breaks == n + 2
      && g.figures == [DiagramOf(m)]
  {
    var n, dests := |m.tables|, DestinationsOf(m.tables);
    DestinationsCover(m.tables);
    var whole := Gather(StorySpec(m));
    var entries := Gather(IndexEntries(m.tables, n));
    var dets := Gather(DetailSections(m.tables, dests, n));
    assert whole == entries.Plus(Gathered([], [], 1, [])).Plus(dets).Plus(Gathered([], [], 1, [DiagramOf(m)])) by {
      StoryGatherSplit(m);
      TailGather(m);
    }
    assert IndexGathered(n, entries) by {
      IndexEntriesGather(m.tables, n);
    }
    assert DetailsGathered(m.tables, dests, n, dets) by {
      DetailSectionsGather(m.tables, dests, n);
    }
    StoryTotals(m.tables, dests, whole, entries, dets, DiagramOf(m));
  }

  lemma StoryGatherSplit(m: Model)
    ensures Covers(m.tables, DestinationsOf(m.tables))
    ensures Gather(StorySpec(m))
      == Gather(IndexEntries(m.tables, |m.tables|)).Plus(Gathered([], [], 1, []))
         .Plus(Gather(DetailSections(m.tables, DestinationsOf(m.tables), |m.tables|))).Plus(Gather(Tail(m)))
  {
    StorySplit(m);
    StoryParts(StorySpec(m), IndexEntries(m.tables, |m.tables|),
      DetailSections(m.tables, DestinationsOf(m.tables), |m.tables|), Tail(m));
  }

  lemma StoryTotals(tables: seq<Table>, dests: Destinations, whole: Gathered, entries: Gathered, dets: Gathered, fig: ErdDiagram)
    requires Covers(tables, dests)
    requires whole == entries.Plus(Gathered([], [], 1, [])).Plus(dets).Plus(Gathered([], [], 1, [fig]))
    requires IndexGathered(|tables|, entries) && DetailsGathered(tables, dests, |tables|, dets)
    ensures IndexGathered(|tables|, Gathered(whole.targets, [], 0, []))
    ensures DetailsGathered(tables, dests, |tables|, Gathered([], whole.anchors, |tables|, []))
    ensures whole.breaks == |tables| + 2 && whole.figures == [fig]
  {
    assert whole.targets == entries.targets by {
      assert dets.targets == [];
    }
    assert whole.anchors == dets.anchors by {
      assert entries.anchors == [];
    }
  }

  // ---------------------------------------------------------------------------
  // Internal links

  /** All table names differ. */
  predicate DistinctNames(tables: seq<Table>)
  {
    forall i, j :: 0 <= i < j < |tables| ==> tables[i].name != tables[j].name
  }

  /**
   * The index entry of table `i` points at an anchor some heading places
   * exactly when no later table has the same name: the headings look their
   * anchor up by name, and a later table with the same name took it over.
   */
  lemma IndexEntryResolves(m: Model, i: nat)
    requires i < |m.tables|
    ensures Anchor(i) in PlacedAnchors(StorySpec(m)) <==> IsLastWithName(m.tables, i)
  {
    var dests := DestinationsOf(m.tables);
    var anchors := PlacedAnchors(StorySpec(m));
    assert Covers(m.tables, dests) && |anchors| == |m.tables|
      && forall k :: 0 <= k < |m.tables| ==> anchors[k] == dests[m.tables[k].name] by {
      StoryGather(m);
    }
    if IsLastWithName(m.tables, i) {
      assert anchors[i] == Anchor(i) by {
        HeadingAnchorOfTable(m.tables, i);
        assert LastWithSameName(m.tables, i) == i;
      }
    }
    if Anchor(i) in anchors {
      var k :| 0 <= k < |anchors| && anchors[k] == Anchor(i);
      var r := LastWithSameName(m.tables, k);
      assert anchors[k] == Anchor(r) by {
        HeadingAnchorOfTable(m.tables, k);
      }
      if r != i {
        AnchorInjective(r, i);
        assert false;
      }
    }
  }

  /** Every index link resolves exactly when the table names are distinct. */
  lemma IndexLinksResolveIffDistinct(m: Model)
    ensures (forall t :: t in Targets(StorySpec(m)) ==> t in PlacedAnchors(StorySpec(m)))
      <==> DistinctNames(m.tables)
  {
    StoryGather(m);
    var s := StorySpec(m);
    var targets := Targets(s);
    if DistinctNames(m.tables) {
      forall t | t in targets
        ensures t in PlacedAnchors(s)
      {
        var i :| 0 <= i < |targets| && targets[i] == t;
        IndexEntryResolves(m, i);
      }
    } else {
      var i, j :| 0 <= i < j < |m.tables| && m.tables[i].name == m.tables[j].name;
      IndexEntryResolves(m, i);
      assert targets[i] == Anchor(i);
    }
  }

  /**
   * The embedded diagram looks every table name up successfully, and each box
   * it draws links to an anchor that a heading of the story places.
   */
  lemma DiagramLinksResolve(m: Model)
    ensures Linkable(DiagramOf(m))
    ensures DrawSpec(DiagramOf(m)).Drawn? ==>
      var links := Links(DrawSpec(DiagramOf(m)).commands);
      forall i :: 0 <= i < |links| ==> links[i].LinkRect? && links[i].target in PlacedAnchors(StorySpec(m))
  {
    var d := DiagramOf(m);
    DestinationsCover(m.tables);
    if DrawSpec(d).Drawn? {
      DrawingLinksEveryTable(d);
      StoryGather(m);
      var links := Links(DrawSpec(d).commands);
      var anchors := PlacedAnchors(StorySpec(m));
      forall i | 0 <= i < |links|
        ensures links[i].LinkRect? && links[i].target in anchors
      {
        assert links[i] == LinkFor(d, i);
        assert anchors[i] == links[i].target;
      }
    }
  }
}
