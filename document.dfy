/**
 * The document `process_pbit` assembles: a list of tagged blocks (the
 * reportlab "story") made of a title and index, one detail section per table,
 * the diagram, and one relationship section per table.
 */
module Document {
  import opened Wrappers
  import opened Text
  import opened RawSchema
  import opened Simplifier
  import opened Anchors
  import opened Diagram

  /** One story element; styles are not modelled, only what each element says and links to. */
  datatype Block =
    | Title(text: string)
    | Subtitle(text: string)
    | Body(text: string)
    | Spacer(height: nat)
    | PageBreak
    | IndexEntry(target: string, caption: string)                 // `<link href="#target">caption</link>`
    | TableHeading(anchor: string, text: string, background: string) // `<a name="anchor"/>text`
    | SourceNote(text: string)
    | ColumnGrid(background: string, columns: seq<Column>)
    | MeasureHeading(text: string)
    | MeasureCode(expression: Option<Expression>)                 // `str(measure.get("expression", ""))`
    | DiagramFigure(diagram: ErdDiagram)
    | RelationsHeading(text: string)
    | RelationGrid(relationships: seq<Relationship>)

  const DocumentTitle := "Documenta\U{e7}\U{e3}o Power BI - ERD Final"
  const IndexTitle := "\U{cd}ndice"
  const TablePrefix := "Tabela: "
  const DescriptionPrefix := "Descri\U{e7}\U{e3}o: "
  const MeasurePrefix := "Medida: "
  const DiagramTitle := "Diagrama ERD Avan\U{e7}ado"
  const RelationsTitle := "Relacionamentos Detalhados"
  const RelationsOfPrefix := "Relacionamentos da Tabela: "
  const NoRelationsNotice := "Nenhum relacionamento."
  /** The diagram is built with `width=500, height=500`. */
  const CanvasSize: real := 500.0

  // ---------------------------------------------------------------------------
  // The blocks, part by part

  const Header := [Title(DocumentTitle), Spacer(16), Subtitle(IndexTitle)]

  /** The index entries of the first `k` tables: entry `i` links to `table_<i>`. */
  function IndexEntries(tables: seq<Table>, k: nat): seq<Block>
    requires k <= |tables|
  {
    if k == 0 then []
    else IndexEntries(tables, k - 1) + [IndexEntry(Anchor(k - 1), Format(tables[k - 1].name))]
  }

  /** The blocks for one measure: title, code, the description when non-empty, a spacer. */
  function MeasureBlocks(m: Measure): seq<Block>
  {
    [MeasureHeading(MeasurePrefix + Format(m.name)), MeasureCode(m.expression)]
    + (if m.description != "" then [Body(DescriptionPrefix + m.description)] else [])
    + [Spacer(8)]
  }

  /** The blocks of the first `k` measures. */
  function MeasuresUpTo(ms: seq<Measure>, k: nat): seq<Block>
    requires k <= |ms|
  {
    if k == 0 then [] else MeasuresUpTo(ms, k - 1) + MeasureBlocks(ms[k - 1])
  }

  /** The heading, the optional description and source, and the column grid of table `idx`. */
  function SectionOpening(t: Table, idx: nat, anchor: string): seq<Block>
  {
    var colour := Palette[idx % |Palette|];
    [TableHeading(anchor, TablePrefix + Format(t.name), colour)]
    + (if t.description != "" then [Body(DescriptionPrefix + t.description), Spacer(8)] else [])
    + (if t.source != "" then [SourceNote(t.source), Spacer(8)] else [])
    + [ColumnGrid(colour, t.columns), Spacer(12)]
  }

  /** The detail section of table `idx`, whose heading carries `anchor`: the opening, the measures, a page break. */
  function TableSection(t: Table, idx: nat, anchor: string): seq<Block>
  {
    SectionOpening(t, idx, anchor) + MeasuresUpTo(t.measures, |t.measures|) + [PageBreak]
  }

  /** Every table name has an entry in `dests`. */
  predicate Covers(tables: seq<Table>, dests: Destinations)
  {
    forall i :: 0 <= i < |tables| ==> tables[i].name in dests
  }

  /** The detail sections of the first `k` tables; each heading's anchor is looked up by name. */
  function DetailSections(tables: seq<Table>, dests: Destinations, k: nat): seq<Block>
    requires k <= |tables| && Covers(tables, dests)
  {
    if k == 0 then []
    else DetailSections(tables, dests, k - 1) + TableSection(tables[k - 1], k - 1, dests[tables[k - 1].name])
  }

  /**
   * The relationships that start or end at `name`, in their original order:
   * never more than there are, and each of them mentions `name`.
   */
  function Related(rels: seq<Relationship>, name: Option<string>): (related: seq<Relationship>)
    ensures |related| <= |rels|
    ensures forall i :: 0 <= i < |related| ==> related[i].fromTable == name || related[i].toTable == name
  {
    if |rels| == 0 then []
    else
      var r := rels[|rels| - 1];
      Related(rels[..|rels| - 1], name) + (if r.fromTable == name || r.toTable == name then [r] else [])
  }

  /** The relationship section of one table: a grid of its relationships, or the notice. */
  function RelationSection(t: Table, rels: seq<Relationship>): seq<Block>
  {
    var related := Related(rels, t.name);
    [RelationsHeading(RelationsOfPrefix + Format(t.name))]
    + (if |related| == 0 then [Body(NoRelationsNotice), Spacer(8)] else [RelationGrid(related), Spacer(12)])
  }

  /** The relationship sections of the first `k` tables. */
  function RelationSections(tables: seq<Table>, rels: seq<Relationship>, k: nat): seq<Block>
    requires k <= |tables|
  {
    if k == 0 then [] else RelationSections(tables, rels, k - 1) + RelationSection(tables[k - 1], rels)
  }

  /** The diagram the story embeds: all tables and relationships on a 500 by 500 canvas. */
  function DiagramOf(m: Model): ErdDiagram
  {
    ErdDiagram(m.tables, m.relationships, DestinationsOf(m.tables), CanvasSize, CanvasSize)
  }

  lemma DestinationsCover(tables: seq<Table>)
    ensures Covers(tables, DestinationsOf(tables))
  {
    forall i | 0 <= i < |tables|
      ensures tables[i].name in DestinationsOf(tables)
    {
      EveryNameHasDestination(tables, i);
    }
  }

  /**
   * The whole story, in the order the blocks are appended. It opens with the
   * title, a spacer and the index heading, and embeds the diagram of every
   * table and relationship.
   */
  function StorySpec(m: Model): (story: seq<Block>)
    ensures |story| > |Header| && story[..|Header|] == Header
    ensures DiagramFigure(DiagramOf(m)) in story
  {
    var n := |m.tables|;
    var dests := DestinationsOf(m.tables);
    DestinationsCover(m.tables);
    Header + IndexEntries(m.tables, n) + [PageBreak]
    + DetailSections(m.tables, dests, n)
    + [Subtitle(DiagramTitle), Spacer(12), DiagramFigure(DiagramOf(m)), PageBreak]
    + [Subtitle(RelationsTitle), Spacer(12)]
    + RelationSections(m.tables, m.relationships, n)
  }

  // ---------------------------------------------------------------------------
  // Building the story

  /** The index loop: appends one entry per table and fills the destination map. */
  method BuildIndex(tables: seq<Table>) returns (blocks: seq<Block>, dests: Destinations)
    ensures blocks == IndexEntries(tables, |tables|)
    ensures dests == DestinationsOf(tables)
  {
    blocks, dests := [], map[];
    for idx := 0 to |tables|
      invariant blocks == IndexEntries(tables, idx) && dests == DestinationsOf(tables[..idx])
    {
      var destName := Anchor(idx);
      assert tables[..idx + 1][..idx] == tables[..idx];
      dests := dests[tables[idx].name := destName];
      blocks := blocks + [IndexEntry(destName, Format(tables[idx].name))];
    }
    assert tables[..|tables|] == tables;
  }

  /** One pass of the detail loop, with its inner loop over the measures. */
  method BuildTableSection(t: Table, idx: nat, anchor: string) returns (blocks: seq<Block>)
    ensures blocks == TableSection(t, idx, anchor)
  {
    var colour := Palette[idx % |Palette|];
    blocks := [TableHeading(anchor, TablePrefix + Format(t.name), colour)];
    if t.description != "" {
      blocks := blocks + [Body(DescriptionPrefix + t.description), Spacer(8)];
    }
    if t.source != "" {
      blocks := blocks + [SourceNote(t.source), Spacer(8)];
    }
    blocks := blocks + [ColumnGrid(colour, t.columns), Spacer(12)];
    assert blocks == SectionOpening(t, idx, anchor);
    ghost var measures := [];
    for j := 0 to |t.measures|
      invariant measures == MeasuresUpTo(t.measures, j) && blocks == SectionOpening(t, idx, anchor) + measures
    {
      var m := t.measures[j];
      var piece := [MeasureHeading(MeasurePrefix + Format(m.name)), MeasureCode(m.expression)];
      if m.description != "" {
        piece := piece + [Body(DescriptionPrefix + m.description)];
      }
      piece := piece + [Spacer(8)];
      AppendAssociative(SectionOpening(t, idx, anchor), measures, piece);
      blocks, measures := blocks + piece, measures + piece;
    }
    blocks := blocks + [PageBreak];
  }

  /** The detail loop over all tables. */
  method BuildDetails(tables: seq<Table>, dests: Destinations) returns (blocks: seq<Block>)
    requires Covers(tables, dests)
    ensures blocks == DetailSections(tables, dests, |tables|)
  {
    blocks := [];
    for idx := 0 to |tables|
      invariant blocks == DetailSections(tables, dests, idx)
    {
      var section := BuildTableSection(tables[idx], idx, dests[tables[idx].name]);
      blocks := blocks + section;
    }
  }

  /** The relationship loop over all tables. */
  method BuildRelations(tables: seq<Table>, rels: seq<Relationship>) returns (blocks: seq<Block>)
    ensures blocks == RelationSections(tables, rels, |tables|)
  {
    blocks := [];
    for k := 0 to |tables|
      invariant blocks == RelationSections(tables, rels, k)
    {
      var t := tables[k];
      blocks := blocks + [RelationsHeading(RelationsOfPrefix + Format(t.name))];
      var related := Related(rels, t.name);
      if |related| == 0 {
        blocks := blocks + [Body(NoRelationsNotice), Spacer(8)];
      } else {
        blocks := blocks + [RelationGrid(related), Spacer(12)];
      }
    }
  }

  /** `process_pbit` from line 60 to 246: the story, and the destination map the diagram receives. */
  method BuildStory(m: Model) returns (story: seq<Block>, dests: Destinations)
    ensures story == StorySpec(m)
    ensures dests == DestinationsOf(m.tables)
  {
    story := Header;
    var index;
    index, dests := BuildIndex(m.tables);
    story := story + index + [PageBreak];
    DestinationsCover(m.tables);
    var details := BuildDetails(m.tables, dests);
    story := story + details;
    var diagram := ErdDiagram(m.tables, m.relationships, dests, CanvasSize, CanvasSize);
    story := story + [Subtitle(DiagramTitle), Spacer(12), DiagramFigure(diagram), PageBreak];
    story := story + [Subtitle(RelationsTitle), Spacer(12)];
    var relations := BuildRelations(m.tables, m.relationships);
    story := story + relations;
  }
}
