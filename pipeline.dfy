/**
 * `process_pbit`: read the `DataModelSchema` entry of the uploaded template,
 * simplify it, assemble the story, and render it, which draws the diagram.
 * Unzipping and JSON parsing are not modelled: the archive arrives already
 * classified as unreadable, lacking the entry, or carrying a parsed schema.
 */
module Pipeline {
  import opened RawSchema
  import opened Simplifier
  import opened Anchors
  import opened Diagram
  import opened Document
  import opened DocumentProperties
  import opened DiagramProperties

  /** The uploaded bytes, as `zipfile` and `json.load` see them. */
  datatype Archive =
    | NotAnArchive            // not a zip file, or the entry is not JSON: an exception
    | MissingSchema           // a zip without a `DataModelSchema` entry
    | WithSchema(schema: Schema)

  /** Why an exception leaves `process_pbit`. */
  datatype Reason =
    | BadArchive
    | DrawFailed(failure: Failure)   // raised by the diagram while the story is rendered
    | UndefinedDestination           // a link names a destination no heading defines: raised when the PDF is saved

  /** What `process_pbit` gives back. */
  datatype Outcome =
    | NoDocument                                        // `return None`
    | Failed(reason: Reason)                            // an exception propagates
    | Pdf(story: seq<Block>, drawing: seq<DrawCmd>)     // the rendered document

  /**
   * Every internal link of the rendered document names a destination that a
   * heading defines: the index entries of the story and the boxes of the drawing.
   */
  predicate LinksResolve(story: seq<Block>, drawing: seq<DrawCmd>)
  {
    && (forall t :: t in Targets(story) ==> t in PlacedAnchors(story))
    && (forall l :: l in Links(drawing) ==> l.LinkRect? && l.target in PlacedAnchors(story))
  }

  /**
   * The outcome of `process_pbit` on an archive. `doc.build` draws the diagram
   * while it lays out the story, then refuses a link whose destination was never
   * defined, so a document that comes out has every link resolved.
   */
  function PbitSpec(a: Archive): (outcome: Outcome)
    ensures outcome == NoDocument <==> a == MissingSchema
    ensures outcome.Pdf? ==>
      && a.WithSchema? && outcome.story == StorySpec(SimplifiedModel(a.schema))
      && LinksResolve(outcome.story, outcome.drawing)
  {
    match a
    case NotAnArchive => Failed(BadArchive)
    case MissingSchema => NoDocument
    case WithSchema(s) =>
      var m := SimplifiedModel(s);
      DestinationsCover(m.tables);
      match DrawSpec(DiagramOf(m))
      case Raised(f) => Failed(DrawFailed(f))
      case Drawn(cmds) =>
        var story := StorySpec(m);
        if LinksResolve(story, cmds) then Pdf(story, cmds) else Failed(UndefinedDestination)
  }

  /** `process_pbit`: simplification, the story loops, then `doc.build`, which draws the diagram and resolves the links. */
  method ProcessPbit(a: Archive) returns (outcome: Outcome)
    ensures outcome == PbitSpec(a)
  {
    match a
    case NotAnArchive =>
      outcome := Failed(BadArchive);
    case MissingSchema =>
      outcome := NoDocument;
    case WithSchema(s) =>
      var m := Simplify(s);
      var story, dests := BuildStory(m);
      DestinationsCover(m.tables);
      var drawing := Draw(ErdDiagram(m.tables, m.relationships, dests, CanvasSize, CanvasSize));
      match drawing
      case Raised(f) =>
        outcome := Failed(DrawFailed(f));
      case Drawn(cmds) =>
        if LinksResolve(story, cmds) {
          outcome := Pdf(story, cmds);
        } else {
          outcome := Failed(UndefinedDestination);
        }
  }

  /** Some table of the raw schema lacks `name`. */
  predicate UnnamedTable(s: Schema)
  {
    var tables := RawTables(s);
    exists i :: 0 <= i < |tables| && tables[i].name.None?
  }

  /** Two tables of the raw schema carry the same name. */
  predicate RepeatedName(s: Schema)
  {
    var tables := RawTables(s);
    exists i, j :: 0 <= i < j < |tables| && tables[i].name == tables[j].name
  }

  /** Some relationship of the raw schema lacks `fromTable` or `toTable`. */
  predicate MissingEndpoint(s: Schema)
  {
    var rels := RawRelationships(s);
    exists i :: 0 <= i < |rels| && (rels[i].fromTable.None? || rels[i].toTable.None?)
  }

  /** Once the diagram is drawn, the links resolve exactly when the table names are distinct. */
  lemma ResolvedIffDistinct(m: Model)
    requires Linkable(DiagramOf(m)) && DrawSpec(DiagramOf(m)).Drawn?
    ensures LinksResolve(StorySpec(m), DrawSpec(DiagramOf(m)).commands) <==> DistinctNames(m.tables)
  {
    var story, cmds := StorySpec(m), DrawSpec(DiagramOf(m)).commands;
    BoxLinksResolve(m, story, cmds);
    IndexLinksResolveIffDistinct(m);
    assert LinksResolve(story, cmds) <==> forall t :: t in Targets(story) ==> t in PlacedAnchors(story);
  }

  /** The links of the drawing always resolve (the box links of `DiagramLinksResolve`, read as membership). */
  lemma BoxLinksResolve(m: Model, story: seq<Block>, cmds: seq<DrawCmd>)
    requires Linkable(DiagramOf(m)) && DrawSpec(DiagramOf(m)) == Drawn(cmds) && story == StorySpec(m)
    ensures forall l :: l in Links(cmds) ==> l.LinkRect? && l.target in PlacedAnchors(story)
  {
    DiagramLinksResolve(m);
    var links := Links(cmds);
    forall l | l in links
      ensures l.LinkRect? && l.target in PlacedAnchors(story)
    {
      var i :| 0 <= i < |links| && links[i] == l;
      assert links[i].LinkRect? && links[i].target in PlacedAnchors(story);
    }
  }

  /** The three conditions on the raw schema, read on the simplified model. */
  lemma ModelConditions(s: Schema)
    ensures var m := SimplifiedModel(s);
      && |m.tables| == |RawTables(s)|
      && (UnnamedTable(s) <==> !Titled(m.tables, |m.tables|))
      && (MissingEndpoint(s) <==> !AllNamed(m.relationships))
      && (RepeatedName(s) <==> !DistinctNames(m.tables))
  {
    SimplifiedModelMirrorsRaw(s);
  }

  /**
   * No document comes back exactly when the schema entry is missing. A parsed
   * schema yields a document exactly when it has at least one table, every
   * table has a name, no two share one, and every relationship names both of
   * its tables. The failures come in the order the program meets them: the
   * division by zero of the grid, a box title that is `None`, a relationship
   * endpoint `sorted` cannot order, and last, when the PDF is saved, the index
   * link of a table whose name a later table took over.
   */
  lemma PbitOutcomes(a: Archive)
    ensures PbitSpec(a) == NoDocument <==> a == MissingSchema
    ensures PbitSpec(a).Pdf? <==>
      && a.WithSchema? && |RawTables(a.schema)| > 0
      && !UnnamedTable(a.schema) && !MissingEndpoint(a.schema) && !RepeatedName(a.schema)
    ensures a.WithSchema? && |RawTables(a.schema)| == 0 ==> PbitSpec(a) == Failed(DrawFailed(DivisionByZero))
    ensures a.WithSchema? && |RawTables(a.schema)| > 0 && UnnamedTable(a.schema) ==>
      PbitSpec(a) == Failed(DrawFailed(UntitledBox))
    ensures a.WithSchema? && |RawTables(a.schema)| > 0 && !UnnamedTable(a.schema) && MissingEndpoint(a.schema) ==>
      PbitSpec(a) == Failed(DrawFailed(UnorderableNames))
    ensures a.WithSchema? ==> var s := a.schema;
      |RawTables(s)| > 0 && !UnnamedTable(s) && !MissingEndpoint(s) && RepeatedName(s) ==> PbitSpec(a) == Failed(UndefinedDestination)
  {
    if a.WithSchema? {
      var m := SimplifiedModel(a.schema);
      ModelConditions(a.schema);
      DestinationsCover(m.tables);
      if DrawSpec(DiagramOf(m)).Drawn? {
        ResolvedIffDistinct(m);
      }
    }
  }

  /**
   * A schema with a table, every table named, no name repeated and every
   * relationship naming both tables is produced, and in that document the box
   * of table `i`, index entry `i` and the heading of table `i` all use the
   * anchor `table_<i>`.
   */
  lemma PdfLinks(s: Schema)
    requires |RawTables(s)| > 0 && !UnnamedTable(s) && !RepeatedName(s) && !MissingEndpoint(s)
    ensures PbitSpec(WithSchema(s)).Pdf?
    ensures var out, m := PbitSpec(WithSchema(s)), SimplifiedModel(s);
      var links, targets, anchors := Links(out.drawing), Targets(out.story), PlacedAnchors(out.story);
      && |links| == |m.tables| && |targets| == |m.tables| && |anchors| == |m.tables|
      && forall i :: 0 <= i < |m.tables| ==>
           links[i].LinkRect? && links[i].target == Anchor(i) && targets[i] == Anchor(i) && anchors[i] == Anchor(i)
  {
    PbitOutcomes(WithSchema(s));
    var m := SimplifiedModel(s);
    var d := DiagramOf(m);
    DestinationsCover(m.tables);
    ModelConditions(s);
    DrawingLinksEveryTable(d);
    StoryGather(m);
    forall i | 0 <= i < |m.tables|
      ensures DestinationsOf(m.tables)[m.tables[i].name] == Anchor(i)
    {
      DestinationsLastWins(m.tables, i);
    }
  }
}
