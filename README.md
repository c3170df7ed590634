# Power BI template documenter, modelled in Dafny

The program reads a Power BI template (`.pbit`), takes the `DataModelSchema`
entry out of the archive and produces a PDF. That PDF holds four parts: an
index of the tables, one detail section per table, an entity-relationship
diagram whose boxes link back to those sections, and one relationship summary
per table. A small Flask endpoint (`/api/process-file`) accepts the upload,
checks the filename and sends the PDF back under a derived name.

This project models that core:

- `schema.dfy` (`RawSchema`) is the parsed JSON tree. Every key the program
  reads is an `Option`, where `None` means the key is absent.
- `simplify.dfy` (`Simplifier`) covers the two extraction loops and the
  source label.
- `anchors.dfy` (`Anchors`) covers the `table_<idx>` anchors and the
  name-to-anchor destination map.
- `diagram.dfy` (`Diagram`) covers `ERDAutoDiagram.draw`, modelled as methods
  with loops, maps and counters. They are proved equal to `DrawSpec`, a
  function that lists the drawing commands: filled rectangles, text, link
  rectangles, circles, Bézier curves and triangles.
- `diagram_props.dfy` (`DiagramProperties`) proves what the layout
  guarantees: grid cells, separation and canvas bounds, box contents, one link
  per box, and edge offsets and geometry.
- `document.dfy` (`Document`) covers the story `process_pbit` appends to.
  The story is a list of tagged blocks, built by methods proved equal to
  `StorySpec`.
- `document_props.dfy` (`DocumentProperties`) proves the story's structure
  and which internal links resolve.
- `pipeline.dfy` (`Pipeline`) composes the pieces into `process_pbit`.
- `upload.dfy` (`Upload`) covers the filename rule, the order of the
  request checks and the download name of `api.py`. `app.py` is a
  byte-identical copy of it.
- `text.dfy` and `wrappers.dfy` hold Python string helpers (`join`,
  f-string of `None`, `str(int)`, string ordering) and `Option`.

Python semantics are kept where they show:

- `sorted` on two names fails when one of them is `None`.
- `min(3, 0)` columns lead to a division by zero.
- A dictionary assignment lets the last table with a given name win.
- A string expression is sliced by characters, so `[:2]` on it gives two
  characters.
- `str.replace` rewrites every occurrence.

Box coordinates use Dafny `real`, which is exact.

## Behaviour worth knowing

These follow from the code as written, and the model keeps them.

- With zero tables, `cols = min(3, 0)` makes the `rows` computation
  (main.py:153-154) divide by zero. The index and detail loops before it
  accept an empty list, but the whole document fails
  (`Pipeline.PbitOutcomes`).
- A table without a `name` key gets headings that read "None", because they
  are f-strings (main.py:80, 89). Its diagram box hands the `None` itself to
  `drawString` (main.py:170), which does not accept it, so the document
  fails.
- A relationship whose endpoint names no table is skipped (main.py:193-195).
  A relationship whose `fromTable` or `toTable` key is missing makes
  `sorted([None, name])` (main.py:186) raise, and the document fails.
- Headings place the anchor their table's name maps to (main.py:88-89).
  Index entries link to their own `table_<idx>` (main.py:77-80). With two
  tables of the same name, the earlier index entry links to an anchor that
  no heading places (`DocumentProperties.IndexLinksResolveIffDistinct`).
  reportlab refuses such an undefined destination when `doc.build`
  (main.py:248) writes the PDF, so the document fails.
- `str.replace` (api.py:63) rewrites every `.pbit` in the name, and it is
  case-sensitive. So `X.PBIT` passes the filename rule but keeps its name
  (`Upload.UpperCaseNotRewritten`), and `a.pbit.pbit` becomes
  `a_erd_final.pdf_erd_final.pdf` (`Upload.EveryOccurrenceRewritten`).

## Model

| member | source | states |
|---|---|---|
| Simplifier.Simplify | main.py:26-52 | the two append loops produce, element by element, the simplified table and relationship lists |
| Simplifier.SimplifiedModelMirrorsRaw | main.py:26-52 | the simplified lists have the raw lists' length and order; names and the four join fields are copied verbatim, missing descriptions become "", the source is the label of the partitions |
| Simplifier.SimplifiedTableMirrorsRaw | main.py:41-42 | columns and measures keep their order and their name, type and expression; missing descriptions become "" |
| Simplifier.MissingKeysGiveEmptyLists | main.py:27-46 | a missing `model`, `tables` or `relationships` key gives empty lists, not a failure |
| Simplifier.SourceLabel | main.py:28-36 | the label is empty or starts with "Fonte: " or "Fonte tipo: ", and a table without partitions has the empty label |
| Simplifier.SourceLabelForms | main.py:28-36 | the label has the expression form exactly when the first partition has a truthy expression; otherwise the type form exactly when it has a `type`; otherwise it is "" |
| Simplifier.SourceLabelReadsFirstPartitionOnly | main.py:29-32 | partitions after the first never change the label |
| Simplifier.SourceLabelOfLines | main.py:33-34 | a list expression gives "Fonte: " followed by its first line, and its second after a space when there is one, then "..." |
| Simplifier.SourceLabelOfText | main.py:33-34 | a string expression is sliced by characters, so the label spaces its first two characters apart |
| Anchors.AnchorInjective | main.py:77 | different positions get different `table_<idx>` anchors |
| Anchors.DestinationsOf | main.py:75-79 | the destination map's keys are exactly the table names, absent names included |
| Anchors.DestinationsLastWins | main.py:78 | a name maps to the anchor of the last table carrying it |
| Anchors.EveryNameHasDestination | main.py:88 | looking up any table's name in the destination map succeeds |
| Diagram.GridCapacity | main.py:153-154 | for n > 0 tables, cols = min(3, n) and rows is the ceiling of n / cols: the grid has room for every table and no empty row |
| Diagram.BoxOfCell | main.py:159-164 | cells fill row by row: column `col` of row `r` holds table `r * cols + col` |
| Diagram.DrawBox | main.py:165-180 | a box is its filled rectangle, its title (the name itself, not an f-string of it), the listed column and measure lines, then its link rectangle; a table without a name raises at the title |
| Diagram.PlaceRow | main.py:160-181 | the inner loop places the next `cols` boxes, or the remaining ones, keeping commands and positions equal to the placed prefix, or stops at a table without a name |
| Diagram.PlaceBoxes | main.py:158-181 | the nested loops fail exactly when some table has no name; otherwise they draw every table's box and leave `table_positions` as the name-to-box map of all tables |
| Diagram.CountersStep | main.py:186-190 | one relationship seeds its pair's counter with 0 when the pair is new, reads it as the offset count, then advances it |
| Diagram.DrawEdge | main.py:185-216 | one pass of the relationship loop keeps counters and commands equal to those of the first i + 1 relationships |
| Diagram.DrawEdges | main.py:184-216 | the relationship loop succeeds exactly when every relationship names both tables, and then yields the edges of all of them |
| Diagram.DrawSpec | main.py:149-216 | with no table the division by zero is raised whatever else is wrong; a drawing comes out only when every table has a name and every relationship names both tables |
| Diagram.Draw | main.py:149-216 | `draw` raises division by zero with no table, raises at a box whose table has no name, raises on an unnamed endpoint, and otherwise draws exactly the boxes followed by the edges |
| DiagramProperties.CellsDistinct | main.py:159-164 | table i lands in row i / cols and column i % cols inside the grid, and no two tables share a cell |
| DiagramProperties.BoxesSeparated | main.py:155-164 | two different tables' boxes are at least the 20-unit gap apart horizontally or vertically, so they never overlap |
| DiagramProperties.BoxInsideCanvas | main.py:152-164 | every box lies inside the canvas: 30 units from the left and top, 50 from the right and bottom |
| DiagramProperties.BoxListsFirstColumnsAndMeasures | main.py:172-178 | a box lists the names of at most the first 5 columns and then at most the first 3 measures prefixed `m:`, in order, 10 units apart |
| DiagramProperties.LinksOfBox | main.py:180 | a box's commands hold exactly one link rectangle, covering the box and pointing at its table's destination |
| DiagramProperties.DrawingLinksEveryTable | main.py:180 | a successful drawing holds one link per table, in table order, and edges add none |
| DiagramProperties.DrawFailures | main.py:153-186 | `draw` raises division by zero exactly when there is no table; the title failure exactly when there are tables and one has no name; the `sorted` failure exactly when every table is named and some relationship lacks an endpoint name; and draws exactly when none of these holds |
| DiagramProperties.PositionsLastWins | main.py:179 | `table_positions` keeps the box of the last table with each name |
| DiagramProperties.PositionKeys | main.py:179 | a name has a box exactly when some table carries it |
| DiagramProperties.PairKeyUnordered | main.py:186 | two relationships share a counter exactly when they join the same two tables in either direction |
| DiagramProperties.CountersCountPairs | main.py:184-190 | `rel_pairs` counts the relationships seen so far on each unordered pair |
| DiagramProperties.OffsetCountsEarlierEdges | main.py:189-192 | the K-th relationship on a pair (from 0) is offset by K * 20, whether or not the earlier ones were drawn |
| DiagramProperties.EdgeSkippedWithoutBox | main.py:193-195 | a relationship whose endpoint names no table draws nothing |
| DiagramProperties.EdgeGeometry | main.py:193-201 | a drawn edge joins the last box with the origin name to the last box with the destination name, raised by its offset |
| DiagramProperties.EdgeShape | main.py:135-147 | an edge is a marker of radius 6 at the origin centre, a curve whose control points lie on the x midpoint, and a triangle with its tip at the destination centre and its base 12 to the left, 12 tall |
| Document.BuildIndex | main.py:72-80 | the index loop appends one entry per table, linking to `table_<idx>`, and fills the destination map |
| Document.BuildTableSection | main.py:87-119 | a detail section is the heading with its anchor, the description and source when non-empty, the column grid, each measure's blocks, then a page break |
| Document.BuildDetails | main.py:86-119 | the detail loop appends one section per table, in order, each heading carrying the anchor its name maps to |
| Document.BuildRelations | main.py:225-246 | the summary loop appends, per table, its heading and either the grid of its relationships or the notice |
| Document.BuildStory | main.py:60-246 | the story is the title and index, a page break, the detail sections, the diagram page and the relationship summaries, in that order |
| Document.Related | main.py:229 | the filter keeps at most all relationships, and each one it keeps starts or ends at the table |
| Document.StorySpec | main.py:72-246 | the story opens with the title, a spacer and the index heading, and embeds the diagram of all tables and relationships |
| DocumentProperties.RelatedCounts | main.py:229 | a relationship is listed under a table as often as it occurs in the model when it starts or ends there, else never; a self-relationship is listed once |
| DocumentProperties.RelatedMembers | main.py:229 | the relationships listed under a table are exactly those of the model that mention it |
| DocumentProperties.RelatedConcat | main.py:229 | the filter keeps the original order |
| DocumentProperties.NoticeIffUnrelated | main.py:227-233 | a summary shows the "Nenhum relacionamento." notice exactly when no relationship mentions the table, and the grid otherwise |
| DocumentProperties.TableSectionGather | main.py:86-119 | a detail section places exactly its own anchor and no link or diagram, and ends with its single page break |
| DocumentProperties.TableSectionOpening | main.py:89-94 | a detail section opens with its heading in the table's palette colour, followed by the description exactly when it is non-empty |
| DocumentProperties.TableSectionSource | main.py:96-111 | the source note appears exactly when the label is non-empty, and the column grid always appears |
| DocumentProperties.HeadingAnchorOfTable | main.py:88 | heading i places the anchor of the last table that shares table i's name |
| DocumentProperties.StoryGather | main.py:72-246 | across the story, index entry i links to `table_<i>`, heading i places its name's anchor, there are n + 2 page breaks, and exactly one diagram |
| DocumentProperties.IndexEntryResolves | main.py:77-89 | index entry i reaches a placed anchor exactly when no later table has the same name |
| DocumentProperties.IndexLinksResolveIffDistinct | main.py:77-89 | every index link resolves exactly when the table names are distinct |
| DocumentProperties.DiagramLinksResolve | main.py:180 | every link rectangle of the embedded diagram points at an anchor that a heading of the story places |
| Pipeline.PbitSpec | main.py:16-250 | no document exactly when the schema entry is missing; a produced document holds the story of the simplified schema, and every link in it, index entry or box, names a destination some heading defines |
| Pipeline.ProcessPbit | main.py:16-250 | `process_pbit` gives nothing without the schema entry, the exception of a failing drawing, the undefined-destination failure when a link's target is never placed, or the story together with the drawing |
| Pipeline.ResolvedIffDistinct | main.py:77-89 | once the diagram is drawn, every link of the document resolves exactly when the table names are distinct |
| Pipeline.PbitOutcomes | main.py:16-248 | no document exactly when the schema entry is missing; a document exactly when there is a table, every table has a name, no name repeats and every relationship names both tables; otherwise, in this order, division by zero, the title failure, the `sorted` failure, the undefined destination |
| Pipeline.PdfLinks | main.py:77-180 | a schema with a table, every name present and distinct and every relationship naming both tables is produced, and in its document box i, index entry i and heading i all use the anchor `table_<i>` |
| Upload.AfterLastDotIsLastPart | api.py:20 | `rsplit('.', 1)[-1]` is the longest dot-free end of the name |
| Upload.AllowedFile | api.py:18-20 | an accepted name ends in a dot followed by four characters |
| Upload.AllowedFileIff | api.py:18-20 | a name is accepted exactly when it ends in a dot and four characters that lower to `pbit` |
| Upload.AcceptedExamples | app.py:20 | `a.b.pbit`, `X.PBIT` and `.pbit` are accepted |
| Upload.RejectedExamples | app.py:18-20 | `r.pbit.zip`, `file.` and `pbit` are rejected |
| Upload.ProcessFile | api.py:39-72 | a request that is not accepted is answered 400; a PDF goes out only for an accepted request, under the rewritten name |
| Upload.RejectionOrder | api.py:39-50 | 400 exactly when the request is not accepted; the message names the first failing check, and an empty name is "No file selected" |
| Upload.RejectionIgnoresContents | app.py:39-50 | a rejected request is answered the same whatever the file holds |
| Upload.ProcessingFailures | app.py:52-60 | a missing schema entry answers 500 "Failed to process .pbit file"; a processing exception answers 500 with its reason |
| Upload.AttachmentIff | api.py:52-72 | a PDF is sent exactly when the name is accepted and the schema has a table, every table named, no name repeated and no unnamed endpoint, under the rewritten name |
| Upload.DownloadName | api.py:63 | each rewritten `.pbit` makes the name 9 characters longer |
| Upload.ContainsIsCounted | app.py:63 | the left-to-right scan finds a `.pbit` wherever one occurs |
| Upload.AbsentLeavesUnchanged | app.py:63 | without an occurrence, `replace` returns the string unchanged |
| Upload.DownloadNameUnchangedIff | app.py:63 | the download name equals the upload name exactly when `.pbit` does not occur in it |
| Upload.DownloadNameSplits | api.py:63 | `stem.pbit<rest>`, with no `.pbit` in the stem, is offered as `stem_erd_final.pdf` followed by the download name of the rest |
| Upload.EveryOccurrenceRewritten | api.py:63 | `a.pbit.pbit` becomes `a_erd_final.pdf_erd_final.pdf` |
| Upload.UpperCaseNotRewritten | api.py:20-63 | `X.PBIT` passes the filename rule and keeps its name |

## Left out

- Opening the zip and parsing JSON (main.py:18-23). The archive arrives
  classified as not an archive (any zip or JSON exception), lacking the
  `DataModelSchema` entry, or carrying the parsed tree. JSON values of a
  shape the program does not expect are not representable, for example a
  number where a name is expected.
- reportlab: paragraph styles, fonts, colours of the story, column widths,
  table styles, page flowing, `doc.build` and the PDF bytes. The story is a
  list of tagged blocks, and the canvas is a list of draw commands without
  fill and stroke state. reportlab's own failures are modelled in two
  places only: `drawString` given `None`, and an undefined link destination.
- Markup in texts is treated as plain text. `Paragraph` parses the markup
  of table names, descriptions, source labels and measure expressions
  (main.py:80, 89, 93, 97, 115-117, 228), and DAX expressions often hold
  `<` or `&&`, which it may reject.
- Pipeline.PbitOutcomes: a document that reportlab refuses for a reason the
  model leaves out, such as markup it cannot parse, counts as produced.
- Upload.AttachmentIff: as for `Pipeline.PbitOutcomes`, a PDF counts as
  sent even when reportlab would refuse the text of the story.
- Document.MeasureCode keeps the measure's expression value rather than
  `str(expression)`. Python's printing of lists and `None` is not modelled.
- Text.Format models `f"{name}"` for strings and `None` only. A name of
  another JSON type is not representable.
- Streamlit's `st.error` message, and the commented-out Streamlit interface.
- Flask plumbing: routes, CORS, the upload folder, the health and test
  endpoints, `send_file` and the mimetype, timestamps, and the text of
  exceptions inside "Processing failed: …" (Upload.Response carries the
  reason instead). The outer `try` (api.py:78-80) only catches failures
  of the request object, which is not modelled.
- Upload.LowerChar lowers only the letters A to Z, where Python's
  `str.lower` lowers all of Unicode. No other character lowers to one of
  `p`, `b`, `i`, `t`, so the filename verdict is the same.
- The `orientation='start'` branch of `draw_cardinality_arrow` is kept in
  Diagram.ArrowCorners, but `draw` never takes it.
- Floating-point rounding of the box coordinates: the model computes them
  exactly with `real`.
- `script.js`, the browser front-end, is not part of this model.
