/**
 * The schema simplifier: reduces the parsed `DataModelSchema` to ordered lists
 * of tables and relationships, filling in defaults for absent keys.
 */
module Simplifier {
  import opened Wrappers
  import opened Text
  import opened RawSchema

  datatype Column = Column(name: Option<string>, dataType: Option<string>, description: string)

  datatype Measure = Measure(name: Option<string>, expression: Option<Expression>, description: string)

  datatype Table = Table(
    name: Option<string>,
    description: string,
    source: string,
    columns: seq<Column>,
    measures: seq<Measure>)

  datatype Relationship = Relationship(
    fromTable: Option<string>,
    fromColumn: Option<string>,
    toTable: Option<string>,
    toColumn: Option<string>)

  /** The simplified model: tables and relationships in document order. */
  datatype Model = Model(tables: seq<Table>, relationships: seq<Relationship>)

  const SourcePrefix := "Fonte: "
  const SourceTypePrefix := "Fonte tipo: "
  const Ellipsis := "..."

  /** `expression[:2]`: the first two lines of a list, or the first two characters of a string. */
  function FirstTwo(e: Expression): seq<string>
  {
    match e
    case Lines(ls) => Take(ls, 2)
    case Text(s) => seq(|Take(s, 2)|, i requires 0 <= i < |Take(s, 2)| => [s[i]])
  }

  /** The `source` object of the first partition, `{}` when the key is absent. */
  function FirstSource(parts: seq<RawPartition>): RawSource
    requires |parts| > 0
  {
    parts[0].source.GetOr(RawSource(None, None))
  }

  /**
   * The table's source label, derived from its first partition only: empty, or
   * starting with one of the two prefixes, and empty when there is no partition.
   */
  function SourceLabel(partitions: Option<seq<RawPartition>>): (src: string)
    ensures src == "" || SourcePrefix <= src || SourceTypePrefix <= src
    ensures |partitions.GetOr([])| == 0 ==> src == ""
  {
    var parts := partitions.GetOr([]);
    if |parts| == 0 then ""
    else
      var info := FirstSource(parts);
      if info.expression.Some? && info.expression.value.Truthy() then
        SourcePrefix + Join(" ", FirstTwo(info.expression.value)) + Ellipsis
      else if info.kind.Some? then
        SourceTypePrefix + info.kind.value
      else ""
  }

  function SimplifyColumn(c: RawColumn): Column
  {
    Column(c.name, c.dataType, c.description.GetOr(""))
  }

  function SimplifyMeasure(m: RawMeasure): Measure
  {
    Measure(m.name, m.expression, m.description.GetOr(""))
  }

  function SimplifyTable(t: RawTable): Table
  {
    var cols := t.columns.GetOr([]);
    var meas := t.measures.GetOr([]);
    Table(
      t.name,
      t.description.GetOr(""),
      SourceLabel(t.partitions),
      seq(|cols|, i requires 0 <= i < |cols| => SimplifyColumn(cols[i])),
      seq(|meas|, i requires 0 <= i < |meas| => SimplifyMeasure(meas[i])))
  }

  function SimplifyRelationship(r: RawRelationship): Relationship
  {
    Relationship(r.fromTable, r.fromColumn, r.toTable, r.toColumn)
  }

  /** `data.get("model", {}).get("tables", [])`. */
  function RawTables(s: Schema): seq<RawTable>
  {
    s.model.GetOr(RawModel(None, None)).tables.GetOr([])
  }

  /** `data.get("model", {}).get("relationships", [])`. */
  function RawRelationships(s: Schema): seq<RawRelationship>
  {
    s.model.GetOr(RawModel(None, None)).relationships.GetOr([])
  }

  /** What the two extraction loops produce, element by element. */
  function SimplifiedModel(s: Schema): Model
  {
    var ts := RawTables(s);
    var rs := RawRelationships(s);
    Model(
      seq(|ts|, i requires 0 <= i < |ts| => SimplifyTable(ts[i])),
      seq(|rs|, i requires 0 <= i < |rs| => SimplifyRelationship(rs[i])))
  }

  /** The two loops that append to `simplified_model["tables"]` and `["relationships"]`. */
  method Simplify(s: Schema) returns (m: Model)
    ensures m == SimplifiedModel(s)
  {
    var raw := RawTables(s);
    var tables: seq<Table> := [];
    var i := 0;
    while i < |raw|
      invariant 0 <= i <= |raw|
      invariant |tables| == i
      invariant forall j :: 0 <= j < i ==> tables[j] == SimplifyTable(raw[j])
    {
      tables := tables + [SimplifyTable(raw[i])];
      i := i + 1;
    }
    var rawRels := RawRelationships(s);
    var rels: seq<Relationship> := [];
    var k := 0;
    while k < |rawRels|
      invariant 0 <= k <= |rawRels|
      invariant |rels| == k
      invariant forall j :: 0 <= j < k ==> rels[j] == SimplifyRelationship(rawRels[j])
    {
      rels := rels + [SimplifyRelationship(rawRels[k])];
      k := k + 1;
    }
    m := Model(tables, rels);
  }

  // ---------------------------------------------------------------------------
  // Properties of the source label

  /**
   * The label has one of three forms, decided by the first partition alone:
   * an expression form when its source has a non-empty `expression`, a type form
   * when it has none but carries `type`, and the empty label otherwise.
   */
  lemma SourceLabelForms(partitions: Option<seq<RawPartition>>)
    ensures var src := SourceLabel(partitions);
      var parts := partitions.GetOr([]);
      var hasExpr := |parts| > 0 && FirstSource(parts).expression.Some? && FirstSource(parts).expression.value.Truthy();
      var hasType := |parts| > 0 && FirstSource(parts).kind.Some?;
      && (hasExpr <==> SourcePrefix <= src)
      && (hasExpr ==> Ellipsis <= src[|src| - 3..])
      && (!hasExpr && hasType <==> SourceTypePrefix <= src)
      && (!hasExpr && hasType ==> src == SourceTypePrefix + FirstSource(parts).kind.value)
      && (src == "" <==> !hasExpr && !hasType)
  {
    var src := SourceLabel(partitions);
    var parts := partitions.GetOr([]);
    if |parts| > 0 {
      var info := FirstSource(parts);
      if info.expression.Some? && info.expression.value.Truthy() {
        assert src == SourcePrefix + (Join(" ", FirstTwo(info.expression.value)) + Ellipsis);
        assert src[5] == ':';
      } else if info.kind.Some? {
        assert src[5] == ' ';
      }
    }
  }

  /** Partitions after the first never influence the label. */
  lemma SourceLabelReadsFirstPartitionOnly(first: RawPartition, rest: seq<RawPartition>)
    ensures SourceLabel(Some([first] + rest)) == SourceLabel(Some([first]))
  {
  }

  /** A list expression: its first line, and its second when there is one, joined by a space. */
  lemma SourceLabelOfLines(source: RawSource, rest: seq<RawPartition>)
    requires source.expression.Some? && source.expression.value.Lines? && |source.expression.value.lines| > 0
    ensures var ls := source.expression.value.lines;
      SourceLabel(Some([RawPartition(Some(source))] + rest)) ==
        if |ls| == 1 then SourcePrefix + ls[0] + Ellipsis
        else SourcePrefix + ls[0] + " " + ls[1] + Ellipsis
  {
    var ls := source.expression.value.lines;
    if |ls| > 1 {
      assert FirstTwo(source.expression.value) == [ls[0], ls[1]];
      assert Join(" ", [ls[0], ls[1]]) == ls[0] + " " + Join(" ", [ls[1]]);
    }
  }

  /** A string expression is sliced by characters, so its first two characters are spaced apart. */
  lemma SourceLabelOfText(source: RawSource, rest: seq<RawPartition>)
    requires source.expression.Some? && source.expression.value.Text? && |source.expression.value.text| > 0
    ensures var s := source.expression.value.text;
      SourceLabel(Some([RawPartition(Some(source))] + rest)) ==
        if |s| == 1 then SourcePrefix + s + Ellipsis
        else SourcePrefix + [s[0], ' ', s[1]] + Ellipsis
  {
    var s := source.expression.value.text;
    if |s| > 1 {
      assert FirstTwo(source.expression.value) == [[s[0]], [s[1]]];
      assert Join(" ", [[s[0]], [s[1]]]) == [s[0]] + " " + Join(" ", [[s[1]]]);
    } else {
      assert s == [s[0]];
      assert FirstTwo(source.expression.value) == [[s[0]]];
    }
  }

  // ---------------------------------------------------------------------------
  // Properties of the simplified model

  /**
   * Tables and relationships keep the raw lists' length and order; names, data
   * types and the four join fields are copied verbatim, absent descriptions become "".
   */
  lemma SimplifiedModelMirrorsRaw(s: Schema)
    ensures var m := SimplifiedModel(s);
      && |m.tables| == |RawTables(s)|
      && |m.relationships| == |RawRelationships(s)|
      && (forall i :: 0 <= i < |m.tables| ==>
            var t, raw := m.tables[i], RawTables(s)[i];
            && t.name == raw.name
            && t.description == (if raw.description.Some? then raw.description.value else "")
            && t.source == SourceLabel(raw.partitions)
            && |t.columns| == |raw.columns.GetOr([])|
            && |t.measures| == |raw.measures.GetOr([])|)
      && (forall i :: 0 <= i < |m.relationships| ==>
            var r, raw := m.relationships[i], RawRelationships(s)[i];
            r.fromTable == raw.fromTable && r.fromColumn == raw.fromColumn
            && r.toTable == raw.toTable && r.toColumn == raw.toColumn)
  {
  }

  /** Columns and measures keep their order; absent descriptions default to "". */
  lemma SimplifiedTableMirrorsRaw(t: RawTable)
    ensures var st := SimplifyTable(t);
      var cols, meas := t.columns.GetOr([]), t.measures.GetOr([]);
      && (forall i :: 0 <= i < |cols| ==>
            st.columns[i].name == cols[i].name && st.columns[i].dataType == cols[i].dataType
            && st.columns[i].description == (if cols[i].description.Some? then cols[i].description.value else ""))
      && (forall i :: 0 <= i < |meas| ==>
            st.measures[i].name == meas[i].name && st.measures[i].expression == meas[i].expression
            && st.measures[i].description == (if meas[i].description.Some? then meas[i].description.value else ""))
  {
  }

  /** A missing `model`, `tables` or `relationships` key yields empty lists, not a failure. */
  lemma MissingKeysGiveEmptyLists(s: Schema)
    ensures s.model.None? ==> SimplifiedModel(s) == Model([], [])
    ensures s.model.Some? && s.model.value.tables.None? ==> SimplifiedModel(s).tables == []
    ensures s.model.Some? && s.model.value.relationships.None? ==> SimplifiedModel(s).relationships == []
  {
  }
}
