/**
 * The parsed `DataModelSchema` document of a Power BI template, as far as the
 * simplifier reads it. Every JSON key the program looks up is an `Option`:
 * `None` means the key is absent from its object.
 */
module RawSchema {
  import opened Wrappers

  /** A partition's `source.expression`: Power BI writes either a list of lines or one string. */
  datatype Expression = Lines(lines: seq<string>) | Text(text: string) {
    /** Python truthiness of the value: a non-empty list or a non-empty string. */
    predicate Truthy() {
      match this
      case Lines(ls) => |ls| > 0
      case Text(s) => |s| > 0
    }
  }

  /** A partition's `source` object: keys `expression` and `type`. */
  datatype RawSource = RawSource(expression: Option<Expression>, kind: Option<string>)

  /** One element of a table's `partitions` list: key `source`. */
  datatype RawPartition = RawPartition(source: Option<RawSource>)

  /** One element of a table's `columns` list. */
  datatype RawColumn = RawColumn(name: Option<string>, dataType: Option<string>, description: Option<string>)

  /** One element of a table's `measures` list. */
  datatype RawMeasure = RawMeasure(name: Option<string>, expression: Option<Expression>, description: Option<string>)

  /** One element of `model.tables`. */
  datatype RawTable = RawTable(
    name: Option<string>,
    description: Option<string>,
    partitions: Option<seq<RawPartition>>,
    columns: Option<seq<RawColumn>>,
    measures: Option<seq<RawMeasure>>)

  /** One element of `model.relationships`. */
  datatype RawRelationship = RawRelationship(
    fromTable: Option<string>,
    fromColumn: Option<string>,
    toTable: Option<string>,
    toColumn: Option<string>)

  /** The `model` object: keys `tables` and `relationships`. */
  datatype RawModel = RawModel(tables: Option<seq<RawTable>>, relationships: Option<seq<RawRelationship>>)

  /** The whole document: key `model`. */
  datatype Schema = Schema(model: Option<RawModel>)
}
