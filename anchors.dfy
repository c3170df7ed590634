/**
 * Internal link targets. Every table gets the anchor `table_<index>`, and the
 * destination map sends a table name to an anchor; a later table with the
 * same name overwrites the entry of an earlier one.
 */
module Anchors {
  import opened Wrappers
  import opened Text
  import opened Simplifier

  /** Table name (possibly absent) to anchor. */
  type Destinations = map<Option<string>, string>

  /** `f"table_{idx}"`. */
  function Anchor(idx: nat): string
  {
    "table_" + Decimal(idx)
  }

  /** Two tables at different positions never share an anchor. */
  lemma AnchorInjective(i: nat, j: nat)
    requires i != j
    ensures Anchor(i) != Anchor(j)
  {
    DecimalInjective(i, j);
    assert Anchor(i)[6..] == Decimal(i);
    assert Anchor(j)[6..] == Decimal(j);
  }

  /**
   * The map the index loop fills in: `table_destinations[table["name"]] = f"table_{idx}"`.
   * Its keys are exactly the table names, absent names included.
   */
  function DestinationsOf(tables: seq<Table>): (dests: Destinations)
    ensures dests.Keys == Names(tables)
    decreases |tables|
  {
    if |tables| == 0 then map[]
    else DestinationsOf(tables[..|tables| - 1])[tables[|tables| - 1].name := Anchor(|tables| - 1)]
  }

  /** Table `i` is the last one carrying its name. */
  predicate IsLastWithName(tables: seq<Table>, i: int)
  {
    0 <= i < |tables| && forall j :: i < j < |tables| ==> tables[j].name != tables[i].name
  }

  /** The set of table names, absent names included. */
  function Names(tables: seq<Table>): set<Option<string>>
    decreases |tables|
  {
    if |tables| == 0 then {} else Names(tables[..|tables| - 1]) + {tables[|tables| - 1].name}
  }

  /** The names are exactly those of the tables. */
  lemma {:induction false} NamesOfTables(tables: seq<Table>)
    ensures forall i :: 0 <= i < |tables| ==> tables[i].name in Names(tables)
    ensures forall name :: name in Names(tables) ==> exists i :: 0 <= i < |tables| && tables[i].name == name
  {
    if |tables| > 0 {
      var n := |tables| - 1;
      NamesOfTables(tables[..n]);
      forall name | name in Names(tables)
        ensures exists i :: 0 <= i < |tables| && tables[i].name == name
      {
        if name != tables[n].name {
          var i :| 0 <= i < n && tables[..n][i].name == name;
          assert tables[i].name == name;
        }
      }
    }
  }

  /** Each name maps to the anchor of the LAST table that carries it. */
  lemma {:induction false} DestinationsLastWins(tables: seq<Table>, i: int)
    requires IsLastWithName(tables, i)
    ensures tables[i].name in DestinationsOf(tables)
    ensures DestinationsOf(tables)[tables[i].name] == Anchor(i)
  {
    var n := |tables| - 1;
    if i < n {
      var prefix := tables[..n];
      assert tables[n].name != tables[i].name;
      assert IsLastWithName(prefix, i);
      DestinationsLastWins(prefix, i);
    }
  }

  /** Every table name is a key of the map, so `table_destinations[name]` never fails. */
  lemma EveryNameHasDestination(tables: seq<Table>, i: int)
    requires 0 <= i < |tables|
    ensures tables[i].name in DestinationsOf(tables)
  {
    NamesOfTables(tables);
  }

  /** The position of the last table that has the same name as table `k`. */
  function LastWithSameName(tables: seq<Table>, k: nat): (r: nat)
    requires k < |tables|
    ensures IsLastWithName(tables, r) && tables[r].name == tables[k].name && k <= r
    decreases |tables|
  {
    var n := |tables| - 1;
    if tables[n].name == tables[k].name then n
    else
      var r := LastWithSameName(tables[..n], k);
      assert IsLastWithName(tables[..n], r);
      r
  }
}
