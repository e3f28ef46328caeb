/**
 * The Oracle whole-schema generator (`Oracle.TablesGenerator`): the
 * commented-out drop script written ahead of the CREATE statements, and the
 * Oracle helpers it hands each table to. `StringEscaper.Escape` is not part of
 * this model and is a parameter.
 */
module OracleTablesGenerator {
  import opened Wrappers
  import opened Text
  import opened DataSchema
  import opened DdlFactory

  /** A constraint writer: the dialect's `ConstraintWriter` over one table. */
  datatype ConstraintWriterOf = ConstraintWriterOf(dialect: SqlType, table: Table)

  /** The commented drop line for a table: the escaped name reads back from between the fixed parts. */
  function DropTableLine(t: Table, escape: string -> string): (r: string)
    ensures StartsWith(r, "-- DROP TABLE ") && EndsWith(r, " CASCADE CONSTRAINTS;")
    ensures |r| == |escape(t.name)| + 35 && r[14..|r| - 21] == escape(t.name)
  {
    "-- DROP TABLE " + escape(t.name) + " CASCADE CONSTRAINTS;"
  }

  /** The commented drop line for an identity table's sequence: the name reads back unescaped. */
  function DropSequenceLine(t: Table): (r: string)
    ensures StartsWith(r, "-- DROP SEQUENCE ") && EndsWith(r, "_SEQUENCE;")
    ensures |r| == |t.name| + 27 && r[17..|r| - 10] == t.name
  {
    "-- DROP SEQUENCE " + t.name + "_SEQUENCE;"
  }

  /** The lines one table contributes: its drop line, then its sequence line when it has an identity column. */
  function TableDrops(t: Table, escape: string -> string): (r: seq<string>)
    ensures |r| == if HasIdentityColumn(t) then 2 else 1
    ensures r[0] == DropTableLine(t, escape)
    ensures |r| == 2 ==> r[1] == DropSequenceLine(t)
  {
    [DropTableLine(t, escape)] + if HasIdentityColumn(t) then [DropSequenceLine(t)] else []
  }

  /** The lines of the drop script, table by table in schema order. */
  function DropLines(tables: seq<Table>, escape: string -> string): seq<string> {
    if tables == [] then []
    else DropLines(tables[..|tables| - 1], escape) + TableDrops(tables[|tables| - 1], escape)
  }

  /** How many of the tables have an identity column. */
  function IdentityCount(tables: seq<Table>): nat {
    if tables == [] then 0
    else IdentityCount(tables[..|tables| - 1]) + if HasIdentityColumn(tables[|tables| - 1]) then 1 else 0
  }

  /** Where the lines of table `k` start: one line for each earlier table, one more for each earlier identity table. */
  function LinePosition(tables: seq<Table>, k: nat): nat
    requires k <= |tables|
  {
    k + IdentityCount(tables[..k])
  }

  /** There is one line per table plus one per identity table. */
  lemma {:induction false} DropLineCount(tables: seq<Table>, escape: string -> string)
    ensures |DropLines(tables, escape)| == |tables| + IdentityCount(tables)
  {
    if tables != [] {
      DropLineCount(tables[..|tables| - 1], escape);
    }
  }

  /** Every line of the drop script is an SQL comment. */
  lemma {:induction false} DropLinesCommented(tables: seq<Table>, escape: string -> string)
    ensures forall i :: 0 <= i < |DropLines(tables, escape)| ==> StartsWith(DropLines(tables, escape)[i], "-- ")
  {
    if tables != [] {
      var init := tables[..|tables| - 1];
      DropLinesCommented(init, escape);
      var last := TableDrops(tables[|tables| - 1], escape);
      assert forall i :: 0 <= i < |last| ==> StartsWith(last[i], "-- ");
    }
  }

  /** The lines of table `k + 1` start after the one or two lines of table `k`. */
  lemma LinePositionNext(tables: seq<Table>, escape: string -> string, k: nat)
    requires k < |tables|
    ensures LinePosition(tables, k + 1) == LinePosition(tables, k) + |TableDrops(tables[k], escape)|
  {
    assert tables[..k + 1][..k] == tables[..k];
  }

  /**
   * The lines of table `k` sit between its position and the next table's, in
   * schema order: its drop line, then its sequence line exactly when it has an
   * identity column.
   */
  lemma {:induction false} DropLinesOfTable(tables: seq<Table>, escape: string -> string, k: nat)
    requires k < |tables|
    ensures LinePosition(tables, k) < LinePosition(tables, k + 1) <= |DropLines(tables, escape)|
    ensures DropLines(tables, escape)[LinePosition(tables, k)..LinePosition(tables, k + 1)]
            == TableDrops(tables[k], escape)
  {
    var init := tables[..|tables| - 1];
    var head := DropLines(init, escape);
    var last := TableDrops(tables[|tables| - 1], escape);
    assert DropLines(tables, escape) == head + last;
    LinePositionNext(tables, escape, k);
    DropLineCount(init, escape);
    var a, b := LinePosition(tables, k), LinePosition(tables, k + 1);
    if k == |tables| - 1 {
      assert tables[..k] == init;
      assert a == |head| && b == |head| + |last|;
      assert (head + last)[a..b] == last;
    } else {
      DropLinesOfTable(init, escape, k);
      assert init[..k] == tables[..k];
      assert init[..k + 1] == tables[..k + 1];
      assert LinePosition(init, k) == a && LinePosition(init, k + 1) == b && b <= |head|;
      assert (head + last)[..|head|] == head;
      assert (head + last)[a..b] == (head + last)[..|head|][a..b];
    }
  }

  /** Writing two runs of lines one after the other writes their concatenation. */
  lemma {:induction false} AppendLinesConcat(front: seq<string>, back: seq<string>)
    ensures AppendLines(front + back) == AppendLines(front) + AppendLines(back)
  {
    if back == [] {
      assert front + back == front;
    } else {
      var init, last := back[..|back| - 1], back[|back| - 1];
      AppendLinesConcat(front, init);
      assert (front + back)[..|front + back| - 1] == front + init;
      var a, b := AppendLines(front), AppendLines(init);
      assert a + b + last + NewLine == a + (b + last + NewLine);
    }
  }

  /** The lines for the first `i + 1` tables are those for the first `i`, then table `i`'s. */
  lemma DropLinesNext(tables: seq<Table>, i: nat, escape: string -> string)
    requires i < |tables|
    ensures DropLines(tables[..i + 1], escape) == DropLines(tables[..i], escape) + TableDrops(tables[i], escape)
  {
    assert tables[..i + 1][..i] == tables[..i];
  }

  /** `Oracle.TablesGenerator` over one schema. */
  class TablesGenerator {
    const schema: DatabaseSchema

    constructor(schema: DatabaseSchema)
      ensures this.schema == schema
    {
      this.schema := schema;
    }

    /** `LoadConstraintWriter(table)`: the Oracle constraint writer, over the given table. */
    function LoadConstraintWriter(table: Table): (r: ConstraintWriterOf)
      ensures r.dialect == Oracle && r.table == table
    {
      ConstraintWriterOf(Oracle, table)
    }

    /** `LoadTableGenerator(table)`: the Oracle table generator, over the given table. */
    function LoadTableGenerator(table: Table): (r: TableGeneratorOf)
      ensures r.dialect == Oracle && r.table == table
    {
      TableGeneratorOf(Oracle, table)
    }

    /** `WriteDrops(sb)`: appends the drop script for the schema's tables to the builder's text `sb`. */
    method WriteDrops(sb: string, escape: string -> string) returns (r: string)
      ensures r == sb + AppendLines(DropLines(schema.tables, escape))
    {
      var tables := schema.tables;
      r := sb;
      var i := 0;
      while i < |tables|
        invariant i <= |tables|
        invariant r == sb + AppendLines(DropLines(tables[..i], escape))
      {
        var text := WriteTableDrops(tables[i], escape);
        DropTextNext(sb, tables, i, escape);
        r := r + text;
        i := i + 1;
      }
      assert tables[..i] == tables;
    }
  }

  /** The lines one table adds to the drop script: its drop line, then its sequence line for an identity table. */
  method WriteTableDrops(t: Table, escape: string -> string) returns (text: string)
    ensures text == AppendLines(TableDrops(t, escape))
  {
    var line := DropTableLine(t, escape);
    text := line + NewLine;
    assert [line][..0] == [];
    assert AppendLines([line]) == "" + line + NewLine;
    assert "" + line == line;
    if HasIdentityColumn(t) {
      var sequenceLine := DropSequenceLine(t);
      assert [line, sequenceLine][..1] == [line];
      assert AppendLines([line, sequenceLine]) == text + sequenceLine + NewLine;
      text := text + sequenceLine + NewLine;
    }
  }

  /** The drop script for the first `i + 1` tables is that for the first `i`, then table `i`'s lines. */
  lemma DropTextNext(sb: string, tables: seq<Table>, i: nat, escape: string -> string)
    requires i < |tables|
    ensures sb + AppendLines(DropLines(tables[..i + 1], escape))
            == sb + AppendLines(DropLines(tables[..i], escape)) + AppendLines(TableDrops(tables[i], escape))
  {
    DropLinesNext(tables, i, escape);
    var a, b := AppendLines(DropLines(tables[..i], escape)), AppendLines(TableDrops(tables[i], escape));
    AppendLinesConcat(DropLines(tables[..i], escape), TableDrops(tables[i], escape));
    assert sb + (a + b) == sb + a + b;
  }

  /** The Oracle whole-schema generator hands tables to the same generator the factory makes for Oracle. */
  lemma OracleTableGeneratorAgrees(g: TablesGenerator, f: DdlGeneratorFactory, table: Table)
    requires f.sqlType == Oracle
    ensures f.TableGenerator(table) == Some(g.LoadTableGenerator(table))
  {
  }
}
