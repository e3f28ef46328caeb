/**
 * The OleDb reader's own processing (`OleDbSchemaReader`): the table name
 * read back out of a check-constraint name, the data types Jet leaves out of
 * its catalog, and the post-processing that replaces numeric type codes by
 * catalog type names. The OleDb schema calls themselves are not part of this
 * model; their result tables are parameters.
 */
module OleDbReading {
  import opened Wrappers
  import opened Text
  import opened DataSchema

  // ---------------------------------------------------------------- check constraints

  /** The `Substring` in the extraction cannot fail: when both markers occur, "]." comes after "[". */
  predicate Extractable(name: string) {
    IndexOf(name, "[") == -1 || IndexOf(name, "].") == -1 || IndexOf(name, "[") < IndexOf(name, "].")
  }

  /**
   * The table name in a constraint name such as `[Orders].[CK_Price]`: the
   * text between the first "[" and the first "]."; none for an empty name
   * or when either marker is missing.
   */
  function TableNameFromConstraintName(name: string): (r: Option<string>)
    requires Extractable(name)
    ensures r.None? <==> name == "" || IndexOf(name, "[") == -1 || IndexOf(name, "].") == -1
    ensures r.Some? ==> OccursAt(name, "[" + r.value + "].", IndexOf(name, "["))
  {
    if name == "" then None
    else
      var brace := IndexOf(name, "[");
      var endBrace := IndexOf(name, "].");
      if brace == -1 || endBrace == -1 then None
      else
        assert name[brace..brace + 1] == "[" && name[endBrace..endBrace + 2] == "].";
        Some(name[brace + 1..endBrace])
  }

  /** An occurrence inside a slice is an occurrence in the whole text, shifted by the slice's start. */
  lemma OccursInSlice(s: string, sub: string, lo: nat, hi: nat, k: int)
    requires lo <= hi <= |s|
    ensures OccursAt(s[lo..hi], sub, k) ==> OccursAt(s, sub, lo + k)
  {
    if OccursAt(s[lo..hi], sub, k) {
      var t := s[lo..hi];
      assert forall i :: 0 <= i < |sub| ==> s[lo + k + i] == t[k + i] == sub[i];
      assert s[lo + k..lo + k + |sub|] == sub;
    }
  }

  /** The extracted name runs up to the first "].": it never contains one itself. */
  lemma TableNameStopsAtFirstEnd(name: string)
    requires Extractable(name)
    ensures TableNameFromConstraintName(name).Some? ==> !Contains(TableNameFromConstraintName(name).value, "].")
  {
    var r := TableNameFromConstraintName(name);
    if r.Some? {
      var b, e := IndexOf(name, "["), IndexOf(name, "].");
      var table := r.value;
      assert table == name[b + 1..e];
      forall j | 0 <= j
        ensures !OccursAt(table, "].", j)
      {
        OccursInSlice(name, "].", b + 1, e, j);
      }
    }
  }

  /** A name written as "[T]." followed by anything, with no bracket ahead of it and no "]" in T, gives back T. */
  lemma TableNameRoundTrip(prefix: string, table: string, rest: string)
    requires forall i :: 0 <= i < |prefix| ==> prefix[i] != '[' && prefix[i] != ']'
    requires forall i :: 0 <= i < |table| ==> table[i] != ']'
    ensures Extractable(prefix + "[" + table + "]." + rest)
    ensures TableNameFromConstraintName(prefix + "[" + table + "]." + rest) == Some(table)
  {
    var name := prefix + "[" + table + "]." + rest;
    var b := |prefix|;
    var e := |prefix| + 1 + |table|;
    assert name[b..b + 1] == "[";
    assert name[b] == '[';
    forall j | 0 <= j < b
      ensures !OccursAt(name, "[", j)
    {
      assert name[j] == prefix[j];
    }
    IndexOfAt(name, "[", b);
    assert name[e..e + 2] == "].";
    forall j | 0 <= j < e
      ensures !OccursAt(name, "].", j)
    {
      if j < b {
        assert name[j] == prefix[j];
      } else if j > b {
        assert name[j] == table[j - b - 1];
      }
      assert name[j] != ']';
      if j + 2 <= |name| {
        assert name[j..j + 2][0] == name[j];
      }
    }
    IndexOfAt(name, "].", e);
    assert name[b + 1..e] == table;
  }

  /** A row of the check-constraint table, with the TABLE_NAME column the reader adds (initially null). */
  datatype CheckConstraintRow = CheckConstraintRow(constraintName: Option<string>, tableName: Option<string>)

  /** Every row can go through the extraction without the `Substring` failing. */
  predicate AllExtractable(rows: seq<CheckConstraintRow>) {
    forall i :: 0 <= i < |rows| ==> Extractable(Str(rows[i].constraintName))
  }

  /**
   * `CheckConstraints(tableName, connection)` after the schema call: fills the
   * TABLE_NAME of each row whose constraint name yields one, and leaves the
   * other rows as they are.
   */
  method CheckConstraints(rows: seq<CheckConstraintRow>) returns (table: seq<CheckConstraintRow>)
    requires AllExtractable(rows)
    ensures |table| == |rows|
    ensures forall i :: 0 <= i < |rows| ==> table[i].constraintName == rows[i].constraintName
    ensures forall i :: 0 <= i < |rows| ==>
              var found := TableNameFromConstraintName(Str(rows[i].constraintName));
              table[i].tableName == if found.Some? then found else rows[i].tableName
  {
    table := rows;
    var i := 0;
    while i < |table|
      invariant i <= |table| == |rows|
      invariant forall k :: 0 <= k < |rows| ==> table[k].constraintName == rows[k].constraintName
      invariant forall k :: i <= k < |rows| ==> table[k] == rows[k]
      invariant forall k :: 0 <= k < i ==>
                  var found := TableNameFromConstraintName(Str(rows[k].constraintName));
                  table[k].tableName == if found.Some? then found else rows[k].tableName
    {
      var name := Str(table[i].constraintName);
      if name != "" {
        var brace := IndexOf(name, "[");
        var endBrace := IndexOf(name, "].");
        if brace != -1 && endBrace != -1 {
          var t := name[brace + 1..endBrace];
          table := table[i := table[i].(tableName := Some(t))];
        }
      }
      i := i + 1;
    }
  }

  // ---------------------------------------------------------------- the data-type catalog

  /** A row of the provider's data-type table: its type code, engine type name and .NET type. */
  datatype TypeRow = TypeRow(providerDbType: int, typeName: string, dataType: string)

  /** The catalog has a row with this type code. */
  predicate HasTypeCode(rows: seq<TypeRow>, code: int) {
    exists k :: 0 <= k < |rows| && rows[k].providerDbType == code
  }

  /** The row Jet leaves out for its TEXT (memo) type, code 130. */
  const TextRow := TypeRow(130, "TEXT", "System.String")

  /** The row Jet leaves out for its Binary (OLE object) type, code 128. */
  const BinaryRow := TypeRow(128, "Binary", "System.Byte[]")

  /**
   * The gap-fill as a function of the catalog: the TEXT row when no row has
   * code 130, then the Binary row when no row has code 128. The catalog is
   * kept as a prefix, both codes are present afterwards, and a missing TEXT
   * row comes before a missing Binary row.
   */
  function GapFilled(catalog: seq<TypeRow>): (r: seq<TypeRow>)
    ensures |catalog| <= |r| && r[..|catalog|] == catalog
    ensures HasTypeCode(r, 130) && HasTypeCode(r, 128)
    ensures |r| == |catalog| + (if HasTypeCode(catalog, 130) then 0 else 1) + (if HasTypeCode(catalog, 128) then 0 else 1)
    ensures !HasTypeCode(catalog, 130) ==> r[|catalog|] == TextRow
    ensures !HasTypeCode(catalog, 128) ==> r[|r| - 1] == BinaryRow
  {
    var withText := if HasTypeCode(catalog, 130) then catalog else catalog + [TextRow];
    TextFilled(catalog);
    KeepsTypeCode(withText, BinaryRow, 130);
    if HasTypeCode(withText, 128) then withText
    else
      assert (withText + [BinaryRow])[|withText|].providerDbType == 128;
      withText + [BinaryRow]
  }

  /** After the TEXT step code 130 is present, and code 128 is present exactly when it was before. */
  lemma TextFilled(catalog: seq<TypeRow>)
    ensures var withText := if HasTypeCode(catalog, 130) then catalog else catalog + [TextRow];
            HasTypeCode(withText, 130) && (HasTypeCode(withText, 128) <==> HasTypeCode(catalog, 128))
  {
    if !HasTypeCode(catalog, 130) {
      var withText := catalog + [TextRow];
      assert withText[|catalog|].providerDbType == 130;
      KeepsTypeCode(catalog, TextRow, 128);
      if HasTypeCode(withText, 128) {
        var j :| 0 <= j < |withText| && withText[j].providerDbType == 128;
        assert j < |catalog| && catalog[j] == withText[j];
      }
    }
  }

  /**
   * `DataTypes(connection)` after the base catalog read: adds the TEXT row when
   * no row has code 130, then the Binary row when no row has code 128.
   */
  method DataTypes(catalog: seq<TypeRow>) returns (rows: seq<TypeRow>)
    ensures rows == GapFilled(catalog)
    ensures |catalog| <= |rows| && rows[..|catalog|] == catalog
    ensures HasTypeCode(rows, 130) && HasTypeCode(rows, 128)
    ensures |rows| == |catalog| + (if HasTypeCode(catalog, 130) then 0 else 1) + (if HasTypeCode(catalog, 128) then 0 else 1)
    ensures forall k :: |catalog| <= k < |rows| ==> rows[k] in {TextRow, BinaryRow}
  {
    rows := catalog;
    if !HasTypeCode(rows, 130) {
      rows := rows + [TextRow];
      assert rows[|rows| - 1] == TextRow;
    }
    if !HasTypeCode(rows, 128) {
      KeepsTypeCode(rows, BinaryRow, 130);
      rows := rows + [BinaryRow];
      assert rows[|rows| - 1] == BinaryRow;
    }
  }

  /** Appending a row keeps every type code already present. */
  lemma KeepsTypeCode(rows: seq<TypeRow>, row: TypeRow, code: int)
    ensures HasTypeCode(rows, code) ==> HasTypeCode(rows + [row], code)
  {
    if HasTypeCode(rows, code) {
      var k :| 0 <= k < |rows| && rows[k].providerDbType == code;
      assert (rows + [row])[k] == rows[k];
    }
  }

  /** Filling the gaps a second time adds nothing: what `DataTypes` returns has both codes. */
  lemma GapFillIdempotent(catalog: seq<TypeRow>)
    ensures GapFilled(GapFilled(catalog)) == GapFilled(catalog)
  {
  }

  /** Run again on its own output, `DataTypes` returns that output unchanged. */
  method DataTypesRerun(catalog: seq<TypeRow>) returns (first: seq<TypeRow>, second: seq<TypeRow>)
    ensures first == GapFilled(catalog) && second == first
  {
    first := DataTypes(catalog);
    second := DataTypes(first);
    GapFillIdempotent(catalog);
  }

  /** A catalog that already has both codes is left exactly as it is. */
  lemma GapFillKeepsCompleteCatalog(catalog: seq<TypeRow>)
    requires HasTypeCode(catalog, 130) && HasTypeCode(catalog, 128)
    ensures GapFilled(catalog) == catalog
  {
  }

  // ---------------------------------------------------------------- post-processing

  /** A column with a catalog data type takes that type's name as its database type; others stay as they are. */
  function Retyped(c: Column): (r: Column)
    ensures c.dataType.None? ==> r == c
    ensures c.dataType.Some? ==> r.dbDataType == Some(c.dataType.value.typeName)
    ensures r.(dbDataType := c.dbDataType) == c
  {
    if c.dataType.Some? then c.(dbDataType := Some(c.dataType.value.typeName)) else c
  }

  /** Re-typing a column twice is re-typing it once. */
  lemma RetypedIdempotent(c: Column)
    ensures Retyped(Retyped(c)) == Retyped(c)
  {
  }

  /** Every column re-typed, in place. */
  function RetypedColumns(cs: seq<Column>): (r: seq<Column>)
    ensures |r| == |cs| && forall i :: 0 <= i < |cs| ==> r[i] == Retyped(cs[i])
  {
    seq(|cs|, i requires 0 <= i < |cs| => Retyped(cs[i]))
  }

  function RetypedTables(ts: seq<Table>): (r: seq<Table>)
    ensures |r| == |ts| && forall i :: 0 <= i < |ts| ==> r[i] == ts[i].(columns := RetypedColumns(ts[i].columns))
  {
    seq(|ts|, i requires 0 <= i < |ts| => ts[i].(columns := RetypedColumns(ts[i].columns)))
  }

  function RetypedViews(vs: seq<View>): (r: seq<View>)
    ensures |r| == |vs| && forall i :: 0 <= i < |vs| ==> r[i] == vs[i].(columns := RetypedColumns(vs[i].columns))
  {
    seq(|vs|, i requires 0 <= i < |vs| => vs[i].(columns := RetypedColumns(vs[i].columns)))
  }

  /** Post-processing a second time changes nothing. */
  lemma RetypedTablesIdempotent(ts: seq<Table>, vs: seq<View>)
    ensures RetypedTables(RetypedTables(ts)) == RetypedTables(ts)
    ensures RetypedViews(RetypedViews(vs)) == RetypedViews(vs)
  {
    forall i | 0 <= i < |ts|
      ensures RetypedColumns(RetypedColumns(ts[i].columns)) == RetypedColumns(ts[i].columns)
    {
      var cs := ts[i].columns;
      assert forall k :: 0 <= k < |cs| ==> Retyped(Retyped(cs[k])) == Retyped(cs[k]);
    }
    forall i | 0 <= i < |vs|
      ensures RetypedColumns(RetypedColumns(vs[i].columns)) == RetypedColumns(vs[i].columns)
    {
      var cs := vs[i].columns;
      assert forall k :: 0 <= k < |cs| ==> Retyped(Retyped(cs[k])) == Retyped(cs[k]);
    }
  }

  /** `UpdateColumnDataTypes(columns)`: each column with a data type takes its type name. */
  method UpdateColumnDataTypes(columns: seq<Column>) returns (r: seq<Column>)
    ensures r == RetypedColumns(columns)
  {
    r := columns;
    var i := 0;
    while i < |r|
      invariant i <= |r| == |columns|
      invariant forall k :: 0 <= k < i ==> r[k] == Retyped(columns[k])
      invariant forall k :: i <= k < |r| ==> r[k] == columns[k]
    {
      var column := r[i];
      if column.dataType.Some? {
        r := r[i := column.(dbDataType := Some(column.dataType.value.typeName))];
      }
      i := i + 1;
    }
  }

  /**
   * `PostProcessing(schema)`: nothing when the data-type catalog is empty;
   * otherwise every table column and then every view column is re-typed.
   */
  method PostProcessing(schema: DatabaseSchema)
    modifies schema
    ensures schema.dataTypes == [] ==> schema.tables == old(schema.tables) && schema.views == old(schema.views)
    ensures schema.dataTypes != [] ==>
              schema.tables == RetypedTables(old(schema.tables)) && schema.views == RetypedViews(old(schema.views))
    ensures unchanged(schema`dataTypes, schema`storedProcedures, schema`functions, schema`provider, schema`connectionString)
  {
    if |schema.dataTypes| == 0 {
      return;
    }
    var tables := schema.tables;
    var views := schema.views;
    var i := 0;
    while i < |tables|
      invariant i <= |tables| == |old(schema.tables)|
      invariant forall k :: 0 <= k < i ==> tables[k] == old(schema.tables)[k].(columns := RetypedColumns(old(schema.tables)[k].columns))
      invariant forall k :: i <= k < |tables| ==> tables[k] == old(schema.tables)[k]
      invariant unchanged(schema)
    {
      var columns := UpdateColumnDataTypes(tables[i].columns);
      tables := tables[i := tables[i].(columns := columns)];
      i := i + 1;
    }
    var j := 0;
    while j < |views|
      invariant j <= |views| == |old(schema.views)|
      invariant forall k :: 0 <= k < j ==> views[k] == old(schema.views)[k].(columns := RetypedColumns(old(schema.views)[k].columns))
      invariant forall k :: j <= k < |views| ==> views[k] == old(schema.views)[k]
      invariant unchanged(schema)
    {
      var columns := UpdateColumnDataTypes(views[j].columns);
      views := views[j := views[j].(columns := columns)];
      j := j + 1;
    }
    schema.tables := tables;
    schema.views := views;
  }
}
