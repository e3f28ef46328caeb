/**
 * The Oracle `TableGenerator`: translation of a column's (SQL Server style)
 * type into an Oracle column definition with its DEFAULT clause and NOT NULL
 * suffix, and the CREATE TABLE script written for one table.
 */
module OracleTableGenerator {
  import opened Wrappers
  import opened Text
  import opened Numeric
  import opened DataSchema

  /** The working values `WriteDataType` rebinds: the type name, precision and scale. */
  datatype OracleType = OracleType(name: string, precision: Option<int>, scale: Option<int>)

  /** The lifted C# comparison `length > limit`: false when the length is null. */
  predicate LongerThan(length: Option<int>, limit: int) {
    length.Some? && length.value > limit
  }

  /** The names the translation step rewrites. */
  const TranslatedNames: set<string> :=
    {"BOOLEAN", "VARBINARY", "IMAGE", "NVARCHAR", "VARCHAR", "NTEXT", "TEXT",
     "DATETIME", "NUMERIC", "INT", "BIT", "DECIMAL", "MONEY"}

  /** The Oracle names the definition step writes out itself. */
  const OracleNames: set<string> :=
    {"NVARCHAR2", "VARCHAR2", "NUMBER", "CHAR", "DATE", "TIMESTAMP", "CLOB", "BLOB"}

  /**
   * The SQL Server to Oracle translation, one rewrite after another in the
   * order the generator applies them, starting from the upper-cased name.
   */
  function TranslateType(upper: string, length: Option<int>, precision: Option<int>, scale: Option<int>): (r: OracleType)
    ensures r.name == upper || r.name in OracleNames
    ensures upper !in TranslatedNames ==> r == OracleType(upper, precision, scale)
  {
    var t0 := if upper == "BOOLEAN" then OracleType("NUMBER", Some(1), Some(0)) else OracleType(upper, precision, scale);
    var t1 := if t0.name == "VARBINARY" || t0.name == "IMAGE" then t0.(name := "BLOB") else t0;
    var t2 := if t1.name == "NVARCHAR" && LongerThan(length, 4000) then t1.(name := "CLOB") else t1;
    var t3 := if t2.name == "NVARCHAR" then t2.(name := "NVARCHAR2") else t2;
    var t4 := if t3.name == "VARCHAR" then t3.(name := "VARCHAR2") else t3;
    var t5 := if t4.name == "NTEXT" || t4.name == "TEXT" then t4.(name := "CLOB") else t4;
    var t6 := if t5.name == "DATETIME" then t5.(name := "DATE") else t5;
    var t7 := if t6.name == "NUMERIC" then t6.(name := "NUMBER") else t6;
    var t8 := if t7.name == "INT" then OracleType("NUMBER", Some(38), Some(0)) else t7;
    var t9 := if t8.name == "BIT" then OracleType("NUMBER", Some(1), Some(0)) else t8;
    var t10 := if t9.name == "DECIMAL" then OracleType("NUMBER", Some(18), Some(0)) else t9;
    if t10.name == "MONEY" then OracleType("NUMBER", Some(15), Some(4)) else t10
  }

  /** BOOLEAN and BIT become NUMBER(1,0), whatever the column's own precision and scale. */
  lemma TranslateBit(upper: string, length: Option<int>, precision: Option<int>, scale: Option<int>)
    requires upper == "BOOLEAN" || upper == "BIT"
    ensures TranslateType(upper, length, precision, scale) == OracleType("NUMBER", Some(1), Some(0))
  {
  }

  /** INT becomes NUMBER(38,0) and DECIMAL becomes NUMBER(18,0). */
  lemma TranslateIntDecimal(upper: string, length: Option<int>, precision: Option<int>, scale: Option<int>)
    ensures upper == "INT" ==> TranslateType(upper, length, precision, scale) == OracleType("NUMBER", Some(38), Some(0))
    ensures upper == "DECIMAL" ==> TranslateType(upper, length, precision, scale) == OracleType("NUMBER", Some(18), Some(0))
  {
  }

  /** MONEY becomes NUMBER(15,4); NUMERIC becomes NUMBER with the column's precision and scale. */
  lemma TranslateMoneyNumeric(upper: string, length: Option<int>, precision: Option<int>, scale: Option<int>)
    ensures upper == "MONEY" ==> TranslateType(upper, length, precision, scale) == OracleType("NUMBER", Some(15), Some(4))
    ensures upper == "NUMERIC" ==> TranslateType(upper, length, precision, scale) == OracleType("NUMBER", precision, scale)
  {
  }

  /** VARBINARY and IMAGE become BLOB. */
  lemma TranslateBinary(upper: string, length: Option<int>, precision: Option<int>, scale: Option<int>)
    requires upper == "VARBINARY" || upper == "IMAGE"
    ensures TranslateType(upper, length, precision, scale) == OracleType("BLOB", precision, scale)
  {
  }

  /** NVARCHAR becomes CLOB beyond 4000 characters and NVARCHAR2 otherwise (a null length included). */
  lemma TranslateNVarchar(upper: string, length: Option<int>, precision: Option<int>, scale: Option<int>)
    requires upper == "NVARCHAR"
    ensures LongerThan(length, 4000) ==> TranslateType(upper, length, precision, scale) == OracleType("CLOB", precision, scale)
    ensures !LongerThan(length, 4000) ==>
              TranslateType(upper, length, precision, scale) == OracleType("NVARCHAR2", precision, scale)
  {
  }

  /** VARCHAR becomes VARCHAR2 and DATETIME becomes DATE. */
  lemma TranslateVarcharDatetime(upper: string, length: Option<int>, precision: Option<int>, scale: Option<int>)
    ensures upper == "VARCHAR" ==> TranslateType(upper, length, precision, scale) == OracleType("VARCHAR2", precision, scale)
    ensures upper == "DATETIME" ==> TranslateType(upper, length, precision, scale) == OracleType("DATE", precision, scale)
  {
  }

  /** NTEXT and TEXT become CLOB. */
  lemma TranslateText(upper: string, length: Option<int>, precision: Option<int>, scale: Option<int>)
    requires upper == "NTEXT" || upper == "TEXT"
    ensures TranslateType(upper, length, precision, scale) == OracleType("CLOB", precision, scale)
  {
  }

  /** TIMESTAMP is not translated: it keeps the column's precision and scale. */
  lemma TranslateTimestamp(length: Option<int>, precision: Option<int>, scale: Option<int>)
    ensures TranslateType("TIMESTAMP", length, precision, scale) == OracleType("TIMESTAMP", precision, scale)
  {
    assert "TIMESTAMP" !in TranslatedNames;
  }

  /** The Oracle type of a column: its type name upper-cased, then translated. */
  function ColumnType(column: Column): OracleType
    requires column.dbDataType.Some?
  {
    TranslateType(ToUpper(column.dbDataType.value), column.length, column.precision, column.scale)
  }

  /**
   * The type part of the definition of a column whose translated type is `t`:
   * a length for the character types, a precision (and a positive scale) for
   * NUMBER, a precision defaulting to 6 for TIMESTAMP, and the column's own
   * type text `raw` for any other name.
   */
  function TypeClause(t: OracleType, length: Option<int>, raw: string): (r: string)
    ensures t.name !in OracleNames ==> r == raw
    ensures t.name in OracleNames ==> r != ""
  {
    if t.name == "NVARCHAR2" then "NVARCHAR2 (" + IntText(length) + ")"
    else if t.name == "VARCHAR2" then "VARCHAR2 (" + IntText(length) + " CHAR)"
    else if t.name == "NUMBER" then
      var writeScale := if t.scale.Some? && t.scale.value > 0 then "," + IntToString(t.scale.value) else "";
      "NUMBER (" + IntText(t.precision) + writeScale + ")"
    else if t.name == "CHAR" then "CHAR (" + IntText(length) + ")"
    else if t.name == "DATE" then "DATE"
    else if t.name == "TIMESTAMP" then
      "TIMESTAMP" + (if t.precision.Some? then " (" + IntToString(t.precision.value) + ")" else " (6)")
    else if t.name == "CLOB" then "CLOB "
    else if t.name == "BLOB" then "BLOB "
    else raw
  }

  /** `AddQuotedDefault`: the default value between single quotes. */
  function QuotedDefault(value: string): (r: string)
    ensures |r| == |value| + 11
    ensures StartsWith(r, " DEFAULT '") && EndsWith(r, "'")
    ensures r[10..|r| - 1] == value
  {
    " DEFAULT '" + value + "'"
  }

  /**
   * The DEFAULT part for the Oracle type name `name`: nothing for a null or
   * empty default; the bare value for NUMBER; DATE and TIMESTAMP literals; a
   * quoted string for every other type.
   */
  function DefaultClause(name: string, defaultValue: Option<string>): (r: string)
    ensures r == "" <==> IsNullOrEmpty(defaultValue)
    ensures r != "" ==> StartsWith(r, " DEFAULT ")
  {
    if IsNullOrEmpty(defaultValue) then ""
    else
      var value := defaultValue.value;
      if name == "NUMBER" then " DEFAULT " + value
      else if name == "DATE" then " DEFAULT DATE '" + value + "'"
      else if name == "TIMESTAMP" then " DEFAULT TIMESTAMP '" + value + "'"
      else QuotedDefault(value)
  }

  const NotNull: string := " NOT NULL"

  /** The definition of a column of type `raw` with the given sizes and default, before NOT NULL. */
  function DefinitionOf(raw: string, length: Option<int>, precision: Option<int>, scale: Option<int>,
                        defaultValue: Option<string>): string
  {
    var t := TranslateType(ToUpper(raw), length, precision, scale);
    TypeClause(t, length, raw) + DefaultClause(t.name, defaultValue)
  }

  /** The column's definition before the NOT NULL suffix: type clause, then default clause. */
  function Definition(column: Column): string
    requires column.dbDataType.Some?
  {
    DefinitionOf(column.dbDataType.value, column.length, column.precision, column.scale, column.defaultValue)
  }

  /**
   * `WriteDataType`: the definition, then " NOT NULL" for a column that is
   * not nullable. A null type name makes the upper-casing throw, hence the
   * precondition.
   */
  function WriteDataType(column: Column): (r: string)
    requires column.dbDataType.Some?
    ensures !column.nullable ==> EndsWith(r, NotNull)
    ensures StartsWith(r, Definition(column))
  {
    Definition(column) + (if !column.nullable then NotNull else "")
  }

  /** Nullability only decides the " NOT NULL" suffix; nothing before it changes. */
  lemma NotNullSuffix(column: Column)
    requires column.dbDataType.Some?
    ensures WriteDataType(column.(nullable := false)) == WriteDataType(column.(nullable := true)) + NotNull
    ensures column.nullable ==> WriteDataType(column) == Definition(column)
  {
  }

  lemma SmallNumerals()
    ensures IntToString(1) == "1" && IntToString(4) == "4"
    ensures IntToString(15) == "15" && IntToString(18) == "18" && IntToString(38) == "38"
  {
    assert NatToString(15) == NatToString(1) + [DigitChar(5)];
    assert NatToString(18) == NatToString(1) + [DigitChar(8)];
    assert NatToString(38) == NatToString(3) + [DigitChar(8)];
  }

  /** The type clause of a column: translate its upper-cased name, then write it. */
  function ColumnTypeClause(column: Column): string
    requires column.dbDataType.Some?
  {
    TypeClause(ColumnType(column), column.length, column.dbDataType.value)
  }

  /** INT and DECIMAL are written with their fixed precision, whatever the column's own. */
  lemma IntDecimalClauses(column: Column)
    requires column.dbDataType.Some?
    ensures ToUpper(column.dbDataType.value) == "INT" ==> ColumnTypeClause(column) == "NUMBER (38)"
    ensures ToUpper(column.dbDataType.value) == "DECIMAL" ==> ColumnTypeClause(column) == "NUMBER (18)"
  {
    SmallNumerals();
    TranslateIntDecimal(ToUpper(column.dbDataType.value), column.length, column.precision, column.scale);
  }

  /** BIT and BOOLEAN are written as NUMBER (1), whatever the column's own precision. */
  lemma BitClause(column: Column)
    requires column.dbDataType.Some?
    requires ToUpper(column.dbDataType.value) == "BIT" || ToUpper(column.dbDataType.value) == "BOOLEAN"
    ensures ColumnTypeClause(column) == "NUMBER (1)"
  {
    SmallNumerals();
    TranslateBit(ToUpper(column.dbDataType.value), column.length, column.precision, column.scale);
  }

  /** MONEY is written as NUMBER (15,4), whatever the column's own precision and scale. */
  lemma MoneyClause(column: Column)
    requires column.dbDataType.Some? && ToUpper(column.dbDataType.value) == "MONEY"
    ensures ColumnTypeClause(column) == "NUMBER (15,4)"
  {
    SmallNumerals();
    TranslateMoneyNumeric(ToUpper(column.dbDataType.value), column.length, column.precision, column.scale);
  }

  /** NUMBER and NUMERIC keep the column's precision; ",scale" is written only for a scale above 0. */
  lemma NumberScale(column: Column)
    requires column.dbDataType.Some?
    requires ToUpper(column.dbDataType.value) == "NUMBER" || ToUpper(column.dbDataType.value) == "NUMERIC"
    ensures column.scale.Some? && column.scale.value > 0 ==>
              ColumnTypeClause(column) == "NUMBER (" + IntText(column.precision) + "," + IntToString(column.scale.value) + ")"
    ensures !(column.scale.Some? && column.scale.value > 0) ==>
              ColumnTypeClause(column) == "NUMBER (" + IntText(column.precision) + ")"
  {
    var upper := ToUpper(column.dbDataType.value);
    TranslateMoneyNumeric(upper, column.length, column.precision, column.scale);
    assert TranslateType(upper, column.length, column.precision, column.scale)
           == OracleType("NUMBER", column.precision, column.scale);
  }

  /** NVARCHAR beyond 4000 characters becomes CLOB; otherwise its length is written. */
  lemma NVarcharClause(column: Column)
    requires column.dbDataType.Some? && ToUpper(column.dbDataType.value) == "NVARCHAR"
    ensures LongerThan(column.length, 4000) ==> ColumnTypeClause(column) == "CLOB "
    ensures !LongerThan(column.length, 4000) ==>
              ColumnTypeClause(column) == "NVARCHAR2 (" + IntText(column.length) + ")"
  {
    TranslateNVarchar(ToUpper(column.dbDataType.value), column.length, column.precision, column.scale);
  }

  /** VARCHAR lengths are written in characters; TEXT and NTEXT become CLOB. */
  lemma VarcharTextClauses(column: Column)
    requires column.dbDataType.Some?
    ensures ToUpper(column.dbDataType.value) == "VARCHAR" ==>
              ColumnTypeClause(column) == "VARCHAR2 (" + IntText(column.length) + " CHAR)"
    ensures ToUpper(column.dbDataType.value) == "TEXT" || ToUpper(column.dbDataType.value) == "NTEXT" ==>
              ColumnTypeClause(column) == "CLOB "
  {
    var upper := ToUpper(column.dbDataType.value);
    TranslateVarcharDatetime(upper, column.length, column.precision, column.scale);
    if upper == "TEXT" || upper == "NTEXT" {
      TranslateText(upper, column.length, column.precision, column.scale);
    }
  }

  /** A TIMESTAMP without a precision is written with precision 6. */
  lemma TimestampPrecision(column: Column)
    requires column.dbDataType.Some? && ToUpper(column.dbDataType.value) == "TIMESTAMP"
    ensures column.precision.None? ==> ColumnTypeClause(column) == "TIMESTAMP (6)"
    ensures column.precision.Some? ==>
              ColumnTypeClause(column) == "TIMESTAMP (" + IntToString(column.precision.value) + ")"
  {
    TranslateTimestamp(column.length, column.precision, column.scale);
  }

  /** A name neither translated nor known to Oracle is written as the column's own, not upper-cased, text. */
  lemma UnknownTypeKept(column: Column)
    requires column.dbDataType.Some?
    requires ToUpper(column.dbDataType.value) !in TranslatedNames
    requires ToUpper(column.dbDataType.value) !in OracleNames
    ensures ColumnTypeClause(column) == column.dbDataType.value
  {
  }

  /** The numeric types take their default bare. */
  lemma NumberDefault(column: Column)
    requires column.dbDataType.Some? && !IsNullOrEmpty(column.defaultValue)
    requires ToUpper(column.dbDataType.value) in {"NUMBER", "NUMERIC", "INT", "BIT", "BOOLEAN", "DECIMAL", "MONEY"}
    ensures DefaultClause(ColumnType(column).name, column.defaultValue) == " DEFAULT " + column.defaultValue.value
  {
    var upper := ToUpper(column.dbDataType.value);
    if upper == "BIT" || upper == "BOOLEAN" {
      TranslateBit(upper, column.length, column.precision, column.scale);
    } else if upper == "INT" || upper == "DECIMAL" {
      TranslateIntDecimal(upper, column.length, column.precision, column.scale);
    } else if upper == "MONEY" || upper == "NUMERIC" {
      TranslateMoneyNumeric(upper, column.length, column.precision, column.scale);
    } else {
      assert upper !in TranslatedNames;
    }
  }

  /** Dates and timestamps take a DATE or TIMESTAMP literal. */
  lemma DateDefault(column: Column)
    requires column.dbDataType.Some? && !IsNullOrEmpty(column.defaultValue)
    ensures ToUpper(column.dbDataType.value) in {"DATE", "DATETIME"} ==>
              DefaultClause(ColumnType(column).name, column.defaultValue)
              == " DEFAULT DATE '" + column.defaultValue.value + "'"
    ensures ToUpper(column.dbDataType.value) == "TIMESTAMP" ==>
              DefaultClause(ColumnType(column).name, column.defaultValue)
              == " DEFAULT TIMESTAMP '" + column.defaultValue.value + "'"
  {
    TranslateVarcharDatetime(ToUpper(column.dbDataType.value), column.length, column.precision, column.scale);
  }

  /** The character and binary types take a quoted default. */
  lemma QuotedDefaults(column: Column)
    requires column.dbDataType.Some? && !IsNullOrEmpty(column.defaultValue)
    requires ToUpper(column.dbDataType.value) in {"VARCHAR", "NVARCHAR", "CHAR", "TEXT", "NTEXT", "VARBINARY", "IMAGE"}
    ensures DefaultClause(ColumnType(column).name, column.defaultValue) == QuotedDefault(column.defaultValue.value)
  {
    var upper := ToUpper(column.dbDataType.value);
    if upper == "VARCHAR" {
      TranslateVarcharDatetime(upper, column.length, column.precision, column.scale);
    } else if upper == "NVARCHAR" {
      TranslateNVarchar(upper, column.length, column.precision, column.scale);
    } else if upper == "TEXT" || upper == "NTEXT" {
      TranslateText(upper, column.length, column.precision, column.scale);
    } else if upper == "VARBINARY" || upper == "IMAGE" {
      TranslateBinary(upper, column.length, column.precision, column.scale);
    } else {
      assert upper !in TranslatedNames;
    }
  }

  /** One column of the CREATE TABLE statement: the quoted name and its definition. */
  function ColumnLine(column: Column): (r: string)
    requires column.dbDataType.Some?
  {
    "  \"" + column.name + "\" " + WriteDataType(column)
  }

  /** Every column has a type name, so that none of the column lines throws. */
  predicate TypesSet(columns: seq<Column>) {
    forall i :: 0 <= i < |columns| ==> columns[i].dbDataType.Some?
  }

  /** The `i`th column line is the line of the `i`th column. */
  lemma {:induction false} ColumnLineAt(columns: seq<Column>, i: nat)
    requires TypesSet(columns) && i < |columns|
    ensures ColumnLines(columns)[i] == ColumnLine(columns[i])
  {
    if i < |columns| - 1 {
      ColumnLineAt(columns[..|columns| - 1], i);
    }
  }

  /** The column lines, one per column in column order. */
  function ColumnLines(columns: seq<Column>): (r: seq<string>)
    requires TypesSet(columns)
    ensures |r| == |columns|
  {
    if columns == [] then []
    else ColumnLines(columns[..|columns| - 1]) + [ColumnLine(columns[|columns| - 1])]
  }

  /** The first two lines of the script: the CREATE TABLE header with the quoted name, and "(". */
  function CreateTableHeader(name: string): string {
    "CREATE TABLE \"" + name + "\"" + NewLine + "(" + NewLine
  }

  /**
   * The script for one table: the header, the column lines joined by "," and
   * a line break, and ")", each ending a line. The primary key is not written.
   */
  function CreateTableScript(table: Table): (r: string)
    requires TypesSet(table.columns)
    ensures StartsWith(r, CreateTableHeader(table.name))
  {
    CreateTableHeader(table.name) + (Join("," + NewLine, ColumnLines(table.columns)) + NewLine + ")" + NewLine)
  }

  /** The script does not depend on the primary key. */
  lemma PrimaryKeyNotWritten(table: Table, pk: Option<Constraint>)
    requires TypesSet(table.columns)
    ensures CreateTableScript(table.(primaryKey := pk)) == CreateTableScript(table)
  {
  }

  /** Why `WriteToFolder` throws. */
  datatype WriteError = ArgumentNull(paramName: string) | PathDoesNotExist(path: string)

  /** A generator for one table; `WriteToFolder` remembers the folder it wrote to. */
  class TableGenerator {
    const table: Table
    const tableName: string
    var path: Option<string>

    /** The name the generator writes is the table's own. */
    predicate Valid() {
      tableName == table.name
    }

    constructor(table: Table)
      ensures Valid()
      ensures this.table == table && tableName == table.name && path.None?
    {
      this.table := table;
      tableName := table.name;
      path := None;
    }

    /**
     * `WriteToFolder(path)`: refuses a null or empty path and a folder that
     * does not exist (`directoryExists` stands for the file-system query),
     * otherwise remembers the path and returns the file name and the text
     * written to it.
     */
    method WriteToFolder(folder: Option<string>, directoryExists: bool) returns (r: Result<(string, string), WriteError>)
      requires Valid() && TypesSet(table.columns)
      modifies this
      ensures IsNullOrEmpty(folder) ==> r == Failure(ArgumentNull("path")) && path == old(path)
      ensures !IsNullOrEmpty(folder) && !directoryExists ==>
                r == Failure(PathDoesNotExist(folder.value)) && path == old(path)
      ensures !IsNullOrEmpty(folder) && directoryExists ==>
                r == Success((tableName + ".sql", CreateTableScript(table))) && path == folder
    {
      if IsNullOrEmpty(folder) {
        return Failure(ArgumentNull("path"));
      }
      if !directoryExists {
        return Failure(PathDoesNotExist(folder.value));
      }
      path := folder;
      var columnList: seq<string> := [];
      var i := 0;
      while i < |table.columns|
        invariant 0 <= i <= |table.columns|
        invariant columnList == ColumnLines(table.columns[..i])
      {
        assert table.columns[..i + 1][..i] == table.columns[..i];
        columnList := columnList + [ColumnLine(table.columns[i])];
        i := i + 1;
      }
      assert table.columns[..i] == table.columns;
      var sb := "CREATE TABLE \"" + tableName + "\"" + NewLine;
      sb := sb + "(" + NewLine;
      assert sb == CreateTableHeader(table.name);
      sb := sb + (Join("," + NewLine, columnList) + NewLine + ")" + NewLine);
      r := Success((tableName + ".sql", sb));
    }
  }
}
