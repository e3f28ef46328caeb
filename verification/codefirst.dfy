/**
 * `CodeFirstMappingWriter`: the Entity Framework Code First mapping class
 * written for one table. The `ClassBuilder` it writes through is abstracted
 * as a list of emitted lines (its indentation and nesting braces are not part
 * of this model). `DatabaseTable.PrimaryKeyColumn` is not part of this model
 * either: the primary-key column is passed in.
 */
module CodeFirstMapping {
  import opened Wrappers
  import opened Text
  import opened Numeric
  import opened DataSchema

  /** String lengths at or above this are "max" lengths and get no `HasMaxLength`. */
  const MaxLengthLimit: int := 1073741823

  // ---------------------------------------------------------------- table name

  /** The schema is written into `ToTable` when the owner is set and is not SQL Server's default "dbo". */
  predicate WritesOwner(owner: Option<string>) {
    !IsNullOrEmpty(owner) && owner.value != "dbo"
  }

  /** `ToTable("name")`, or `ToTable("name", "owner")` when the owner is written. */
  function ToTableCall(name: string, owner: Option<string>): (r: string)
    ensures StartsWith(r, "ToTable(\"" + name + "\"")
    ensures !WritesOwner(owner) ==> r == "ToTable(\"" + name + "\");"
    ensures WritesOwner(owner) ==> r == "ToTable(\"" + name + "\", \"" + owner.value + "\");"
  {
    var head := "ToTable(\"" + name + "\"";
    var tail := if WritesOwner(owner) then ", \"" + owner.value + "\");" else ");";
    assert (head + tail)[..|head|] == head;
    head + tail
  }

  /** What `MapTableName` emits: nothing when the class name is the table name, else a comment and the `ToTable` call. */
  function TableNameLines(t: Table): (r: seq<string>)
    ensures r == [] <==> t.netName == Some(t.name)
    ensures r != [] ==> r == ["//table", ToTableCall(t.name, t.schemaOwner)]
  {
    if t.netName == Some(t.name) then [] else ["//table", ToTableCall(t.name, t.schemaOwner)]
  }

  // ---------------------------------------------------------------- primary key

  /** The message written for a table without a usable primary key. */
  const MissingKeyLine: string := "//TODO- you MUST add a primary key!"

  /** The table has no primary key, or one with no columns. */
  predicate LacksPrimaryKey(t: Table) {
    t.primaryKey.None? || |t.primaryKey.value.columns| == 0
  }

  /** The key property's name: its .NET name, else its column name. */
  function KeyPropertyName(keyColumn: Column): string {
    keyColumn.netName.GetOr(keyColumn.name)
  }

  /** Entity Framework finds the key by itself when the property is "Id" or the class name plus "Id", ignoring case. */
  predicate ConventionalKey(t: Table, keyColumn: Column) {
    EqualsIgnoreCase(KeyPropertyName(keyColumn), "Id") || EqualsIgnoreCase(KeyPropertyName(keyColumn), Str(t.netName) + "Id")
  }

  /** A primary-key column's part of a composite key: its property, with the "Id" mirror when it is also a foreign key. */
  function KeyPart(c: Column): string {
    "x." + Str(c.netName) + (if c.isForeignKey then "Id" else "")
  }

  /** The primary-key columns, in column order. */
  function KeyColumns(cols: seq<Column>): (r: seq<Column>)
    ensures |r| <= |cols|
    ensures forall k :: 0 <= k < |r| ==> r[k].isPrimaryKey && r[k] in cols
  {
    if cols == [] then []
    else KeyColumns(cols[..|cols| - 1]) + if cols[|cols| - 1].isPrimaryKey then [cols[|cols| - 1]] else []
  }

  /** The composite key's parts, in column order. */
  function KeyParts(cols: seq<Column>): (r: seq<string>)
    ensures |r| == |KeyColumns(cols)|
  {
    if cols == [] then []
    else KeyParts(cols[..|cols| - 1]) + if cols[|cols| - 1].isPrimaryKey then [KeyPart(cols[|cols| - 1])] else []
  }

  /** The k-th part of the composite key is that of the k-th primary-key column in column order. */
  lemma {:induction false} KeyPartsInColumnOrder(cols: seq<Column>, k: nat)
    requires k < |KeyColumns(cols)|
    ensures KeyParts(cols)[k] == KeyPart(KeyColumns(cols)[k])
  {
    var init := cols[..|cols| - 1];
    if k < |KeyColumns(init)| {
      KeyPartsInColumnOrder(init, k);
    }
  }

  /** Every primary-key column is in the composite key, and only those. */
  lemma {:induction false} KeyColumnsComplete(cols: seq<Column>)
    ensures forall c :: c in cols && c.isPrimaryKey ==> c in KeyColumns(cols)
  {
    if cols != [] {
      KeyColumnsComplete(cols[..|cols| - 1]);
      assert cols == cols[..|cols| - 1] + [cols[|cols| - 1]];
    }
  }

  /** What `AddCompositePrimaryKey` emits: a comment and `HasKey` over an anonymous type of the key parts. */
  function CompositeKeyLines(t: Table): (r: seq<string>)
    ensures |r| == 2 && r[0] == "// Primary key (composite)"
    ensures StartsWith(r[1], "HasKey(x => new { ") && EndsWith(r[1], " });")
  {
    var head := "HasKey(x => new { ";
    var line := head + Join(", ", KeyParts(t.columns)) + " });";
    assert line[..|head|] == head;
    assert line[|line| - 4..] == " });";
    ["// Primary key (composite)", line]
  }

  /**
   * What `AddPrimaryKey` emits: a TODO when there is no usable key; the
   * composite form for a composite key; nothing for a single key named by
   * convention; else a comment and `HasKey` on the key property.
   */
  function PrimaryKeyLines(t: Table, keyColumn: Column): (r: seq<string>)
    ensures LacksPrimaryKey(t) <==> r == [MissingKeyLine]
    ensures !LacksPrimaryKey(t) && HasCompositeKey(t) ==> r == CompositeKeyLines(t)
    ensures !HasCompositeKey(t) && !LacksPrimaryKey(t) ==>
              (r == [] <==> ConventionalKey(t, keyColumn))
    ensures !HasCompositeKey(t) && !LacksPrimaryKey(t) && !ConventionalKey(t, keyColumn) ==>
              r == ["// Primary key", "HasKey(x => x." + KeyPropertyName(keyColumn) + ");"]
  {
    if LacksPrimaryKey(t) then [MissingKeyLine]
    else if HasCompositeKey(t) then CompositeKeyLines(t)
    else if ConventionalKey(t, keyColumn) then []
    else ["// Primary key", "HasKey(x => x." + KeyPropertyName(keyColumn) + ");"]
  }

  // ---------------------------------------------------------------- columns

  /** The property a column maps to: its .NET name, else (when that is null or empty) its column name. */
  function PropertyName(c: Column): (r: string)
    ensures !IsNullOrEmpty(c.netName) ==> r == c.netName.value
    ensures IsNullOrEmpty(c.netName) ==> r == c.name
  {
    if IsNullOrEmpty(c.netName) then c.name else c.netName.value
  }

  /** `.HasColumnName("name")`, exactly when the property name differs from the column name. */
  function ColumnNameClause(c: Column): (r: string)
    ensures PropertyName(c) != c.name ==> r == ".HasColumnName(\"" + c.name + "\")"
    ensures PropertyName(c) == c.name ==> r == ""
  {
    if PropertyName(c) != c.name then ".HasColumnName(\"" + c.name + "\")" else ""
  }

  /** The mapping of a key the database does not generate. */
  const NotGenerated: string := ".HasDatabaseGeneratedOption(DatabaseGeneratedOption.None)"

  /** A primary key that is not an identity is not database-generated; identity keys are, by default. */
  function GeneratedClause(c: Column): (r: string)
    ensures c.isPrimaryKey && !c.isIdentity ==> r == NotGenerated
    ensures !(c.isPrimaryKey && !c.isIdentity) ==> r == ""
  {
    if c.isPrimaryKey && !c.isIdentity then NotGenerated else ""
  }

  /** The column has a string data type with a length strictly between 0 and the "max" marker. */
  predicate BoundedString(c: Column) {
    c.dataType.Some? && c.dataType.value.isString && c.length.Some? && 0 < c.length.value < MaxLengthLimit
  }

  /** `.HasMaxLength(n)`, exactly for a bounded string column (not for -1, "max", or a null length). */
  function MaxLengthClause(c: Column): (r: string)
    ensures BoundedString(c) ==> r == ".HasMaxLength(" + NatToString(c.length.value) + ")"
    ensures !BoundedString(c) ==> r == ""
  {
    if BoundedString(c) then ".HasMaxLength(" + NatToString(c.length.value) + ")" else ""
  }

  /** The mapping of a SQL Server rowversion column. */
  const TimestampMapping: string :=
    ".IsConcurrencyToken().HasColumnType(\"timestamp\").HasDatabaseGeneratedOption(DatabaseGeneratedOption.Computed)"

  /** The column's catalog type name is exactly "TIMESTAMP". */
  predicate IsTimestamp(c: Column) {
    c.dataType.Some? && c.dataType.value.typeName == "TIMESTAMP"
  }

  /** The concurrency-token mapping, exactly for a column whose catalog type name is "TIMESTAMP". */
  function TimestampClause(c: Column): (r: string)
    ensures IsTimestamp(c) ==> r == TimestampMapping
    ensures !IsTimestamp(c) ==> r == ""
  {
    if IsTimestamp(c) then TimestampMapping else ""
  }

  /** The mapping of a non-nullable column. */
  const RequiredMapping: string := ".IsRequired()"

  /** `.IsRequired()`, exactly for a column that is not nullable. */
  function RequiredClause(c: Column): (r: string)
    ensures !c.nullable ==> r == RequiredMapping
    ensures c.nullable ==> r == ""
  {
    if !c.nullable then RequiredMapping else ""
  }

  /**
   * The `Property` line of a column that is not a foreign key: the call, then
   * its clauses in a fixed order, so the line starts with the property call and
   * ends with `.IsRequired();` exactly for a column that is not nullable.
   */
  function PropertyLine(c: Column): (r: string)
    ensures StartsWith(r, "Property(x => x." + PropertyName(c) + ")")
    ensures EndsWith(r, RequiredClause(c) + ";")
  {
    var head := "Property(x => x." + PropertyName(c) + ")";
    var a := head + ColumnNameClause(c);
    var b := a + GeneratedClause(c);
    var d := b + MaxLengthClause(c);
    var e := d + TimestampClause(c);
    var f := e + RequiredClause(c);
    PrefixKept(head, ColumnNameClause(c), head);
    PrefixKept(a, GeneratedClause(c), head);
    PrefixKept(b, MaxLengthClause(c), head);
    PrefixKept(d, TimestampClause(c), head);
    PrefixKept(e, RequiredClause(c), head);
    PrefixKept(f, ";", head);
    assert (f + ";")[|e|..] == RequiredClause(c) + ";";
    f + ";"
  }

  /** Appending text keeps a prefix. */
  lemma PrefixKept(s: string, t: string, prefix: string)
    requires s == prefix || StartsWith(s, prefix)
    ensures StartsWith(s + t, prefix)
  {
    assert (s + t)[..|prefix|] == s[..|prefix|];
  }

  /** Nullability decides only the `.IsRequired()` before the closing ";": nothing else in the line changes. */
  lemma RequiredOnlyAddsSuffix(c: Column)
    ensures var optional := PropertyLine(c.(nullable := true));
            |optional| > 0 && PropertyLine(c.(nullable := false)) == optional[..|optional| - 1] + RequiredMapping + ";"
  {
    var o, r := c.(nullable := true), c.(nullable := false);
    var body := "Property(x => x." + PropertyName(c) + ")" + ColumnNameClause(c) + GeneratedClause(c)
                + MaxLengthClause(c) + TimestampClause(c);
    assert PropertyName(o) == PropertyName(r) == PropertyName(c);
    assert ColumnNameClause(o) == ColumnNameClause(r) == ColumnNameClause(c);
    assert GeneratedClause(o) == GeneratedClause(r) == GeneratedClause(c);
    assert MaxLengthClause(o) == MaxLengthClause(r) == MaxLengthClause(c);
    assert TimestampClause(o) == TimestampClause(r) == TimestampClause(c);
    assert RequiredClause(o) == "" && RequiredClause(r) == RequiredMapping;
    assert PropertyLine(o) == body + "" + ";";
    assert PropertyLine(r) == body + RequiredMapping + ";";
    assert (body + "" + ";")[..|body|] == body;
  }

  // ---------------------------------------------------------------- foreign keys

  /** The opening of a required (non-nullable) navigation. */
  const RequiredHead: string := "HasRequired("

  /** The opening of an optional (nullable) navigation. */
  const OptionalHead: string := "HasOptional("

  /** The two openings differ (in their fourth character). */
  lemma HeadsDiffer()
    ensures RequiredHead != OptionalHead
  {
    assert RequiredHead[3] != OptionalHead[3];
  }

  /** `HasRequired(` for a non-nullable foreign key, `HasOptional(` for a nullable one. */
  function ForeignKeyHead(c: Column): (r: string)
    ensures !c.nullable ==> r == RequiredHead
    ensures c.nullable ==> r == OptionalHead
  {
    if c.nullable then OptionalHead else RequiredHead
  }

  /**
   * How the key is tied to its column: through the "Id" mirror property when
   * the column is also part of the primary key, else by mapping the column name.
   */
  function ForeignKeyTie(c: Column): (r: string)
    ensures c.isPrimaryKey ==> r == ".HasForeignKey(c => c." + Str(c.netName) + "Id)"
    ensures !c.isPrimaryKey ==> r == ".Map(m => m.MapKey(\"" + c.name + "\"))"
  {
    if c.isPrimaryKey then ".HasForeignKey(c => c." + Str(c.netName) + "Id)"
    else ".Map(m => m.MapKey(\"" + c.name + "\"))"
  }

  /**
   * The line of a foreign-key column, whose inverse is the table's collection
   * on the other side: it opens with the navigation kind and closes with the
   * tie to the column.
   */
  function ForeignKeyLine(c: Column, inverseCollection: string): (r: string)
    ensures StartsWith(r, ForeignKeyHead(c))
    ensures EndsWith(r, ".WithMany(c => c." + inverseCollection + ")" + ForeignKeyTie(c) + ";")
  {
    var head := ForeignKeyHead(c);
    var a := head + "x => x.";
    var b := a + Str(c.netName);
    var d := b + ")";
    var e := d + ".WithMany(c => c.";
    var f := e + inverseCollection;
    var g := f + ")";
    var h := g + ForeignKeyTie(c);
    PrefixKept(head, "x => x.", head);
    PrefixKept(a, Str(c.netName), head);
    PrefixKept(b, ")", head);
    PrefixKept(d, ".WithMany(c => c.", head);
    PrefixKept(e, inverseCollection, head);
    PrefixKept(f, ")", head);
    PrefixKept(g, ForeignKeyTie(c), head);
    PrefixKept(h, ";", head);
    assert (h + ";")[|d|..] == ".WithMany(c => c." + inverseCollection + ")" + ForeignKeyTie(c) + ";";
    h + ";"
  }

  /** A foreign-key line starts with `HasRequired` exactly when the column is not nullable, and with `HasOptional` otherwise. */
  lemma ForeignKeyLineKind(c: Column, inverseCollection: string)
    ensures StartsWith(ForeignKeyLine(c, inverseCollection), RequiredHead) <==> !c.nullable
    ensures StartsWith(ForeignKeyLine(c, inverseCollection), OptionalHead) <==> c.nullable
  {
    assert |RequiredHead| == |OptionalHead|;
    HeadsDiffer();
  }

  /** The line a column contributes: the foreign-key line for a foreign key, else the property line. */
  function ColumnLine(c: Column, inverseCollection: string): string {
    if c.isForeignKey then ForeignKeyLine(c, inverseCollection) else PropertyLine(c)
  }

  /** One line per column, in column order. */
  function ColumnLines(cols: seq<Column>, inverseCollection: string): (r: seq<string>)
    ensures |r| == |cols|
  {
    if cols == [] then []
    else ColumnLines(cols[..|cols| - 1], inverseCollection) + [ColumnLine(cols[|cols| - 1], inverseCollection)]
  }

  /** The i-th line is the i-th column's. */
  lemma {:induction false} ColumnLinesAt(cols: seq<Column>, inverseCollection: string, i: nat)
    requires i < |cols|
    ensures ColumnLines(cols, inverseCollection)[i] == ColumnLine(cols[i], inverseCollection)
  {
    if i < |cols| - 1 {
      ColumnLinesAt(cols[..|cols| - 1], inverseCollection, i);
    }
  }

  /** The lines for one more column. */
  lemma ColumnLinesNext(cols: seq<Column>, i: nat, inverseCollection: string)
    requires i < |cols|
    ensures ColumnLines(cols[..i + 1], inverseCollection) == ColumnLines(cols[..i], inverseCollection) + [ColumnLine(cols[i], inverseCollection)]
  {
    assert cols[..i + 1][..i] == cols[..i];
  }

  // ---------------------------------------------------------------- the writer

  class CodeFirstMappingWriter {
    const table: Table
    const ns: string
    /** `CollectionNamer`: the namer for collection properties; `None` uses the default suffix. */
    var collectionNamer: Option<string -> string>
    /** The lines emitted so far through the class builder. */
    var lines: seq<string>

    constructor(table: Table, ns: string)
      ensures this.table == table && this.ns == ns
      ensures collectionNamer.None? && lines == []
    {
      this.table := table;
      this.ns := ns;
      collectionNamer := None;
      lines := [];
    }

    /** `NameCollection(name)`: the name plus "Collection" without a namer; the namer's choice otherwise. */
    function NameCollection(name: string): (r: string)
      reads this
      ensures collectionNamer.None? ==> r == name + "Collection" && r[..|name|] == name && r[|name|..] == "Collection"
      ensures collectionNamer.Some? ==> r == collectionNamer.value(name)
    {
      if collectionNamer.None? then name + "Collection" else collectionNamer.value(name)
    }

    /** The collection on the other side of this table's foreign keys. */
    function InverseCollection(): string
      reads this
    {
      NameCollection(Str(table.netName))
    }

    /** `MapTableName()`. */
    method MapTableName()
      modifies this
      ensures lines == old(lines) + TableNameLines(table)
      ensures collectionNamer == old(collectionNamer)
    {
      if table.netName == Some(table.name) {
        return;
      }
      var name := table.name;
      lines := lines + ["//table"];
      var call := "ToTable(\"" + name + "\"";
      if !IsNullOrEmpty(table.schemaOwner) && table.schemaOwner.value != "dbo" {
        call := call + (", \"" + table.schemaOwner.value + "\");");
      } else {
        call := call + ");";
      }
      lines := lines + [call];
    }

    /** `AddCompositePrimaryKey()`. */
    method AddCompositePrimaryKey()
      modifies this
      ensures lines == old(lines) + CompositeKeyLines(table)
      ensures collectionNamer == old(collectionNamer)
    {
      var keys := Join(", ", KeyParts(table.columns));
      lines := lines + ["// Primary key (composite)"];
      lines := lines + ["HasKey(x => new { " + keys + " });"];
    }

    /** `AddPrimaryKey()`, with `keyColumn` the table's single primary-key column. */
    method AddPrimaryKey(keyColumn: Column)
      modifies this
      ensures lines == old(lines) + PrimaryKeyLines(table, keyColumn)
      ensures collectionNamer == old(collectionNamer)
    {
      if table.primaryKey.None? || |table.primaryKey.value.columns| == 0 {
        lines := lines + [MissingKeyLine];
        return;
      }
      if HasCompositeKey(table) {
        AddCompositePrimaryKey();
        return;
      }
      var netName := keyColumn.netName.GetOr(keyColumn.name);
      if EqualsIgnoreCase(netName, "Id") {
        return;
      }
      if EqualsIgnoreCase(netName, Str(table.netName) + "Id") {
        return;
      }
      lines := lines + ["// Primary key"];
      lines := lines + ["HasKey(x => x." + netName + ");"];
    }

    /** `WriteForeignKey(column)`, for a column of this table. */
    method WriteForeignKey(column: Column)
      modifies this
      ensures lines == old(lines) + [ForeignKeyLine(column, old(InverseCollection()))]
      ensures collectionNamer == old(collectionNamer)
    {
      var propertyName := Str(column.netName);
      var sb := (if column.nullable then OptionalHead else RequiredHead) + "x => x." + propertyName + ")";
      sb := sb + ".WithMany(c => c." + NameCollection(Str(table.netName)) + ")";
      if column.isPrimaryKey {
        sb := sb + (".HasForeignKey(c => c." + propertyName + "Id)");
      } else {
        sb := sb + (".Map(m => m.MapKey(\"" + column.name + "\"))");
      }
      sb := sb + ";";
      lines := lines + [sb];
    }

    /** `WriteColumn(column)`, for a column of this table. */
    method WriteColumn(column: Column)
      modifies this
      ensures lines == old(lines) + [ColumnLine(column, old(InverseCollection()))]
      ensures collectionNamer == old(collectionNamer)
    {
      if column.isForeignKey {
        WriteForeignKey(column);
        return;
      }
      lines := lines + [PropertyLine(column)];
    }

    /** `WriteColumns()`: one line per column of the table, in column order. */
    method WriteColumns()
      modifies this
      ensures lines == old(lines) + ColumnLines(table.columns, old(InverseCollection()))
      ensures collectionNamer == old(collectionNamer)
    {
      var columns := table.columns;
      ghost var inverse := InverseCollection();
      var i := 0;
      while i < |columns|
        invariant i <= |columns|
        invariant collectionNamer == old(collectionNamer) && InverseCollection() == inverse
        invariant lines == old(lines) + ColumnLines(columns[..i], inverse)
      {
        WriteColumn(columns[i]);
        ColumnLinesNext(columns, i, inverse);
        i := i + 1;
      }
      assert columns[..i] == columns;
    }

    /**
     * The mapping constructor's body as `Write()` emits it, up to the
     * navigation-properties comment: the table mapping, the key, then the
     * column mappings.
     */
    method WriteMappingBody(keyColumn: Column)
      modifies this
      ensures lines == old(lines) + TableNameLines(table) + PrimaryKeyLines(table, keyColumn)
                       + ["// Properties"] + ColumnLines(table.columns, old(InverseCollection()))
                       + ["// Navigation properties"]
    {
      MapTableName();
      AddPrimaryKey(keyColumn);
      lines := lines + ["// Properties"];
      WriteColumns();
      lines := lines + ["// Navigation properties"];
    }
  }

  /** Without a namer the inverse collection of a table's foreign keys is its class name plus "Collection". */
  lemma DefaultInverseCollection(w: CodeFirstMappingWriter)
    requires w.collectionNamer.None?
    ensures w.InverseCollection() == Str(w.table.netName) + "Collection"
  {
  }
}
