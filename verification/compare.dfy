/**
 * `CompareSchemas`: the migration script between a base and a compare
 * schema. The dialect of the script comes from the schemas' provider names;
 * the table, view and procedure comparers and the topological table sort
 * are not part of this model and are parameters.
 */
module SchemaComparison {
  import opened Wrappers
  import opened Text
  import opened DataSchema

  /**
   * `p.IndexOf(name, StringComparison.OrdinalIgnoreCase) != -1` for a name
   * given in upper case: both sides are compared upper-cased.
   */
  predicate Mentions(p: string, upperName: string) {
    Contains(ToUpper(p), upperName)
  }

  /** Searching for a name ignoring case is searching the upper-cased text for the upper-cased name. */
  lemma MentionsIgnoringCase(p: string, name: string, upperName: string)
    requires ToUpper(name) == upperName
    ensures Mentions(p, upperName) <==> ContainsIgnoreCase(p, name)
  {
  }

  /** The first two provider names the source searches for, upper-cased. */
  lemma OracleMySqlUpper()
    ensures ToUpper("Oracle") == "ORACLE" && ToUpper("MySql") == "MYSQL"
  {
    ToUpperIs("Oracle", "ORACLE");
    ToUpperIs("MySql", "MYSQL");
  }

  /** The other two provider names the source searches for, upper-cased. */
  lemma SqliteCeUpper()
    ensures ToUpper("Sqlite") == "SQLITE"
    ensures ToUpper("SqlServerCe.4.0") == "SQLSERVERCE.4.0"
  {
    ToUpperIs("Sqlite", "SQLITE");
    ToUpperIs("SqlServerCe.4.0", "SQLSERVERCE.4.0");
  }

  /** The engine picked from the outcomes of the four provider tests, first match first. */
  function Pick(oracle: bool, mySql: bool, sqlite: bool, sqlServerCe: bool): SqlType {
    if oracle then Oracle
    else if mySql then MySql
    else if sqlite then SQLite
    else if sqlServerCe then SqlServerCe
    else SqlServer
  }

  /**
   * `FindSqlType(schema)`: the engine a provider name denotes, by
   * case-insensitive substring tests in a fixed order; no provider name means
   * no engine, and any provider that matches none of the tests is SQL Server.
   */
  function FindSqlType(provider: Option<string>): (r: Option<SqlType>)
    ensures r.None? <==> IsNullOrEmpty(provider)
    ensures r.Some? ==> r.value in {Oracle, MySql, SQLite, SqlServerCe, SqlServer}
  {
    if IsNullOrEmpty(provider) then None
    else
      var p := provider.value;
      Some(Pick(Mentions(p, "ORACLE"), Mentions(p, "MYSQL"),
                Mentions(p, "SQLITE"), Mentions(p, "SQLSERVERCE.4.0")))
  }

  /** Each engine is chosen exactly when its test matches and no earlier test does. */
  lemma FindSqlTypePriority(p: string)
    requires p != ""
    ensures FindSqlType(Some(p)) == Some(Oracle) <==> Mentions(p, "ORACLE")
    ensures FindSqlType(Some(p)) == Some(MySql) <==>
              !Mentions(p, "ORACLE") && Mentions(p, "MYSQL")
    ensures FindSqlType(Some(p)) == Some(SQLite) <==>
              !Mentions(p, "ORACLE") && !Mentions(p, "MYSQL")
              && Mentions(p, "SQLITE")
    ensures FindSqlType(Some(p)) == Some(SqlServerCe) <==>
              !Mentions(p, "ORACLE") && !Mentions(p, "MYSQL")
              && !Mentions(p, "SQLITE") && Mentions(p, "SQLSERVERCE.4.0")
    ensures FindSqlType(Some(p)) == Some(SqlServer) <==>
              !Mentions(p, "ORACLE") && !Mentions(p, "MYSQL")
              && !Mentions(p, "SQLITE") && !Mentions(p, "SQLSERVERCE.4.0")
  {
  }

  /**
   * The tests as the source writes them: a case-insensitive search for the
   * mixed-case names "Oracle", "MySql", "Sqlite" and "SqlServerCe.4.0".
   */
  lemma FindSqlTypeIgnoresCase(p: string)
    requires p != ""
    ensures FindSqlType(Some(p)) == Some(Oracle) <==> ContainsIgnoreCase(p, "Oracle")
    ensures FindSqlType(Some(p)) == Some(MySql) <==>
              !ContainsIgnoreCase(p, "Oracle") && ContainsIgnoreCase(p, "MySql")
    ensures FindSqlType(Some(p)) == Some(SQLite) <==>
              !ContainsIgnoreCase(p, "Oracle") && !ContainsIgnoreCase(p, "MySql")
              && ContainsIgnoreCase(p, "Sqlite")
    ensures FindSqlType(Some(p)) == Some(SqlServerCe) <==>
              !ContainsIgnoreCase(p, "Oracle") && !ContainsIgnoreCase(p, "MySql")
              && !ContainsIgnoreCase(p, "Sqlite") && ContainsIgnoreCase(p, "SqlServerCe.4.0")
    ensures FindSqlType(Some(p)) == Some(SqlServer) <==>
              !ContainsIgnoreCase(p, "Oracle") && !ContainsIgnoreCase(p, "MySql")
              && !ContainsIgnoreCase(p, "Sqlite") && !ContainsIgnoreCase(p, "SqlServerCe.4.0")
  {
    OracleMySqlUpper();
    SqliteCeUpper();
    MentionsIgnoringCase(p, "Oracle", "ORACLE");
    MentionsIgnoringCase(p, "MySql", "MYSQL");
    MentionsIgnoringCase(p, "Sqlite", "SQLITE");
    MentionsIgnoringCase(p, "SqlServerCe.4.0", "SQLSERVERCE.4.0");
    FindSqlTypePriority(p);
  }

  /** A provider name never selects PostgreSQL or DB2: such providers are written as SQL Server. */
  lemma FindSqlTypeNeverOthers(provider: Option<string>)
    ensures FindSqlType(provider) != Some(PostgreSql) && FindSqlType(provider) != Some(Db2)
  {
  }

  /** The writer's dialect: the compare schema's engine, else the base schema's, else SQL Server. */
  function WriterDialect(compareType: Option<SqlType>, baseType: Option<SqlType>): (r: SqlType)
    ensures compareType.Some? ==> r == compareType.value
    ensures compareType.None? && baseType.Some? ==> r == baseType.value
    ensures compareType.None? && baseType.None? ==> r == SqlServer
  {
    match compareType
    case Some(t) => t
    case None => baseType.GetOr(SqlServer)
  }

  /** The writer is SQL Server whenever neither schema names a provider, and never PostgreSQL or DB2. */
  lemma WriterDialectOfProviders(compareProvider: Option<string>, baseProvider: Option<string>)
    ensures IsNullOrEmpty(compareProvider) && IsNullOrEmpty(baseProvider) ==>
              WriterDialect(FindSqlType(compareProvider), FindSqlType(baseProvider)) == SqlServer
    ensures !IsNullOrEmpty(compareProvider) ==>
              WriterDialect(FindSqlType(compareProvider), FindSqlType(baseProvider))
              == FindSqlType(compareProvider).value
    ensures WriterDialect(FindSqlType(compareProvider), FindSqlType(baseProvider)) !in {PostgreSql, Db2}
  {
  }

  /** The migration script: the tables section, then the views section, then the procedures section. */
  function Script(tables: string, views: string, procedures: string): (r: string)
    ensures |r| == |tables| + |views| + |procedures|
  {
    tables + views + procedures
  }

  /** Each section can be read back from its place in the script. */
  lemma ScriptSections(tables: string, views: string, procedures: string)
    ensures Script(tables, views, procedures)[..|tables|] == tables
    ensures Script(tables, views, procedures)[|tables|..|tables| + |views|] == views
    ensures Script(tables, views, procedures)[|tables| + |views|..] == procedures
  {
    var r := Script(tables, views, procedures);
    assert r == tables + (views + procedures);
    assert r[|tables|..] == views + procedures;
    assert r[|tables|..][..|views|] == r[|tables|..|tables| + |views|];
  }

  class CompareSchemas {
    const baseSchema: DatabaseSchema
    const compareSchema: DatabaseSchema
    /** The dialect of the `ComparisonWriter` every section is written with. */
    const writerDialect: SqlType

    /** A null schema on either side is replaced by an empty schema with no provider. */
    constructor(baseSchema: DatabaseSchema?, compareSchema: DatabaseSchema?)
      ensures baseSchema != null ==> this.baseSchema == baseSchema
      ensures compareSchema != null ==> this.compareSchema == compareSchema
      ensures baseSchema == null ==>
                fresh(this.baseSchema) && this.baseSchema.provider.None? && this.baseSchema.tables == []
                && this.baseSchema.views == [] && this.baseSchema.storedProcedures == []
      ensures compareSchema == null ==>
                fresh(this.compareSchema) && this.compareSchema.provider.None? && this.compareSchema.tables == []
                && this.compareSchema.views == [] && this.compareSchema.storedProcedures == []
      ensures writerDialect == WriterDialect(FindSqlType(this.compareSchema.provider),
                                             FindSqlType(this.baseSchema.provider))
    {
      var b := baseSchema;
      var c := compareSchema;
      if b == null {
        b := new DatabaseSchema(None, None);
      }
      if c == null {
        c := new DatabaseSchema(None, None);
      }
      this.compareSchema := c;
      this.baseSchema := b;
      writerDialect := WriterDialect(FindSqlType(c.provider), FindSqlType(b.provider));
    }

    /**
     * `Execute()`: the three comparers append their sections to one builder in
     * turn — tables (with the compare schema's tables in topological order),
     * then views, then stored procedures.
     */
    method Execute(
      topologicalSort: seq<Table> -> seq<Table>,
      compareTables: (SqlType, seq<Table>, seq<Table>) -> string,
      compareViews: (SqlType, seq<View>, seq<View>) -> string,
      compareProcedures: (SqlType, seq<Routine>, seq<Routine>) -> string)
      returns (r: string)
      ensures r == Script(
        compareTables(writerDialect, baseSchema.tables, topologicalSort(compareSchema.tables)),
        compareViews(writerDialect, baseSchema.views, compareSchema.views),
        compareProcedures(writerDialect, baseSchema.storedProcedures, compareSchema.storedProcedures))
    {
      var sb := "";
      var comparedTables := topologicalSort(compareSchema.tables);
      sb := sb + compareTables(writerDialect, baseSchema.tables, comparedTables);
      sb := sb + compareViews(writerDialect, baseSchema.views, compareSchema.views);
      sb := sb + compareProcedures(writerDialect, baseSchema.storedProcedures, compareSchema.storedProcedures);
      r := sb;
    }
  }
}
