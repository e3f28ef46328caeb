/**
 * `DdlGeneratorFactory`: picks the dialect-specific DDL generator for the
 * engine it was constructed for. A generator is identified here by the
 * dialect whose implementation is created and by what it was created for.
 */
module DdlFactory {
  import opened Wrappers
  import opened DataSchema

  /** A table DDL generator: the dialect's `TableGenerator` over one table. */
  datatype TableGeneratorOf = TableGeneratorOf(dialect: SqlType, table: Table)

  /** A whole-schema DDL generator: the dialect's `TablesGenerator` over one schema. */
  datatype TablesGeneratorOf = TablesGeneratorOf(dialect: SqlType, schema: DatabaseSchema)

  /** A stored-procedure generator: the dialect's `ProcedureGenerator` over one table. */
  datatype ProcedureGeneratorOf = ProcedureGeneratorOf(dialect: SqlType, table: Table)

  /** The engines with a table and a whole-schema generator. */
  predicate HasDdlGenerators(t: SqlType) {
    t.SqlServer? || t.Oracle? || t.MySql? || t.SQLite? || t.SqlServerCe?
  }

  /** The engines with stored procedures, and so with a procedure generator. */
  predicate HasProcedureGenerator(t: SqlType) {
    t.SqlServer? || t.Oracle? || t.MySql?
  }

  class DdlGeneratorFactory {
    /** The dialect, fixed once and for all at construction. */
    const sqlType: SqlType

    constructor(sqlType: SqlType)
      ensures this.sqlType == sqlType
    {
      this.sqlType := sqlType;
    }

    /** `TableGenerator(table)`: the factory dialect's generator, or null for an engine without one. */
    function TableGenerator(table: Table): (r: Option<TableGeneratorOf>)
      ensures r.Some? <==> HasDdlGenerators(sqlType)
      ensures r.Some? ==> r.value.dialect == sqlType && r.value.table == table
    {
      match sqlType
      case SqlServer => Some(TableGeneratorOf(SqlServer, table))
      case Oracle => Some(TableGeneratorOf(Oracle, table))
      case MySql => Some(TableGeneratorOf(MySql, table))
      case SQLite => Some(TableGeneratorOf(SQLite, table))
      case SqlServerCe => Some(TableGeneratorOf(SqlServerCe, table))
      case _ => None
    }

    /** `AllTablesGenerator(schema)`: the factory dialect's generator, or null for an engine without one. */
    function AllTablesGenerator(schema: DatabaseSchema): (r: Option<TablesGeneratorOf>)
      ensures r.Some? <==> HasDdlGenerators(sqlType)
      ensures r.Some? ==> r.value.dialect == sqlType && r.value.schema == schema
    {
      match sqlType
      case SqlServer => Some(TablesGeneratorOf(SqlServer, schema))
      case Oracle => Some(TablesGeneratorOf(Oracle, schema))
      case MySql => Some(TablesGeneratorOf(MySql, schema))
      case SQLite => Some(TablesGeneratorOf(SQLite, schema))
      case SqlServerCe => Some(TablesGeneratorOf(SqlServerCe, schema))
      case _ => None
    }

    /** `ProcedureGenerator(table)`: null for SQLite and SQL Server CE, which have no stored procedures. */
    function ProcedureGenerator(table: Table): (r: Option<ProcedureGeneratorOf>)
      ensures r.Some? <==> HasProcedureGenerator(sqlType)
      ensures r.Some? ==> r.value.dialect == sqlType && r.value.table == table
    {
      match sqlType
      case SqlServer => Some(ProcedureGeneratorOf(SqlServer, table))
      case Oracle => Some(ProcedureGeneratorOf(Oracle, table))
      case MySql => Some(ProcedureGeneratorOf(MySql, table))
      case SQLite => None
      case SqlServerCe => None
      case _ => None
    }
  }

  /**
   * The two DDL generators exist for the same engines, and an engine with a
   * procedure generator also has both DDL generators.
   */
  lemma GeneratorsAgree(f: DdlGeneratorFactory, table: Table, schema: DatabaseSchema)
    ensures f.TableGenerator(table).Some? <==> f.AllTablesGenerator(schema).Some?
    ensures f.ProcedureGenerator(table).Some? ==> f.TableGenerator(table).Some?
    ensures f.TableGenerator(table).Some? ==>
              f.TableGenerator(table).value.dialect == f.AllTablesGenerator(schema).value.dialect
  {
  }

  /** PostgreSQL and DB2 get no generator of any kind. */
  lemma NoGeneratorsForOtherEngines(f: DdlGeneratorFactory, table: Table, schema: DatabaseSchema)
    requires f.sqlType == PostgreSql || f.sqlType == Db2
    ensures f.TableGenerator(table).None? && f.AllTablesGenerator(schema).None?
    ensures f.ProcedureGenerator(table).None?
  {
  }

  /** SQLite and SQL Server CE get DDL generators but no procedure generator. */
  lemma NoProceduresWithoutStoredProcedures(f: DdlGeneratorFactory, table: Table, schema: DatabaseSchema)
    requires f.sqlType == SQLite || f.sqlType == SqlServerCe
    ensures f.ProcedureGenerator(table).None?
    ensures f.TableGenerator(table) == Some(TableGeneratorOf(f.sqlType, table))
    ensures f.AllTablesGenerator(schema) == Some(TablesGeneratorOf(f.sqlType, schema))
  {
  }
}
