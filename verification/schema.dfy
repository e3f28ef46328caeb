/**
 * The schema graph the core works on: data-type catalog entries, columns,
 * constraints, tables, views, routines and the root `DatabaseSchema`.
 * Entities the core only reads are values; the root aggregate, whose lists
 * the reader layer and the converters update in place, is a class.
 */
module DataSchema {
  import opened Wrappers

  /** The engine identities the library distinguishes. */
  datatype SqlType = SqlServer | Oracle | MySql | SQLite | SqlServerCe | PostgreSql | Db2

  datatype ConstraintType = PrimaryKey | ForeignKey | UniqueKey | Check

  /** A data-type catalog entry: the engine's type name and the provider's type code. */
  datatype DataType = DataType(typeName: string, providerDbType: int, isString: bool)

  /** A table or view column. Unset (`null`) strings and `int?` values are `None`. */
  datatype Column = Column(
    name: string,
    netName: Option<string>,
    dbDataType: Option<string>,
    dataType: Option<DataType>,
    length: Option<int>,
    precision: Option<int>,
    scale: Option<int>,
    nullable: bool,
    defaultValue: Option<string>,
    isPrimaryKey: bool,
    isForeignKey: bool,
    isIdentity: bool)

  /** A primary-key, foreign-key, unique or check constraint. */
  datatype Constraint = Constraint(
    name: Option<string>,
    tableName: Option<string>,
    refersToConstraint: Option<string>,
    refersToTable: Option<string>,
    deleteRule: Option<string>,
    constraintType: ConstraintType,
    columns: seq<string>,
    expression: Option<string>)

  datatype Trigger = Trigger(name: Option<string>, triggerBody: Option<string>)

  datatype Table = Table(
    name: string,
    schemaOwner: Option<string>,
    netName: Option<string>,
    columns: seq<Column>,
    primaryKey: Option<Constraint>,
    foreignKeys: seq<Constraint>)

  datatype View = View(name: string, columns: seq<Column>)

  /** A routine argument. */
  datatype Argument = Argument(
    name: string,
    procedureName: Option<string>,
    schemaOwner: Option<string>,
    packageName: Option<string>,
    ordinal: int,
    databaseDataType: Option<string>,
    isIn: bool,
    isOut: bool,
    length: Option<int>,
    precision: Option<int>,
    scale: Option<int>)

  /** A stored procedure or function (a function is a kind of stored procedure). */
  datatype Routine = Routine(
    name: string,
    schemaOwner: Option<string>,
    package: Option<string>,
    sql: Option<string>,
    arguments: seq<Argument>)

  datatype Sequence = Sequence(name: string, schemaOwner: string, incrementBy: int)

  datatype Package = Package(name: string, schemaOwner: string)

  /** `DatabaseTable.HasIdentityColumn`: some column is an identity column. */
  predicate HasIdentityColumn(t: Table) {
    exists i :: 0 <= i < |t.columns| && t.columns[i].isIdentity
  }

  /** `DatabaseTable.HasCompositeKey`: the primary key spans more than one column. */
  predicate HasCompositeKey(t: Table) {
    t.primaryKey.Some? && |t.primaryKey.value.columns| > 1
  }

  /** The root aggregate; its lists are updated in place by the readers and converters. */
  class DatabaseSchema {
    var connectionString: Option<string>
    var provider: Option<string>
    var tables: seq<Table>
    var views: seq<View>
    var storedProcedures: seq<Routine>
    var functions: seq<Routine>
    var dataTypes: seq<DataType>

    /** `new DatabaseSchema(connectionString, providerName)`: every collection starts empty. */
    constructor(connectionString: Option<string>, provider: Option<string>)
      ensures this.connectionString == connectionString && this.provider == provider
      ensures tables == [] && views == [] && storedProcedures == [] && functions == []
      ensures dataTypes == []
    {
      this.connectionString := connectionString;
      this.provider := provider;
      tables := [];
      views := [];
      storedProcedures := [];
      functions := [];
      dataTypes := [];
    }
  }
}
