# dbschemareader core, modelled in Dafny

This project models the core of DatabaseSchemaReader, a .NET library. The library reads a database's schema
(tables, columns, constraints, stored procedures) into an object model and writes DDL, migration
scripts and Entity Framework mappings from it. The model covers these parts:

- **DataTypeConverter** (`datatypeconverter.dfy`) covers three things. It parses a type declaration such as
  `NUMBER(10,2)`, `VARCHAR(MAX)` or `INT` into a base name and a length, precision or scale. It has the
  case-sensitive type-family predicates. It narrows Oracle NUMBER types.
- **Oracle TableGenerator** (`oracletable.dfy`) covers the SQL Server to Oracle type translation, the
  DEFAULT and NOT NULL rules of `WriteDataType`, and the CREATE TABLE script that `WriteToFolder` writes.
- **DatabaseConstraint** (`constraint.dfy`) covers a new constraint, its display text, and the
  first-match resolution of a foreign key to the table it references.
- **CompareSchemas** (`compare.dfy`) covers the dialect chosen from the provider names and the order of
  the sections in the migration script.
- **DdlGeneratorFactory** (`factory.dfy`) dispatches from an engine to its table, whole-schema and
  procedure generators.
- **Oracle TablesGenerator** (`oracletables.dfy`) writes the commented-out drop script.
- **SqlServerMigrationGenerator** (`migration.dfy`) covers the ALTER COLUMN template and the trigger text.
- **SqlServerInserter** (`inserter.dfy`) covers the identity-insert switch and the drop and re-add of
  self-referencing foreign keys around a table load. The commands are kept as a command log.
- **SchemaProcedureConverter** (`procconverter.dfy`) covers how sequences, packages, routines and
  arguments are built from rows that are already normalised. This includes the find-or-create merge of
  routines into the schema's lists.
- **OleDbSchemaReader** (`oledb.dfy`) covers three things: the table name read from a check-constraint name,
  the gap-fill of the data-type catalog, and the post-processing that copies catalog type names into
  the columns.
- **CodeFirstMappingWriter** (`codefirst.dfy`) covers the lines of an Entity Framework Code First mapping
  class, with the class builder kept as a list of lines.

The shared files hold helpers, not models:

- `wrappers.dfy` holds `Option` (C# null) and `Result` (an operation that throws).
- `text.dfy` holds the .NET string operations the core uses.
- `numeric.dfy` holds integer rendering and `int.TryParse`.
- `schema.dfy` holds the schema records and the `DatabaseSchema` class.

Code that changes state in place is modelled imperatively, with methods proved against specification
functions. Examples are the inserter's command log, the schema's routine lists and the mapping writer's
lines. Pure code is modelled as functions and lemmas.

## Model

| member | source | states |
|---|---|---|
| DatabaseConstraint.NewConstraint | DatabaseSchemaReader/DataSchema/DatabaseConstraint.cs:23-26 | a new constraint has an empty column list and no name, table or references |
| DatabaseConstraint.ConstraintToString | DatabaseSchemaReader/DataSchema/DatabaseConstraint.cs:63-66 | the text is the name, " on ", then the table name, and each part can be read back from its place (null renders empty) |
| DatabaseConstraint.RefersTo | DatabaseSchemaReader/DataSchema/DatabaseConstraint.cs:54-59 | a table whose name equals RefersToTable ignoring case is referred to; a constraint with neither RefersToTable nor RefersToConstraint refers to no table; a table without a primary key can only match by name, and without RefersToTable only the primary key can match |
| DatabaseConstraint.FirstReferenced | DatabaseSchemaReader/DataSchema/DatabaseConstraint.cs:54-59 | the result is the first position whose table matches by name or by primary-key name; none means no table from there on matches |
| DatabaseConstraint.ReferencedTable | DatabaseSchemaReader/DataSchema/DatabaseConstraint.cs:50-60 | null for a null schema; otherwise the first schema table matching RefersToTable or RefersToConstraint ignoring case, and null exactly when none matches; a table without a primary key can only match by name |
| DataTypeConverter.IsVariableString | DatabaseSchemaReader/SqlGen/DataTypeConverter.cs:9-20 | true exactly for the nine variable-length names (VARCHAR2, NVARCHAR2, NVARCHAR, VARCHAR, LONG VARCHAR, CHARACTER VARYING, TEXT, NTEXT, CHAR VARYING), compared exactly; such a name is never fixed length, binary or numeric, and is also a long string only for TEXT and NTEXT |
| DataTypeConverter.IsFixedLengthString | DatabaseSchemaReader/SqlGen/DataTypeConverter.cs:21-27 | true exactly for NCHAR, CHAR, BPCHAR and CHARACTER; none of them has a precision or is a date |
| DataTypeConverter.IsLongString | DatabaseSchemaReader/SqlGen/DataTypeConverter.cs:28-34 | true exactly for TEXT, CLOB, DBCLOB and NTEXT; none of them is fixed length, binary or numeric |
| DataTypeConverter.IsBinary | DatabaseSchemaReader/SqlGen/DataTypeConverter.cs:35-45 | true exactly for the eight binary names (TINYBLOB among them); none of them is a string, numeric or date type |
| DataTypeConverter.IsBlob | DatabaseSchemaReader/SqlGen/DataTypeConverter.cs:46-56 | true exactly for VARBINARY with length -1 or for BLOB, MEDIUMBLOB, LONGBLOB, IMAGE and OID; it overlaps IsBinary only at VARBINARY(-1) |
| DataTypeConverter.HasPrecision | DatabaseSchemaReader/SqlGen/DataTypeConverter.cs:57-66 | true exactly for DEC, DECIMAL, NUMBER, NUMERIC, FLOAT, DOUBLE and DOUBLE PRECISION; none of them is a date |
| DataTypeConverter.IsDateTime | DatabaseSchemaReader/SqlGen/DataTypeConverter.cs:67-72 | true exactly for DATETIME, DATETIME2 and TIMESTAMP |
| DataTypeConverter.IsSqlServerTimestamp | DatabaseSchemaReader/SqlGen/DataTypeConverter.cs:73-81 | true exactly when the name starts with TIMESTAMP ignoring case and the column has a catalog type whose provider code is the timestamp code 19; false without a catalog type |
| DataTypeConverter.OracleNumberConversion | DatabaseSchemaReader/SqlGen/DataTypeConverter.cs:83-91 | as written: INTEGER exactly for scale 0 and precision below 38; MONEY exactly for (15,4); NUMERIC otherwise (null parts included); never BIT or DECIMAL |
| DataTypeConverter.OracleNumberBitUnreachable | DatabaseSchemaReader/SqlGen/DataTypeConverter.cs:86-90 | (1,0), (18,0) and (10,0) give INTEGER; (15,4) gives MONEY; (10,2), (38,0) and null parts give NUMERIC |
| DataTypeConverter.OracleNumberConversionIntended | DatabaseSchemaReader/SqlGen/DataTypeConverter.cs:83-91 | with the exact tests first, (1,0) gives BIT and (18,0) gives DECIMAL; it differs from the code as written only at those two inputs |
| DataTypeConverter.ParseParameter | DatabaseSchemaReader/SqlGen/DataTypeConverter.cs:110-140 | the base name is kept as the type; length and precision are never both set; a scale comes only with a precision |
| DataTypeConverter.ParameterMax | DatabaseSchemaReader/SqlGen/DataTypeConverter.cs:110-115 | a parameter containing MAX in any case gives length -1 and no precision or scale |
| DataTypeConverter.ParameterSingle | DatabaseSchemaReader/SqlGen/DataTypeConverter.cs:116-131 | one integer becomes the precision for a precision type (upper-cased name) and the length otherwise; a non-integer sets neither |
| DataTypeConverter.ParameterPair | DatabaseSchemaReader/SqlGen/DataTypeConverter.cs:132-140 | two comma-separated integers give precision and scale; if either fails to parse, neither is set |
| DataTypeConverter.ParseDataType | DatabaseSchemaReader/SqlGen/DataTypeConverter.cs:93-143 | no type exactly for a null or empty input; length and precision never both; a scale only with a precision |
| DataTypeConverter.ParseDataTypeCases | DatabaseSchemaReader/SqlGen/DataTypeConverter.cs:93-115 | null or "" gives nothing set; input without "(" is the type, unchanged, with nothing else set; otherwise the type is the trimmed text before "(", and MAX gives length -1 |
| DataTypeConverter.ParseFormatRoundTrip | DatabaseSchemaReader/SqlGen/DataTypeConverter.cs:93-143 | rendering a well-formed declaration (plain, sized, MAX or precision and scale) and parsing it gives back the name and the numbers it was built from |
| DataTypeConverter.ExampleSized | DatabaseSchemaReader/SqlGen/DataTypeConverter.cs:116-131 | "VARCHAR(20)" parses to VARCHAR with length 20 |
| DataTypeConverter.ExampleScaled | DatabaseSchemaReader/SqlGen/DataTypeConverter.cs:132-140 | "NUMBER(10,2)" parses to NUMBER with precision 10 and scale 2 |
| DataTypeConverter.ExampleMax | DatabaseSchemaReader/SqlGen/DataTypeConverter.cs:110-115 | "VARCHAR(MAX)" parses to VARCHAR with length -1 |
| DataTypeConverter.ExamplePlain | DatabaseSchemaReader/SqlGen/DataTypeConverter.cs:95-104 | "INT" parses to INT alone; null and "" parse to nothing |
| Numeric.TryParseIntToString | DatabaseSchemaReader/SqlGen/DataTypeConverter.cs:122 | the integer parse used for type parameters reads back every 32-bit integer from its decimal text |
| Numeric.TryParseOutOfRange | DatabaseSchemaReader/SqlGen/DataTypeConverter.cs:136 | the parse refuses the decimal text of an integer outside the 32-bit range |
| Numeric.TryParseExamples | DatabaseSchemaReader/SqlGen/DataTypeConverter.cs:122 | the parse accepts leading zeros, a plus sign and "-0", and refuses inner blanks, the empty text and a bare sign |
| OracleTableGenerator.TranslateType | DatabaseSchemaReader/SqlGen/Oracle/TableGenerator.cs:62-100 | the translated name is the upper-cased input or an Oracle name; a name outside the translated list passes through with its precision and scale |
| OracleTableGenerator.TranslateBit | DatabaseSchemaReader/SqlGen/Oracle/TableGenerator.cs:62-88 | BOOLEAN and BIT become NUMBER(1,0) whatever the column's precision and scale |
| OracleTableGenerator.TranslateIntDecimal | DatabaseSchemaReader/SqlGen/Oracle/TableGenerator.cs:77-94 | INT becomes NUMBER(38,0) and DECIMAL NUMBER(18,0) |
| OracleTableGenerator.TranslateMoneyNumeric | DatabaseSchemaReader/SqlGen/Oracle/TableGenerator.cs:76-100 | MONEY becomes NUMBER(15,4); NUMERIC becomes NUMBER with the column's precision and scale |
| OracleTableGenerator.TranslateBinary | DatabaseSchemaReader/SqlGen/Oracle/TableGenerator.cs:69 | VARBINARY and IMAGE become BLOB |
| OracleTableGenerator.TranslateNVarchar | DatabaseSchemaReader/SqlGen/Oracle/TableGenerator.cs:70-71 | NVARCHAR becomes CLOB beyond 4000 characters, otherwise NVARCHAR2 (a null length included) |
| OracleTableGenerator.TranslateVarcharDatetime | DatabaseSchemaReader/SqlGen/Oracle/TableGenerator.cs:72-75 | VARCHAR becomes VARCHAR2 and DATETIME becomes DATE |
| OracleTableGenerator.TranslateText | DatabaseSchemaReader/SqlGen/Oracle/TableGenerator.cs:73 | NTEXT and TEXT become CLOB |
| OracleTableGenerator.TranslateTimestamp | DatabaseSchemaReader/SqlGen/Oracle/TableGenerator.cs:58-100 | TIMESTAMP is not rewritten |
| OracleTableGenerator.TypeClause | DatabaseSchemaReader/SqlGen/Oracle/TableGenerator.cs:103-166 | every Oracle name writes a non-empty clause; any other name writes the column's own type text |
| OracleTableGenerator.QuotedDefault | DatabaseSchemaReader/SqlGen/Oracle/TableGenerator.cs:171-174 | " DEFAULT '", the value, then "'", with the value readable back from its place |
| OracleTableGenerator.DefaultClause | DatabaseSchemaReader/SqlGen/Oracle/TableGenerator.cs:107-166 | no clause exactly for a null or empty default; otherwise it starts " DEFAULT " |
| OracleTableGenerator.WriteDataType | DatabaseSchemaReader/SqlGen/Oracle/TableGenerator.cs:54-169 | the definition comes first, and a column that is not nullable ends with " NOT NULL" |
| OracleTableGenerator.NotNullSuffix | DatabaseSchemaReader/SqlGen/Oracle/TableGenerator.cs:168 | nullability changes only the " NOT NULL" suffix; a nullable column is its bare definition |
| OracleTableGenerator.IntDecimalClauses | DatabaseSchemaReader/SqlGen/Oracle/TableGenerator.cs:77-124 | INT is written "NUMBER (38)" and DECIMAL "NUMBER (18)" whatever the column's own precision |
| OracleTableGenerator.BitClause | DatabaseSchemaReader/SqlGen/Oracle/TableGenerator.cs:62-124 | BIT and BOOLEAN are written "NUMBER (1)" |
| OracleTableGenerator.MoneyClause | DatabaseSchemaReader/SqlGen/Oracle/TableGenerator.cs:95-124 | MONEY is written "NUMBER (15,4)" |
| OracleTableGenerator.NumberScale | DatabaseSchemaReader/SqlGen/Oracle/TableGenerator.cs:118-124 | NUMBER and NUMERIC keep the column's precision, and ",scale" is written only for a scale above 0 |
| OracleTableGenerator.NVarcharClause | DatabaseSchemaReader/SqlGen/Oracle/TableGenerator.cs:103-109 | NVARCHAR beyond 4000 characters is written "CLOB ", otherwise "NVARCHAR2 (length)" |
| OracleTableGenerator.VarcharTextClauses | DatabaseSchemaReader/SqlGen/Oracle/TableGenerator.cs:110-152 | VARCHAR is written "VARCHAR2 (length CHAR)"; TEXT and NTEXT are written "CLOB " |
| OracleTableGenerator.TimestampPrecision | DatabaseSchemaReader/SqlGen/Oracle/TableGenerator.cs:140-145 | TIMESTAMP takes the column's precision, or 6 when there is none |
| OracleTableGenerator.UnknownTypeKept | DatabaseSchemaReader/SqlGen/Oracle/TableGenerator.cs:161-166 | an unrecognised type is written as the column's own, not upper-cased, text |
| OracleTableGenerator.NumberDefault | DatabaseSchemaReader/SqlGen/Oracle/TableGenerator.cs:118-124 | the numeric types take a bare " DEFAULT v" |
| OracleTableGenerator.DateDefault | DatabaseSchemaReader/SqlGen/Oracle/TableGenerator.cs:133-145 | DATE and DATETIME take " DEFAULT DATE 'v'"; TIMESTAMP takes " DEFAULT TIMESTAMP 'v'" |
| OracleTableGenerator.QuotedDefaults | DatabaseSchemaReader/SqlGen/Oracle/TableGenerator.cs:103-166 | character and binary types take the quoted default |
| OracleTableGenerator.ColumnLines | DatabaseSchemaReader/SqlGen/Oracle/TableGenerator.cs:36-40 | one line per column |
| OracleTableGenerator.ColumnLineAt | DatabaseSchemaReader/SqlGen/Oracle/TableGenerator.cs:36-40 | the i-th line is the quoted name and definition of the i-th column, in column order |
| OracleTableGenerator.CreateTableScript | DatabaseSchemaReader/SqlGen/Oracle/TableGenerator.cs:33-46 | the script starts with the CREATE TABLE header for the quoted table name |
| OracleTableGenerator.PrimaryKeyNotWritten | DatabaseSchemaReader/SqlGen/Oracle/TableGenerator.cs:41-44 | the script does not depend on the primary key |
| OracleTableGenerator.TableGenerator.constructor | DatabaseSchemaReader/SqlGen/Oracle/TableGenerator.cs:15-19 | the generator keeps the table and its name and has no path yet |
| OracleTableGenerator.TableGenerator.WriteToFolder | DatabaseSchemaReader/SqlGen/Oracle/TableGenerator.cs:22-52 | a null or empty path fails with an argument error, and a missing folder fails with its path; otherwise the path is kept and the file "<table>.sql" gets the CREATE TABLE script |
| DdlFactory.DdlGeneratorFactory.constructor | DatabaseSchemaReader/SqlGen/DdlGeneratorFactory.cs:17-20 | the dialect is fixed at construction |
| DdlFactory.DdlGeneratorFactory.TableGenerator | DatabaseSchemaReader/SqlGen/DdlGeneratorFactory.cs:27-43 | a generator exactly for SQL Server, Oracle, MySQL, SQLite and SQL Server CE, of the factory's dialect and for the given table |
| DdlFactory.DdlGeneratorFactory.AllTablesGenerator | DatabaseSchemaReader/SqlGen/DdlGeneratorFactory.cs:50-66 | the same engines, with a generator of the factory's dialect over the given schema |
| DdlFactory.DdlGeneratorFactory.ProcedureGenerator | DatabaseSchemaReader/SqlGen/DdlGeneratorFactory.cs:73-89 | a generator exactly for SQL Server, Oracle and MySQL |
| DdlFactory.GeneratorsAgree | DatabaseSchemaReader/SqlGen/DdlGeneratorFactory.cs:27-89 | both DDL generators exist for the same engines and in the same dialect; a procedure generator implies a table generator |
| DdlFactory.NoGeneratorsForOtherEngines | DatabaseSchemaReader/SqlGen/DdlGeneratorFactory.cs:42 | PostgreSQL and DB2 get null from all three methods |
| DdlFactory.NoProceduresWithoutStoredProcedures | DatabaseSchemaReader/SqlGen/DdlGeneratorFactory.cs:77-86 | SQLite and SQL Server CE get both DDL generators but no procedure generator |
| OracleTablesGenerator.DropTableLine | DatabaseSchemaReader/SqlGen/Oracle/TablesGenerator.cs:27 | a commented DROP TABLE ... CASCADE CONSTRAINTS; line from which the escaped table name reads back |
| OracleTablesGenerator.DropSequenceLine | DatabaseSchemaReader/SqlGen/Oracle/TablesGenerator.cs:30 | a commented DROP SEQUENCE ..._SEQUENCE; line from which the table name, unescaped, reads back |
| OracleTablesGenerator.TableDrops | DatabaseSchemaReader/SqlGen/Oracle/TablesGenerator.cs:25-31 | a table gives its DROP TABLE line, followed by a DROP SEQUENCE line exactly when it has an identity column |
| OracleTablesGenerator.DropLineCount | DatabaseSchemaReader/SqlGen/Oracle/TablesGenerator.cs:23-33 | the script has one line per table plus one per identity table |
| OracleTablesGenerator.DropLinesCommented | DatabaseSchemaReader/SqlGen/Oracle/TablesGenerator.cs:23-33 | every line of the drop script starts with "-- " |
| OracleTablesGenerator.DropLinesOfTable | DatabaseSchemaReader/SqlGen/Oracle/TablesGenerator.cs:23-33 | each table's lines sit at their own position, in schema order |
| OracleTablesGenerator.AppendLinesConcat | DatabaseSchemaReader/SqlGen/Oracle/TablesGenerator.cs:23-33 | appending two runs of lines in turn is appending their concatenation |
| OracleTablesGenerator.TablesGenerator.LoadConstraintWriter | DatabaseSchemaReader/SqlGen/Oracle/TablesGenerator.cs:13-16 | the Oracle constraint writer over the given table |
| OracleTablesGenerator.TablesGenerator.LoadTableGenerator | DatabaseSchemaReader/SqlGen/Oracle/TablesGenerator.cs:18-21 | the Oracle table generator over the given table |
| OracleTablesGenerator.TablesGenerator.WriteDrops | DatabaseSchemaReader/SqlGen/Oracle/TablesGenerator.cs:23-33 | the builder's text followed by the drop script's lines, each ending with a line break |
| OracleTablesGenerator.WriteTableDrops | DatabaseSchemaReader/SqlGen/Oracle/TablesGenerator.cs:25-31 | the text one table adds is its drop lines, each ending with a line break |
| OracleTablesGenerator.OracleTableGeneratorAgrees | DatabaseSchemaReader/SqlGen/Oracle/TablesGenerator.cs:18-21 | the generator it hands out is the one the factory makes for Oracle |
| SqlServerMigration.FormatTwoItems | DatabaseSchemaReader/SqlGen/SqlServer/SqlServerMigrationGenerator.cs:10-13 | a template of literal text around {0} and {1} formats to that text around the two arguments |
| SqlServerMigration.AlterColumnText | DatabaseSchemaReader/SqlGen/SqlServer/SqlServerMigrationGenerator.cs:10-13 | the ALTER COLUMN template gives "ALTER TABLE t ALTER COLUMN c;" |
| SqlServerMigration.SqlServerMigrationGenerator.constructor | DatabaseSchemaReader/SqlGen/SqlServer/SqlServerMigrationGenerator.cs:7-9 | the generator writes for SQL Server |
| SqlServerMigration.SqlServerMigrationGenerator.AddTrigger | DatabaseSchemaReader/SqlGen/SqlServer/SqlServerMigrationGenerator.cs:14-27 | a trigger without a body gives "-- add trigger " and its name; otherwise the body followed by ";" |
| SqlServerMigration.AddTriggerIgnoresTable | DatabaseSchemaReader/SqlGen/SqlServer/SqlServerMigrationGenerator.cs:14-27 | the text never depends on the table |
| SchemaComparison.MentionsIgnoringCase | DatabaseSchemaReader/Compare/CompareSchemas.cs:46-62 | the upper-cased substring test is the case-insensitive search |
| SchemaComparison.FindSqlType | DatabaseSchemaReader/Compare/CompareSchemas.cs:42-63 | no engine exactly for a null or empty provider; otherwise one of Oracle, MySQL, SQLite, SQL Server CE, SQL Server |
| SchemaComparison.FindSqlTypePriority | DatabaseSchemaReader/Compare/CompareSchemas.cs:46-62 | each engine is chosen exactly when its test matches and no earlier test does; no match gives SQL Server |
| SchemaComparison.FindSqlTypeIgnoresCase | DatabaseSchemaReader/Compare/CompareSchemas.cs:45-62 | the same choice stated with the source's own mixed-case names searched ignoring case: Oracle first, then MySql, Sqlite and SqlServerCe.4.0, SQL Server when none is found |
| SchemaComparison.FindSqlTypeNeverOthers | DatabaseSchemaReader/Compare/CompareSchemas.cs:42-63 | no provider selects PostgreSQL or DB2 |
| SchemaComparison.WriterDialect | DatabaseSchemaReader/Compare/CompareSchemas.cs:36 | the compare schema's engine, else the base schema's, else SQL Server |
| SchemaComparison.WriterDialectOfProviders | DatabaseSchemaReader/Compare/CompareSchemas.cs:36-38 | SQL Server when neither schema names a provider; the compare schema's engine when it does; never PostgreSQL or DB2 |
| SchemaComparison.ScriptSections | DatabaseSchemaReader/Compare/CompareSchemas.cs:72-83 | the tables, views and procedures sections can each be read back from their place in the script |
| SchemaComparison.CompareSchemas.constructor | DatabaseSchemaReader/Compare/CompareSchemas.cs:27-39 | a null schema is replaced by a fresh empty schema with no provider; the writer's dialect is the one WriterDialect picks |
| SchemaComparison.CompareSchemas.Execute | DatabaseSchemaReader/Compare/CompareSchemas.cs:68-90 | the script is the tables section (compare tables sorted), then views, then procedures, all in the writer's dialect |
| SqlServerInserting.SelfReferences | CopyToSQLite/SqlServerInserter.cs:22-31 | only self-referencing foreign keys are kept, at most as many as there are |
| SqlServerInserting.SelfReferencesComplete | CopyToSQLite/SqlServerInserter.cs:22-31 | every self-referencing foreign key is kept and only list members are; the list is empty exactly when none refers back |
| SqlServerInserting.DropsMatchAdds | CopyToSQLite/SqlServerInserter.cs:27-31 | the k-th drop and the k-th re-add are for the same k-th self-referencing constraint |
| SqlServerInserting.NoSelfReferenceNoCommands | CopyToSQLite/SqlServerInserter.cs:22 | without a self-reference nothing is dropped or re-added |
| SqlServerInserting.IdentityInsertOn | CopyToSQLite/SqlServerInserter.cs:76-77 | the command is SET IDENTITY_INSERT [..] ON and the bracketed table name reads back from it |
| SqlServerInserting.IdentityInsertOff | CopyToSQLite/SqlServerInserter.cs:83-85 | the command is SET IDENTITY_INSERT [..] OFF and the bracketed table name reads back from it |
| SqlServerInserting.IdentityInsertOnIsNotOff | CopyToSQLite/SqlServerInserter.cs:73-87 | switching identity inserts on is never the same command as switching them off, whichever the tables |
| SqlServerInserting.DropConstraintCommand | CopyToSQLite/SqlServerInserter.cs:55-56 | ALTER TABLE [table] DROP CONSTRAINT [..], with the constraint name (empty when null) reading back from between the brackets |
| SqlServerInserting.AddConstraintCommand | CopyToSQLite/SqlServerInserter.cs:62-70 | ALTER TABLE [table] ADD CONSTRAINT [name] FOREIGN KEY over the key's columns joined with ", ", ending REFERENCES [table] over the table's own primary-key columns |
| SqlServerInserting.DropSelfReferences | CopyToSQLite/SqlServerInserter.cs:27-31 | a DROP CONSTRAINT command per self-referencing key, in list order |
| SqlServerInserting.AddSelfReferences | CopyToSQLite/SqlServerInserter.cs:43-48 | an ADD CONSTRAINT command per self-referencing key against the table's own key columns, in list order |
| SqlServerInserting.SqlServerInserter.constructor | CopyToSQLite/SqlServerInserter.cs:13-33 | identity inserts switched on exactly for an identity table, then the self-referencing keys dropped in order |
| SqlServerInserting.SqlServerInserter.CompleteTable | CopyToSQLite/SqlServerInserter.cs:35-50 | identity inserts switched off exactly if they were switched on, then the same constraints re-added in the same order |
| ProcedureConversion.GetNullableInt | DatabaseSchemaReader/Conversion/SchemaProcedureConverter.cs:358-369 | null exactly for a database null; a 32-bit value is kept and anything else gives -1 |
| ProcedureConversion.Sequences | DatabaseSchemaReader/Conversion/SchemaProcedureConverter.cs:12-41 | one sequence per row in row order, with name and owner; the increment defaults to 1 when missing |
| ProcedureConversion.Packages | DatabaseSchemaReader/Conversion/SchemaProcedureConverter.cs:336-356 | one package per row, in row order, with its name and owner |
| ProcedureConversion.FirstMatch | DatabaseSchemaReader/Conversion/SchemaProcedureConverter.cs:231-243 | the first routine in the list matching name, owner and package exactly |
| ProcedureConversion.FindStoredProcedureOrFunction | DatabaseSchemaReader/Conversion/SchemaProcedureConverter.cs:231-243 | a match among the stored procedures comes first, then among the functions; none exactly when neither list has one |
| ProcedureConversion.Create | DatabaseSchemaReader/Conversion/SchemaProcedureConverter.cs:194-210 | a new routine with the name, owner and package is appended to the functions when asked for a function, else to the stored procedures |
| ProcedureConversion.Update | DatabaseSchemaReader/Conversion/SchemaProcedureConverter.cs:110-119 | the routine at the location is replaced and the list lengths stay the same |
| ProcedureConversion.CreateProcedureOrFunction | DatabaseSchemaReader/Conversion/SchemaProcedureConverter.cs:194-210 | the schema's lists become those of Create; the rest of the schema is unchanged |
| ProcedureConversion.SetRoutine | DatabaseSchemaReader/Conversion/SchemaProcedureConverter.cs:110-119 | the schema's lists become those of Update; the rest of the schema is unchanged |
| ProcedureConversion.NormalisePackage | DatabaseSchemaReader/Conversion/SchemaProcedureConverter.cs:107 | an empty package becomes null; others are kept |
| ProcedureConversion.IsFunctionRow | DatabaseSchemaReader/Conversion/SchemaProcedureConverter.cs:96-102 | a row creates a function exactly when it has a routine type equal to FUNCTION ignoring case; without a routine type it is a stored procedure |
| ProcedureConversion.RoutineStep | DatabaseSchemaReader/Conversion/SchemaProcedureConverter.cs:110-119 | a row whose routine is already known keeps both list lengths; an unknown row adds one routine, to the functions exactly when the row is a function row |
| ProcedureConversion.StoredProcedures | DatabaseSchemaReader/Conversion/SchemaProcedureConverter.cs:68-121 | each row is merged in turn: found or created, then its SQL copied when present |
| ProcedureConversion.MergeRoutineRow | DatabaseSchemaReader/Conversion/SchemaProcedureConverter.cs:96-119 | one row's find-or-create and SQL update |
| ProcedureConversion.RowsAllKnown | DatabaseSchemaReader/Conversion/SchemaProcedureConverter.cs:96-119 | after merging, every row's routine is in the lists |
| ProcedureConversion.KnownRowsChangeOnlySql | DatabaseSchemaReader/Conversion/SchemaProcedureConverter.cs:96-119 | rows whose routines are all present change nothing but SQL text |
| ProcedureConversion.StoredProceduresRerun | DatabaseSchemaReader/Conversion/SchemaProcedureConverter.cs:68-121 | running the same rows again adds no entry and only overwrites SQL |
| ProcedureConversion.NewRoutineList | DatabaseSchemaReader/Conversion/SchemaProcedureConverter.cs:97-102 | an unknown row adds one routine, to the functions exactly for a function row |
| ProcedureConversion.AddInOut | DatabaseSchemaReader/Conversion/SchemaProcedureConverter.cs:315-321 | no mode changes nothing; In is set when the mode contains IN and Out when it contains OUT; neither is cleared and no other field changes |
| ProcedureConversion.AddInOutIdempotent | DatabaseSchemaReader/Conversion/SchemaProcedureConverter.cs:315-321 | setting the flags twice is setting them once |
| ProcedureConversion.FindArgument | DatabaseSchemaReader/Conversion/SchemaProcedureConverter.cs:325 | the first position whose argument has exactly that name, or none when no argument has it |
| ProcedureConversion.AddArgumentToList | DatabaseSchemaReader/Conversion/SchemaProcedureConverter.cs:323-334 | find-or-add by exact name: the existing argument, or a new one appended; distinct names stay distinct |
| ProcedureConversion.FillArgument | DatabaseSchemaReader/Conversion/SchemaProcedureConverter.cs:291-306 | a row sets procedure, owner, ordinal, data type, length, precision and scale, sets the In and Out flags from its mode, and sets the package only when the row has one |
| ProcedureConversion.ArgumentListNames | DatabaseSchemaReader/Conversion/SchemaProcedureConverter.cs:288-306 | the argument names are distinct, every row's name has an argument, and every argument comes from a row |
| ProcedureConversion.StoredProcedureArguments | DatabaseSchemaReader/Conversion/SchemaProcedureConverter.cs:245-308 | the list is what the rows build one after another |
| ProcedureConversion.RowsOf | DatabaseSchemaReader/Conversion/SchemaProcedureConverter.cs:175-176 | the filter keeps only rows of the routine name and owner |
| ProcedureConversion.RowsOfComplete | DatabaseSchemaReader/Conversion/SchemaProcedureConverter.cs:175-176 | every row of that name and owner is kept |
| ProcedureConversion.HasReturnArgument | DatabaseSchemaReader/Conversion/SchemaProcedureConverter.cs:214-216 | a list with a return argument has an argument with the empty name, and a list with no argument at ordinal 0 has no return argument |
| ProcedureConversion.ArgumentStep | DatabaseSchemaReader/Conversion/SchemaProcedureConverter.cs:180-189 | a key whose routine is found keeps both list lengths; a missing routine is added, to the functions exactly when the arguments include a return argument |
| ProcedureConversion.UpdateArguments | DatabaseSchemaReader/Conversion/SchemaProcedureConverter.cs:123-192 | nothing for a table without columns; otherwise each key's arguments are appended to its routine, which is created first when missing |
| ProcedureConversion.ArgumentStepAt | DatabaseSchemaReader/Conversion/SchemaProcedureConverter.cs:180-189 | one key's step appends its arguments to the routine found or created |
| ProcedureConversion.ArgumentInferredKind | DatabaseSchemaReader/Conversion/SchemaProcedureConverter.cs:212-229 | a missing routine is created with its arguments, among the functions exactly when an argument has ordinal 0 and no name |
| ProcedureConversion.ArgumentsAppended | DatabaseSchemaReader/Conversion/SchemaProcedureConverter.cs:180-189 | a found routine keeps its place and gets the arguments appended |
| ProcedureConversion.KeyArgumentsIgnorePackage | DatabaseSchemaReader/Conversion/SchemaProcedureConverter.cs:175-176 | the row filter ignores the package |
| OleDbReading.TableNameFromConstraintName | DatabaseSchemaReader/ProviderSchemaReaders/OleDbSchemaReader.cs:56-62 | none exactly for an empty name or a missing "[" or "]."; otherwise the name holds "[T]." at the first "[" |
| OleDbReading.TableNameStopsAtFirstEnd | DatabaseSchemaReader/ProviderSchemaReaders/OleDbSchemaReader.cs:58-61 | the extracted name never contains "]." |
| OleDbReading.TableNameRoundTrip | DatabaseSchemaReader/ProviderSchemaReaders/OleDbSchemaReader.cs:56-62 | "[T].rest" after bracket-free text gives back T when T has no "]" |
| OleDbReading.CheckConstraints | DatabaseSchemaReader/ProviderSchemaReaders/OleDbSchemaReader.cs:47-66 | every row keeps its constraint name and gets the extracted table name when there is one; others are left as they were |
| OleDbReading.GapFilled | DatabaseSchemaReader/ProviderSchemaReaders/OleDbSchemaReader.cs:78-93 | the catalog is kept as a prefix; both codes 130 and 128 are present afterwards; one row is added per missing code; a missing TEXT row comes right after the catalog, and a missing Binary row comes last |
| OleDbReading.DataTypes | DatabaseSchemaReader/ProviderSchemaReaders/OleDbSchemaReader.cs:74-95 | the rows returned are exactly GapFilled of the catalog, so TEXT (130) is appended before Binary (128) and each only when missing; the catalog stays a prefix and only those two rows are added |
| OleDbReading.KeepsTypeCode | DatabaseSchemaReader/ProviderSchemaReaders/OleDbSchemaReader.cs:78-93 | appending a row keeps every code already present |
| OleDbReading.GapFillIdempotent | DatabaseSchemaReader/ProviderSchemaReaders/OleDbSchemaReader.cs:78-93 | filling the gaps of what DataTypes returns adds nothing |
| OleDbReading.DataTypesRerun | DatabaseSchemaReader/ProviderSchemaReaders/OleDbSchemaReader.cs:74-95 | DataTypes run again on its own output returns that output unchanged |
| OleDbReading.GapFillKeepsCompleteCatalog | DatabaseSchemaReader/ProviderSchemaReaders/OleDbSchemaReader.cs:78-93 | DataTypes returns a catalog that already has both codes exactly as it is |
| OleDbReading.Retyped | DatabaseSchemaReader/ProviderSchemaReaders/OleDbSchemaReader.cs:116-120 | a column with a catalog type takes its type name; no other field changes, and a column without one is unchanged |
| OleDbReading.RetypedIdempotent | DatabaseSchemaReader/ProviderSchemaReaders/OleDbSchemaReader.cs:116-120 | re-typing twice is re-typing once |
| OleDbReading.RetypedTablesIdempotent | DatabaseSchemaReader/ProviderSchemaReaders/OleDbSchemaReader.cs:97-110 | post-processing tables and views a second time changes nothing |
| OleDbReading.UpdateColumnDataTypes | DatabaseSchemaReader/ProviderSchemaReaders/OleDbSchemaReader.cs:112-122 | every column re-typed, in place |
| OleDbReading.PostProcessing | DatabaseSchemaReader/ProviderSchemaReaders/OleDbSchemaReader.cs:97-110 | nothing changes for an empty catalog; otherwise every table column and view column is re-typed and the rest of the schema is unchanged |
| CodeFirstMapping.ToTableCall | DatabaseSchemaReader/CodeGen/CodeFirst/CodeFirstMappingWriter.cs:73-84 | exactly ToTable("name"); when the owner is null, empty or dbo, and exactly ToTable("name", "owner"); otherwise |
| CodeFirstMapping.TableNameLines | DatabaseSchemaReader/CodeGen/CodeFirst/CodeFirstMappingWriter.cs:70-85 | no lines exactly when the class name is the table name; otherwise a comment and the ToTable call |
| CodeFirstMapping.KeyPartsInColumnOrder | DatabaseSchemaReader/CodeGen/CodeFirst/CodeFirstMappingWriter.cs:116-124 | the k-th key part is the k-th key column's property, with "Id" for a foreign-key column |
| CodeFirstMapping.KeyColumnsComplete | DatabaseSchemaReader/CodeGen/CodeFirst/CodeFirstMappingWriter.cs:116-124 | every primary-key column takes part in the composite key |
| CodeFirstMapping.CompositeKeyLines | DatabaseSchemaReader/CodeGen/CodeFirst/CodeFirstMappingWriter.cs:114-125 | a comment, then a HasKey over an anonymous object |
| CodeFirstMapping.PrimaryKeyLines | DatabaseSchemaReader/CodeGen/CodeFirst/CodeFirstMappingWriter.cs:87-112 | only the TODO line exactly when there is no key; the composite lines for a composite key; no HasKey exactly for an Id or ClassNameId property (ignoring case); otherwise HasKey on the key property |
| CodeFirstMapping.PropertyName | DatabaseSchemaReader/CodeGen/CodeFirst/CodeFirstMappingWriter.cs:144-145 | the property name is the .NET name, or the column name when that is null or empty |
| CodeFirstMapping.ColumnNameClause | DatabaseSchemaReader/CodeGen/CodeFirst/CodeFirstMappingWriter.cs:147-151 | HasColumnName exactly when the property name differs from the column name |
| CodeFirstMapping.GeneratedClause | DatabaseSchemaReader/CodeGen/CodeFirst/CodeFirstMappingWriter.cs:152-156 | DatabaseGeneratedOption.None exactly for a key column that is not an identity |
| CodeFirstMapping.MaxLengthClause | DatabaseSchemaReader/CodeGen/CodeFirst/CodeFirstMappingWriter.cs:162-165 | HasMaxLength exactly for a string type with a length between 0 and 1073741823, exclusive |
| CodeFirstMapping.TimestampClause | DatabaseSchemaReader/CodeGen/CodeFirst/CodeFirstMappingWriter.cs:166-169 | the row-version mapping exactly for a timestamp column |
| CodeFirstMapping.RequiredClause | DatabaseSchemaReader/CodeGen/CodeFirst/CodeFirstMappingWriter.cs:172-175 | IsRequired exactly for a column that is not nullable |
| CodeFirstMapping.PropertyLine | DatabaseSchemaReader/CodeGen/CodeFirst/CodeFirstMappingWriter.cs:144-178 | a property line starts with Property(x => x.Name) and ends with the required clause then ";", which is .IsRequired(); for a column that is not nullable |
| CodeFirstMapping.RequiredOnlyAddsSuffix | DatabaseSchemaReader/CodeGen/CodeFirst/CodeFirstMappingWriter.cs:172-175 | a column that is not nullable has the nullable column's line with IsRequired inserted before the ";" |
| CodeFirstMapping.ForeignKeyHead | DatabaseSchemaReader/CodeGen/CodeFirst/CodeFirstMappingWriter.cs:185-191 | HasRequired for a column that is not nullable, HasOptional otherwise |
| CodeFirstMapping.ForeignKeyTie | DatabaseSchemaReader/CodeGen/CodeFirst/CodeFirstMappingWriter.cs:193-200 | a key column ties by the HasForeignKey mirror, any other by Map(MapKey(column name)) |
| CodeFirstMapping.ForeignKeyLine | DatabaseSchemaReader/CodeGen/CodeFirst/CodeFirstMappingWriter.cs:185-200 | the line opens with the navigation kind and closes with WithMany over the inverse collection, the tie to the column and ";" |
| CodeFirstMapping.ForeignKeyLineKind | DatabaseSchemaReader/CodeGen/CodeFirst/CodeFirstMappingWriter.cs:185-200 | the line starts with HasRequired exactly when not nullable and with HasOptional exactly when nullable |
| CodeFirstMapping.ColumnLines | DatabaseSchemaReader/CodeGen/CodeFirst/CodeFirstMappingWriter.cs:127-134 | one line per column |
| CodeFirstMapping.ColumnLinesAt | DatabaseSchemaReader/CodeGen/CodeFirst/CodeFirstMappingWriter.cs:127-134 | the i-th line is the i-th column's, in column order |
| CodeFirstMapping.CodeFirstMappingWriter.constructor | DatabaseSchemaReader/CodeGen/CodeFirst/CodeFirstMappingWriter.cs:17-22 | the writer keeps the table and namespace, has no collection namer and no lines yet |
| CodeFirstMapping.CodeFirstMappingWriter.NameCollection | DatabaseSchemaReader/CodeGen/CodeFirst/CodeFirstMappingWriter.cs:32-36 | the name plus "Collection" without a namer, the namer's name otherwise |
| CodeFirstMapping.DefaultInverseCollection | DatabaseSchemaReader/CodeGen/CodeFirst/CodeFirstMappingWriter.cs:32-36 | without a namer the inverse collection is the class name plus "Collection" |
| CodeFirstMapping.CodeFirstMappingWriter.MapTableName | DatabaseSchemaReader/CodeGen/CodeFirst/CodeFirstMappingWriter.cs:70-85 | appends the table-name lines |
| CodeFirstMapping.CodeFirstMappingWriter.AddCompositePrimaryKey | DatabaseSchemaReader/CodeGen/CodeFirst/CodeFirstMappingWriter.cs:114-125 | appends the composite-key lines |
| CodeFirstMapping.CodeFirstMappingWriter.AddPrimaryKey | DatabaseSchemaReader/CodeGen/CodeFirst/CodeFirstMappingWriter.cs:87-112 | appends the primary-key lines |
| CodeFirstMapping.CodeFirstMappingWriter.WriteForeignKey | DatabaseSchemaReader/CodeGen/CodeFirst/CodeFirstMappingWriter.cs:181-204 | appends the foreign-key line with the inverse collection |
| CodeFirstMapping.CodeFirstMappingWriter.WriteColumn | DatabaseSchemaReader/CodeGen/CodeFirst/CodeFirstMappingWriter.cs:136-179 | appends the foreign-key line for a foreign-key column, the property line otherwise |
| CodeFirstMapping.CodeFirstMappingWriter.WriteColumns | DatabaseSchemaReader/CodeGen/CodeFirst/CodeFirstMappingWriter.cs:127-134 | appends one line per column, in column order |
| CodeFirstMapping.CodeFirstMappingWriter.WriteMappingBody | DatabaseSchemaReader/CodeGen/CodeFirst/CodeFirstMappingWriter.cs:51-58 | table-name lines, key lines, the properties comment, column lines, then the navigation comment, in that order |

## Left out

- File and directory I/O: `WriteToFolder` receives whether the folder exists as a parameter, and returns the file name and text instead of writing the file.
- The database connection and command execution: the inserter records each command's text in a log. The insert statement and the `DatabaseInserter` base class are not modelled.
- Case folding and upper-casing cover ASCII letters only. `char.IsWhiteSpace` is modelled from its Unicode table.
- Collaborators whose code is outside this model are parameters and are not given behaviour. These are `StringEscaper.Escape`, the table, view and procedure comparers, the topological table sort, the collection namer, and the `PrimaryKeyColumn` a mapping writer keys on. `HasIdentityColumn` (some column is an identity) and `HasCompositeKey` (a primary key of more than one column) are defined in the model, because `DatabaseTable` is not part of it.
- `string.Format` is modelled for templates whose only items are `{0}` and `{1}`.
- `DataTable`/`DataView` plumbing in the procedure converter is not modelled: column-name probing, the row filter string, sorting by ordinal and the distinct projection. Rows arrive as records, argument rows already sorted by ordinal, and the distinct routine keys are given.
- `GetNullableDecimal` and the culture-sensitive `Convert` calls are not modelled. An argument's ordinal is an integer.
- `GetNullableInt` models a cell as a database null or a whole number; an overflow gives -1. Fractional values (which `Convert.ToInt32` rounds) and text cells (which make it throw) are not modelled.
- Throwing paths are preconditions: `ParseDataType` with "(" but no ")" after it (`Parseable`); a check-constraint name with "]." before "[" (`Extractable`); a column with no type in the Oracle generator (`TypesSet`); a self-referencing table without a primary key in `CompleteTable`; a table whose primary key has no name in `ReferencedTable` (`SearchDefined`).
- The OleDb schema calls (`GetOleDbSchemaTable`, primary keys, foreign keys, indexes) are not modelled. The data-type catalog and the check-constraint rows are inputs.
- `Write()` in the mapping writer is not modelled: its usings, namespace and class nesting, and builder indentation. `WriteMappingBody` covers the body it writes.
- `WriteForeignKeyCollection` and the many-to-many mapping (CodeFirstMappingWriter.cs:206-265) are not modelled: they depend on many-to-many helpers outside this model.
- The `MigrationGenerator` base class is not modelled; only the SQL Server specifics are.
- Environment.NewLine is fixed to "\r\n".
- OracleTableGenerator.CreateTableScript: its contract states only the header. The column lines and their order are stated by ColumnLines and ColumnLineAt, and the whole text by WriteToFolder's postcondition.

## Findings

| source | as written | input that shows it | evidently intended | confidence | as-written member | corrected member |
|---|---|---|---|---|---|---|
| DatabaseSchemaReader/SqlGen/DataTypeConverter.cs:86-88 | the test `precision < 38 && scale == 0` comes first and returns INTEGER, so the BIT (1,0) and DECIMAL (18,0) tests after it never fire | precision 1, scale 0 gives INTEGER, not BIT; precision 18, scale 0 gives INTEGER, not DECIMAL | the exact tests for (1,0) and (18,0) come before the range test | not executed | DataTypeConverter.OracleNumberBitUnreachable | DataTypeConverter.OracleNumberConversionIntended |
