/**
 * `SqlServerInserter` (the SQLite copier's loader for a SQL Server target):
 * around the load of one table it switches identity inserts on and off, and
 * drops and re-adds the table's self-referencing foreign keys. The commands
 * it executes are recorded, in order, in a command log; the connection, the
 * insert statement and the `DatabaseInserter` base class are not part of this
 * model.
 */
module SqlServerInserting {
  import opened Wrappers
  import opened Text
  import opened DataSchema

  /** `SET IDENTITY_INSERT [table] ON`: the bracketed table name reads back from the command. */
  function IdentityInsertOn(tableName: string): (r: string)
    ensures StartsWith(r, "SET IDENTITY_INSERT [") && EndsWith(r, "] ON")
    ensures |r| == |tableName| + 25 && r[21..|r| - 4] == tableName
  {
    "SET IDENTITY_INSERT [" + tableName + "] ON"
  }

  /** `SET IDENTITY_INSERT [table] OFF`: the bracketed table name reads back from the command. */
  function IdentityInsertOff(tableName: string): (r: string)
    ensures StartsWith(r, "SET IDENTITY_INSERT [") && EndsWith(r, "] OFF")
    ensures |r| == |tableName| + 26 && r[21..|r| - 5] == tableName
  {
    "SET IDENTITY_INSERT [" + tableName + "] OFF"
  }

  /** Switching on is never the same command as switching off, whichever the tables. */
  lemma IdentityInsertOnIsNotOff(t: string, u: string)
    ensures IdentityInsertOn(t) != IdentityInsertOff(u)
  {
    var on, off := IdentityInsertOn(t), IdentityInsertOff(u);
    assert on[|on| - 1] == 'N' && off[|off| - 1] == 'F';
  }

  /** `ALTER TABLE [table] DROP CONSTRAINT [name]`; a null name formats as empty. */
  function DropConstraintCommand(tableName: string, constraintName: Option<string>): (r: string)
    ensures StartsWith(r, "ALTER TABLE [" + tableName + "] DROP CONSTRAINT [") && EndsWith(r, "]")
    ensures |r| == |tableName| + |Str(constraintName)| + 33
    ensures r[|tableName| + 32..|r| - 1] == Str(constraintName)
  {
    "ALTER TABLE [" + tableName + "] DROP CONSTRAINT [" + Str(constraintName) + "]"
  }

  /**
   * `ALTER TABLE [table] ADD CONSTRAINT [name] FOREIGN KEY (cols) REFERENCES [table](pkcols)`:
   * the foreign key's columns and the table's own primary-key columns, each joined with ", ".
   */
  function AddConstraintCommand(tableName: string, foreignKey: Constraint, primaryKeyColumns: seq<string>): (r: string)
    ensures StartsWith(r, "ALTER TABLE [" + tableName + "] ADD CONSTRAINT [" + Str(foreignKey.name)
                          + "] FOREIGN KEY (" + Join(", ", foreignKey.columns) + ")")
    ensures EndsWith(r, " REFERENCES [" + tableName + "](" + Join(", ", primaryKeyColumns) + ")")
  {
    var head := "ALTER TABLE [" + tableName + "] ADD CONSTRAINT [" + Str(foreignKey.name)
                + "] FOREIGN KEY (" + Join(", ", foreignKey.columns) + ")";
    var tail := " REFERENCES [" + tableName + "](" + Join(", ", primaryKeyColumns) + ")";
    assert (head + tail)[..|head|] == head && (head + tail)[|head|..] == tail;
    head + tail
  }

  /** The foreign key refers back to its own table (ordinal comparison; a null reference never does). */
  predicate SelfReferencing(fk: Constraint, tableName: string) {
    fk.refersToTable == Some(tableName)
  }

  /** Some foreign key of the list refers back to the table. */
  predicate AnySelfReference(fks: seq<Constraint>, tableName: string) {
    exists k :: 0 <= k < |fks| && SelfReferencing(fks[k], tableName)
  }

  /** The self-referencing foreign keys, in list order. */
  function SelfReferences(fks: seq<Constraint>, tableName: string): (r: seq<Constraint>)
    ensures |r| <= |fks|
    ensures forall k :: 0 <= k < |r| ==> SelfReferencing(r[k], tableName)
  {
    if fks == [] then []
    else
      var last := fks[|fks| - 1];
      SelfReferences(fks[..|fks| - 1], tableName) + if SelfReferencing(last, tableName) then [last] else []
  }

  /** Every self-referencing foreign key is kept, and only those are. */
  lemma {:induction false} SelfReferencesComplete(fks: seq<Constraint>, tableName: string)
    ensures forall fk :: fk in fks && SelfReferencing(fk, tableName) ==> fk in SelfReferences(fks, tableName)
    ensures forall fk :: fk in SelfReferences(fks, tableName) ==> fk in fks
    ensures SelfReferences(fks, tableName) == [] <==> !AnySelfReference(fks, tableName)
  {
    if fks != [] {
      var init := fks[..|fks| - 1];
      SelfReferencesComplete(init, tableName);
      assert fks == init + [fks[|fks| - 1]];
      if AnySelfReference(fks, tableName) && !SelfReferencing(fks[|fks| - 1], tableName) {
        var k :| 0 <= k < |fks| && SelfReferencing(fks[k], tableName);
        assert init[k] == fks[k];
      }
    }
  }

  /** The drop commands for the self-referencing foreign keys, in list order. */
  function DropCommands(fks: seq<Constraint>, tableName: string): (r: seq<string>)
    ensures |r| == |SelfReferences(fks, tableName)|
  {
    if fks == [] then []
    else
      var last := fks[|fks| - 1];
      DropCommands(fks[..|fks| - 1], tableName)
      + if SelfReferencing(last, tableName) then [DropConstraintCommand(tableName, last.name)] else []
  }

  /** The re-add commands for the self-referencing foreign keys, in list order. */
  function AddCommands(fks: seq<Constraint>, tableName: string, primaryKeyColumns: seq<string>): (r: seq<string>)
    ensures |r| == |SelfReferences(fks, tableName)|
  {
    if fks == [] then []
    else
      var last := fks[|fks| - 1];
      AddCommands(fks[..|fks| - 1], tableName, primaryKeyColumns)
      + if SelfReferencing(last, tableName) then [AddConstraintCommand(tableName, last, primaryKeyColumns)] else []
  }

  /**
   * The k-th drop and the k-th re-add concern the same constraint: the k-th
   * self-referencing foreign key. So the constraints are re-added exactly as
   * they were dropped, in the same order.
   */
  lemma {:induction false} DropsMatchAdds(fks: seq<Constraint>, tableName: string, primaryKeyColumns: seq<string>, k: nat)
    requires k < |SelfReferences(fks, tableName)|
    ensures DropCommands(fks, tableName)[k] == DropConstraintCommand(tableName, SelfReferences(fks, tableName)[k].name)
    ensures AddCommands(fks, tableName, primaryKeyColumns)[k]
            == AddConstraintCommand(tableName, SelfReferences(fks, tableName)[k], primaryKeyColumns)
  {
    var init := fks[..|fks| - 1];
    if k < |SelfReferences(init, tableName)| {
      DropsMatchAdds(init, tableName, primaryKeyColumns, k);
    }
  }

  /** Appending one more command to the log. */
  lemma CommandsNext(fks: seq<Constraint>, i: nat, tableName: string, primaryKeyColumns: seq<string>)
    requires i < |fks|
    ensures DropCommands(fks[..i + 1], tableName) == DropCommands(fks[..i], tableName)
              + if SelfReferencing(fks[i], tableName) then [DropConstraintCommand(tableName, fks[i].name)] else []
    ensures AddCommands(fks[..i + 1], tableName, primaryKeyColumns) == AddCommands(fks[..i], tableName, primaryKeyColumns)
              + if SelfReferencing(fks[i], tableName) then [AddConstraintCommand(tableName, fks[i], primaryKeyColumns)] else []
  {
    assert fks[..i + 1][..i] == fks[..i];
  }

  /** Without a self-referencing foreign key there is nothing to drop or re-add. */
  lemma {:induction false} NoSelfReferenceNoCommands(fks: seq<Constraint>, tableName: string, primaryKeyColumns: seq<string>)
    requires !AnySelfReference(fks, tableName)
    ensures DropCommands(fks, tableName) == [] && AddCommands(fks, tableName, primaryKeyColumns) == []
  {
    SelfReferencesComplete(fks, tableName);
  }

  /** The primary-key columns a re-added constraint references; the source requires the primary key. */
  function PrimaryKeyColumns(table: Table): seq<string>
    requires table.primaryKey.Some?
  {
    table.primaryKey.value.columns
  }

  /** The loop of the constructor: a drop command for each self-referencing foreign key, in list order. */
  method DropSelfReferences(fks: seq<Constraint>, tableName: string) returns (log: seq<string>)
    ensures log == DropCommands(fks, tableName)
  {
    log := [];
    var i := 0;
    while i < |fks|
      invariant i <= |fks|
      invariant log == DropCommands(fks[..i], tableName)
    {
      CommandsNext(fks, i, tableName, []);
      if fks[i].refersToTable == Some(tableName) {
        log := log + [DropConstraintCommand(tableName, fks[i].name)];
      }
      i := i + 1;
    }
    assert fks[..i] == fks;
  }

  /** The loop of `CompleteTable`: a re-add command for each self-referencing foreign key, in list order. */
  method AddSelfReferences(fks: seq<Constraint>, tableName: string, primaryKeyColumns: seq<string>)
    returns (log: seq<string>)
    ensures log == AddCommands(fks, tableName, primaryKeyColumns)
  {
    log := [];
    var i := 0;
    while i < |fks|
      invariant i <= |fks|
      invariant log == AddCommands(fks[..i], tableName, primaryKeyColumns)
    {
      CommandsNext(fks, i, tableName, primaryKeyColumns);
      if fks[i].refersToTable == Some(tableName) {
        log := log + [AddConstraintCommand(tableName, fks[i], primaryKeyColumns)];
      }
      i := i + 1;
    }
    assert fks[..i] == fks;
  }

  class SqlServerInserter {
    const table: Table
    const hasIdentity: bool
    /** The text of every command executed so far, in order. */
    var commands: seq<string>

    /**
     * `new SqlServerInserter(connection, insertSql, table)`: switches identity
     * inserts on when the table has an identity column, then drops each
     * self-referencing foreign key.
     */
    constructor(table: Table)
      ensures this.table == table
      ensures hasIdentity == HasIdentityColumn(table)
      ensures commands == (if HasIdentityColumn(table) then [IdentityInsertOn(table.name)] else [])
                          + DropCommands(table.foreignKeys, table.name)
    {
      this.table := table;
      var log: seq<string> := [];
      var identity := false;
      if HasIdentityColumn(table) {
        identity := true;
        log := log + [IdentityInsertOn(table.name)];
      }
      var fks := table.foreignKeys;
      if AnySelfReference(fks, table.name) {
        var drops := DropSelfReferences(fks, table.name);
        log := log + drops;
      } else {
        NoSelfReferenceNoCommands(fks, table.name, []);
      }
      hasIdentity := identity;
      commands := log;
    }

    /**
     * `CompleteTable()`: switches identity inserts off if they were switched
     * on, then re-adds each self-referencing foreign key against the table's
     * own primary key, which must then exist.
     */
    method CompleteTable()
      requires AnySelfReference(table.foreignKeys, table.name) ==> table.primaryKey.Some?
      modifies this
      ensures commands == old(commands) + (if hasIdentity then [IdentityInsertOff(table.name)] else [])
                          + (if AnySelfReference(table.foreignKeys, table.name)
                             then AddCommands(table.foreignKeys, table.name, PrimaryKeyColumns(table)) else [])
    {
      var log := commands;
      if hasIdentity {
        log := log + [IdentityInsertOff(table.name)];
      }
      var fks := table.foreignKeys;
      if AnySelfReference(fks, table.name) {
        var adds := AddSelfReferences(fks, table.name, PrimaryKeyColumns(table));
        log := log + adds;
      }
      commands := log;
    }
  }
}
