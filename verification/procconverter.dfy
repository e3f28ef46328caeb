/**
 * `SchemaProcedureConverter`: turns provider rows describing sequences,
 * packages, routines and routine arguments into schema entities, merging
 * routines into the schema's stored-procedure and function lists by
 * find-or-create. Rows are records whose fields have already been picked out
 * of the provider's result table; a field is `None` when the provider's table
 * has no column for it.
 */
module ProcedureConversion {
  import opened Wrappers
  import opened Text
  import opened Numeric
  import opened DataSchema

  /** A numeric cell of a provider row: database null, or a whole number. */
  datatype Cell = DbNull | Number(value: int)

  /**
   * `GetNullableInt(o)`: null for a database null; the value when it fits a
   * 32-bit int; -1 when `Convert.ToInt32` overflows (blobs and clobs under OleDb).
   */
  function GetNullableInt(o: Cell): (r: Option<int>)
    ensures r.None? <==> o.DbNull?
    ensures r.Some? ==> IsInt32(r.value)
    ensures o.Number? && IsInt32(o.value) ==> r == Some(o.value)
    ensures o.Number? && !IsInt32(o.value) ==> r == Some(-1)
  {
    match o
    case DbNull => None
    case Number(v) => if IsInt32(v) then Some(v) else Some(-1)
  }

  // ---------------------------------------------------------------- sequences and packages

  /** A sequence row: name, owner and increment. */
  datatype SequenceRow = SequenceRow(name: string, owner: string, incrementBy: Cell)

  /** `Sequences(dt)`: one sequence per row, in row order; a missing increment is 1. */
  method Sequences(rows: seq<SequenceRow>) returns (list: seq<Sequence>)
    ensures |list| == |rows|
    ensures forall i :: 0 <= i < |rows| ==>
              list[i].name == rows[i].name && list[i].schemaOwner == rows[i].owner
              && list[i].incrementBy == GetNullableInt(rows[i].incrementBy).GetOr(1)
    ensures forall i :: 0 <= i < |rows| && rows[i].incrementBy.DbNull? ==> list[i].incrementBy == 1
  {
    list := [];
    var i := 0;
    while i < |rows|
      invariant i <= |rows| && |list| == i
      invariant forall k :: 0 <= k < i ==>
                  list[k].name == rows[k].name && list[k].schemaOwner == rows[k].owner
                  && list[k].incrementBy == GetNullableInt(rows[k].incrementBy).GetOr(1)
    {
      var row := rows[i];
      var increment := GetNullableInt(row.incrementBy);
      list := list + [Sequence(row.name, row.owner, increment.GetOr(1))];
      i := i + 1;
    }
  }

  /** A package row: name and owner. */
  datatype PackageRow = PackageRow(name: string, owner: string)

  /** `Packages(dt)`: one package per row, in row order (none for no rows). */
  method Packages(rows: seq<PackageRow>) returns (list: seq<Package>)
    ensures |list| == |rows|
    ensures forall i :: 0 <= i < |rows| ==> list[i] == Package(rows[i].name, rows[i].owner)
  {
    list := [];
    if |rows| == 0 {
      return;
    }
    var i := 0;
    while i < |rows|
      invariant i <= |rows| && |list| == i
      invariant forall k :: 0 <= k < i ==> list[k] == Package(rows[k].name, rows[k].owner)
    {
      list := list + [Package(rows[i].name, rows[i].owner)];
      i := i + 1;
    }
  }

  // ---------------------------------------------------------------- finding and creating routines

  /** The schema's two routine lists. */
  datatype Routines = Routines(procedures: seq<Routine>, functions: seq<Routine>)

  /** Where a routine sits: in the stored-procedure list or in the function list. */
  datatype Location = InProcedures(index: nat) | InFunctions(index: nat)

  predicate ValidLocation(rs: Routines, loc: Location) {
    match loc
    case InProcedures(i) => i < |rs.procedures|
    case InFunctions(i) => i < |rs.functions|
  }

  function At(rs: Routines, loc: Location): Routine
    requires ValidLocation(rs, loc)
  {
    match loc
    case InProcedures(i) => rs.procedures[i]
    case InFunctions(i) => rs.functions[i]
  }

  /** The lookup key of a routine: exact (ordinal) equality on name, owner and package. */
  predicate Matches(r: Routine, name: string, owner: string, package: Option<string>) {
    r.name == name && r.schemaOwner == Some(owner) && r.package == package
  }

  /** `List.Find`: the first routine from position `i` on that matches. */
  function FirstMatch(list: seq<Routine>, name: string, owner: string, package: Option<string>, i: nat): (r: Option<nat>)
    ensures r.Some? ==> i <= r.value < |list| && Matches(list[r.value], name, owner, package)
    ensures r.Some? ==> forall j :: i <= j < r.value ==> !Matches(list[j], name, owner, package)
    ensures r.None? ==> forall j :: i <= j < |list| ==> !Matches(list[j], name, owner, package)
    decreases |list| - i
  {
    if i >= |list| then None
    else if Matches(list[i], name, owner, package) then Some(i)
    else FirstMatch(list, name, owner, package, i + 1)
  }

  /**
   * `FindStoredProcedureOrFunction(schema, name, owner, package)`: the first
   * matching stored procedure; failing that, the first matching function;
   * failing that, none.
   */
  function FindStoredProcedureOrFunction(rs: Routines, name: string, owner: string, package: Option<string>): (r: Option<Location>)
    ensures r.Some? ==> ValidLocation(rs, r.value) && Matches(At(rs, r.value), name, owner, package)
    ensures r.Some? && r.value.InFunctions? ==>
              forall j :: 0 <= j < |rs.procedures| ==> !Matches(rs.procedures[j], name, owner, package)
    ensures r.None? <==>
              (forall j :: 0 <= j < |rs.procedures| ==> !Matches(rs.procedures[j], name, owner, package))
              && (forall j :: 0 <= j < |rs.functions| ==> !Matches(rs.functions[j], name, owner, package))
  {
    match FirstMatch(rs.procedures, name, owner, package, 0)
    case Some(i) => Some(InProcedures(i))
    case None =>
      match FirstMatch(rs.functions, name, owner, package, 0)
      case Some(i) => Some(InFunctions(i))
      case None => None
  }

  /** The routine a find-or-create adds: the looked-up name, owner and package, no SQL and no arguments. */
  function NewRoutine(name: string, owner: string, package: Option<string>): Routine {
    Routine(name, Some(owner), package, None, [])
  }

  /**
   * `CreateProcedureOrFunction`, with the name, owner and package assignments
   * its callers make straight after: a new function when `isFunction`, else a
   * new stored procedure, added at the end of its list.
   */
  function Create(rs: Routines, isFunction: bool, name: string, owner: string, package: Option<string>): (r: (Routines, Location))
    ensures ValidLocation(r.0, r.1) && At(r.0, r.1) == NewRoutine(name, owner, package)
    ensures isFunction ==> r.0.procedures == rs.procedures && r.0.functions == rs.functions + [NewRoutine(name, owner, package)]
                           && r.1 == InFunctions(|rs.functions|)
    ensures !isFunction ==> r.0.functions == rs.functions && r.0.procedures == rs.procedures + [NewRoutine(name, owner, package)]
                            && r.1 == InProcedures(|rs.procedures|)
  {
    var routine := NewRoutine(name, owner, package);
    if isFunction then (Routines(rs.procedures, rs.functions + [routine]), InFunctions(|rs.functions|))
    else (Routines(rs.procedures + [routine], rs.functions), InProcedures(|rs.procedures|))
  }

  /** Replace the routine at a location. */
  function Update(rs: Routines, loc: Location, routine: Routine): (r: Routines)
    requires ValidLocation(rs, loc)
    ensures ValidLocation(r, loc) && At(r, loc) == routine
    ensures |r.procedures| == |rs.procedures| && |r.functions| == |rs.functions|
  {
    match loc
    case InProcedures(i) => Routines(rs.procedures[i := routine], rs.functions)
    case InFunctions(i) => Routines(rs.procedures, rs.functions[i := routine])
  }

  /** `CreateProcedureOrFunction(schema, isFunction)` on the schema's lists, with the key assignments that follow it. */
  method CreateProcedureOrFunction(schema: DatabaseSchema, isFunction: bool, name: string, owner: string, package: Option<string>)
    returns (loc: Location)
    modifies schema
    ensures (Routines(schema.storedProcedures, schema.functions), loc)
            == Create(Routines(old(schema.storedProcedures), old(schema.functions)), isFunction, name, owner, package)
    ensures unchanged(schema`tables, schema`views, schema`dataTypes, schema`provider, schema`connectionString)
  {
    var routine := NewRoutine(name, owner, package);
    if isFunction {
      schema.functions := schema.functions + [routine];
      loc := InFunctions(|schema.functions| - 1);
    } else {
      schema.storedProcedures := schema.storedProcedures + [routine];
      loc := InProcedures(|schema.storedProcedures| - 1);
    }
  }

  /** Replace, in place, the routine at a location of the schema's lists. */
  method SetRoutine(schema: DatabaseSchema, loc: Location, routine: Routine)
    requires ValidLocation(Routines(schema.storedProcedures, schema.functions), loc)
    modifies schema
    ensures Routines(schema.storedProcedures, schema.functions)
            == Update(Routines(old(schema.storedProcedures), old(schema.functions)), loc, routine)
    ensures unchanged(schema`tables, schema`views, schema`dataTypes, schema`provider, schema`connectionString)
  {
    match loc {
      case InProcedures(k) =>
        schema.storedProcedures := schema.storedProcedures[k := routine];
      case InFunctions(k) =>
        schema.functions := schema.functions[k := routine];
    }
  }

  // ---------------------------------------------------------------- merging routine rows

  /** A routine row. `routineType` is `None` when the provider reports no routine type. */
  datatype RoutineRow = RoutineRow(
    name: string,
    owner: string,
    routineType: Option<string>,
    package: Option<string>,
    sql: Option<string>)

  /** An empty package name is read as no package, so that lookups match. */
  function NormalisePackage(package: Option<string>): (r: Option<string>)
    ensures r.None? <==> IsNullOrEmpty(package)
    ensures r.Some? ==> r == package
  {
    if IsNullOrEmpty(package) then None else package
  }

  /**
   * The routine type names a function: `string.Equals(type, "FUNCTION", OrdinalIgnoreCase)`.
   * A row without a routine type column is a stored procedure.
   */
  function IsFunctionRow(row: RoutineRow): (r: bool)
    ensures r ==> row.routineType.Some?
    ensures row.routineType.Some? ==> (r <==> EqualsIgnoreCase(row.routineType.value, "FUNCTION"))
  {
    ToUpperUnchanged("FUNCTION");
    row.routineType.Some? && ToUpper(row.routineType.value) == "FUNCTION"
  }

  /** The key a row is looked up by. */
  function RowPackage(row: RoutineRow): Option<string> {
    NormalisePackage(row.package)
  }

  /**
   * What one routine row does: find or create the routine, then overwrite its
   * SQL when the row has one. Only a routine not yet known is added, to the
   * functions exactly when the row says FUNCTION.
   */
  function RoutineStep(rs: Routines, row: RoutineRow): (r: Routines)
    ensures Known(rs, row) ==> |r.procedures| == |rs.procedures| && |r.functions| == |rs.functions|
    ensures !Known(rs, row) && IsFunctionRow(row) ==>
              |r.procedures| == |rs.procedures| && |r.functions| == |rs.functions| + 1
    ensures !Known(rs, row) && !IsFunctionRow(row) ==>
              |r.procedures| == |rs.procedures| + 1 && |r.functions| == |rs.functions|
  {
    var package := RowPackage(row);
    var (created, loc) :=
      match FindStoredProcedureOrFunction(rs, row.name, row.owner, package)
      case Some(l) => (rs, l)
      case None => Create(rs, IsFunctionRow(row), row.name, row.owner, package);
    if row.sql.Some? then Update(created, loc, At(created, loc).(sql := row.sql)) else created
  }

  /** What the rows do, one after another. */
  function RoutineRows(rs: Routines, rows: seq<RoutineRow>): Routines {
    if rows == [] then rs else RoutineStep(RoutineRows(rs, rows[..|rows| - 1]), rows[|rows| - 1])
  }

  /** `StoredProcedures(schema, dt)`: merges each routine row into the schema's routine lists. */
  method StoredProcedures(schema: DatabaseSchema, rows: seq<RoutineRow>)
    modifies schema
    ensures Routines(schema.storedProcedures, schema.functions)
            == RoutineRows(Routines(old(schema.storedProcedures), old(schema.functions)), rows)
    ensures unchanged(schema`tables, schema`views, schema`dataTypes, schema`provider, schema`connectionString)
  {
    ghost var start := Routines(schema.storedProcedures, schema.functions);
    var i := 0;
    while i < |rows|
      invariant i <= |rows|
      invariant Routines(schema.storedProcedures, schema.functions) == RoutineRows(start, rows[..i])
      invariant unchanged(schema`tables, schema`views, schema`dataTypes, schema`provider, schema`connectionString)
    {
      assert rows[..i + 1][..i] == rows[..i];
      MergeRoutineRow(schema, rows[i]);
      i := i + 1;
    }
    assert rows[..i] == rows;
  }

  /** The body of the loop in `StoredProcedures`: one routine row merged into the schema's lists. */
  method MergeRoutineRow(schema: DatabaseSchema, row: RoutineRow)
    modifies schema
    ensures Routines(schema.storedProcedures, schema.functions)
            == RoutineStep(Routines(old(schema.storedProcedures), old(schema.functions)), row)
    ensures unchanged(schema`tables, schema`views, schema`dataTypes, schema`provider, schema`connectionString)
  {
    var name := row.name;
    var owner := row.owner;
    var isFunction := IsFunctionRow(row);
    var package := NormalisePackage(row.package);
    var found := FindStoredProcedureOrFunction(Routines(schema.storedProcedures, schema.functions), name, owner, package);
    var loc: Location;
    if found.None? {
      loc := CreateProcedureOrFunction(schema, isFunction, name, owner, package);
    } else {
      loc := found.value;
    }
    if row.sql.Some? {
      var routine := At(Routines(schema.storedProcedures, schema.functions), loc);
      SetRoutine(schema, loc, routine.(sql := row.sql));
    }
  }

  // ---------------------------------------------------------------- re-running the merge

  /** Two routines that differ at most in their SQL. */
  predicate SameButSql(a: Routine, b: Routine) {
    a.name == b.name && a.schemaOwner == b.schemaOwner && a.package == b.package && a.arguments == b.arguments
  }

  /** The same routines, in the same places, up to their SQL. */
  predicate SameRoutines(a: Routines, b: Routines) {
    |a.procedures| == |b.procedures| && |a.functions| == |b.functions|
    && (forall i :: 0 <= i < |a.procedures| ==> SameButSql(a.procedures[i], b.procedures[i]))
    && (forall i :: 0 <= i < |a.functions| ==> SameButSql(a.functions[i], b.functions[i]))
  }

  /** The first match depends only on the keys. */
  lemma {:induction false} FirstMatchSameKeys(a: seq<Routine>, b: seq<Routine>, name: string, owner: string, package: Option<string>, i: nat)
    requires |a| == |b| && forall k :: 0 <= k < |a| ==> SameButSql(a[k], b[k])
    ensures FirstMatch(a, name, owner, package, i) == FirstMatch(b, name, owner, package, i)
    decreases |a| - i
  {
    if i < |a| {
      FirstMatchSameKeys(a, b, name, owner, package, i + 1);
    }
  }

  /** So does the lookup. */
  lemma FindSameKeys(a: Routines, b: Routines, name: string, owner: string, package: Option<string>)
    requires SameRoutines(a, b)
    ensures FindStoredProcedureOrFunction(a, name, owner, package) == FindStoredProcedureOrFunction(b, name, owner, package)
  {
    FirstMatchSameKeys(a.procedures, b.procedures, name, owner, package, 0);
    FirstMatchSameKeys(a.functions, b.functions, name, owner, package, 0);
  }

  /** Whether the routine a row names is already there. */
  predicate Known(rs: Routines, row: RoutineRow) {
    FindStoredProcedureOrFunction(rs, row.name, row.owner, RowPackage(row)).Some?
  }

  /** A row whose routine is known changes nothing but that routine's SQL. */
  lemma KnownStep(rs: Routines, row: RoutineRow)
    requires Known(rs, row)
    ensures SameRoutines(rs, RoutineStep(rs, row))
  {
  }

  /** After a row is merged its routine is known. */
  lemma StepKnowsRow(rs: Routines, row: RoutineRow)
    ensures Known(RoutineStep(rs, row), row)
  {
    var package := RowPackage(row);
    var found := FindStoredProcedureOrFunction(rs, row.name, row.owner, package);
    var (created, loc) := if found.Some? then (rs, found.value)
                          else Create(rs, IsFunctionRow(row), row.name, row.owner, package);
    assert Matches(At(created, loc), row.name, row.owner, package);
    var after := RoutineStep(rs, row);
    assert ValidLocation(after, loc) && Matches(At(after, loc), row.name, row.owner, package);
    match loc
    case InProcedures(k) => assert FirstMatch(after.procedures, row.name, row.owner, package, 0).Some?;
    case InFunctions(k) =>
  }

  /** A routine that was known stays known when a further row is merged. */
  lemma StepKeepsKnown(rs: Routines, row: RoutineRow, other: RoutineRow)
    requires Known(rs, other)
    ensures Known(RoutineStep(rs, row), other)
  {
    var package := RowPackage(other);
    var loc := FindStoredProcedureOrFunction(rs, other.name, other.owner, package).value;
    var after := RoutineStep(rs, row);
    assert ValidLocation(after, loc) && SameButSql(At(rs, loc), At(after, loc)) by {
      var p := RowPackage(row);
      var found := FindStoredProcedureOrFunction(rs, row.name, row.owner, p);
      if found.None? {
        var (created, l) := Create(rs, IsFunctionRow(row), row.name, row.owner, p);
        assert ValidLocation(created, loc) && At(created, loc) == At(rs, loc);
      }
    }
    assert Matches(At(after, loc), other.name, other.owner, package);
    match loc
    case InProcedures(k) => assert FirstMatch(after.procedures, other.name, other.owner, package, 0).Some?;
    case InFunctions(k) =>
  }

  /** After the merge, the routine of every row is known. */
  lemma {:induction false} RowsAllKnown(rs: Routines, rows: seq<RoutineRow>)
    ensures forall j :: 0 <= j < |rows| ==> Known(RoutineRows(rs, rows), rows[j])
  {
    if rows != [] {
      var init := rows[..|rows| - 1];
      var last := rows[|rows| - 1];
      RowsAllKnown(rs, init);
      forall j | 0 <= j < |rows|
        ensures Known(RoutineRows(rs, rows), rows[j])
      {
        if j < |init| {
          assert rows[j] == init[j];
          StepKeepsKnown(RoutineRows(rs, init), last, rows[j]);
        } else {
          StepKnowsRow(RoutineRows(rs, init), last);
        }
      }
    }
  }

  /** Merging rows whose routines are all known changes nothing but SQL. */
  lemma {:induction false} KnownRowsChangeOnlySql(rs: Routines, rows: seq<RoutineRow>)
    requires forall j :: 0 <= j < |rows| ==> Known(rs, rows[j])
    ensures SameRoutines(rs, RoutineRows(rs, rows))
  {
    if rows != [] {
      var init := rows[..|rows| - 1];
      var last := rows[|rows| - 1];
      assert forall j :: 0 <= j < |init| ==> init[j] == rows[j];
      KnownRowsChangeOnlySql(rs, init);
      var mid := RoutineRows(rs, init);
      FindSameKeys(rs, mid, last.name, last.owner, RowPackage(last));
      KnownStep(mid, last);
    }
  }

  /**
   * Merging the same rows a second time adds no routine and changes no
   * name, owner, package or argument list: it can only overwrite SQL.
   */
  lemma StoredProceduresRerun(rs: Routines, rows: seq<RoutineRow>)
    ensures SameRoutines(RoutineRows(rs, rows), RoutineRows(RoutineRows(rs, rows), rows))
  {
    RowsAllKnown(rs, rows);
    KnownRowsChangeOnlySql(RoutineRows(rs, rows), rows);
  }

  /** A row naming an unknown routine adds it to the functions exactly when its type is FUNCTION. */
  lemma NewRoutineList(rs: Routines, row: RoutineRow)
    requires !Known(rs, row)
    ensures IsFunctionRow(row) ==>
              |RoutineStep(rs, row).functions| == |rs.functions| + 1 && RoutineStep(rs, row).procedures == rs.procedures
    ensures !IsFunctionRow(row) ==>
              |RoutineStep(rs, row).procedures| == |rs.procedures| + 1 && RoutineStep(rs, row).functions == rs.functions
  {
  }

  // ---------------------------------------------------------------- arguments

  /** An argument row, already filtered to one routine and sorted by ordinal. */
  datatype ArgumentRow = ArgumentRow(
    name: string,
    procedureName: string,
    owner: string,
    package: Option<string>,
    ordinal: int,
    dataType: string,
    mode: Option<string>,
    length: Cell,
    precision: Cell,
    scale: Cell)

  /** `AddInOut(row, key, argument)`: sets In when the mode contains "IN" and Out when it contains "OUT"; never clears. */
  function AddInOut(mode: Option<string>, argument: Argument): (r: Argument)
    ensures mode.None? ==> r == argument
    ensures r.isIn == (argument.isIn || (mode.Some? && Contains(mode.value, "IN")))
    ensures r.isOut == (argument.isOut || (mode.Some? && Contains(mode.value, "OUT")))
    ensures r.(isIn := argument.isIn, isOut := argument.isOut) == argument
  {
    if mode.None? then argument
    else
      var a := if Contains(mode.value, "IN") then argument.(isIn := true) else argument;
      if Contains(mode.value, "OUT") then a.(isOut := true) else a
  }

  /** Applying the same mode twice is applying it once. */
  lemma AddInOutIdempotent(mode: Option<string>, argument: Argument)
    ensures AddInOut(mode, AddInOut(mode, argument)) == AddInOut(mode, argument)
  {
  }

  /** The position of the first argument with the given name (`List.Find`), if any. */
  function FindArgument(list: seq<Argument>, name: string): (r: Option<nat>)
    ensures r.Some? ==> r.value < |list| && list[r.value].name == name
    ensures r.None? ==> forall k :: 0 <= k < |list| ==> list[k].name != name
    ensures r.Some? ==> forall k :: 0 <= k < r.value ==> list[k].name != name
  {
    if list == [] then None
    else match FindArgument(list[..|list| - 1], name)
      case Some(k) => Some(k)
      case None => if list[|list| - 1].name == name then Some(|list| - 1) else None
  }

  /** A new argument with only its name set. */
  function NewArgument(name: string): Argument {
    Argument(name, None, None, None, 0, None, false, false, None, None, None)
  }

  /** No two arguments share a name. */
  predicate DistinctNames(list: seq<Argument>) {
    forall i, j :: 0 <= i < j < |list| ==> list[i].name != list[j].name
  }

  /** `AddArgumentToList(list, name)`: the argument of that name, added at the end when there is none. */
  method AddArgumentToList(list: seq<Argument>, name: string) returns (newList: seq<Argument>, index: nat)
    ensures index < |newList| && newList[index].name == name
    ensures FindArgument(list, name).Some? ==> newList == list && index == FindArgument(list, name).value
    ensures FindArgument(list, name).None? ==> newList == list + [NewArgument(name)] && index == |list|
    ensures DistinctNames(list) ==> DistinctNames(newList)
  {
    var existing := FindArgument(list, name);
    if existing.None? {
      newList := list + [NewArgument(name)];
      index := |list|;
    } else {
      newList := list;
      index := existing.value;
    }
  }

  /** What one argument row writes into its argument. */
  function FillArgument(argument: Argument, row: ArgumentRow): (r: Argument)
    ensures r.name == argument.name
    ensures r.procedureName == Some(row.procedureName) && r.schemaOwner == Some(row.owner)
    ensures r.ordinal == row.ordinal && r.databaseDataType == Some(row.dataType)
    ensures r.isIn == (argument.isIn || (row.mode.Some? && Contains(row.mode.value, "IN")))
    ensures r.isOut == (argument.isOut || (row.mode.Some? && Contains(row.mode.value, "OUT")))
    ensures r.packageName == if row.package.Some? then row.package else argument.packageName
    ensures r.length == GetNullableInt(row.length) && r.precision == GetNullableInt(row.precision)
    ensures r.scale == GetNullableInt(row.scale)
  {
    var a := argument.(procedureName := Some(row.procedureName), schemaOwner := Some(row.owner));
    var a := if row.package.Some? then a.(packageName := row.package) else a;
    var a := a.(ordinal := row.ordinal, databaseDataType := Some(row.dataType));
    var a := AddInOut(row.mode, a);
    a.(length := GetNullableInt(row.length), precision := GetNullableInt(row.precision),
       scale := GetNullableInt(row.scale))
  }

  /** What one argument row does to the list: fill the argument of its name, added first when missing. */
  function AddRow(list: seq<Argument>, row: ArgumentRow): seq<Argument> {
    match FindArgument(list, row.name)
    case Some(k) => list[k := FillArgument(list[k], row)]
    case None => list + [FillArgument(NewArgument(row.name), row)]
  }

  /** The argument list the rows build, one row after another. */
  function ArgumentList(rows: seq<ArgumentRow>): seq<Argument> {
    if rows == [] then [] else AddRow(ArgumentList(rows[..|rows| - 1]), rows[|rows| - 1])
  }

  /** The names of the arguments, in list order. */
  function Names(list: seq<Argument>): (r: seq<string>)
    ensures |r| == |list| && forall k :: 0 <= k < |list| ==> r[k] == list[k].name
  {
    seq(|list|, k requires 0 <= k < |list| => list[k].name)
  }

  /** The distinct names of the rows, in order of first appearance. */
  function RowNames(rows: seq<ArgumentRow>): seq<string> {
    if rows == [] then []
    else
      var names := RowNames(rows[..|rows| - 1]);
      var name := rows[|rows| - 1].name;
      if name in names then names else names + [name]
  }

  /** A row keeps every name in place and adds its own name at the end only when it is new. */
  lemma AddRowNames(list: seq<Argument>, row: ArgumentRow)
    ensures Names(AddRow(list, row)) == if row.name in Names(list) then Names(list) else Names(list) + [row.name]
  {
    var found := FindArgument(list, row.name);
    if found.Some? {
      assert Names(list)[found.value] == row.name;
    } else {
      assert row.name !in Names(list);
    }
  }

  /** The argument list names exactly the distinct row names, in order of first appearance. */
  lemma {:induction false} ArgumentListRowNames(rows: seq<ArgumentRow>)
    ensures Names(ArgumentList(rows)) == RowNames(rows)
  {
    if rows != [] {
      ArgumentListRowNames(rows[..|rows| - 1]);
      AddRowNames(ArgumentList(rows[..|rows| - 1]), rows[|rows| - 1]);
    }
  }

  /** The distinct row names are distinct, every row's name is among them, and no other name is. */
  lemma {:induction false} RowNamesDistinct(rows: seq<ArgumentRow>)
    ensures forall i, j :: 0 <= i < j < |RowNames(rows)| ==> RowNames(rows)[i] != RowNames(rows)[j]
    ensures forall j :: 0 <= j < |rows| ==> rows[j].name in RowNames(rows)
    ensures forall n :: n in RowNames(rows) ==> exists j :: 0 <= j < |rows| && rows[j].name == n
  {
    if rows != [] {
      var init := rows[..|rows| - 1];
      RowNamesDistinct(init);
      forall j | 0 <= j < |init|
        ensures rows[j].name in RowNames(init)
      {
        assert rows[j] == init[j];
      }
      forall n | n in RowNames(rows)
        ensures exists j :: 0 <= j < |rows| && rows[j].name == n
      {
        if n in RowNames(init) {
          var j :| 0 <= j < |init| && init[j].name == n;
          assert rows[j] == init[j];
        } else {
          assert rows[|rows| - 1].name == n;
        }
      }
    }
  }

  /** The argument list has one argument per distinct row name: names stay distinct, every row's name is there, and no other. */
  lemma ArgumentListNames(rows: seq<ArgumentRow>)
    ensures DistinctNames(ArgumentList(rows))
    ensures forall j :: 0 <= j < |rows| ==> FindArgument(ArgumentList(rows), rows[j].name).Some?
    ensures forall k :: 0 <= k < |ArgumentList(rows)| ==> exists j :: 0 <= j < |rows| && rows[j].name == ArgumentList(rows)[k].name
  {
    var list := ArgumentList(rows);
    ArgumentListRowNames(rows);
    RowNamesDistinct(rows);
    assert forall k :: 0 <= k < |list| ==> list[k].name == RowNames(rows)[k];
    forall j | 0 <= j < |rows|
      ensures FindArgument(list, rows[j].name).Some?
    {
      var k :| 0 <= k < |list| && RowNames(rows)[k] == rows[j].name;
      assert list[k].name == rows[j].name;
    }
    forall k | 0 <= k < |list|
      ensures exists j :: 0 <= j < |rows| && rows[j].name == list[k].name
    {
      assert list[k].name in RowNames(rows);
    }
  }

  /** `StoredProcedureArguments(view)`: finds or adds the argument each row names and fills it from the row. */
  method StoredProcedureArguments(rows: seq<ArgumentRow>) returns (list: seq<Argument>)
    ensures list == ArgumentList(rows)
  {
    list := [];
    var i := 0;
    while i < |rows|
      invariant i <= |rows|
      invariant list == ArgumentList(rows[..i])
    {
      assert rows[..i + 1][..i] == rows[..i];
      var row := rows[i];
      var newList, index := AddArgumentToList(list, row.name);
      list := newList[index := FillArgument(newList[index], row)];
      i := i + 1;
    }
    assert rows[..i] == rows;
  }

  // ---------------------------------------------------------------- routines inferred from arguments

  /**
   * An unnamed argument at ordinal 0 is a return value, which makes the
   * routine a function: a list with one has an argument named "", and a list
   * with no argument at ordinal 0 has none.
   */
  function HasReturnArgument(args: seq<Argument>): (r: bool)
    ensures r ==> FindArgument(args, "").Some?
    ensures (forall k :: 0 <= k < |args| ==> args[k].ordinal != 0) ==> !r
  {
    exists k :: 0 <= k < |args| && args[k].ordinal == 0 && args[k].name == ""
  }

  /** One distinct (routine, owner, package) key of the argument rows. */
  datatype RoutineKey = RoutineKey(name: string, owner: string, package: Option<string>)

  /** The row filter: the argument rows of a routine name and owner, whatever their package. */
  function RowsOf(rows: seq<ArgumentRow>, name: string, owner: string): (r: seq<ArgumentRow>)
    ensures |r| <= |rows|
    ensures forall j :: 0 <= j < |r| ==> r[j] in rows && r[j].procedureName == name && r[j].owner == owner
  {
    if rows == [] then []
    else
      var last := rows[|rows| - 1];
      RowsOf(rows[..|rows| - 1], name, owner) + if last.procedureName == name && last.owner == owner then [last] else []
  }

  /** The arguments one key receives: those the filtered rows build. */
  function KeyArguments(rows: seq<ArgumentRow>, key: RoutineKey): seq<Argument> {
    ArgumentList(RowsOf(rows, key.name, key.owner))
  }

  /**
   * What one key does: find or create its routine (a function when it has a
   * return argument), then append the arguments. Only a routine not yet found
   * is added, to the functions exactly when the arguments have a return value.
   */
  function ArgumentStep(rs: Routines, key: RoutineKey, args: seq<Argument>): (r: Routines)
    ensures var found := FindStoredProcedureOrFunction(rs, key.name, key.owner, NormalisePackage(key.package));
            (found.Some? ==> |r.procedures| == |rs.procedures| && |r.functions| == |rs.functions|)
            && (found.None? && HasReturnArgument(args) ==>
                  |r.procedures| == |rs.procedures| && |r.functions| == |rs.functions| + 1)
            && (found.None? && !HasReturnArgument(args) ==>
                  |r.procedures| == |rs.procedures| + 1 && |r.functions| == |rs.functions|)
  {
    var package := NormalisePackage(key.package);
    var (created, loc) :=
      match FindStoredProcedureOrFunction(rs, key.name, key.owner, package)
      case Some(l) => (rs, l)
      case None => Create(rs, HasReturnArgument(args), key.name, key.owner, package);
    var routine := At(created, loc);
    Update(created, loc, routine.(arguments := routine.arguments + args))
  }

  /** What the keys do, one after another. */
  function ArgumentKeys(rs: Routines, keys: seq<RoutineKey>, rows: seq<ArgumentRow>): Routines {
    if keys == [] then rs
    else
      var key := keys[|keys| - 1];
      ArgumentStep(ArgumentKeys(rs, keys[..|keys| - 1], rows), key, KeyArguments(rows, key))
  }

  /** One key's step, given where its routine was found or created. */
  lemma ArgumentStepAt(rs: Routines, key: RoutineKey, args: seq<Argument>, created: Routines, loc: Location)
    requires var found := FindStoredProcedureOrFunction(rs, key.name, key.owner, NormalisePackage(key.package));
             (found.Some? ==> created == rs && loc == found.value)
             && (found.None? ==> (created, loc) == Create(rs, HasReturnArgument(args), key.name, key.owner,
                                                          NormalisePackage(key.package)))
    ensures ValidLocation(created, loc)
    ensures ArgumentStep(rs, key, args) == Update(created, loc, At(created, loc).(arguments := At(created, loc).arguments + args))
  {
  }

  /**
   * `UpdateArguments(schema, arguments)`: nothing for a result table with no
   * columns; otherwise, for each distinct routine key, the arguments of the
   * rows with that routine name and owner are appended to the routine,
   * which is created first when it is missing.
   */
  method UpdateArguments(schema: DatabaseSchema, hasColumns: bool, keys: seq<RoutineKey>, rows: seq<ArgumentRow>)
    modifies schema
    ensures !hasColumns ==> schema.storedProcedures == old(schema.storedProcedures) && schema.functions == old(schema.functions)
    ensures hasColumns ==> Routines(schema.storedProcedures, schema.functions)
                           == ArgumentKeys(Routines(old(schema.storedProcedures), old(schema.functions)), keys, rows)
    ensures unchanged(schema`tables, schema`views, schema`dataTypes, schema`provider, schema`connectionString)
  {
    if !hasColumns {
      return;
    }
    ghost var start := Routines(schema.storedProcedures, schema.functions);
    var i := 0;
    while i < |keys|
      invariant i <= |keys|
      invariant Routines(schema.storedProcedures, schema.functions) == ArgumentKeys(start, keys[..i], rows)
      invariant unchanged(schema`tables, schema`views, schema`dataTypes, schema`provider, schema`connectionString)
    {
      assert keys[..i + 1][..i] == keys[..i];
      var key := keys[i];
      var package := NormalisePackage(key.package);
      var args := StoredProcedureArguments(RowsOf(rows, key.name, key.owner));
      var found := FindStoredProcedureOrFunction(Routines(schema.storedProcedures, schema.functions), key.name, key.owner, package);
      var loc: Location;
      if found.None? {
        loc := CreateProcedureOrFunction(schema, HasReturnArgument(args), key.name, key.owner, package);
      } else {
        loc := found.value;
      }
      ghost var created := Routines(schema.storedProcedures, schema.functions);
      ArgumentStepAt(ArgumentKeys(start, keys[..i], rows), key, args, created, loc);
      var routine := At(Routines(schema.storedProcedures, schema.functions), loc);
      SetRoutine(schema, loc, routine.(arguments := routine.arguments + args));
      i := i + 1;
    }
    assert keys[..i] == keys;
  }

  /** A key whose routine is missing creates it, with its arguments, among the functions exactly when it has a return argument. */
  lemma ArgumentInferredKind(rs: Routines, key: RoutineKey, args: seq<Argument>)
    requires FindStoredProcedureOrFunction(rs, key.name, key.owner, NormalisePackage(key.package)).None?
    ensures HasReturnArgument(args) ==>
              ArgumentStep(rs, key, args).functions
              == rs.functions + [NewRoutine(key.name, key.owner, NormalisePackage(key.package)).(arguments := args)]
              && ArgumentStep(rs, key, args).procedures == rs.procedures
    ensures !HasReturnArgument(args) ==>
              ArgumentStep(rs, key, args).procedures
              == rs.procedures + [NewRoutine(key.name, key.owner, NormalisePackage(key.package)).(arguments := args)]
              && ArgumentStep(rs, key, args).functions == rs.functions
  {
    var routine := NewRoutine(key.name, key.owner, NormalisePackage(key.package));
    var filled := routine.(arguments := [] + args);
    assert filled == routine.(arguments := args);
    assert (rs.functions + [routine])[|rs.functions| := filled] == rs.functions + [filled];
    assert (rs.procedures + [routine])[|rs.procedures| := filled] == rs.procedures + [filled];
  }

  /** A key whose routine exists keeps every list's length and appends the arguments to that routine. */
  lemma ArgumentsAppended(rs: Routines, key: RoutineKey, args: seq<Argument>)
    requires FindStoredProcedureOrFunction(rs, key.name, key.owner, NormalisePackage(key.package)).Some?
    ensures var loc := FindStoredProcedureOrFunction(rs, key.name, key.owner, NormalisePackage(key.package)).value;
            var after := ArgumentStep(rs, key, args);
            |after.procedures| == |rs.procedures| && |after.functions| == |rs.functions|
            && At(after, loc) == At(rs, loc).(arguments := At(rs, loc).arguments + args)
  {
  }

  /**
   * The row filter ignores the package: two keys that differ only in their
   * package receive the same arguments.
   */
  lemma KeyArgumentsIgnorePackage(rows: seq<ArgumentRow>, name: string, owner: string, p1: Option<string>, p2: Option<string>)
    ensures KeyArguments(rows, RoutineKey(name, owner, p1)) == KeyArguments(rows, RoutineKey(name, owner, p2))
  {
  }

  /** Every row the filter keeps belongs to the key's routine name and owner, and every such row is kept. */
  lemma {:induction false} RowsOfComplete(rows: seq<ArgumentRow>, name: string, owner: string)
    ensures forall row :: row in rows && row.procedureName == name && row.owner == owner ==> row in RowsOf(rows, name, owner)
  {
    if rows != [] {
      var init := rows[..|rows| - 1];
      RowsOfComplete(init, name, owner);
      assert rows == init + [rows[|rows| - 1]];
    }
  }
}
