/**
 * `DatabaseConstraint`: a new constraint, its display text, and the
 * resolution of a foreign key to the table it references.
 */
module DatabaseConstraint {
  import opened Wrappers
  import opened Text
  import opened DataSchema

  /** `new DatabaseConstraint()`: no name, no references, and an empty `Columns` list. */
  function NewConstraint(): (c: Constraint)
    ensures c.columns == []
    ensures c.name.None? && c.tableName.None?
    ensures c.refersToTable.None? && c.refersToConstraint.None?
  {
    Constraint(None, None, None, None, None, PrimaryKey, [], None)
  }

  /** `ToString()`: the constraint name, " on ", then the table name (null parts render empty). */
  function ConstraintToString(c: Constraint): (r: string)
    ensures StartsWith(r, Str(c.name)) && EndsWith(r, Str(c.tableName))
    ensures |r| == |Str(c.name)| + 4 + |Str(c.tableName)|
    ensures r[|Str(c.name)|..|Str(c.name)| + 4] == " on "
  {
    Str(c.name) + " on " + Str(c.tableName)
  }

  /** The table's name equals RefersToTable, ignoring case (a null RefersToTable never matches). */
  predicate MatchesByName(c: Constraint, t: Table) {
    c.refersToTable.Some? && EqualsIgnoreCase(t.name, c.refersToTable.value)
  }

  /** The table's primary-key name equals RefersToConstraint, ignoring case. */
  predicate MatchesByKey(c: Constraint, t: Table) {
    t.primaryKey.Some? && t.primaryKey.value.name.Some? && c.refersToConstraint.Some?
    && EqualsIgnoreCase(t.primaryKey.value.name.value, c.refersToConstraint.value)
  }

  /**
   * The predicate `ReferencedTable` searches with: the names agree ignoring
   * case, or the table's primary key is the referenced constraint. A
   * constraint that names neither table nor constraint refers to nothing, and
   * without a primary key only the name can match.
   */
  function RefersTo(c: Constraint, t: Table): (r: bool)
    ensures c.refersToTable.Some? && EqualsIgnoreCase(t.name, c.refersToTable.value) ==> r
    ensures r ==> c.refersToTable.Some? || c.refersToConstraint.Some?
    ensures t.primaryKey.None? ==> (r <==> MatchesByName(c, t))
    ensures c.refersToTable.None? ==> (r <==> MatchesByKey(c, t))
  {
    MatchesByName(c, t) || MatchesByKey(c, t)
  }

  /**
   * Testing one table does not throw: the key test dereferences the primary
   * key's name, which must then be set.
   */
  predicate TestDefined(c: Constraint, t: Table) {
    MatchesByName(c, t) || t.primaryKey.None? || t.primaryKey.value.name.Some?
  }

  /** The first-match search from position `i` on reaches no table whose test throws. */
  predicate SearchDefined(c: Constraint, tables: seq<Table>, i: nat)
    decreases |tables| - i
  {
    i >= |tables|
    || (TestDefined(c, tables[i]) && (RefersTo(c, tables[i]) || SearchDefined(c, tables, i + 1)))
  }

  /** The position of the first table from `i` on that the constraint refers to. */
  function FirstReferenced(c: Constraint, tables: seq<Table>, i: nat): (r: Option<nat>)
    requires SearchDefined(c, tables, i)
    ensures r.Some? ==> i <= r.value < |tables| && RefersTo(c, tables[r.value])
    ensures r.Some? ==> forall j :: i <= j < r.value ==> !RefersTo(c, tables[j])
    ensures r.None? ==> forall j :: i <= j < |tables| ==> !RefersTo(c, tables[j])
    decreases |tables| - i
  {
    if i >= |tables| then None
    else if RefersTo(c, tables[i]) then Some(i)
    else FirstReferenced(c, tables, i + 1)
  }

  /**
   * `ReferencedTable(schema)`: null for a null schema; otherwise the first
   * table, in schema order, whose name is RefersToTable or whose primary key
   * is RefersToConstraint (both ignoring case), and null when none is.
   */
  function ReferencedTable(c: Constraint, schema: DatabaseSchema?): (r: Option<Table>)
    reads schema
    requires schema != null ==> SearchDefined(c, schema.tables, 0)
    ensures schema == null ==> r.None?
    ensures schema != null && r.None? ==> forall j :: 0 <= j < |schema.tables| ==> !RefersTo(c, schema.tables[j])
    ensures r.Some? ==> schema != null && (exists k :: 0 <= k < |schema.tables| && schema.tables[k] == r.value
                                                && forall j :: 0 <= j < k ==> !RefersTo(c, schema.tables[j]))
    ensures r.Some? ==> RefersTo(c, r.value)
    ensures r.Some? && r.value.primaryKey.None? ==> MatchesByName(c, r.value)
  {
    if schema == null then None
    else
      match FirstReferenced(c, schema.tables, 0)
      case Some(k) => Some(schema.tables[k])
      case None => None
  }
}
