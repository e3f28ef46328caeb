/**
 * `SqlServerMigrationGenerator`: the SQL Server specifics of the migration
 * script writer — the ALTER COLUMN template and the trigger text. The shared
 * `MigrationGenerator` base class is not part of this model.
 */
module SqlServerMigration {
  import opened Wrappers
  import opened Text
  import opened DataSchema

  /** The composite-format template for altering a column: `{0}` is the table, `{1}` the column definition. */
  const AlterColumnFormat: string := "ALTER TABLE {0} ALTER COLUMN {1};"

  /** The format item `{n}` opens `s`. */
  predicate ItemAt(s: string, n: char) {
    |s| >= 3 && s[0] == '{' && s[1] == n && s[2] == '}'
  }

  /**
   * `string.Format(format, a, b)` for a template whose only format items are
   * `{0}` and `{1}`: each item is replaced by its argument, all other text is
   * copied.
   */
  function Format(format: string, a: string, b: string): (r: string)
    ensures format == [] ==> r == []
    decreases |format|
  {
    if format == [] then []
    else if ItemAt(format, '0') then a + Format(format[3..], a, b)
    else if ItemAt(format, '1') then b + Format(format[3..], a, b)
    else [format[0]] + Format(format[1..], a, b)
  }

  /** Text with no `{` in front of the rest is copied, and the rest formatted after it. */
  lemma {:induction false} FormatLiteral(s: string, rest: string, a: string, b: string)
    requires forall i :: 0 <= i < |s| ==> s[i] != '{'
    ensures Format(s + rest, a, b) == s + Format(rest, a, b)
  {
    if s != [] {
      var t := s + rest;
      assert t[0] == s[0];
      assert t[1..] == s[1..] + rest;
      assert Format(t, a, b) == [s[0]] + Format(s[1..] + rest, a, b);
      FormatLiteral(s[1..], rest, a, b);
      assert s == [s[0]] + s[1..];
    } else {
      assert s + rest == rest;
    }
  }

  /** A format item is replaced by its argument. */
  lemma FormatItem(rest: string, a: string, b: string)
    ensures Format("{0}" + rest, a, b) == a + Format(rest, a, b)
    ensures Format("{1}" + rest, a, b) == b + Format(rest, a, b)
  {
    assert ("{0}" + rest)[3..] == rest;
    assert ("{1}" + rest)[3..] == rest;
  }

  /** A template of two items between literal text formats to that text around the two arguments. */
  lemma {:induction false} FormatTwoItems(p: string, q: string, e: string, a: string, b: string)
    requires forall i :: 0 <= i < |p| ==> p[i] != '{'
    requires forall i :: 0 <= i < |q| ==> q[i] != '{'
    requires forall i :: 0 <= i < |e| ==> e[i] != '{'
    ensures Format(p + "{0}" + q + "{1}" + e, a, b) == p + a + q + b + e
  {
    var tail1 := "{1}" + e;
    var tail2 := q + tail1;
    var tail3 := "{0}" + tail2;
    assert p + "{0}" + q + "{1}" + e == p + tail3;
    FormatLiteral(e, [], a, b);
    assert e + [] == e;
    FormatItem(e, a, b);
    assert Format(tail1, a, b) == b + e;
    FormatLiteral(q, tail1, a, b);
    assert Format(tail2, a, b) == q + (b + e);
    FormatItem(tail2, a, b);
    assert Format(tail3, a, b) == a + (q + (b + e));
    FormatLiteral(p, tail3, a, b);
    assert q + (b + e) == q + b + e;
    assert a + (q + b + e) == a + (q + b) + e;
    assert a + (q + b) == a + q + b;
    assert p + (a + q + b + e) == p + (a + q + b) + e;
    assert p + (a + q + b) == p + (a + q) + b;
    assert p + (a + q) == p + a + q;
  }

  /** The template produces "ALTER TABLE <table> ALTER COLUMN <column>;". */
  lemma AlterColumnText(table: string, column: string)
    ensures Format(AlterColumnFormat, table, column)
            == "ALTER TABLE " + table + " ALTER COLUMN " + column + ";"
  {
    var pieces := "ALTER TABLE " + "{0}" + " ALTER COLUMN " + "{1}" + ";";
    assert |pieces| == |AlterColumnFormat|;
    assert forall i | 0 <= i < |AlterColumnFormat| :: AlterColumnFormat[i] == pieces[i];
    assert AlterColumnFormat == pieces;
    FormatTwoItems("ALTER TABLE ", " ALTER COLUMN ", ";", table, column);
  }

  /** The SQL Server migration generator; the base class receives the dialect it writes for. */
  class SqlServerMigrationGenerator {
    const sqlType: SqlType

    constructor()
      ensures sqlType == SqlServer
    {
      sqlType := SqlServer;
    }

    /**
     * `AddTrigger(table, trigger)`: SQL Server keeps the whole CREATE TRIGGER
     * statement in the body, which is written with a closing ";"; a trigger
     * without a body gets a comment naming it.
     */
    function AddTrigger(table: Table, trigger: Trigger): (r: string)
      ensures IsNullOrEmpty(trigger.triggerBody) ==>
                StartsWith(r, "-- add trigger ") && r[|"-- add trigger "|..] == Str(trigger.name)
      ensures !IsNullOrEmpty(trigger.triggerBody) ==>
                EndsWith(r, ";") && r[..|r| - 1] == trigger.triggerBody.value
    {
      if IsNullOrEmpty(trigger.triggerBody) then "-- add trigger " + Str(trigger.name)
      else trigger.triggerBody.value + ";"
    }
  }

  /** The trigger text depends on the trigger only, never on the table. */
  lemma AddTriggerIgnoresTable(g: SqlServerMigrationGenerator, t1: Table, t2: Table, trigger: Trigger)
    ensures g.AddTrigger(t1, trigger) == g.AddTrigger(t2, trigger)
  {
  }

}
