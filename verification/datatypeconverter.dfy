/**
 * `DataTypeConverter`: the classifier predicates over upper-cased type names,
 * the Oracle NUMBER narrowing rule, and the parser that splits a raw type
 * string such as "NUMBER(10,2)" into a base name and its length, precision
 * and scale.
 */
module DataTypeConverter {
  import opened Wrappers
  import opened Text
  import opened Numeric
  import opened DataSchema

  /** `(int)SqlDbType.Timestamp`. */
  const SqlDbTypeTimestamp: int := 19

  // The classifiers compare the name exactly (callers pass it upper-cased). Each
  // states its name list as a set and how its family sits beside the others.

  /** Date and time types: DATETIME, DATETIME2 and TIMESTAMP. */
  function IsDateTime(dataType: string): (r: bool)
    ensures r <==> dataType in {"DATETIME", "DATETIME2", "TIMESTAMP"}
    ensures r ==> StartsWith(dataType, "DATETIME") || dataType == "TIMESTAMP"
  {
    dataType == "DATETIME" || dataType == "DATETIME2" || dataType == "TIMESTAMP"
  }

  /** Numeric types written with a precision (and scale); none of them is a date. */
  function HasPrecision(dataType: string): (r: bool)
    ensures r <==> dataType in {"DEC", "DECIMAL", "NUMBER", "NUMERIC", "FLOAT", "DOUBLE", "DOUBLE PRECISION"}
    ensures r ==> !IsDateTime(dataType)
  {
    dataType == "DEC" || dataType == "DECIMAL" || dataType == "NUMBER" || dataType == "NUMERIC"
    || dataType == "FLOAT" || dataType == "DOUBLE" || dataType == "DOUBLE PRECISION"
  }

  /** Fixed-length character types; none is numeric or a date. */
  function IsFixedLengthString(dataType: string): (r: bool)
    ensures r <==> dataType in {"NCHAR", "CHAR", "BPCHAR", "CHARACTER"}
    ensures r ==> !HasPrecision(dataType) && !IsDateTime(dataType)
  {
    dataType == "NCHAR" || dataType == "CHAR" || dataType == "BPCHAR" || dataType == "CHARACTER"
  }

  /** Binary types (TINYBLOB among them, the other BLOBs not); none is a string, numeric or a date. */
  function IsBinary(dataType: string): (r: bool)
    ensures r <==> dataType in {"VARBINARY", "RAW", "LONG RAW", "TINYBLOB", "BYTEA", "GRAPHIC",
                                "VARGRAPHIC", "LONG VARGRAPHIC"}
    ensures r ==> !IsFixedLengthString(dataType) && !HasPrecision(dataType) && !IsDateTime(dataType)
  {
    dataType == "VARBINARY" || dataType == "RAW" || dataType == "LONG RAW" || dataType == "TINYBLOB"
    || dataType == "BYTEA" || dataType == "GRAPHIC" || dataType == "VARGRAPHIC"
    || dataType == "LONG VARGRAPHIC"
  }

  /** Long character types; only TEXT and NTEXT are also in the variable list. */
  function IsLongString(dataType: string): (r: bool)
    ensures r <==> dataType in {"TEXT", "CLOB", "DBCLOB", "NTEXT"}
    ensures r ==> !IsFixedLengthString(dataType) && !IsBinary(dataType) && !HasPrecision(dataType)
  {
    dataType == "TEXT" || dataType == "CLOB" || dataType == "DBCLOB" || dataType == "NTEXT"
  }

  /** Variable-length character types; never also fixed-length, binary or numeric. */
  function IsVariableString(dataType: string): (r: bool)
    ensures r <==> dataType in {"VARCHAR2", "NVARCHAR2", "NVARCHAR", "VARCHAR", "LONG VARCHAR",
                                "CHARACTER VARYING", "TEXT", "NTEXT", "CHAR VARYING"}
    ensures r ==> !IsFixedLengthString(dataType) && !IsBinary(dataType) && !HasPrecision(dataType)
    ensures r && IsLongString(dataType) <==> dataType in {"TEXT", "NTEXT"}
  {
    dataType == "VARCHAR2" || dataType == "NVARCHAR2" || dataType == "NVARCHAR"
    || dataType == "VARCHAR" || dataType == "LONG VARCHAR" || dataType == "CHARACTER VARYING"
    || dataType == "TEXT" || dataType == "NTEXT" || dataType == "CHAR VARYING"
  }

  /**
   * The SQL Server special case first: VARBINARY(MAX) is stored with Length -1,
   * and it is the only name that is both binary and a blob.
   */
  function IsBlob(dataType: string, column: Column): (r: bool)
    ensures r <==> (dataType == "VARBINARY" && column.length == Some(-1))
                   || dataType in {"BLOB", "MEDIUMBLOB", "LONGBLOB", "IMAGE", "OID"}
    ensures r && IsBinary(dataType) <==> dataType == "VARBINARY" && column.length == Some(-1)
  {
    if dataType == "VARBINARY" && column.length == Some(-1) then true
    else dataType == "BLOB" || dataType == "MEDIUMBLOB" || dataType == "LONGBLOB"
         || dataType == "IMAGE" || dataType == "OID"
  }

  /**
   * A SQL Server "timestamp" is a row version (a byte array), recognised by its
   * provider type: both the name (any case) and the provider type must say so.
   */
  function IsSqlServerTimestamp(dataType: string, column: Column): (r: bool)
    ensures r <==> StartsWithIgnoreCase(dataType, "TIMESTAMP") && column.dataType.Some?
                   && column.dataType.value.providerDbType == SqlDbTypeTimestamp
  {
    if !StartsWithIgnoreCase(dataType, "TIMESTAMP") then false
    else
      var providerType := if column.dataType.Some? then column.dataType.value.providerDbType else -1;
      providerType == SqlDbTypeTimestamp
  }

  /** The lifted C# comparisons `precision < 38` and `scale == 0`: false when the value is null. */
  predicate IntegerRange(precision: Option<int>, scale: Option<int>) {
    precision.Some? && precision.value < 38 && scale == Some(0)
  }

  /**
   * Narrowing of an Oracle NUMBER(precision, scale), as written: the first
   * test already takes every scale-0 precision below 38, so the BIT and
   * DECIMAL tests after it never fire.
   */
  function OracleNumberConversion(precision: Option<int>, scale: Option<int>): (r: string)
    ensures r == "INTEGER" <==> IntegerRange(precision, scale)
    ensures r == "MONEY" <==> precision == Some(15) && scale == Some(4)
    ensures r == "NUMERIC" <==> !IntegerRange(precision, scale) && !(precision == Some(15) && scale == Some(4))
    ensures r != "BIT" && r != "DECIMAL"
  {
    if IntegerRange(precision, scale) then "INTEGER"
    else if precision == Some(1) && scale == Some(0) then "BIT"
    else if precision == Some(18) && scale == Some(0) then "DECIMAL"
    else if precision == Some(15) && scale == Some(4) then "MONEY"
    else "NUMERIC"
  }

  /** NUMBER(1,0) narrows to INTEGER, not to BIT as its own (unreachable) branch intends. */
  lemma OracleNumberBitUnreachable()
    ensures OracleNumberConversion(Some(1), Some(0)) == "INTEGER"
    ensures OracleNumberConversion(Some(18), Some(0)) == "INTEGER"
    ensures OracleNumberConversion(Some(10), Some(0)) == "INTEGER"
    ensures OracleNumberConversion(Some(15), Some(4)) == "MONEY"
    ensures OracleNumberConversion(Some(10), Some(2)) == "NUMERIC"
    ensures OracleNumberConversion(Some(38), Some(0)) == "NUMERIC"
    ensures OracleNumberConversion(None, Some(0)) == "NUMERIC"
    ensures OracleNumberConversion(Some(10), None) == "NUMERIC"
  {
  }

  /** The narrowing with the exact (1,0) and (18,0) tests ahead of the scale-0 range test. */
  function OracleNumberConversionIntended(precision: Option<int>, scale: Option<int>): (r: string)
    ensures precision == Some(1) && scale == Some(0) ==> r == "BIT"
    ensures precision == Some(18) && scale == Some(0) ==> r == "DECIMAL"
    ensures r == "INTEGER" <==> IntegerRange(precision, scale) && precision != Some(1) && precision != Some(18)
    ensures r == "MONEY" <==> precision == Some(15) && scale == Some(4)
    ensures r != OracleNumberConversion(precision, scale) <==>
              scale == Some(0) && (precision == Some(1) || precision == Some(18))
  {
    if precision == Some(1) && scale == Some(0) then "BIT"
    else if precision == Some(18) && scale == Some(0) then "DECIMAL"
    else if IntegerRange(precision, scale) then "INTEGER"
    else if precision == Some(15) && scale == Some(4) then "MONEY"
    else "NUMERIC"
  }

  /** The four fields `ParseDataType` sets on the fresh column it returns. */
  datatype ParsedColumn = ParsedColumn(
    dbDataType: Option<string>,
    length: Option<int>,
    precision: Option<int>,
    scale: Option<int>)

  const Unset := ParsedColumn(None, None, None, None)

  /**
   * `ParseDataType` does not throw: a "(" must have a ")" somewhere after it
   * (otherwise the parameter substring has a negative length).
   */
  predicate Parseable(dataType: Option<string>) {
    IsNullOrEmpty(dataType)
    || var s := dataType.value;
       var brace := IndexOfChar(s, '(');
       brace == -1 || IndexOfCharFrom(s, ')', brace + 1) != -1
  }

  /** The trimmed text between the first "(" and the first ")" after it. */
  function Parameter(s: string): string
    requires IndexOfChar(s, '(') != -1 && IndexOfCharFrom(s, ')', IndexOfChar(s, '(') + 1) != -1
  {
    var brace := IndexOfChar(s, '(');
    Trim(s[brace + 1..IndexOfCharFrom(s, ')', brace + 1)])
  }

  /**
   * The parameter part of the parse: MAX (any case) means Length -1; one
   * integer is a precision for a precision-bearing base name and a length
   * otherwise; two comma-separated integers are precision and scale; a
   * parameter that does not parse sets nothing.
   */
  function ParseParameter(baseName: string, param: string): (r: ParsedColumn)
    ensures r.dbDataType == Some(baseName)
    ensures !(r.length.Some? && r.precision.Some?)
    ensures r.scale.Some? ==> r.precision.Some?
  {
    if ContainsIgnoreCase(param, "MAX") then
      ParsedColumn(Some(baseName), Some(-1), None, None)
    else
      var comma := IndexOfChar(param, ',');
      if comma == -1 then
        match TryParseInt(param)
        case Some(n) =>
          if HasPrecision(ToUpper(baseName)) then ParsedColumn(Some(baseName), None, Some(n), None)
          else ParsedColumn(Some(baseName), Some(n), None, None)
        case None => ParsedColumn(Some(baseName), None, None, None)
      else
        var p1 := Trim(param[..comma]);
        var p2 := Trim(param[comma + 1..]);
        match (TryParseInt(p1), TryParseInt(p2))
        case (Some(precision), Some(scale)) => ParsedColumn(Some(baseName), None, Some(precision), Some(scale))
        case _ => ParsedColumn(Some(baseName), None, None, None)
  }

  /** MAX in any case, anywhere in the parameter, means Length -1 and nothing else. */
  lemma ParameterMax(baseName: string, param: string)
    requires ContainsIgnoreCase(param, "MAX")
    ensures ParseParameter(baseName, param) == ParsedColumn(Some(baseName), Some(-1), None, None)
  {
  }

  /**
   * One value: a precision when the upper-cased base name carries one, a
   * length otherwise, and nothing when the value does not parse.
   */
  lemma ParameterSingle(baseName: string, param: string)
    requires !ContainsIgnoreCase(param, "MAX") && IndexOfChar(param, ',') == -1
    ensures TryParseInt(param).None? ==>
              ParseParameter(baseName, param) == ParsedColumn(Some(baseName), None, None, None)
    ensures TryParseInt(param).Some? && HasPrecision(ToUpper(baseName)) ==>
              ParseParameter(baseName, param) == ParsedColumn(Some(baseName), None, TryParseInt(param), None)
    ensures TryParseInt(param).Some? && !HasPrecision(ToUpper(baseName)) ==>
              ParseParameter(baseName, param) == ParsedColumn(Some(baseName), TryParseInt(param), None, None)
  {
  }

  /**
   * Two comma-separated values: precision and scale when both parse (each
   * trimmed), otherwise nothing is set.
   */
  lemma ParameterPair(baseName: string, param: string)
    requires !ContainsIgnoreCase(param, "MAX") && IndexOfChar(param, ',') != -1
    ensures var comma := IndexOfChar(param, ',');
            var p := TryParseInt(Trim(param[..comma]));
            var q := TryParseInt(Trim(param[comma + 1..]));
            ParseParameter(baseName, param) ==
              if p.Some? && q.Some? then ParsedColumn(Some(baseName), None, p, q)
              else ParsedColumn(Some(baseName), None, None, None)
  {
  }

  /**
   * `ParseDataType`: null or "" leaves everything unset; a string without
   * "(" becomes the type name unchanged; otherwise the trimmed text before
   * "(" is the type name and the parameter is read by `ParseParameter`.
   * A type name is set exactly when the input is neither null nor empty, a
   * length and a precision are never both set, and a scale comes with a
   * precision.
   */
  function ParseDataType(dataType: Option<string>): (r: ParsedColumn)
    requires Parseable(dataType)
    ensures r.dbDataType.None? <==> IsNullOrEmpty(dataType)
    ensures !(r.length.Some? && r.precision.Some?)
    ensures r.scale.Some? ==> r.precision.Some?
  {
    if IsNullOrEmpty(dataType) then Unset
    else
      var s := dataType.value;
      var brace := IndexOfChar(s, '(');
      if brace == -1 then ParsedColumn(Some(s), None, None, None)
      else ParseParameter(Trim(s[..brace]), Parameter(s))
  }

  /** The three shapes of input, and MAX (any case) in the brackets. */
  lemma ParseDataTypeCases(dataType: Option<string>)
    requires Parseable(dataType)
    ensures IsNullOrEmpty(dataType) ==> ParseDataType(dataType) == Unset
    ensures !IsNullOrEmpty(dataType) && IndexOfChar(dataType.value, '(') == -1 ==>
              ParseDataType(dataType) == ParsedColumn(dataType, None, None, None)
    ensures !IsNullOrEmpty(dataType) && IndexOfChar(dataType.value, '(') != -1 ==>
              ParseDataType(dataType).dbDataType == Some(Trim(dataType.value[..IndexOfChar(dataType.value, '(')]))
    ensures (!IsNullOrEmpty(dataType) && IndexOfChar(dataType.value, '(') != -1
             && ContainsIgnoreCase(Parameter(dataType.value), "MAX")) ==>
              ParseDataType(dataType).length == Some(-1)
              && ParseDataType(dataType).precision.None? && ParseDataType(dataType).scale.None?
  {
    if !IsNullOrEmpty(dataType) && IndexOfChar(dataType.value, '(') != -1
       && ContainsIgnoreCase(Parameter(dataType.value), "MAX") {
      var s := dataType.value;
      ParameterMax(Trim(s[..IndexOfChar(s, '(')]), Parameter(s));
    }
  }

  /** A type declaration as a writer would render it; the partner of `ParseDataType`. */
  datatype TypeSpec =
    | Plain(name: string)
    | Sized(name: string, size: int)
    | Unbounded(name: string)
    | Scaled(name: string, precision: int, scale: int)

  /** Rendering: "NAME", "NAME(n)", "NAME(MAX)" or "NAME(p,s)". */
  function FormatTypeSpec(t: TypeSpec): string {
    match t
    case Plain(name) => name
    case Sized(name, size) => name + "(" + IntToString(size) + ")"
    case Unbounded(name) => name + "(MAX)"
    case Scaled(name, p, s) => name + "(" + IntToString(p) + "," + IntToString(s) + ")"
  }

  /** What a rendered declaration describes, as `ParseDataType` reports it. */
  function Described(t: TypeSpec): ParsedColumn {
    match t
    case Plain(name) => ParsedColumn(Some(name), None, None, None)
    case Sized(name, size) =>
      if HasPrecision(ToUpper(name)) then ParsedColumn(Some(name), None, Some(size), None)
      else ParsedColumn(Some(name), Some(size), None, None)
    case Unbounded(name) => ParsedColumn(Some(name), Some(-1), None, None)
    case Scaled(name, p, s) => ParsedColumn(Some(name), None, Some(p), Some(s))
  }

  /** A type name a writer puts before "(": no "(" in it and no white space at its ends. */
  predicate NameBeforeBracket(n: string) {
    (forall i :: 0 <= i < |n| ==> n[i] != '(')
    && (n == [] || (!IsWhiteSpace(n[0]) && !IsWhiteSpace(n[|n| - 1])))
  }

  /** Declarations a writer produces: sensible names and values a C# `int` holds. */
  predicate WellFormed(t: TypeSpec) {
    match t
    case Plain(name) => name != [] && forall i :: 0 <= i < |name| ==> name[i] != '('
    case Sized(name, size) => NameBeforeBracket(name) && IsInt32(size)
    case Unbounded(name) => NameBeforeBracket(name)
    case Scaled(name, p, q) => NameBeforeBracket(name) && IsInt32(p) && IsInt32(q)
  }

  /** A bracket parameter that `ParseParameter` reads as the single value `v`. */
  predicate ReadsAsSingle(d: string, v: int) {
    (forall i :: 0 <= i < |d| ==> d[i] != ')')
    && Trim(d) == d && !ContainsIgnoreCase(d, "MAX") && IndexOfChar(d, ',') == -1
    && TryParseInt(d) == Some(v)
  }

  /** A bracket parameter that `ParseParameter` reads as precision `p` and scale `q`. */
  predicate ReadsAsPair(param: string, p: int, q: int) {
    (forall i :: 0 <= i < |param| ==> param[i] != ')')
    && Trim(param) == param && !ContainsIgnoreCase(param, "MAX")
    && IndexOfChar(param, ',') != -1
    && TryParseInt(Trim(param[..IndexOfChar(param, ',')])) == Some(p)
    && TryParseInt(Trim(param[IndexOfChar(param, ',') + 1..])) == Some(q)
  }

  /** An integer's rendering uses only the characters from '-' to '9'. */
  lemma IntToStringRange(n: int)
    ensures forall i :: 0 <= i < |IntToString(n)| ==> '-' <= IntToString(n)[i] <= '9'
  {
  }

  /** "MAX" does not occur in a string without an "M". */
  lemma {:induction false} NoMax(d: string)
    requires forall i :: 0 <= i < |d| ==> d[i] != 'M'
    ensures IndexOf(d, "MAX") == -1
  {
    forall j | 0 <= j <= |d| - 3
      ensures !OccursAt(d, "MAX", j)
    {
      assert d[j..j + 3][0] == d[j];
    }
  }

  /** Text made of the characters from ',' to '9' has no white space to trim. */
  lemma {:induction false} NumeralTrim(d: string)
    requires forall i :: 0 <= i < |d| ==> ',' <= d[i] <= '9'
    ensures Trim(d) == d
  {
    if d != [] {
      assert !IsWhiteSpace(d[0]) && !IsWhiteSpace(d[|d| - 1]);
    }
    TrimUnchanged(d);
  }

  /** Text made of the characters from ',' to '9' (digits, signs, commas) does not contain "MAX". */
  lemma {:induction false} NumeralNoMax(d: string)
    requires forall i :: 0 <= i < |d| ==> ',' <= d[i] <= '9'
    ensures !ContainsIgnoreCase(d, "MAX")
  {
    ToUpperUnchanged(d);
    NoMax(d);
    ToUpperUnchanged("MAX");
  }

  /** The first "(" of "name(param)" is the one after the name. */
  lemma {:induction false} FirstOpen(n: string, param: string)
    requires forall i :: 0 <= i < |n| ==> n[i] != '('
    ensures IndexOfChar(n + "(" + param + ")", '(') == |n|
    ensures (n + "(" + param + ")")[..|n|] == n
  {
    var s := n + "(" + param + ")";
    assert s[|n|] == '(';
    assert forall j :: 0 <= j < |n| ==> s[j] == n[j];
    IndexOfCharFromAt(s, '(', 0, |n|);
  }

  /** A ")" at `k`, with none from `i` up to it, is the first one found from `i`. */
  lemma {:induction false} CloseAt(s: string, param: string, i: nat)
    requires i + |param| < |s| && s[i + |param|] == ')'
    requires s[i..i + |param|] == param
    requires forall j :: 0 <= j < |param| ==> param[j] != ')'
    ensures IndexOfCharFrom(s, ')', i) == i + |param|
  {
    forall j | i <= j < i + |param|
      ensures s[j] != ')'
    {
      assert s[j] == s[i..i + |param|][j - i];
    }
    IndexOfCharFromAt(s, ')', i, i + |param|);
  }

  /** The first ")" after the "(" of "name(param)" is the closing one. */
  lemma {:induction false} FirstCloseAfter(n: string, param: string)
    requires forall i :: 0 <= i < |param| ==> param[i] != ')'
    ensures IndexOfCharFrom(n + "(" + param + ")", ')', |n| + 1) == |n| + 1 + |param|
    ensures (n + "(" + param + ")")[|n| + 1..|n| + 1 + |param|] == param
  {
    var a := n + "(";
    var s := a + param + ")";
    assert s[|a|..|a| + |param|] == param;
    CloseAt(s, param, |a|);
  }

  /** In "name(param)", the name is before the first "(" and the parameter between the brackets. */
  lemma {:induction false} DeclarationParts(n: string, param: string)
    requires NameBeforeBracket(n)
    requires forall i :: 0 <= i < |param| ==> param[i] != ')'
    ensures var s := n + "(" + param + ")";
            s != [] && IndexOfChar(s, '(') == |n| && IndexOfCharFrom(s, ')', |n| + 1) != -1
            && Trim(s[..|n|]) == n && Parameter(s) == Trim(param)
  {
    FirstOpen(n, param);
    FirstCloseAfter(n, param);
    TrimUnchanged(n);
  }

  /** A declaration whose first "(" follows the name `n` is read as `n` with its parameter. */
  lemma {:induction false} ParseAtBracket(s: string, n: string, param: string)
    requires s != [] && IndexOfChar(s, '(') == |n| && IndexOfCharFrom(s, ')', |n| + 1) != -1
    requires Trim(s[..|n|]) == n && Parameter(s) == param
    ensures Parseable(Some(s))
    ensures ParseDataType(Some(s)) == ParseParameter(n, param)
  {
  }

  /** A declaration "name(param)" splits at its only brackets. */
  lemma {:induction false} SplitDeclaration(n: string, param: string)
    requires NameBeforeBracket(n)
    requires forall i :: 0 <= i < |param| ==> param[i] != ')'
    ensures Parseable(Some(n + "(" + param + ")"))
    ensures ParseDataType(Some(n + "(" + param + ")")) == ParseParameter(n, Trim(param))
  {
    DeclarationParts(n, param);
    ParseAtBracket(n + "(" + param + ")", n, Trim(param));
  }

  /** A single numeral holds no comma and no closing bracket. */
  lemma {:induction false} NumeralNoComma(d: string)
    requires forall i :: 0 <= i < |d| ==> '-' <= d[i] <= '9'
    ensures forall i :: 0 <= i < |d| ==> d[i] != ')'
    ensures IndexOfChar(d, ',') == -1
  {
  }

  /** The rendering of an `int` is read back as that one value. */
  lemma {:induction false} SizeParameter(size: int)
    requires IsInt32(size)
    ensures ReadsAsSingle(IntToString(size), size)
  {
    var d := IntToString(size);
    IntToStringRange(size);
    NumeralTrim(d);
    NumeralNoMax(d);
    NumeralNoComma(d);
    TryParseIntToString(size);
  }

  /** A declaration "name(d)" whose parameter reads as one value. */
  lemma {:induction false} ParseSingle(n: string, d: string, v: int)
    requires NameBeforeBracket(n) && ReadsAsSingle(d, v)
    ensures Parseable(Some(n + "(" + d + ")"))
    ensures ParseDataType(Some(n + "(" + d + ")")) == Described(Sized(n, v))
  {
    SplitDeclaration(n, d);
    ParameterSingle(n, d);
  }

  lemma {:induction false} RoundTripSized(n: string, size: int)
    requires WellFormed(Sized(n, size))
    ensures Parseable(Some(FormatTypeSpec(Sized(n, size))))
    ensures ParseDataType(Some(FormatTypeSpec(Sized(n, size)))) == Described(Sized(n, size))
  {
    SizeParameter(size);
    ParseSingle(n, IntToString(size), size);
  }

  /** "MAX" is its own trim and contains "MAX" ignoring case. */
  lemma MaxParameter()
    ensures Trim("MAX") == "MAX" && ContainsIgnoreCase("MAX", "MAX")
  {
    TrimUnchanged("MAX");
    ToUpperUnchanged("MAX");
    assert OccursAt("MAX", "MAX", 0);
  }

  lemma {:induction false} RoundTripUnbounded(n: string)
    requires WellFormed(Unbounded(n))
    ensures Parseable(Some(FormatTypeSpec(Unbounded(n))))
    ensures ParseDataType(Some(FormatTypeSpec(Unbounded(n)))) == Described(Unbounded(n))
  {
    assert FormatTypeSpec(Unbounded(n)) == n + "(" + "MAX" + ")";
    assert forall i :: 0 <= i < |"MAX"| ==> "MAX"[i] != ')';
    SplitDeclaration(n, "MAX");
    MaxParameter();
    ParameterMax(n, "MAX");
  }

  /** "a,b" splits at its comma into `a` and `b` when `a` has none. */
  lemma {:induction false} PairParts(dp: string, dq: string)
    requires forall i :: 0 <= i < |dp| ==> '-' <= dp[i] <= '9'
    requires forall i :: 0 <= i < |dq| ==> '-' <= dq[i] <= '9'
    ensures forall i :: 0 <= i < |dp + "," + dq| ==> ',' <= (dp + "," + dq)[i] <= '9'
    ensures IndexOfChar(dp + "," + dq, ',') == |dp|
    ensures (dp + "," + dq)[..|dp|] == dp && (dp + "," + dq)[|dp| + 1..] == dq
  {
    var param := dp + "," + dq;
    assert forall i :: 0 <= i < |param| ==> ',' <= param[i] <= '9';
    IndexOfCharFromAt(param, ',', 0, |dp|);
  }

  /** A numeral pair split at its first comma into two trimmed numerals reads as their values. */
  lemma {:induction false} ReadPair(param: string, dp: string, dq: string, p: int, q: int)
    requires forall i :: 0 <= i < |param| ==> ',' <= param[i] <= '9'
    requires IndexOfChar(param, ',') == |dp| && |dp| < |param|
    requires param[..|dp|] == dp && param[|dp| + 1..] == dq
    requires Trim(dp) == dp && Trim(dq) == dq
    requires TryParseInt(dp) == Some(p) && TryParseInt(dq) == Some(q)
    ensures ReadsAsPair(param, p, q)
  {
    NumeralTrim(param);
    NumeralNoMax(param);
  }

  /** Two numerals joined by a comma read as the values the numerals parse to. */
  lemma {:induction false} PairOfNumerals(dp: string, dq: string, p: int, q: int)
    requires forall i :: 0 <= i < |dp| ==> '-' <= dp[i] <= '9'
    requires forall i :: 0 <= i < |dq| ==> '-' <= dq[i] <= '9'
    requires TryParseInt(dp) == Some(p) && TryParseInt(dq) == Some(q)
    ensures ReadsAsPair(dp + "," + dq, p, q)
  {
    PairParts(dp, dq);
    NumeralTrim(dp);
    NumeralTrim(dq);
    ReadPair(dp + "," + dq, dp, dq, p, q);
  }

  /** "p,s" rendered from two `int`s is read back as precision and scale. */
  lemma {:induction false} ScaleParameter(p: int, q: int)
    requires IsInt32(p) && IsInt32(q)
    ensures ReadsAsPair(IntToString(p) + "," + IntToString(q), p, q)
  {
    IntToStringRange(p);
    IntToStringRange(q);
    TryParseIntToString(p);
    TryParseIntToString(q);
    PairOfNumerals(IntToString(p), IntToString(q), p, q);
  }

  /** A declaration "name(param)" whose parameter reads as precision and scale. */
  lemma {:induction false} ParsePair(n: string, param: string, p: int, q: int)
    requires NameBeforeBracket(n) && ReadsAsPair(param, p, q)
    ensures Parseable(Some(n + "(" + param + ")"))
    ensures ParseDataType(Some(n + "(" + param + ")")) == Described(Scaled(n, p, q))
  {
    SplitDeclaration(n, param);
    ParameterPair(n, param);
  }

  lemma {:induction false} RoundTripScaled(n: string, p: int, q: int)
    requires WellFormed(Scaled(n, p, q))
    ensures Parseable(Some(FormatTypeSpec(Scaled(n, p, q))))
    ensures ParseDataType(Some(FormatTypeSpec(Scaled(n, p, q)))) == Described(Scaled(n, p, q))
  {
    var param := IntToString(p) + "," + IntToString(q);
    assert FormatTypeSpec(Scaled(n, p, q)) == n + "(" + param + ")";
    ScaleParameter(p, q);
    ParsePair(n, param, p, q);
  }

  /** Round trip: parsing a rendered declaration gives back what it describes. */
  lemma {:induction false} ParseFormatRoundTrip(t: TypeSpec)
    requires WellFormed(t)
    ensures Parseable(Some(FormatTypeSpec(t)))
    ensures ParseDataType(Some(FormatTypeSpec(t))) == Described(t)
  {
    match t
    case Plain(n) =>
    case Sized(n, size) => RoundTripSized(n, size);
    case Unbounded(n) => RoundTripUnbounded(n);
    case Scaled(n, p, q) => RoundTripScaled(n, p, q);
  }

  /** "VARCHAR(20)" is read as a length. */
  lemma ExampleSized()
    ensures ParseDataType(Some("VARCHAR(20)")) == ParsedColumn(Some("VARCHAR"), Some(20), None, None)
  {
    VarcharName();
    VarcharTwenty();
    LengthRoundTrip("VARCHAR", 20, "VARCHAR(20)");
  }

  /** VARCHAR is a name a writer puts before "(", and it carries no precision. */
  lemma VarcharName()
    ensures WellFormed(Sized("VARCHAR", 20)) && !HasPrecision(ToUpper("VARCHAR"))
  {
    assert NameBeforeBracket("VARCHAR");
    ToUpperUnchanged("VARCHAR");
    assert !HasPrecision("VARCHAR");
  }

  lemma VarcharTwenty()
    ensures FormatTypeSpec(Sized("VARCHAR", 20)) == "VARCHAR(20)"
  {
    assert NatToString(20) == NatToString(2) + [DigitChar(0)] == "20";
  }

  /** A rendered length declaration for a name without precision reads back as that length. */
  lemma LengthRoundTrip(n: string, size: int, s: string)
    requires WellFormed(Sized(n, size)) && !HasPrecision(ToUpper(n))
    requires FormatTypeSpec(Sized(n, size)) == s
    ensures Parseable(Some(s))
    ensures ParseDataType(Some(s)) == ParsedColumn(Some(n), Some(size), None, None)
  {
    RoundTripSized(n, size);
  }

  /** "NUMBER(10,2)" is read as a precision and a scale. */
  lemma ExampleScaled()
    ensures ParseDataType(Some("NUMBER(10,2)")) == ParsedColumn(Some("NUMBER"), None, Some(10), Some(2))
  {
    assert NatToString(10) == NatToString(1) + [DigitChar(0)] == "10";
    assert FormatTypeSpec(Scaled("NUMBER", 10, 2)) == "NUMBER(10,2)";
    RoundTripScaled("NUMBER", 10, 2);
  }

  /** "VARCHAR(MAX)" is read as length -1. */
  lemma ExampleMax()
    ensures ParseDataType(Some("VARCHAR(MAX)")) == ParsedColumn(Some("VARCHAR"), Some(-1), None, None)
  {
    assert FormatTypeSpec(Unbounded("VARCHAR")) == "VARCHAR(MAX)";
    RoundTripUnbounded("VARCHAR");
  }

  /** "INT" has no parameter; null and "" are unset. */
  lemma ExamplePlain()
    ensures ParseDataType(Some("INT")) == ParsedColumn(Some("INT"), None, None, None)
    ensures ParseDataType(None) == Unset && ParseDataType(Some("")) == Unset
  {
    ParseFormatRoundTrip(Plain("INT"));
  }
}
