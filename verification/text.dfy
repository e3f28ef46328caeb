/**
 * The .NET string operations the core relies on, stated over `seq<char>`:
 * null-tolerant concatenation, trimming, invariant upper-casing, ordinal and
 * ordinal-ignore-case search, prefix/suffix tests and `string.Join`.
 */
module Text {
  import opened Wrappers

  /** `Environment.NewLine` on the .NET Framework, which the library targets. */
  const NewLine: string := "\r\n"

  /** C# concatenation renders a null string as the empty string. */
  function Str(s: Option<string>): string {
    s.GetOr("")
  }

  /** `string.IsNullOrEmpty`. */
  predicate IsNullOrEmpty(s: Option<string>) {
    s.None? || s.value == ""
  }

  /** `char.IsWhiteSpace`: the Unicode space separators plus the control characters it accepts. */
  predicate IsWhiteSpace(c: char) {
    var k := c as int;
    k == 0x20 || 0x09 <= k <= 0x0D || k == 0x85 || k == 0xA0 || k == 0x1680
    || 0x2000 <= k <= 0x200A || k == 0x2028 || k == 0x2029 || k == 0x202F
    || k == 0x205F || k == 0x3000
  }

  /** `string.TrimStart()`: drops the leading white space and nothing else. */
  function TrimStart(s: string): (r: string)
    ensures |r| <= |s|
    ensures r == [] || !IsWhiteSpace(r[0])
  {
    if s != [] && IsWhiteSpace(s[0]) then TrimStart(s[1..]) else s
  }

  /** `string.TrimEnd()`: drops the trailing white space and nothing else. */
  function TrimEnd(s: string): (r: string)
    ensures |r| <= |s|
    ensures r == [] || !IsWhiteSpace(r[|r| - 1])
  {
    if s != [] && IsWhiteSpace(s[|s| - 1]) then TrimEnd(s[..|s| - 1]) else s
  }

  /** `TrimStart` keeps a suffix of its input and drops only white space. */
  lemma {:induction false} TrimStartDropsWhiteSpace(s: string)
    ensures forall i :: 0 <= i < |s| - |TrimStart(s)| ==> IsWhiteSpace(s[i])
    ensures TrimStart(s) == s[|s| - |TrimStart(s)|..]
  {
    if s != [] && IsWhiteSpace(s[0]) {
      TrimStartDropsWhiteSpace(s[1..]);
      assert forall i :: 1 <= i < |s| ==> s[i] == s[1..][i - 1];
    }
  }

  /** `TrimEnd` keeps a prefix of its input and drops only white space. */
  lemma {:induction false} TrimEndDropsWhiteSpace(s: string)
    ensures forall i :: |TrimEnd(s)| <= i < |s| ==> IsWhiteSpace(s[i])
    ensures TrimEnd(s) == s[..|TrimEnd(s)|]
  {
    if s != [] && IsWhiteSpace(s[|s| - 1]) {
      TrimEndDropsWhiteSpace(s[..|s| - 1]);
    }
  }

  /** `string.Trim()`. */
  function Trim(s: string): string {
    TrimEnd(TrimStart(s))
  }

  /** A string with no white space at either end is its own trim. */
  lemma TrimUnchanged(s: string)
    requires s == [] || (!IsWhiteSpace(s[0]) && !IsWhiteSpace(s[|s| - 1]))
    ensures Trim(s) == s
  {
  }

  /** Invariant upper-casing of one character (ASCII letters only). */
  function UpperChar(c: char): char {
    if 'a' <= c <= 'z' then (c as int - 32) as char else c
  }

  /** `string.ToUpperInvariant()` (ASCII letters only). */
  function ToUpper(s: string): (r: string)
    ensures |r| == |s|
  {
    if s == [] then [] else [UpperChar(s[0])] + ToUpper(s[1..])
  }

  /** Upper-casing works character by character. */
  lemma {:induction false} ToUpperAt(s: string)
    ensures forall i :: 0 <= i < |s| ==> ToUpper(s)[i] == UpperChar(s[i])
  {
    if s != [] {
      ToUpperAt(s[1..]);
      assert forall i :: 1 <= i < |s| ==> ToUpper(s)[i] == ToUpper(s[1..])[i - 1];
    }
  }

  /** A string whose characters upper-case one by one to `u` upper-cases to `u`. */
  lemma {:induction false} ToUpperIs(s: string, u: string)
    requires |s| == |u|
    requires forall i :: 0 <= i < |s| ==> UpperChar(s[i]) == u[i]
    ensures ToUpper(s) == u
  {
    ToUpperAt(s);
  }

  /** `string.Equals(a, b, StringComparison.OrdinalIgnoreCase)`. */
  predicate EqualsIgnoreCase(a: string, b: string) {
    ToUpper(a) == ToUpper(b)
  }

  /** `s.StartsWith(prefix)` (ordinal). */
  predicate StartsWith(s: string, prefix: string) {
    |prefix| <= |s| && s[..|prefix|] == prefix
  }

  /** `s.EndsWith(suffix)` (ordinal). */
  predicate EndsWith(s: string, suffix: string) {
    |suffix| <= |s| && s[|s| - |suffix|..] == suffix
  }

  /** `s.StartsWith(prefix, StringComparison.OrdinalIgnoreCase)`. */
  predicate StartsWithIgnoreCase(s: string, prefix: string) {
    |prefix| <= |s| && EqualsIgnoreCase(s[..|prefix|], prefix)
  }

  /** `sub` occurs in `s` at position `i`. */
  predicate OccursAt(s: string, sub: string, i: int) {
    0 <= i <= |s| - |sub| && s[i..i + |sub|] == sub
  }

  /** `s.IndexOf(sub, i)` (ordinal): the first occurrence at or after `i`, or -1. */
  function IndexOfFrom(s: string, sub: string, i: nat): (r: int)
    ensures r == -1 || (i <= r && OccursAt(s, sub, r))
    ensures r == -1 ==> forall j :: i <= j ==> !OccursAt(s, sub, j)
    ensures r != -1 ==> forall j :: i <= j < r ==> !OccursAt(s, sub, j)
    decreases |s| - i
  {
    if i + |sub| > |s| then -1
    else if s[i..i + |sub|] == sub then i
    else IndexOfFrom(s, sub, i + 1)
  }

  /** `s.IndexOf(sub)` (ordinal). */
  function IndexOf(s: string, sub: string): int {
    IndexOfFrom(s, sub, 0)
  }

  /** The first occurrence of `sub` is where `IndexOf` finds it. */
  lemma IndexOfAt(s: string, sub: string, k: nat)
    requires OccursAt(s, sub, k)
    requires forall j :: 0 <= j < k ==> !OccursAt(s, sub, j)
    ensures IndexOf(s, sub) == k
  {
  }

  /** `s.Contains(sub)` (ordinal). */
  predicate Contains(s: string, sub: string) {
    IndexOf(s, sub) != -1
  }

  /** `s.IndexOf(sub, StringComparison.OrdinalIgnoreCase) != -1`. */
  predicate ContainsIgnoreCase(s: string, sub: string) {
    IndexOf(ToUpper(s), ToUpper(sub)) != -1
  }

  /** `s.IndexOf(c, i)`: the first position at or after `i` holding `c`, or -1. */
  function IndexOfCharFrom(s: string, c: char, i: nat): (r: int)
    ensures r == -1 || (i <= r < |s| && s[r] == c)
    ensures r == -1 ==> forall j :: i <= j < |s| ==> s[j] != c
    ensures r != -1 ==> forall j :: i <= j < r ==> s[j] != c
    decreases |s| - i
  {
    if i >= |s| then -1
    else if s[i] == c then i
    else IndexOfCharFrom(s, c, i + 1)
  }

  /** `c` at `k`, and nowhere between `i` and `k`, makes `k` the first position found. */
  lemma IndexOfCharFromAt(s: string, c: char, i: nat, k: nat)
    requires i <= k < |s| && s[k] == c
    requires forall j :: i <= j < k ==> s[j] != c
    ensures IndexOfCharFrom(s, c, i) == k
  {
  }

  /** `s.IndexOf(c)`. */
  function IndexOfChar(s: string, c: char): int {
    IndexOfCharFrom(s, c, 0)
  }

  /** Text without lower-case letters is its own upper-case form. */
  lemma ToUpperUnchanged(s: string)
    requires forall i :: 0 <= i < |s| ==> !('a' <= s[i] <= 'z')
    ensures ToUpper(s) == s
  {
    ToUpperAt(s);
    assert forall i :: 0 <= i < |s| ==> UpperChar(s[i]) == s[i];
  }

  /** `string.Join(sep, parts)`. */
  function Join(sep: string, parts: seq<string>): (r: string)
    ensures |parts| == 1 ==> r == parts[0]
    ensures parts == [] ==> r == ""
  {
    if |parts| == 0 then ""
    else if |parts| == 1 then parts[0]
    else Join(sep, parts[..|parts| - 1]) + sep + parts[|parts| - 1]
  }

  /** What a sequence of `StringBuilder.AppendLine` calls adds. */
  function AppendLines(lines: seq<string>): string {
    if lines == [] then "" else AppendLines(lines[..|lines| - 1]) + lines[|lines| - 1] + NewLine
  }
}
