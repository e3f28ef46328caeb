/**
 * 32-bit integers as the C# code renders and parses them: `int.ToString()`
 * (invariant digits) and `int.TryParse` (an optional sign, decimal digits,
 * a value inside the `int` range).
 */
module Numeric {
  import opened Wrappers

  const Int32Min: int := -0x8000_0000
  const Int32Max: int := 0x7FFF_FFFF

  /** A value a C# `int` can hold. */
  predicate IsInt32(n: int) {
    Int32Min <= n <= Int32Max
  }

  predicate IsDigit(c: char) {
    '0' <= c <= '9'
  }

  predicate AllDigits(s: string) {
    forall i :: 0 <= i < |s| ==> IsDigit(s[i])
  }

  function DigitChar(d: nat): (c: char)
    requires d < 10
    ensures IsDigit(c)
  {
    (48 + d) as char
  }

  function DigitValue(c: char): (d: nat)
    requires IsDigit(c)
    ensures d < 10 && DigitChar(d) == c
  {
    c as int - 48
  }

  /** The decimal rendering of a natural number, most significant digit first. */
  function NatToString(n: nat): (s: string)
    ensures |s| > 0 && AllDigits(s)
  {
    if n < 10 then [DigitChar(n)] else NatToString(n / 10) + [DigitChar(n % 10)]
  }

  /** `int.ToString()`: a minus sign for negative values, then the digits. */
  function IntToString(n: int): (s: string)
    ensures |s| > 0
    ensures forall i :: 0 <= i < |s| ==> IsDigit(s[i]) || (i == 0 && s[i] == '-')
  {
    if n < 0 then "-" + NatToString(-n) else NatToString(n)
  }

  /** C# concatenation of an `int?`: the number's digits, or nothing when it is null. */
  function IntText(n: Option<int>): (s: string)
    ensures n.None? <==> s == ""
    ensures forall i :: 0 <= i < |s| ==> IsDigit(s[i]) || (i == 0 && s[i] == '-')
  {
    if n.Some? then IntToString(n.value) else ""
  }

  /** The value of a string of decimal digits. */
  function DigitsValue(s: string): nat
    requires AllDigits(s)
  {
    if s == [] then 0 else DigitsValue(s[..|s| - 1]) * 10 + DigitValue(s[|s| - 1])
  }

  /** `int.TryParse` on a string that has already been trimmed. */
  function TryParseInt(s: string): (r: Option<int>)
    ensures r.Some? ==> IsInt32(r.value)
    ensures r.Some? ==> |s| > 0 && (IsDigit(s[0]) || s[0] == '-' || s[0] == '+')
  {
    var negative := |s| > 0 && s[0] == '-';
    var digits := if |s| > 0 && (s[0] == '-' || s[0] == '+') then s[1..] else s;
    if digits == [] || !AllDigits(digits) then None
    else
      var magnitude: int := DigitsValue(digits);
      var v := if negative then -magnitude else magnitude;
      if IsInt32(v) then Some(v) else None
  }

  /** Reading back the digits of a natural number gives that number. */
  lemma {:induction false} DigitsValueOfNatToString(n: nat)
    ensures DigitsValue(NatToString(n)) == n
  {
    if n >= 10 {
      var s := NatToString(n);
      var prefix := NatToString(n / 10);
      assert s == prefix + [DigitChar(n % 10)];
      assert s[..|s| - 1] == prefix;
      DigitsValueOfNatToString(n / 10);
    }
  }

  /** Parsing a run of digits, with or without a leading minus sign. */
  lemma TryParseSigned(negative: bool, digits: string)
    requires digits != [] && AllDigits(digits)
    ensures var v: int := if negative then -(DigitsValue(digits) as int) else DigitsValue(digits);
            TryParseInt(if negative then "-" + digits else digits) == if IsInt32(v) then Some(v) else None
  {
    var s := if negative then "-" + digits else digits;
    if negative {
      assert s[0] == '-' && s[1..] == digits;
    } else {
      assert IsDigit(s[0]);
    }
  }

  /** Round trip: `int.TryParse(n.ToString())` gives back `n` for every `int`. */
  lemma TryParseIntToString(n: int)
    requires IsInt32(n)
    ensures TryParseInt(IntToString(n)) == Some(n)
  {
    if n < 0 {
      DigitsValueOfNatToString(-n);
      TryParseSigned(true, NatToString(-n));
    } else {
      DigitsValueOfNatToString(n);
      TryParseSigned(false, NatToString(n));
    }
  }

  /** Values outside the `int` range do not parse, even when well formed. */
  lemma TryParseOutOfRange(n: int)
    requires !IsInt32(n)
    ensures TryParseInt(IntToString(n)) == None
  {
    if n < 0 {
      DigitsValueOfNatToString(-n);
      TryParseSigned(true, NatToString(-n));
    } else {
      DigitsValueOfNatToString(n);
      TryParseSigned(false, NatToString(n));
    }
  }

  /** Leading zeros, a plus sign, inner blanks and bare signs, as `int.TryParse` treats them. */
  lemma TryParseExamples()
    ensures TryParseInt("007") == Some(7)
    ensures TryParseInt("+12") == Some(12)
    ensures TryParseInt("-0") == Some(0)
    ensures TryParseInt("1 0") == None
    ensures TryParseInt("") == None
    ensures TryParseInt("-") == None
  {
    assert "007"[..2] == "00" && "00"[..1] == "0";
    assert DigitsValue("0") == 0 && DigitsValue("00") == 0 && DigitsValue("007") == 7;
    assert "+12"[1..] == "12" && "12"[..1] == "1";
    assert DigitsValue("12") == 12;
    assert "-0"[1..] == "0";
    assert !IsDigit("1 0"[1]);
  }
}
