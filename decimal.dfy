/**
 * The number <-> text conversions the dashboard relies on: `String(n)` for an
 * integer, `parseInt(s)` in radix 10, and the `Number(s)` coercion that a
 * comparison such as `port >= 1` applies to the text of a form field.
 */
module Decimal {
  import opened Wrappers

  predicate IsDigit(c: char) { '0' <= c <= '9' }

  predicate AllDigits(s: string) { forall i :: 0 <= i < |s| ==> IsDigit(s[i]) }

  function DigitValue(c: char): (d: nat)
    requires IsDigit(c)
    ensures d < 10
  {
    c as int - '0' as int
  }

  function DigitChar(d: nat): (c: char)
    requires d < 10
    ensures IsDigit(c) && DigitValue(c) == d
  {
    ('0' as int + d) as char
  }

  /** The value of a run of decimal digits, most significant digit first. */
  function DigitsValue(s: string): nat
    requires AllDigits(s)
  {
    if s == [] then 0 else DigitsValue(s[..|s| - 1]) * 10 + DigitValue(s[|s| - 1])
  }

  /** Decimal text of a natural number, as `String(n)` writes it: no leading zero. */
  function NatToString(n: nat): (s: string)
    ensures s != [] && AllDigits(s) && DigitsValue(s) == n
    ensures |s| > 1 ==> s[0] != '0'
  {
    if n < 10 then
      [DigitChar(n)]
    else
      var s := NatToString(n / 10) + [DigitChar(n % 10)];
      assert s[..|s| - 1] == NatToString(n / 10);
      s
  }

  /** Decimal text of an integer, with a leading '-' when it is negative. */
  function IntToString(i: int): (s: string)
    ensures s != []
    ensures s[0] == '-' <==> i < 0
    ensures var digits := if i < 0 then s[1..] else s;
            digits != [] && AllDigits(digits) && DigitsValue(digits) == (if i < 0 then -i else i)
            && (|digits| > 1 ==> digits[0] != '0')
  {
    if i < 0 then "-" + NatToString(-i) else NatToString(i)
  }

  /** The white space that `parseInt` skips before the number. */
  predicate IsSpace(c: char) {
    c == ' ' || c == '\t' || c == '\n' || c == '\r' || c == '\U{B}' || c == '\U{C}'
  }

  /** `s` without its leading white space. */
  function TrimStart(s: string): (t: string)
    ensures |t| <= |s|
    ensures forall i :: 0 <= i < |s| - |t| ==> IsSpace(s[i])
    ensures t == [] || !IsSpace(t[0])
  {
    if s != [] && IsSpace(s[0]) then TrimStart(s[1..]) else s
  }

  /** The longest prefix of `s` made of decimal digits. */
  function DigitPrefix(s: string): (d: string)
    ensures d <= s && AllDigits(d)
    ensures |d| == |s| || !IsDigit(s[|d|])
  {
    if s != [] && IsDigit(s[0]) then [s[0]] + DigitPrefix(s[1..]) else []
  }

  /**
   * `parseInt(s)` in radix 10: leading white space, an optional sign, then the
   * longest run of digits; anything after it is ignored. None stands for NaN.
   */
  function ParseInt(s: string): (r: Option<int>)
    ensures s != [] && AllDigits(s) ==> r == Some(DigitsValue(s))
    ensures r.None? <==> DigitPrefix(SignStripped(TrimStart(s))) == []
  {
    DigitPrefixOfDigits(s);
    var t := TrimStart(s);
    var digits := DigitPrefix(SignStripped(t));
    if digits == [] then None
    else if t[0] == '-' then Some(-(DigitsValue(digits) as int))
    else Some(DigitsValue(digits) as int)
  }

  lemma DigitPrefixOfDigits(s: string)
    ensures AllDigits(s) ==> DigitPrefix(s) == s
  {
  }

  /**
   * `parseInt` reads the leading run of digits and ignores whatever follows it,
   * with or without a minus sign in front: "5000ms" is 5000 and "-12" is -12.
   */
  lemma ParseIntOfDigitRun(d: string, rest: string)
    requires d != [] && AllDigits(d)
    requires rest == [] || !IsDigit(rest[0])
    ensures ParseInt(d + rest) == Some(DigitsValue(d) as int)
    ensures ParseInt("-" + d + rest) == Some(-(DigitsValue(d) as int))
  {
    ParseIntOfUnsignedRun(d, rest);
    ParseIntOfNegatedRun(d, rest);
    SignAssociates(d, rest);
  }

  lemma ParseIntOfNegatedRun(d: string, rest: string)
    requires d != [] && AllDigits(d)
    requires rest == [] || !IsDigit(rest[0])
    ensures ParseInt("-" + (d + rest)) == Some(-(DigitsValue(d) as int))
  {
    ParseIntOfUnsignedRun(d, rest);
    ParseIntOfNegated(d + rest);
  }

  lemma SignAssociates(d: string, rest: string)
    ensures "-" + d + rest == "-" + (d + rest)
  {
  }

  lemma ParseIntOfUnsignedRun(d: string, rest: string)
    requires d != [] && AllDigits(d)
    requires rest == [] || !IsDigit(rest[0])
    ensures d + rest != [] && IsDigit((d + rest)[0])
    ensures ParseInt(d + rest) == Some(DigitsValue(d) as int)
  {
    var s := d + rest;
    assert s[0] == d[0];
    assert TrimStart(s) == s;
    assert SignStripped(s) == s;
    DigitPrefixOfRun(d, rest);
  }

  /** A minus sign in front of a number negates what `parseInt` reads. */
  lemma ParseIntOfNegated(s: string)
    requires s != [] && IsDigit(s[0])
    ensures ParseInt(s).Some? && ParseInt("-" + s) == Some(-ParseInt(s).value)
  {
    var m := "-" + s;
    assert m[1..] == s;
    assert TrimStart(s) == s;
    assert TrimStart(m) == m;
    assert SignStripped(m) == s;
    assert SignStripped(s) == s;
  }

  lemma {:induction false} DigitPrefixOfRun(d: string, rest: string)
    requires AllDigits(d)
    requires rest == [] || !IsDigit(rest[0])
    ensures DigitPrefix(d + rest) == d
  {
    if d != [] {
      assert (d + rest)[1..] == d[1..] + rest;
      DigitPrefixOfRun(d[1..], rest);
    }
  }

  function SignStripped(t: string): string {
    if t != [] && (t[0] == '-' || t[0] == '+') then t[1..] else t
  }

  /**
   * `Number(s)` for the text of a numeric form field: the empty text is 0 and a
   * run of digits is its value; None stands for NaN.
   */
  function ToNumber(s: string): (r: Option<int>)
    ensures r.Some? <==> AllDigits(s)
    ensures s == [] ==> r == Some(0)
    ensures r.Some? && s != [] ==> ParseInt(s) == r
  {
    if AllDigits(s) then Some(DigitsValue(s)) else None
  }

  /** Reading back what `IntToString` writes gives the integer again. */
  lemma ParseIntOfIntToString(i: int)
    ensures ParseInt(IntToString(i)) == Some(i)
  {
    var s := IntToString(i);
    var digits := if i < 0 then NatToString(-i) else NatToString(i);
    assert TrimStart(s) == s;
    assert SignStripped(s) == digits;
    assert DigitPrefix(digits) == digits;
  }

  lemma IntToStringInjective(i: int, j: int)
    ensures IntToString(i) == IntToString(j) ==> i == j
  {
    ParseIntOfIntToString(i);
    ParseIntOfIntToString(j);
  }
}
