/**
 * Decimal integers as Go's `strconv` reads them and `fmt` writes them,
 * together with the 64-bit width of Go's `int`.
 */
module Strconv {
  import opened Wrappers

  const MinInt64: int := -0x8000_0000_0000_0000
  const MaxInt64: int := 0x7fff_ffff_ffff_ffff
  const Modulus64: int := 0x1_0000_0000_0000_0000

  /** Go's `int64`, and its `int` on a 64-bit platform. */
  type Int64 = x: int | MinInt64 <= x <= MaxInt64

  predicate IsDigit(c: char) { '0' <= c <= '9' }

  predicate AllDigits(s: string) { forall i :: 0 <= i < |s| ==> IsDigit(s[i]) }

  function DigitValue(c: char): (d: nat)
    requires IsDigit(c)
    ensures d <= 9
  {
    c as int - '0' as int
  }

  function DigitChar(d: nat): (c: char)
    requires d <= 9
    ensures IsDigit(c) && DigitValue(c) == d
  {
    ('0' as int + d) as char
  }

  /** The number a non-empty run of decimal digits denotes, most significant digit first. */
  function DigitsValue(s: string): nat
    requires AllDigits(s)
  {
    if s == [] then 0 else 10 * DigitsValue(s[..|s| - 1]) + DigitValue(s[|s| - 1])
  }

  /**
   * `strconv.ParseInt(s, 10, 64)`, which is also what `strconv.Atoi(s)` accepts
   * where `int` is 64 bits wide: an optional `+` or `-`, then one or more decimal
   * digits and nothing else (no blanks, no underscores, no prefix), denoting a
   * value that fits in 64 bits. Every other input is an error.
   */
  function ParseInt(s: string): (r: Option<Int64>)
    ensures r.Some? ==> s != [] && (s[0] == '+' || s[0] == '-' || IsDigit(s[0])) && AllDigits(s[1..])
    ensures r.Some? && r.value < 0 ==> s[0] == '-'
    ensures r.Some? ==>
      var d := if s[0] == '+' || s[0] == '-' then s[1..] else s;
      d != [] && AllDigits(d) && r.value == (if s[0] == '-' then -(DigitsValue(d) as int) else DigitsValue(d) as int)
  {
    var signed := s != [] && (s[0] == '+' || s[0] == '-');
    var digits := if signed then s[1..] else s;
    if digits == [] || !AllDigits(digits) then None
    else
      var magnitude: int := DigitsValue(digits);
      var v: int := if s[0] == '-' then -magnitude else magnitude;
      if MinInt64 <= v <= MaxInt64 then Some(v) else None
  }

  /**
   * The other direction of `ParseInt`: every sign ("", "+" or "-") followed by
   * one or more decimal digits is accepted when its value fits in 64 bits,
   * leading zeros and "-0" included, and denotes that value.
   */
  lemma ParseIntAccepts(sign: string, d: string)
    requires sign == "" || sign == "+" || sign == "-"
    requires d != [] && AllDigits(d)
    requires MinInt64 <= (if sign == "-" then -(DigitsValue(d) as int) else DigitsValue(d) as int) <= MaxInt64
    ensures ParseInt(sign + d) == Some(if sign == "-" then -(DigitsValue(d) as int) else DigitsValue(d) as int)
  {
    var s := sign + d;
    if sign == "" {
      assert s == d;
      assert IsDigit(d[0]);
    } else {
      assert s[0] == sign[0] && s[1..] == d;
    }
  }

  /** The decimal digits of `n` with no leading zero, as `fmt.Sprintf("%d", n)` writes it. */
  function FormatNat(n: nat): (s: string)
    ensures s != [] && AllDigits(s) && DigitsValue(s) == n
    ensures s[0] == '0' ==> s == "0"
  {
    if n < 10 then [DigitChar(n)]
    else
      var init := FormatNat(n / 10);
      var s := init + [DigitChar(n % 10)];
      assert s[..|s| - 1] == init;
      s
  }

  /** `fmt.Sprintf("%d", n)`: a minus sign before the digits of a negative number. */
  function FormatInt(n: int): (s: string)
    ensures s != [] && (s[0] == '-' || IsDigit(s[0])) && AllDigits(s[1..])
    ensures s[0] == '-' <==> n < 0
  {
    if n < 0 then "-" + FormatNat(-n) else FormatNat(n)
  }

  /** What `fmt` writes, `strconv` reads back. */
  lemma ParseFormatRoundTrip(n: Int64)
    ensures ParseInt(FormatInt(n)) == Some(n)
  {
    var s := FormatInt(n);
    var m: int := n;
    if m < 0 {
      assert s[1..] == FormatNat(-m);
    } else {
      assert s == FormatNat(n);
    }
  }

  /** Addition of two Go `int`s, which wraps around modulo 2^64 instead of overflowing. */
  function Add64(a: Int64, b: Int64): (r: Int64)
    ensures MinInt64 <= a + b <= MaxInt64 ==> r == a + b
    ensures a + b == r || a + b == r + Modulus64 || a + b == r - Modulus64
  {
    var s := a + b;
    if s > MaxInt64 then s - Modulus64
    else if s < MinInt64 then s + Modulus64
    else s
  }
}
