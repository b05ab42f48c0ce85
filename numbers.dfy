/**
 * Reading numbers out of form text. The source hands form values to
 * Python's `float()` (price, dose) and to the framework's integer
 * conversion (the ids of related records). This module gives those
 * conversions a definite meaning on plain decimal notation:
 * an optional sign, digits, and an optional fractional part.
 */
module Numbers {
  import opened Wrappers

  predicate IsDigit(c: char) {
    '0' <= c <= '9'
  }

  predicate AllDigits(s: string) {
    forall i :: 0 <= i < |s| ==> IsDigit(s[i])
  }

  function DigitValue(c: char): nat
    requires IsDigit(c)
  {
    c as int - '0' as int
  }

  function DigitChar(d: nat): (c: char)
    requires d < 10
    ensures IsDigit(c) && DigitValue(c) == d
  {
    ('0' as int + d) as char
  }

  /** The value of a string of decimal digits, most significant digit first. */
  function DigitsValue(s: string): nat
    requires AllDigits(s)
  {
    if s == [] then 0 else DigitsValue(s[..|s| - 1]) * 10 + DigitValue(s[|s| - 1])
  }

  function Pow10(n: nat): (p: nat)
    ensures p >= 1
  {
    if n == 0 then 1 else 10 * Pow10(n - 1)
  }

  /** Position of the first '.', or |s| when there is none. */
  function DotIndex(s: string): (i: nat)
    ensures i <= |s|
    ensures i < |s| ==> s[i] == '.'
    ensures forall j :: 0 <= j < i ==> s[j] != '.'
  {
    if s == [] || s[0] == '.' then 0 else 1 + DotIndex(s[1..])
  }

  /** Integer conversion of a form value naming a record: digits only. */
  function ParseNat(s: string): (r: Option<nat>)
    ensures r.Some? <==> s != "" && AllDigits(s)
  {
    if s != "" && AllDigits(s) then Some(DigitsValue(s)) else None
  }

  /** An unsigned decimal: digits, optionally '.', optionally more digits, at least one digit in all. */
  function ParseUnsigned(s: string): (r: Option<real>)
    ensures r.Some? ==> s != "" && r.value >= 0.0
  {
    var i := DotIndex(s);
    var whole := s[..i];
    var frac := if i < |s| then s[i + 1..] else "";
    if AllDigits(whole) && AllDigits(frac) && whole + frac != "" then
      Some(DigitsValue(whole) as real + DigitsValue(frac) as real / Pow10(|frac|) as real)
    else
      None
  }

  /** `float(s)` on plain decimal notation; `None` where `float` would raise. */
  function ParseDecimal(s: string): (r: Option<real>)
    ensures r.Some? ==> s != ""
    ensures r.Some? && s[0] == '-' ==> r.value <= 0.0
    ensures r.Some? && s[0] != '-' ==> r.value >= 0.0
  {
    if s != "" && (s[0] == '-' || s[0] == '+') then
      match ParseUnsigned(s[1..])
      case None => None
      case Some(x) => Some(if s[0] == '-' then -x else x)
    else
      ParseUnsigned(s)
  }

  /** Python's `str` on a natural number. */
  function NatText(n: nat): (s: string)
    ensures s != "" && AllDigits(s)
  {
    if n < 10 then [DigitChar(n)] else NatText(n / 10) + [DigitChar(n % 10)]
  }

  /** Python's `str` on an integer. */
  function IntText(n: int): (s: string)
    ensures s != ""
  {
    if n < 0 then "-" + NatText(-n) else NatText(n)
  }

  lemma {:induction false} NatTextValue(n: nat)
    ensures DigitsValue(NatText(n)) == n
  {
    if n >= 10 {
      var s := NatText(n / 10);
      NatTextValue(n / 10);
      assert (s + [DigitChar(n % 10)])[..|s|] == s;
    }
  }

  /** Reading back the text of a natural number gives the number. */
  lemma ParseNatText(n: nat)
    ensures ParseNat(NatText(n)) == Some(n)
  {
    NatTextValue(n);
  }

  /** `float(str(n)) == n` for every integer n. */
  lemma ParseIntText(n: int)
    ensures ParseDecimal(IntText(n)) == Some(n as real)
  {
    var m: nat := if n < 0 then -n else n;
    var s := NatText(m);
    NatTextValue(m);
    assert DotIndex(s) == |s|;
    assert s[..|s|] == s;
    assert ParseUnsigned(s) == Some(m as real);
    if n < 0 {
      assert IntText(n)[1..] == s;
    }
  }
}
