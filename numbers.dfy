/**
 * Decimal rendering and parsing of integers.
 *
 * `IntToString` is what Java's `Integer.toString` (and Ruby's `Integer#to_s`)
 * produce: an optional minus sign and the shortest run of decimal digits.
 * `ParseInteger` is the part of Ruby's `Integer()` conversion the details
 * service relies on: an optional sign, then digits, where a leading zero
 * makes the digits octal.
 */
module Numbers {
  import opened Wrappers

  predicate IsDigit(c: char) { '0' <= c <= '9' }

  predicate IsOctalDigit(c: char) { '0' <= c <= '7' }

  predicate AllDigits(s: string) { forall i :: 0 <= i < |s| ==> IsDigit(s[i]) }

  predicate AllOctalDigits(s: string) { forall i :: 0 <= i < |s| ==> IsOctalDigit(s[i]) }

  function DigitChar(d: nat): (c: char)
    requires d < 10
    ensures IsDigit(c) && DigitValue(c) == d
  {
    (('0' as int) + d) as char
  }

  function DigitValue(c: char): nat
    requires IsDigit(c)
  {
    (c as int) - ('0' as int)
  }

  /** Shortest decimal digit string of `n`. */
  function NatToDigits(n: nat): (s: string)
    ensures |s| >= 1 && AllDigits(s)
    ensures s[0] == '0' ==> s == "0"
    ensures s == "0" <==> n == 0
  {
    if n < 10 then [DigitChar(n)] else NatToDigits(n / 10) + [DigitChar(n % 10)]
  }

  /** Value of a digit string read in `base`, most significant digit first. */
  function DigitsValue(s: string, base: nat): nat
    requires AllDigits(s)
  {
    if s == [] then 0 else DigitsValue(s[..|s| - 1], base) * base + DigitValue(s[|s| - 1])
  }

  /** Java `Integer.toString(n)` / Ruby `n.to_s`. */
  function IntToString(n: int): (s: string)
    ensures |s| >= 1
    ensures s[0] == '-' <==> n < 0
    ensures s[0] == '-' || IsDigit(s[0])
    ensures forall i :: 1 <= i < |s| ==> IsDigit(s[i])
  {
    if n < 0 then "-" + NatToDigits(-n) else NatToDigits(n)
  }

  /** Unsigned part of Ruby `Integer(str)`: decimal digits, or octal after a leading zero. */
  function ParseUnsigned(s: string): (r: Option<nat>)
    ensures r.Some? ==> s != [] && AllDigits(s)
  {
    if s == [] || !AllDigits(s) then None
    else if s[0] == '0' && |s| > 1 then
      if AllOctalDigits(s[1..]) then Some(DigitsValue(s[1..], 8)) else None
    else Some(DigitsValue(s, 10))
  }

  /** Ruby `Integer(str)`, None where it raises. */
  function ParseInteger(s: string): (r: Option<int>)
    ensures s == [] ==> r == None
    ensures r.Some? ==> s != [] && (s[0] == '-' || s[0] == '+' || IsDigit(s[0]))
    ensures r.Some? ==> forall i :: 1 <= i < |s| ==> IsDigit(s[i])
    ensures r.Some? && s[0] != '-' ==> r.value >= 0
  {
    if s == [] then None
    else if s[0] == '-' then
      match ParseUnsigned(s[1..])
      case None => None
      case Some(v) => Some(-(v as int))
    else if s[0] == '+' then
      match ParseUnsigned(s[1..])
      case None => None
      case Some(v) => Some(v)
    else
      match ParseUnsigned(s)
      case None => None
      case Some(v) => Some(v)
  }

  lemma {:induction false} DigitsValueOfNatToDigits(n: nat)
    ensures DigitsValue(NatToDigits(n), 10) == n
  {
    if n >= 10 {
      var s := NatToDigits(n);
      var init := NatToDigits(n / 10);
      assert s == init + [DigitChar(n % 10)];
      assert s[..|s| - 1] == init;
      DigitsValueOfNatToDigits(n / 10);
    }
  }

  /** Ruby reads back what Java writes: every rendered integer parses to itself. */
  lemma ParseIntToString(n: int)
    ensures ParseInteger(IntToString(n)) == Some(n)
  {
    var m: nat := if n < 0 then -n else n;
    var digits := NatToDigits(m);
    DigitsValueOfNatToDigits(m);
    assert ParseUnsigned(digits) == Some(m);
    if n < 0 {
      assert IntToString(n)[1..] == digits;
    }
  }

  /** A leading zero switches Ruby's `Integer()` to octal. */
  lemma LeadingZeroIsOctal()
    ensures ParseInteger("010") == Some(8)
    ensures ParseInteger("08") == None
    ensures ParseInteger("-017") == Some(-15)
  {
    assert "010"[1..] == "10";
    assert "10"[..1] == "1";
    assert DigitsValue("1", 8) == 1 by { assert "1"[..0] == ""; }
    assert DigitsValue("10", 8) == 8;
    assert "-017"[1..] == "017";
    assert "017"[1..] == "17";
    assert "17"[..1] == "1";
    assert DigitsValue("1", 8) == 1 by { assert "1"[..0] == ""; }
    assert "08"[1..] == "8";
  }

  lemma NonNumericRejected()
    ensures ParseInteger("abc") == None
    ensures ParseInteger("") == None
    ensures ParseInteger("-") == None
    ensures ParseInteger("1a") == None
  {
    assert !IsDigit("abc"[0]);
    assert "-"[1..] == "";
    assert !IsDigit("1a"[1]);
  }
}
