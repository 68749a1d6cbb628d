/**
 * Decimal text of integers, as used by template literals and
 * `page.toString()`, and JavaScript's `Number(text)` restricted to the
 * integer strings it accepts (an optional sign and decimal digits).
 */
module Numbers {
  import opened Types

  function DigitChar(d: nat): (c: char)
    requires d < 10
    ensures IsDigit(c)
  {
    (('0' as int) + d) as char
  }

  function DigitValue(c: char): (d: nat)
    requires IsDigit(c)
    ensures d < 10
  {
    (c as int) - ('0' as int)
  }

  /** The decimal digits of `n`, most significant first, without leading zeros. */
  function NatToString(n: nat): (s: string)
    ensures |s| >= 1
    ensures forall i :: 0 <= i < |s| ==> IsDigit(s[i])
    decreases n
  {
    if n < 10 then [DigitChar(n)] else NatToString(n / 10) + [DigitChar(n % 10)]
  }

  /** `String(i)` for an integer: a minus sign before the digits of a negative number. */
  function IntToString(i: int): (s: string)
    ensures s != []
    ensures i >= 0 ==> s[0] != '-'
    ensures i < 0 ==> s[0] == '-'
  {
    if i < 0 then "-" + NatToString(-i) else NatToString(i)
  }

  /** The value of a non-empty string of decimal digits; `None` for anything else. */
  function ParseDigits(s: string): (r: Option<nat>)
    ensures r.Some? <==> |s| >= 1 && forall i :: 0 <= i < |s| ==> IsDigit(s[i])
    decreases |s|
  {
    if s == [] || !IsDigit(s[|s| - 1]) then None
    else if |s| == 1 then Some(DigitValue(s[0]))
    else
      match ParseDigits(s[..|s| - 1])
      case None => None
      case Some(v) => Some(v * 10 + DigitValue(s[|s| - 1]))
  }

  /**
   * `Number(s)` on the strings this model considers: the empty string is 0,
   * an optional sign followed by digits is that integer, and every other
   * string is NaN (here `None`).
   */
  function ParseNumber(s: string): (r: Option<int>)
    ensures s == [] ==> r == Some(0)
    ensures s != [] && s[0] != '-' && s[0] != '+' && ParseDigits(s).Some? ==> r == Some(ParseDigits(s).value)
    ensures s != [] && s[0] == '-' && ParseDigits(s[1..]).Some? ==> r.Some? && r.value == -(ParseDigits(s[1..]).value as int)
  {
    if s == [] then Some(0)
    else if s[0] == '-' || s[0] == '+' then
      match ParseDigits(s[1..])
      case None => None
      case Some(v) => var n: int := if s[0] == '-' then -(v as int) else v; Some(n)
    else
      match ParseDigits(s)
      case None => None
      case Some(v) => Some(v)
  }

  lemma {:induction false} DigitRoundTrip(d: nat)
    requires d < 10
    ensures DigitValue(DigitChar(d)) == d
  {
  }

  /** Reading the digits back gives the number they were written from. */
  lemma {:induction false} ParseDigitsOfNatToString(n: nat)
    ensures ParseDigits(NatToString(n)) == Some(n)
    decreases n
  {
    var s := NatToString(n);
    if n < 10 {
      DigitRoundTrip(n);
    } else {
      var prefix := NatToString(n / 10);
      assert s == prefix + [DigitChar(n % 10)];
      assert s[..|s| - 1] == prefix;
      DigitRoundTrip(n % 10);
      ParseDigitsOfNatToString(n / 10);
    }
  }

  /** `Number(String(i)) === i` for every integer. */
  lemma {:induction false} ParseNumberOfIntToString(i: int)
    ensures ParseNumber(IntToString(i)) == Some(i)
  {
    var s := IntToString(i);
    if i < 0 {
      assert s[1..] == NatToString(-i);
      ParseDigitsOfNatToString(-i);
    } else {
      assert IsDigit(s[0]);
      ParseDigitsOfNatToString(i);
    }
  }
}
