/**
 * Decimal text of integers: JavaScript's `Number.prototype.toString()` on
 * integral values and `String.prototype.padStart(2, "0")`.
 */
module Decimal {

  ghost predicate IsDigits(s: string) {
    forall i :: 0 <= i < |s| ==> '0' <= s[i] <= '9'
  }

  /** The character of decimal digit `d`. */
  function DigitChar(d: int): (c: char)
    requires 0 <= d < 10
    ensures '0' <= c <= '9' && c as int - '0' as int == d
  {
    ('0' as int + d) as char
  }

  /** The numeric value of a string of decimal digits; the empty string reads as 0. */
  function ValueOf(s: string): nat
    requires IsDigits(s)
  {
    if s == [] then 0
    else ValueOf(s[..|s| - 1]) * 10 + (s[|s| - 1] as int - '0' as int)
  }

  /** Shortest decimal text of a natural number, without leading zeros. */
  function NatToString(n: nat): (s: string)
    ensures IsDigits(s) && ValueOf(s) == n
    ensures 1 <= |s| && (|s| > 1 ==> s[0] != '0')
    ensures n < 10 ==> |s| == 1
    ensures 10 <= n < 100 ==> |s| == 2
  {
    if n < 10 then [DigitChar(n)]
    else
      var s := NatToString(n / 10) + [DigitChar(n % 10)];
      ValueOfSnoc(NatToString(n / 10), DigitChar(n % 10));
      s
  }

  /** Appending a digit multiplies the value by ten and adds the digit. */
  lemma ValueOfSnoc(s: string, c: char)
    requires IsDigits(s) && '0' <= c <= '9'
    ensures IsDigits(s + [c]) && ValueOf(s + [c]) == ValueOf(s) * 10 + (c as int - '0' as int)
  {
    assert (s + [c])[..|s|] == s;
  }

  /** `String(i)` for an integral number. */
  function IntToString(i: int): (r: string)
    ensures 1 <= |r| && (r[0] == '-' <==> i < 0)
    ensures i < 0 ==> IsDigits(r[1..]) && ValueOf(r[1..]) == -i
    ensures 0 <= i ==> IsDigits(r) && ValueOf(r) == i
  {
    if i < 0 then "-" + NatToString(-i) else NatToString(i)
  }

  /** Different integers have different texts (so clock readings make distinct identifiers). */
  lemma IntToStringInjective(a: int, b: int)
    requires IntToString(a) == IntToString(b)
    ensures a == b
  {
    if a < 0 && b < 0 {
      assert NatToString(-a) == IntToString(a)[1..];
      assert NatToString(-b) == IntToString(b)[1..];
    }
  }

  /** `s.padStart(2, "0")`. */
  function PadStart2(s: string): (r: string)
    ensures |r| == if |s| < 2 then 2 else |s|
    ensures IsDigits(s) ==> IsDigits(r) && ValueOf(r) == ValueOf(s)
  {
    if |s| == 0 then "00"
    else if |s| == 1 then
      var r := ['0'] + s;
      assert r[..1] == ['0'];
      r
    else s
  }
}
