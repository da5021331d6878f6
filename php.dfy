/**
 * The two pieces of PHP's own value semantics that the publisher depends on:
 * when a string argument counts as false, and which integer a string becomes
 * when it is an operand of an arithmetic or bitwise operator.
 */
module Php {
  import opened Wrappers

  /** A value passed where a string is expected is falsy when it is NULL, "" or "0". */
  predicate IsFalsy(v: Option<string>) {
    v.None? || v.value == "" || v.value == "0"
  }

  predicate IsDigit(c: char) {
    '0' <= c <= '9'
  }

  predicate AllDigits(d: string) {
    forall i :: 0 <= i < |d| ==> IsDigit(d[i])
  }

  /** The longest prefix of `s` made only of decimal digits. */
  function LeadingDigits(s: string): (d: string)
    ensures |d| <= |s| && d == s[..|d|]
    ensures AllDigits(d)
    ensures |d| < |s| ==> !IsDigit(s[|d|])
  {
    if s != [] && IsDigit(s[0]) then [s[0]] + LeadingDigits(s[1..]) else []
  }

  /** The number a string of decimal digits denotes. */
  function DecimalValue(d: string): nat
    requires AllDigits(d)
  {
    if d == [] then 0 else 10 * DecimalValue(d[..|d| - 1]) + (d[|d| - 1] as int - '0' as int)
  }

  /**
   * The integer PHP converts a string operand to, as PHP 5 reads it: the
   * value of its leading digits, any fraction or further text being dropped
   * ("192.168.1.1" becomes 192, "::1" becomes 0). Whether the result is zero
   * is also what PHP 7 gives, which reads an exponent too ("1e5::1" becomes
   * 100000); its value beyond that, leading white space and signs are not
   * modelled.
   */
  function ToInt(s: string): nat {
    DecimalValue(LeadingDigits(s))
  }

  /** A string of digits denotes zero exactly when every digit is '0'. */
  lemma {:induction false} DecimalValueZeroIff(d: string)
    requires AllDigits(d)
    ensures DecimalValue(d) == 0 <==> forall i :: 0 <= i < |d| ==> d[i] == '0'
  {
    if d != [] {
      var front := d[..|d| - 1];
      DecimalValueZeroIff(front);
      assert forall i :: 0 <= i < |front| ==> front[i] == d[i];
    }
  }

  /** A string that starts with a non-zero digit converts to a non-zero integer. */
  lemma NonZeroLeadConvertsNonZero(s: string)
    requires |s| > 0 && '1' <= s[0] <= '9'
    ensures ToInt(s) != 0
  {
    var d := LeadingDigits(s);
    assert d[0] == s[0];
    DecimalValueZeroIff(d);
  }
}
