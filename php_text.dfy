/**
 * The few string facts the request-handling code relies on: PHP's `empty()`
 * on a string, the decimal text PHP produces when an integer is interpolated
 * into a string, and prefix / substring predicates used to state what an
 * error message carries.
 */
module PhpText {

  /** PHP `empty($s)` for a string: true for "" and for "0", false otherwise. */
  predicate IsEmptyString(s: string)
  {
    s == "" || s == "0"
  }

  predicate StartsWith(s: string, prefix: string)
  {
    |prefix| <= |s| && s[..|prefix|] == prefix
  }

  /** `t` occurs in `s` starting at position `k`. */
  predicate OccursAt(s: string, t: string, k: nat)
  {
    k + |t| <= |s| && s[k..k + |t|] == t
  }

  predicate Contains(s: string, t: string)
  {
    exists k: nat | k <= |s| :: OccursAt(s, t, k)
  }

  /** Whatever is spliced between two fixed texts can be found in the result. */
  lemma ContainsInMiddle(before: string, t: string, after: string)
    ensures Contains(before + t + after, t)
    ensures StartsWith(before + t + after, before)
  {
    var s := before + t + after;
    assert s[|before|..|before| + |t|] == t;
    assert OccursAt(s, t, |before|);
    assert s[..|before|] == before;
  }

  predicate IsDigit(c: char)
  {
    '0' <= c <= '9'
  }

  predicate AllDigits(s: string)
  {
    forall i :: 0 <= i < |s| ==> IsDigit(s[i])
  }

  function DigitChar(d: nat): (c: char)
    requires d < 10
    ensures IsDigit(c) && (c as int) - ('0' as int) == d
  {
    (('0' as int) + d) as char
  }

  /** The value a string of decimal digits denotes (the empty string denotes 0). */
  function DecimalValue(s: string): nat
    requires AllDigits(s)
  {
    if s == [] then 0
    else DecimalValue(s[..|s| - 1]) * 10 + ((s[|s| - 1] as int) - ('0' as int))
  }

  /**
   * The decimal text of a natural number, as PHP prints it: digits only, no
   * leading zero, and it reads back as the same number.
   */
  function NatToDecimal(n: nat): (s: string)
    ensures |s| > 0 && AllDigits(s)
    ensures s[0] == '0' ==> n == 0
    ensures DecimalValue(s) == n
    decreases n
  {
    if n < 10 then [DigitChar(n)]
    else
      var high := NatToDecimal(n / 10);
      var s := high + [DigitChar(n % 10)];
      assert s[..|s| - 1] == high;
      s
  }

  /** A non-empty text of digits, possibly after one leading minus sign. */
  predicate IsSignedDecimal(s: string)
  {
    |s| > 0 && (if s[0] == '-' then AllDigits(s[1..]) else AllDigits(s))
  }

  /** The value of an optionally signed decimal text. */
  function SignedDecimalValue(s: string): int
    requires IsSignedDecimal(s)
  {
    if s[0] == '-' then -(DecimalValue(s[1..]) as int) else DecimalValue(s)
  }

  /**
   * PHP's conversion of an integer to a string: a minus sign exactly for
   * negative numbers, then the digits; the text reads back as the integer.
   */
  function IntToDecimal(i: int): (s: string)
    ensures IsSignedDecimal(s)
    ensures s[0] == '-' <==> i < 0
    // canonical: no leading zero, and no "-0"
    ensures s[0] == '-' ==> |s| > 1 && s[1] != '0'
    ensures s[0] != '-' && |s| > 1 ==> s[0] != '0'
    ensures SignedDecimalValue(s) == i
  {
    if i < 0 then
      var digits := NatToDecimal(-i);
      assert ("-" + digits)[1..] == digits;
      "-" + digits
    else NatToDecimal(i)
  }
}
