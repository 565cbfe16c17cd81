/**
 * Decimal text of integers, as printf's "%d" / "%u" writes it: used for the
 * port in the QuarkLink URL and for the count in the Database Direct body.
 */
module Decimal {

  predicate IsDigit(c: char) {
    '0' <= c <= '9'
  }

  predicate AllDigits(s: string) {
    forall i :: 0 <= i < |s| ==> IsDigit(s[i])
  }

  function DigitChar(d: nat): (c: char)
    requires d < 10
    ensures IsDigit(c)
  {
    ['0', '1', '2', '3', '4', '5', '6', '7', '8', '9'][d]
  }

  function DigitValue(c: char): (d: nat)
    requires IsDigit(c)
    ensures d < 10
  {
    c as int - '0' as int
  }

  lemma DigitRoundTrip(d: nat)
    requires d < 10
    ensures DigitValue(DigitChar(d)) == d
  {
  }

  function Pow10(k: nat): (p: nat)
    ensures p >= 1
  {
    if k == 0 then 1 else 10 * Pow10(k - 1)
  }

  /** "%u": the shortest decimal text of `n`, most significant digit first. */
  function Text(n: nat): (s: string)
    ensures 1 <= |s| && AllDigits(s)
    ensures |s| > 1 ==> s[0] != '0'
  {
    if n < 10 then [DigitChar(n)] else Text(n / 10) + [DigitChar(n % 10)]
  }

  /** The value a decimal text denotes (the partner of Text, like atoi). */
  function Parse(s: string): nat
    requires AllDigits(s)
  {
    if s == [] then 0 else 10 * Parse(s[..|s| - 1]) + DigitValue(s[|s| - 1])
  }

  lemma {:induction false} ParseText(n: nat)
    ensures Parse(Text(n)) == n
  {
    var s := Text(n);
    if n < 10 {
      DigitRoundTrip(n);
    } else {
      assert s[..|s| - 1] == Text(n / 10);
      ParseText(n / 10);
      DigitRoundTrip(n % 10);
    }
  }

  /** Text(n) has at most k digits exactly when n < 10^k. */
  lemma {:induction false} TextLength(n: nat, k: nat)
    requires k >= 1
    ensures |Text(n)| <= k <==> n < Pow10(k)
  {
    if n >= 10 {
      if k == 1 {
        assert |Text(n)| >= 2;
      } else {
        TextLength(n / 10, k - 1);
      }
    }
  }

  /** "%d": a minus sign before the magnitude of a negative value. */
  function SignedText(i: int): (s: string)
    ensures 1 <= |s|
    ensures (s[0] == '-') <==> i < 0
    ensures i >= 0 ==> AllDigits(s)
    ensures i < 0 ==> AllDigits(s[1..])
  {
    if i < 0 then "-" + Text(-i) else Text(i)
  }
}
