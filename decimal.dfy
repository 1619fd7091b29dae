/** Python's `str()` of an integer: an optional minus sign followed by the
    decimal digits, with no leading zero. The one-hot stage converts its inputs
    with `astype(str)`, so an integer application year becomes this text. */
module Decimal {

  function DigitChar(d: nat): (c: char)
    requires d < 10
    ensures '0' <= c <= '9'
  {
    ('0' as int + d) as char
  }

  function DigitValue(c: char): (d: nat)
    requires '0' <= c <= '9'
    ensures d < 10
  {
    c as int - '0' as int
  }

  predicate IsDigits(s: string) {
    |s| > 0 && forall i :: 0 <= i < |s| ==> '0' <= s[i] <= '9'
  }

  /** The canonical decimal text of a natural number. */
  function NatText(n: nat): (s: string)
    ensures IsDigits(s)
    ensures s[0] == '0' <==> n == 0
    decreases n
  {
    if n < 10 then [DigitChar(n)] else NatText(n / 10) + [DigitChar(n % 10)]
  }

  /** The value of a non-empty string of decimal digits, most significant first. */
  function ParseNat(s: string): nat
    requires IsDigits(s)
    decreases |s|
  {
    if |s| == 1 then DigitValue(s[0])
    else 10 * ParseNat(s[..|s| - 1]) + DigitValue(s[|s| - 1])
  }

  /** What `str(n)` gives for a Python int `n`: a minus sign exactly for a
      negative number, then digits that start with '0' only for zero. */
  function IntText(n: int): (s: string)
    ensures IsIntText(s)
    ensures s[0] == '-' <==> n < 0
    ensures s[0] == '0' <==> n == 0
    ensures n < 0 ==> s[1] != '0'
  {
    if n < 0 then "-" + NatText(-n) else NatText(n)
  }

  predicate IsIntText(s: string) {
    IsDigits(s) || (|s| > 1 && s[0] == '-' && IsDigits(s[1..]))
  }

  /** What `int(s)` gives for a decimal text `s`. */
  function ParseInt(s: string): int
    requires IsIntText(s)
  {
    if s[0] == '-' then -(ParseNat(s[1..]) as int) else ParseNat(s)
  }

  lemma {:induction false} NatTextRoundTrip(n: nat)
    ensures ParseNat(NatText(n)) == n
    decreases n
  {
    if n >= 10 {
      var s := NatText(n);
      assert s[..|s| - 1] == NatText(n / 10);
      NatTextRoundTrip(n / 10);
    }
  }

  /** Reading back the text of an integer gives the integer. */
  lemma IntTextRoundTrip(n: int)
    ensures IsIntText(IntText(n))
    ensures ParseInt(IntText(n)) == n
  {
    var s := IntText(n);
    if n < 0 {
      assert s[1..] == NatText(-n);
      NatTextRoundTrip(-n);
    } else {
      NatTextRoundTrip(n);
    }
  }

  /** Distinct integers have distinct texts, so two different years never
      collapse into one one-hot category. */
  lemma IntTextInjective(m: int, n: int)
    ensures IntText(m) == IntText(n) <==> m == n
  {
    IntTextRoundTrip(m);
    IntTextRoundTrip(n);
  }
}
