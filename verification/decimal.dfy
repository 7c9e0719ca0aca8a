/** Decimal text of integers, as `strconv.Itoa` writes it, and its reading back. */
module Decimal {

  predicate IsDigit(c: char)
  {
    '0' <= c <= '9'
  }

  predicate AllDigits(s: string)
  {
    forall i :: 0 <= i < |s| ==> IsDigit(s[i])
  }

  function DigitChar(d: nat): (c: char)
    requires d < 10
    ensures IsDigit(c) && c as int - '0' as int == d
  {
    ('0' as int + d) as char
  }

  /** The shortest decimal text of `n`: digits only, no leading zero. */
  function NatText(n: nat): (s: string)
    ensures |s| > 0 && AllDigits(s)
    ensures s[0] == '0' ==> n == 0
    decreases n
  {
    if n < 10 then [DigitChar(n)] else NatText(n / 10) + [DigitChar(n % 10)]
  }

  /** `strconv.Itoa`: a minus sign for negatives, then the digits of the magnitude. */
  function Itoa(n: int): (s: string)
    ensures |s| > 0
    ensures ':' !in s
    ensures n >= 0 <==> AllDigits(s)
  {
    var s := if n < 0 then "-" + NatText(-n) else NatText(n);
    assert n < 0 ==> !IsDigit(s[0]);
    s
  }

  /** The value of a string of digits. */
  function ParseNat(s: string): nat
    requires AllDigits(s)
    decreases |s|
  {
    if |s| == 0 then 0 else ParseNat(s[..|s| - 1]) * 10 + (s[|s| - 1] as int - '0' as int)
  }

  /** The value of an optionally negative string of digits. */
  function ParseInt(s: string): int
    requires (|s| > 0 && s[0] == '-' && AllDigits(s[1..])) || AllDigits(s)
  {
    if |s| > 0 && s[0] == '-' then -(ParseNat(s[1..]) as int) else ParseNat(s)
  }

  /** Reading the digits of `n` back gives `n`. */
  lemma {:induction false} NatTextRoundTrip(n: nat)
    ensures ParseNat(NatText(n)) == n
    decreases n
  {
    if n >= 10 {
      var s := NatText(n);
      NatTextRoundTrip(n / 10);
    }
  }

  /** `Itoa` loses nothing: its text reads back as the same integer. */
  lemma ItoaRoundTrip(n: int)
    ensures (|Itoa(n)| > 0 && Itoa(n)[0] == '-' && AllDigits(Itoa(n)[1..])) || AllDigits(Itoa(n))
    ensures ParseInt(Itoa(n)) == n
  {
    if n < 0 {
      NatTextRoundTrip(-n);
    } else {
      NatTextRoundTrip(n);
    }
  }
}
