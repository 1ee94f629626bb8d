/**
 * Decimal rendering of integers, as a JavaScript template literal `${n}`
 * prints an integral number, and the parser that reads such text back.
 */
module Decimal {
  import opened Wrappers

  function DigitChar(d: nat): (c: char)
    requires d < 10
    ensures '0' <= c <= '9'
  {
    (48 + d) as char
  }

  function DigitValue(c: char): (d: nat)
    requires '0' <= c <= '9'
    ensures d < 10 && DigitChar(d) == c
  {
    (c as int) - 48
  }

  /** A non-empty run of decimal digits. */
  predicate IsDigits(s: string)
  {
    |s| > 0 && forall i :: 0 <= i < |s| ==> '0' <= s[i] <= '9'
  }

  /** The digits of `n`, most significant first, without leading zeros. */
  function NatDigits(n: nat): (s: string)
    ensures IsDigits(s)
    ensures s[0] == '0' ==> n == 0
    decreases n
  {
    if n < 10 then [DigitChar(n)] else NatDigits(n / 10) + [DigitChar(n % 10)]
  }

  /** The number a run of decimal digits denotes. */
  function NatValue(s: string): nat
    requires IsDigits(s)
    decreases |s|
  {
    if |s| == 1 then DigitValue(s[0])
    else 10 * NatValue(s[..|s| - 1]) + DigitValue(s[|s| - 1])
  }

  /** `${n}` for an integral number `n`: a minus sign for negatives, never "-0". */
  function ShowInt(n: int): string
  {
    if n < 0 then "-" + NatDigits(-n) else NatDigits(n)
  }

  /** Reads an optional minus sign followed by decimal digits. */
  function ParseInt(s: string): Option<int>
  {
    if |s| > 0 && s[0] == '-' then
      if IsDigits(s[1..]) then Some(0 - NatValue(s[1..]) as int) else None
    else if IsDigits(s) then Some(NatValue(s))
    else None
  }

  lemma {:induction false} NatRoundTrip(n: nat)
    ensures NatValue(NatDigits(n)) == n
    decreases n
  {
    if n >= 10 {
      var s := NatDigits(n);
      assert s[..|s| - 1] == NatDigits(n / 10);
      NatRoundTrip(n / 10);
    }
  }

  /** The rendered text determines the number: `ShowInt` is injective. */
  lemma ShowIntRoundTrip(n: int)
    ensures ParseInt(ShowInt(n)) == Some(n)
    ensures |ShowInt(n)| > 0 && (ShowInt(n)[0] == '-' || '0' <= ShowInt(n)[0] <= '9')
  {
    if n < 0 {
      var s := ShowInt(n);
      assert s[1..] == NatDigits(-n);
      NatRoundTrip(-n);
    } else {
      NatRoundTrip(n);
    }
  }
}
