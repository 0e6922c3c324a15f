/**
  The decimal text of an integer, as a JavaScript template literal (`${n}`)
  writes a whole number of magnitude below 10^21: digits without leading
  zeros, with a leading '-' for negatives. A parser is its inverse, which
  makes the text of different numbers different.
 */
module DecimalText {

  predicate IsDigit(c: char) {
    '0' <= c <= '9'
  }

  function DigitChar(d: nat): (c: char)
    requires d < 10
    ensures IsDigit(c)
  {
    (48 + d) as char
  }

  function DigitValue(c: char): nat {
    if IsDigit(c) then (c as int) - 48 else 0
  }

  /** Digits of `n`, most significant first, without leading zeros. */
  function NatText(n: nat): (s: string)
    ensures |s| >= 1
    ensures forall i :: 0 <= i < |s| ==> IsDigit(s[i])
    ensures s[0] == '0' ==> n == 0 && s == "0"
    decreases n
  {
    if n < 10 then [DigitChar(n)] else NatText(n / 10) + [DigitChar(n % 10)]
  }

  function IntText(n: int): (s: string)
    ensures |s| >= 1
    ensures s[0] == '-' <==> n < 0
    ensures forall i :: (if n < 0 then 1 else 0) <= i < |s| ==> IsDigit(s[i])
    ensures n < 0 ==> |s| >= 2 && s[1] != '0'
    ensures n >= 0 && s[0] == '0' ==> n == 0 && s == "0"
  {
    if n < 0 then "-" + NatText(-n) else NatText(n)
  }

  /** Reads a string of digits back into its value. */
  function ParseNat(s: string): nat {
    if s == [] then 0 else ParseNat(s[..|s| - 1]) * 10 + DigitValue(s[|s| - 1])
  }

  function ParseInt(s: string): int {
    if |s| > 0 && s[0] == '-' then 0 - ParseNat(s[1..]) else ParseNat(s)
  }

  lemma {:induction false} NatTextRoundTrip(n: nat)
    ensures ParseNat(NatText(n)) == n
    decreases n
  {
    if n >= 10 {
      var s := NatText(n);
      assert s[..|s| - 1] == NatText(n / 10);
      NatTextRoundTrip(n / 10);
    }
  }

  lemma IntTextRoundTrip(n: int)
    ensures ParseInt(IntText(n)) == n
  {
    var s := IntText(n);
    if n < 0 {
      assert s == "-" + NatText(-n);
      assert s[1..] == NatText(-n);
      NatTextRoundTrip(-n);
    } else {
      assert s == NatText(n);
      assert IsDigit(s[0]);
      NatTextRoundTrip(n);
    }
  }
}
