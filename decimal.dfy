/**
 * Base-10 rendering of integers, as done by Go's `strconv.FormatInt(n, 10)`
 * and by the `%d` verb of `fmt.Sprintf`, with a parser as its inverse.
 */
module Decimal {
  import opened Wrappers

  predicate IsDigit(c: char) {
    '0' <= c <= '9'
  }

  function DigitChar(d: nat): (c: char)
    requires d < 10
    ensures IsDigit(c)
  {
    (d + '0' as int) as char
  }

  function DigitValue(c: char): (d: nat)
    requires IsDigit(c)
    ensures d < 10
  {
    (c as int) - ('0' as int)
  }

  predicate AllDigits(s: string) {
    forall i :: 0 <= i < |s| ==> IsDigit(s[i])
  }

  /** The number a string of decimal digits denotes, most significant digit first. */
  function DigitsValue(s: string): nat
    requires AllDigits(s)
    decreases |s|
  {
    if s == [] then 0 else DigitsValue(s[..|s| - 1]) * 10 + DigitValue(s[|s| - 1])
  }

  /** The shortest decimal digits of `n`: "0" for zero, otherwise no leading zero. */
  function NatDigits(n: nat): (s: string)
    ensures |s| >= 1 && AllDigits(s)
    decreases n
  {
    if n < 10 then [DigitChar(n)] else NatDigits(n / 10) + [DigitChar(n % 10)]
  }

  /** The digits start with '0' only for zero itself. */
  lemma {:induction false} NatDigitsShape(n: nat)
    ensures |NatDigits(n)| > 1 || n > 0 ==> NatDigits(n)[0] != '0'
    decreases n
  {
    if n >= 10 {
      NatDigitsShape(n / 10);
    }
  }

  /** `strconv.FormatInt(n, 10)`, also what `%d` prints: a leading '-' for negatives. */
  function IntToString(n: int): string {
    if n < 0 then "-" + NatDigits(-n) else NatDigits(n)
  }

  /** Reads an optional '-' followed by one or more decimal digits. */
  function ParseInt(s: string): (r: Option<int>)
    ensures r.Some? ==> |s| >= 1
  {
    if |s| >= 2 && s[0] == '-' && AllDigits(s[1..]) then Some(-(DigitsValue(s[1..]) as int))
    else if |s| >= 1 && AllDigits(s) then Some(DigitsValue(s))
    else None
  }

  lemma {:induction false} NatDigitsValue(n: nat)
    ensures DigitsValue(NatDigits(n)) == n
    decreases n
  {
    var s := NatDigits(n);
    NatDigitsShape(n);
    if n >= 10 {
      NatDigitsShape(n / 10);
      NatDigitsValue(n / 10);
      assert s[..|s| - 1] == NatDigits(n / 10);
    }
  }

  /** Parsing the rendering gives the number back, so every integer renders uniquely. */
  lemma IntToStringRoundTrip(n: int)
    ensures ParseInt(IntToString(n)) == Some(n)
  {
    var s := IntToString(n);
    NatDigitsShape(if n < 0 then -n else n);
    if n < 0 {
      assert s[1..] == NatDigits(-n);
      NatDigitsValue(-n);
    } else {
      NatDigitsValue(n);
    }
  }

  /** The rendering is a '-' exactly for negatives, then digits without a leading zero. */
  lemma IntToStringShape(n: int)
    ensures |IntToString(n)| >= 1
    ensures n < 0 <==> IntToString(n)[0] == '-'
    ensures n < 0 ==> |IntToString(n)| >= 2 && AllDigits(IntToString(n)[1..]) && IntToString(n)[1] != '0'
    ensures n >= 0 ==> AllDigits(IntToString(n))
    ensures |IntToString(n)| > 1 && n >= 0 ==> IntToString(n)[0] != '0'
  {
    NatDigitsShape(if n < 0 then -n else n);
    if n < 0 {
      assert IntToString(n)[1..] == NatDigits(-n);
    }
  }

  lemma IntToStringInjective(a: int, b: int)
    requires IntToString(a) == IntToString(b)
    ensures a == b
  {
    IntToStringRoundTrip(a);
    IntToStringRoundTrip(b);
  }
}
