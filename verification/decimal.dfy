/** Python's `str()` on the VLAN metadata value, as used to synthesise a
    bridge name.  An integer is rendered in decimal with a leading `-` when
    negative; `None` is rendered as the text `None`. */
module Decimal {
  import opened Wrappers

  predicate IsDigit(c: char) {
    '0' <= c <= '9'
  }

  predicate AllDigits(s: string) {
    forall i :: 0 <= i < |s| ==> IsDigit(s[i])
  }

  /** Text `str(i)` produces for an int: optional `-`, then at least one digit. */
  predicate IsIntText(s: string) {
    if 0 < |s| && s[0] == '-' then 1 < |s| && AllDigits(s[1..])
    else 0 < |s| && AllDigits(s)
  }

  function DigitChar(d: nat): (c: char)
    requires d < 10
    ensures IsDigit(c)
  {
    ('0' as int + d) as char
  }

  function DigitValue(c: char): (d: nat)
    requires IsDigit(c)
    ensures d < 10
    ensures DigitChar(d) == c
  {
    c as int - '0' as int
  }

  /** Decimal digits of `n`, most significant first, no leading zeros. */
  function NatToText(n: nat): (s: string)
    ensures 0 < |s|
    ensures AllDigits(s)
    ensures 1 < |s| ==> s[0] != '0'
  {
    if n < 10 then [DigitChar(n)] else NatToText(n / 10) + [DigitChar(n % 10)]
  }

  /** Python's `str(i)` for an int `i`. */
  function IntToText(i: int): (s: string)
    ensures IsIntText(s)
    ensures s[0] == '-' <==> i < 0
  {
    if i < 0 then "-" + NatToText(-i) else NatToText(i)
  }

  /** Python's `str(v)` for a value that is an int or `None`. */
  function OptionalIntToText(v: Option<int>): (s: string)
    ensures v.None? ==> s == "None"
    ensures v.Some? ==> IsIntText(s) && s[0] != 'N'
  {
    match v
    case None => "None"
    case Some(i) => IntToText(i)
  }

  /** Reads a string of decimal digits back as a number. */
  function ParseNat(s: string): nat
    requires AllDigits(s)
  {
    if |s| == 0 then 0 else ParseNat(s[..|s| - 1]) * 10 + DigitValue(s[|s| - 1])
  }

  /** Reads the text `IntToText` produces back as an int. */
  function ParseInt(s: string): int
    requires IsIntText(s)
  {
    if s[0] == '-' then -(ParseNat(s[1..]) as int) else ParseNat(s)
  }

  lemma {:induction false} NatTextRoundTrip(n: nat)
    ensures ParseNat(NatToText(n)) == n
  {
    if n >= 10 {
      var s := NatToText(n);
      assert s[..|s| - 1] == NatToText(n / 10);
      NatTextRoundTrip(n / 10);
    }
  }

  /** `ParseInt` inverts `str()` on ints. */
  lemma IntTextRoundTrip(i: int)
    ensures ParseInt(IntToText(i)) == i
  {
    if i < 0 {
      assert IntToText(i)[1..] == NatToText(-i);
      NatTextRoundTrip(-i);
    } else {
      NatTextRoundTrip(i);
    }
  }

  /** Distinct VLAN values (including `None`) never render to the same text. */
  lemma OptionalIntTextInjective(a: Option<int>, b: Option<int>)
    requires OptionalIntToText(a) == OptionalIntToText(b)
    ensures a == b
  {
    if a.Some? && b.Some? {
      IntTextRoundTrip(a.value);
      IntTextRoundTrip(b.value);
    }
  }
}
