/**
  Decimal rendering of integers: what `Number.prototype.toString()` produces for the
  integral millisecond values the app turns into ids, and the text form this model
  gives to instants. Decoding is the partial inverse.
 */
module Numerals {
  import opened Wrappers

  function DigitChar(d: nat): (c: char)
    requires d < 10
    ensures '0' <= c <= '9'
  {
    ['0', '1', '2', '3', '4', '5', '6', '7', '8', '9'][d]
  }

  predicate IsDigit(c: char) {
    '0' <= c <= '9'
  }

  function DigitValue(c: char): (d: nat)
    requires IsDigit(c)
    ensures d < 10
  {
    (c as int - '0' as int) as nat
  }

  lemma DigitValueOfChar(d: nat)
    requires d < 10
    ensures DigitValue(DigitChar(d)) == d
  {
  }

  predicate AllDigits(s: string) {
    forall i :: 0 <= i < |s| ==> IsDigit(s[i])
  }

  /** Decimal digits of `n`, most significant first, no leading zeros. */
  function EncodeNat(n: nat): (s: string)
    ensures |s| > 0 && AllDigits(s)
  {
    if n < 10 then [DigitChar(n)] else EncodeNat(n / 10) + [DigitChar(n % 10)]
  }

  /** Value of a string of digits. */
  function DigitsValue(s: string): nat
    requires AllDigits(s)
  {
    if s == [] then 0 else DigitsValue(s[..|s| - 1]) * 10 + DigitValue(s[|s| - 1])
  }

  /** `n.toString()` for an integer `n`: a `-` sign before the digits of a negative value. */
  function EncodeInt(i: int): (s: string)
    ensures |s| > 0
    ensures i >= 0 ==> AllDigits(s)
    ensures i < 0 ==> s[0] == '-' && AllDigits(s[1..])
  {
    if i < 0 then "-" + EncodeNat(-i) else EncodeNat(i)
  }

  /** Parses what `EncodeInt` writes; `None` for any other text. */
  function DecodeInt(s: string): Option<int> {
    if |s| > 1 && s[0] == '-' && AllDigits(s[1..]) then Some(-(DigitsValue(s[1..]) as int))
    else if |s| > 0 && AllDigits(s) then Some(DigitsValue(s))
    else None
  }

  lemma {:induction false} DigitsOfEncodeNat(n: nat)
    ensures DigitsValue(EncodeNat(n)) == n
    decreases n
  {
    var s := EncodeNat(n);
    if n < 10 {
      DigitValueOfChar(n);
    } else {
      DigitsOfEncodeNat(n / 10);
      assert s[..|s| - 1] == EncodeNat(n / 10);
      DigitValueOfChar(n % 10);
    }
  }

  lemma DecodeSigned(e: string)
    requires |e| > 0 && AllDigits(e)
    ensures DecodeInt("-" + e) == Some(-(DigitsValue(e) as int))
  {
    assert ("-" + e)[1..] == e;
  }

  lemma DecodeUnsigned(e: string)
    requires |e| > 0 && AllDigits(e)
    ensures DecodeInt(e) == Some(DigitsValue(e))
  {
    assert IsDigit(e[0]);
  }

  /** Decoding undoes encoding for every integer. */
  lemma EncodeIntRoundTrip(i: int)
    ensures DecodeInt(EncodeInt(i)) == Some(i)
  {
    if i < 0 {
      var e := EncodeNat(-i);
      assert EncodeInt(i) == "-" + e;
      DigitsOfEncodeNat(-i);
      DecodeSigned(e);
    } else {
      var e := EncodeNat(i);
      assert EncodeInt(i) == e;
      DigitsOfEncodeNat(i);
      DecodeUnsigned(e);
    }
  }

  /** Distinct integers have distinct renderings. */
  lemma EncodeIntInjective(i: int, j: int)
    requires EncodeInt(i) == EncodeInt(j)
    ensures i == j
  {
    EncodeIntRoundTrip(i);
    EncodeIntRoundTrip(j);
  }
}
