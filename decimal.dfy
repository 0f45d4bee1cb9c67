/**
 * Decimal text for integers, as Python's `str(int)`, `int(str)` and the
 * zero-padded format `{n:03d}` produce and read it. The lock store keeps
 * user ids as text and seat labels carry a padded number, so both round
 * trips matter to the rest of the model.
 */
module Decimal {
  import opened Wrappers

  predicate IsDigit(c: char) {
    '0' <= c <= '9'
  }

  predicate AllDigits(s: string) {
    forall i :: 0 <= i < |s| ==> IsDigit(s[i])
  }

  function DigitChar(d: nat): (c: char)
    requires d < 10
    ensures IsDigit(c) && c as int - '0' as int == d
  {
    (d + '0' as int) as char
  }

  function DigitValue(c: char): (d: nat)
    requires IsDigit(c)
    ensures d < 10 && DigitChar(d) == c
  {
    c as int - '0' as int
  }

  /** The canonical decimal form of a natural number: no leading zero except
      for 0 itself. */
  function ToDecimal(n: nat): (s: string)
    ensures |s| >= 1 && AllDigits(s)
    ensures s[0] == '0' ==> n == 0
    decreases n
  {
    if n < 10 then [DigitChar(n)] else ToDecimal(n / 10) + [DigitChar(n % 10)]
  }

  /** The value of a string of digits, read most significant first. */
  function DigitsValue(s: string): nat
    requires AllDigits(s)
    decreases |s|
  {
    if |s| == 0 then 0 else DigitsValue(s[..|s| - 1]) * 10 + DigitValue(s[|s| - 1])
  }

  lemma {:induction false} DigitsValueOfToDecimal(n: nat)
    ensures DigitsValue(ToDecimal(n)) == n
    decreases n
  {
    if n >= 10 {
      var s := ToDecimal(n);
      assert s[..|s| - 1] == ToDecimal(n / 10);
      DigitsValueOfToDecimal(n / 10);
    }
  }

  /** `str(i)` for a Python int. */
  function IntToString(i: int): (s: string)
    ensures |s| >= 1
    ensures s[0] == '-' <==> i < 0
  {
    if i < 0 then "-" + ToDecimal(-i) else ToDecimal(i)
  }

  /** `int(s)` on a decimal literal: an optional minus sign followed by one or
      more digits; `None` where Python raises `ValueError`. */
  function ParseInt(s: string): (r: Option<int>)
    ensures r.Some? <==> (|s| >= 1 && AllDigits(s)) || (|s| >= 2 && s[0] == '-' && AllDigits(s[1..]))
  {
    if |s| >= 1 && AllDigits(s) then Some(DigitsValue(s))
    else if |s| >= 2 && s[0] == '-' && AllDigits(s[1..]) then Some(0 - DigitsValue(s[1..]) as int)
    else None
  }

  /** Reading back what `str` wrote gives the same integer. */
  lemma ParseIntOfIntToString(i: int)
    ensures ParseInt(IntToString(i)) == Some(i)
  {
    var s := IntToString(i);
    if i < 0 {
      var d := ToDecimal(-i);
      assert s == "-" + d;
      assert s[1..] == d;
      assert !IsDigit(s[0]);
      DigitsValueOfToDecimal(-i);
      assert ParseInt(s) == Some(0 - DigitsValue(d) as int);
    } else {
      DigitsValueOfToDecimal(i);
    }
  }

  lemma IntToStringInjective(i: int, j: int)
    ensures IntToString(i) == IntToString(j) ==> i == j
  {
    ParseIntOfIntToString(i);
    ParseIntOfIntToString(j);
  }

  function Zeros(k: nat): (s: string)
    ensures |s| == k && AllDigits(s)
  {
    seq(k, _ => '0')
  }

  lemma {:induction false} DigitsValueAfterZeros(k: nat, s: string)
    requires AllDigits(s)
    ensures AllDigits(Zeros(k) + s) && DigitsValue(Zeros(k) + s) == DigitsValue(s)
    decreases |s|
  {
    var z := Zeros(k) + s;
    if |s| == 0 {
      assert z == Zeros(k);
      ZerosValue(k);
    } else {
      var front := s[..|s| - 1];
      assert z[..|z| - 1] == Zeros(k) + front;
      DigitsValueAfterZeros(k, front);
    }
  }

  lemma {:induction false} ZerosValue(k: nat)
    ensures DigitsValue(Zeros(k)) == 0
  {
    if k > 0 {
      assert Zeros(k)[..k - 1] == Zeros(k - 1);
      ZerosValue(k - 1);
    }
  }

  /** Python's `f"{n:0{width}d}"` for a natural number: the decimal form,
      left-padded with zeros to at least `width` characters. */
  function ZeroPad(n: nat, width: nat): (s: string)
    ensures |s| >= width && AllDigits(s)
    ensures |s| == if |ToDecimal(n)| < width then width else |ToDecimal(n)|
    ensures DigitsValue(s) == n
  {
    var d := ToDecimal(n);
    DigitsValueOfToDecimal(n);
    if |d| < width then
      DigitsValueAfterZeros(width - |d|, d);
      Zeros(width - |d|) + d
    else d
  }

  function Pow10(k: nat): (p: nat)
    ensures p >= 1
  {
    if k == 0 then 1 else 10 * Pow10(k - 1)
  }

  /** A number below `10^w` has at most `w` digits. */
  lemma {:induction false} ToDecimalShort(n: nat, w: nat)
    requires w >= 1 && n < Pow10(w)
    ensures |ToDecimal(n)| <= w
    decreases n
  {
    if n >= 10 {
      assert w != 1;
      assert n / 10 < Pow10(w - 1);
      ToDecimalShort(n / 10, w - 1);
    }
  }

  /** Below `10^width` the padded form has exactly `width` characters. */
  lemma ZeroPadWidth(n: nat, width: nat)
    requires width >= 1 && n < Pow10(width)
    ensures |ZeroPad(n, width)| == width
  {
    ToDecimalShort(n, width);
  }
}
