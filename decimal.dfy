/** Decimal text of integers: Python's `str(int)`, the zero padding of `strftime` fields, and
    the subset of `int(str)` the model needs (an optional sign followed by ASCII digits). */
module Decimal {
  import opened Wrappers

  predicate IsDigit(c: char) { '0' <= c <= '9' }

  predicate AllDigits(s: string) { forall i :: 0 <= i < |s| ==> IsDigit(s[i]) }

  function DigitValue(c: char): nat
    requires IsDigit(c)
  {
    c as int - '0' as int
  }

  function DigitChar(d: nat): (c: char)
    requires d < 10
    ensures IsDigit(c) && DigitValue(c) == d
  {
    ('0' as int + d) as char
  }

  function Pow10(n: nat): (r: nat)
    ensures r >= 1
  {
    if n == 0 then 1 else 10 * Pow10(n - 1)
  }

  /** The number a string of decimal digits denotes; leading zeros are allowed, as `int()`
      allows them. It always fits in as many decimal places as the string has characters. */
  function DigitsValue(s: string): (r: nat)
    requires AllDigits(s)
    ensures r < Pow10(|s|)
  {
    if s == [] then 0
    else
      var init := DigitsValue(s[..|s| - 1]);
      assert init * 10 <= (Pow10(|s| - 1) - 1) * 10;
      init * 10 + DigitValue(s[|s| - 1])
  }

  lemma DigitsValueSnoc(s: string, c: char)
    requires AllDigits(s) && IsDigit(c)
    ensures AllDigits(s + [c]) && DigitsValue(s + [c]) == DigitsValue(s) * 10 + DigitValue(c)
  {
    assert (s + [c])[..|s|] == s;
  }

  /** `str(n)` for a non-negative `n`: the digits of `n` with no leading zero. */
  function NatToString(n: nat): (s: string)
    ensures |s| >= 1 && AllDigits(s) && DigitsValue(s) == n
    ensures s[0] == '0' ==> n == 0
  {
    if n < 10 then
      [DigitChar(n)]
    else
      var high := NatToString(n / 10);
      DigitsValueSnoc(high, DigitChar(n % 10));
      high + [DigitChar(n % 10)]
  }

  /** `n` written in exactly `width` digits, padded with zeros on the left (strftime's `%m`,
      `%d`, `%H`, `%M`, `%S`, `%f` and `%Y`). */
  function ZeroPad(n: nat, width: nat): (s: string)
    requires n < Pow10(width)
    ensures |s| == width && AllDigits(s) && DigitsValue(s) == n
  {
    if width == 0 then
      []
    else
      assert n / 10 < Pow10(width - 1);
      var high := ZeroPad(n / 10, width - 1);
      DigitsValueSnoc(high, DigitChar(n % 10));
      high + [DigitChar(n % 10)]
  }

  /** Python's `str(i)` for an int: a minus sign before the digits of a negative number. */
  function IntToString(i: int): (s: string)
  {
    if i < 0 then "-" + NatToString(-i) else NatToString(i)
  }

  /** Python's `int(s)` on an ASCII string: an optional `+` or `-` followed by one or more
      digits; anything else raises ValueError, here `None`. */
  function ParseInt(s: string): (r: Option<int>)
    ensures r.Some? ==> |s| >= 1
  {
    if |s| >= 1 && (s[0] == '-' || s[0] == '+') then
      var body := s[1..];
      if |body| >= 1 && AllDigits(body) then
        var magnitude: int := DigitsValue(body);
        Some(if s[0] == '-' then -magnitude else magnitude)
      else
        None
    else if |s| >= 1 && AllDigits(s) then
      Some(DigitsValue(s))
    else
      None
  }

  /** `int(str(i)) == i`: the text the query builder writes for an offset or a limit reads back
      as the same integer. */
  lemma IntToStringRoundTrip(i: int)
    ensures ParseInt(IntToString(i)) == Some(i)
  {
    if i < 0 {
      var body := NatToString(-i);
      assert ("-" + body)[1..] == body;
    }
  }
}
