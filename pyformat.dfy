/**
 * Python's decimal formatting of integers: `str(n)` and the `02d` format
 * specification used by f-strings such as `f"{month:02d}"`, with the
 * decimal reading that inverts them.
 */
module PyFormat {

  predicate IsDigit(c: char) { '0' <= c <= '9' }

  predicate AllDigits(s: string) {
    forall i :: 0 <= i < |s| ==> IsDigit(s[i])
  }

  function DigitChar(d: int): (c: char)
    requires 0 <= d < 10
    ensures IsDigit(c) && c as int - '0' as int == d
  {
    ('0' as int + d) as char
  }

  /** The decimal digits of a natural number, most significant first, without leading zeros. */
  function Decimal(n: nat): (s: string)
    ensures |s| >= 1 && AllDigits(s)
    ensures n < 10 ==> |s| == 1
    ensures 10 <= n < 100 ==> |s| == 2
    ensures 10 <= n ==> s[0] != '0'
  {
    if n < 10 then [DigitChar(n)] else Decimal(n / 10) + [DigitChar(n % 10)]
  }

  /** The number a string of decimal digits denotes. */
  function DigitsValue(s: string): nat
    requires AllDigits(s)
  {
    if |s| == 0 then 0 else DigitsValue(s[..|s| - 1]) * 10 + (s[|s| - 1] as int - '0' as int)
  }

  /** Reading back the digits that `Decimal` wrote gives the number again. */
  lemma {:induction false} DecimalRoundTrip(n: nat)
    ensures DigitsValue(Decimal(n)) == n
  {
    if n >= 10 {
      var s := Decimal(n);
      assert s[..|s| - 1] == Decimal(n / 10);
      DecimalRoundTrip(n / 10);
    }
  }

  /** `str(n)`: an optional minus sign followed by the digits of `|n|`. */
  function Str(n: int): (s: string)
    ensures |s| >= 1
    ensures 0 <= n <==> AllDigits(s)
  {
    if n < 0 then
      var s := "-" + Decimal(-n);
      assert !IsDigit(s[0]);
      s
    else
      Decimal(n)
  }

  /** `str` is injective: the text of a number determines the number. */
  lemma StrInjective(a: int, b: int)
    requires Str(a) == Str(b)
    ensures a == b
  {
    if a < 0 && b < 0 {
      assert Decimal(-a) == Decimal(-b) by {
        assert Str(a)[1..] == Decimal(-a) && Str(b)[1..] == Decimal(-b);
      }
      DecimalRoundTrip(-a);
      DecimalRoundTrip(-b);
    } else if 0 <= a && 0 <= b {
      DecimalRoundTrip(a);
      DecimalRoundTrip(b);
    }
  }

  /**
   * `f"{n:02d}"`: the number padded with zeros to at least two characters;
   * a negative number keeps its sign in front and needs no padding.
   */
  function Pad2(n: int): (s: string)
    ensures |s| >= 2
    ensures 0 <= n <==> AllDigits(s)
    ensures 0 <= n < 100 ==> |s| == 2
    ensures 0 <= n ==> DigitsValue(s) == n
  {
    if n < 0 then
      var s := "-" + Decimal(-n);
      assert !IsDigit(s[0]);
      s
    else if n < 10 then
      var s := "0" + Decimal(n);
      assert s[..|s| - 1] == "0" && s[|s| - 1] == DigitChar(n);
      assert DigitsValue(s[..|s| - 1]) == 0;
      s
    else
      DecimalRoundTrip(n);
      Decimal(n)
  }

  /** Two different numbers never format to the same padded text. */
  lemma Pad2Injective(a: int, b: int)
    requires Pad2(a) == Pad2(b)
    ensures a == b
  {
    if a < 0 && b < 0 {
      assert Decimal(-a) == Pad2(a)[1..] == Pad2(b)[1..] == Decimal(-b);
      DecimalRoundTrip(-a);
      DecimalRoundTrip(-b);
    }
  }
}
