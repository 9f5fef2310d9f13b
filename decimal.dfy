/**
 * Decimal text: removing thousands separators, reading an amount in
 * hundredths, and the decimal form of a timestamp used as a ledger id.
 */
module Decimal {
  import opened Chars

  /** `replace(",", "")`. */
  function StripCommas(s: string): (r: string)
    ensures ',' !in r
    ensures forall c :: c in r <==> c in s && c != ','
    ensures |r| <= |s|
  {
    if s == [] then []
    else (if s[0] == ',' then [] else [s[0]]) + StripCommas(s[1..])
  }

  lemma StripCommasAppend(a: string, b: string)
    ensures StripCommas(a + b) == StripCommas(a) + StripCommas(b)
  {
    if a == [] {
      assert a + b == b;
    } else {
      assert (a + b)[1..] == a[1..] + b;
      StripCommasAppend(a[1..], b);
    }
  }

  lemma StripCommasOfCommaFree(s: string)
    requires ',' !in s
    ensures StripCommas(s) == s
  {
    if s != [] {
      assert s == [s[0]] + s[1..];
      StripCommasOfCommaFree(s[1..]);
    }
  }

  function DigitValue(c: char): nat requires IsDigit(c) { c as int - '0' as int }

  /** The number written by a string of decimal digits (the empty string reads as 0). */
  function DigitsValue(d: string): nat
    requires AllDigits(d)
  {
    if d == [] then 0 else DigitsValue(d[..|d| - 1]) * 10 + DigitValue(d[|d| - 1])
  }

  /**
   * The texts `D`, `D.d`, `D.dd` and `.d`, `.dd` with `D` a non-empty run of
   * decimal digits: the comma-free strings that Kotlin's `toDoubleOrNull`
   * accepts among those the amount patterns can capture.
   */
  predicate IsAmountText(r: string) {
    (|r| > 0 && AllDigits(r))
    || (|r| >= 2 && r[|r| - 2] == '.' && AllDigits(r[..|r| - 2]) && IsDigit(r[|r| - 1]))
    || (|r| >= 3 && r[|r| - 3] == '.' && AllDigits(r[..|r| - 3]) && AllDigits(r[|r| - 2..]))
  }

  /** The value of an amount text in hundredths. */
  function Hundredths(r: string): nat
    requires IsAmountText(r)
  {
    if |r| > 0 && AllDigits(r) then DigitsValue(r) * 100
    else if |r| >= 2 && r[|r| - 2] == '.' && AllDigits(r[..|r| - 2]) && IsDigit(r[|r| - 1])
    then DigitsValue(r[..|r| - 2]) * 100 + DigitValue(r[|r| - 1]) * 10
    else DigitsValue(r[..|r| - 3]) * 100 + DigitsValue(r[|r| - 2..])
  }

  /** The upper bound 10,000,000 of a plausible amount, in hundredths. */
  const AmountLimit: nat := 1_000_000_000

  /**
   * The validation of `extractAmount`: the text parses as a number, and
   * that number is greater than 0 and less than 10,000,000.
   */
  predicate IsPlausibleAmount(r: string) {
    IsAmountText(r) && 0 < Hundredths(r) < AmountLimit
  }

  /** The character of one decimal digit. */
  function DigitChar(d: nat): (c: char)
    requires d < 10
    ensures IsDigit(c) && DigitValue(c) == d
  {
    ('0' as int + d) as char
  }

  /** `Long.toString()` of a non-negative value. */
  function NatToString(n: nat): (r: string)
    ensures |r| > 0 && AllDigits(r)
    ensures DigitsValue(r) == n
    ensures r[0] == '0' ==> n == 0
  {
    if n < 10 then [DigitChar(n)]
    else
      var r := NatToString(n / 10) + [DigitChar(n % 10)];
      assert r[..|r| - 1] == NatToString(n / 10);
      r
  }

  /** `Long.toString()`: the id a ledger entry gets from its timestamp. */
  function IntToString(n: int): (r: string)
    ensures |r| > 0
    ensures n < 0 <==> r[0] == '-'
  {
    if n < 0 then "-" + NatToString(-n) else NatToString(n)
  }

  /** Distinct timestamps give distinct ids. */
  lemma IntToStringInjective(a: int, b: int)
    requires IntToString(a) == IntToString(b)
    ensures a == b
  {
    if a < 0 {
      assert IntToString(a)[1..] == NatToString(-a);
      assert IntToString(b)[1..] == NatToString(-b);
    }
  }
}
