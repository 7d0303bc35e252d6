/**
  Decimal numerals as the listener writes and reads them: `std::to_string`
  (and `operator<<` on an `int`, which renders the same text) in one
  direction, C's `atoi` in the other.
 */
module Numerals {
  import opened Text
  import opened Wrappers

  function DigitChar(d: nat): (c: char)
    requires d < 10
    ensures IsDigit(c)
  {
    (d + '0' as int) as char
  }

  function DigitValue(c: char): (d: nat)
    requires IsDigit(c)
    ensures d < 10 && DigitChar(d) == c
  {
    c as int - '0' as int
  }

  /** The digits of `n`, most significant first, without leading zeros. */
  function Digits(n: nat): (r: string)
    ensures 1 <= |r|
    ensures AllDigits(r)
    ensures 10 <= n ==> r[0] != '0'
    decreases n
  {
    if n < 10 then [DigitChar(n)] else Digits(n / 10) + [DigitChar(n % 10)]
  }

  /** `std::to_string(n)`: a minus sign for negative values, then the digits. */
  function Decimal(n: int): (r: string)
    ensures 1 <= |r|
    ensures r[0] == '-' <==> n < 0
    ensures ' ' !in r && '\n' !in r
  {
    if n < 0 then "-" + Digits(-n) else Digits(n)
  }

  /** The value of a string of decimal digits. */
  function DigitsValue(s: string): nat
    requires AllDigits(s)
  {
    if |s| == 0 then 0 else 10 * DigitsValue(s[..|s| - 1]) + DigitValue(s[|s| - 1])
  }

  /** The longest prefix of `s` made of digits. */
  function DigitPrefix(s: string): (r: string)
    ensures AllDigits(r) && StartsWith(s, r)
    ensures |r| < |s| ==> !IsDigit(s[|r|])
  {
    if |s| == 0 || !IsDigit(s[0]) then [] else [s[0]] + DigitPrefix(s[1..])
  }

  /** `s` with its leading white space removed. */
  function SkipSpace(s: string): (r: string)
    ensures |r| <= |s| && r == s[|s| - |r|..]
    ensures forall i :: 0 <= i < |s| - |r| ==> IsSpace(s[i])
    ensures |r| == 0 || !IsSpace(r[0])
  {
    if |s| > 0 && IsSpace(s[0]) then SkipSpace(s[1..]) else s
  }

  /**
    C's `atoi`: leading white space is skipped, one optional sign is read,
    then the longest run of digits gives the magnitude; no digits give 0.
   */
  function Atoi(s: string): (r: int)
    ensures r < 0 ==> |SkipSpace(s)| > 0 && SkipSpace(s)[0] == '-'
    ensures r > 0 ==> |SkipSpace(s)| > 0 && (SkipSpace(s)[0] == '+' || IsDigit(SkipSpace(s)[0]))
    ensures NoDigits(s) ==> r == 0
  {
    var t := SkipSpace(s);
    if |t| > 0 && t[0] == '-' then 0 - DigitsValue(DigitPrefix(t[1..]))
    else if |t| > 0 && t[0] == '+' then DigitsValue(DigitPrefix(t[1..]))
    else DigitsValue(DigitPrefix(t))
  }

  lemma DigitPrefixOfDigits(s: string)
    requires AllDigits(s)
    ensures DigitPrefix(s) == s
  {
  }

  lemma {:induction false} DigitsValueOfDigits(n: nat)
    ensures DigitsValue(Digits(n)) == n
    decreases n
  {
    if 10 <= n {
      var r := Digits(n);
      assert r[..|r| - 1] == Digits(n / 10);
      DigitsValueOfDigits(n / 10);
    }
  }

  /** Reading back what `std::to_string` wrote gives the same number. */
  lemma AtoiDecimal(n: int)
    ensures Atoi(Decimal(n)) == n
  {
    var m := if n < 0 then -n else n;
    DigitsValueOfDigits(m);
    if n < 0 {
      var d := Decimal(n);
      assert SkipSpace(d) == d by {
        assert !IsSpace(d[0]);
      }
      assert d[1..] == Digits(m);
      DigitPrefixOfDigits(Digits(m));
    } else {
      AtoiOfDigits(Digits(m));
    }
  }

  /**
    Reads a numeral in the form `std::to_string` writes it (optional minus,
    no leading zeros, no spaces); anything else is rejected.
   */
  function ParseDecimal(s: string): (r: Option<int>)
    ensures r.Some? ==> Decimal(r.value) == s
  {
    if Decimal(Atoi(s)) == s then Some(Atoi(s)) else None
  }

  /** Every rendering is read back as the number it renders. */
  lemma ParseDecimalOfDecimal(n: int)
    ensures ParseDecimal(Decimal(n)) == Some(n)
  {
    AtoiDecimal(n);
  }

  /** The numeral reader accepts exactly the renderings, each as the number it renders. */
  lemma ParseDecimalIff(s: string, n: int)
    ensures ParseDecimal(s) == Some(n) <==> s == Decimal(n)
  {
    if s == Decimal(n) {
      ParseDecimalOfDecimal(n);
    }
  }

  /** Two numbers with the same rendering are the same number. */
  lemma DecimalInjective(m: int, n: int)
    requires Decimal(m) == Decimal(n)
    ensures m == n
  {
    AtoiDecimal(m);
    AtoiDecimal(n);
  }

  /** On a string of digits alone, `atoi` is the value of those digits. */
  lemma {:induction false} AtoiOfDigits(s: string)
    requires AllDigits(s)
    ensures Atoi(s) == DigitsValue(s)
  {
    if |s| > 0 {
      assert !IsSpace(s[0]) && s[0] != '-' && s[0] != '+';
      assert SkipSpace(s) == s;
    }
    DigitPrefixOfDigits(s);
  }
}
