/** The year argument of a count-by-year query and its canonical key.
    A year may be given as an integer or as a string; both are turned into
    the string the integer would print as, and that key is compared with the
    year field of each record. */
module YearKeys {

  datatype YearArg = IntYear(n: int) | StrYear(s: string)

  datatype Option<T> = None | Some(value: T)

  predicate IsDigit(c: char) {
    '0' <= c <= '9'
  }

  predicate IsDigits(s: string) {
    forall i :: 0 <= i < |s| ==> IsDigit(s[i])
  }

  function DigitChar(d: nat): (c: char)
    requires d < 10
    ensures IsDigit(c)
  {
    ('0' as int + d) as char
  }

  function DigitValue(c: char): (d: nat)
    requires IsDigit(c)
    ensures d < 10
  {
    c as int - '0' as int
  }

  /** Decimal digits of `n`, most significant first, without leading zeros. */
  function NatToString(n: nat): (s: string)
    ensures |s| > 0 && IsDigits(s)
    ensures s[0] == '0' ==> n == 0
  {
    if n < 10 then [DigitChar(n)]
    else NatToString(n / 10) + [DigitChar(n % 10)]
  }

  /** What an integer prints as: its decimal digits, after a minus sign
      when it is negative. */
  function IntToString(n: int): (s: string)
    ensures |s| > 0
    ensures s[0] == '-' <==> n < 0
  {
    if n < 0 then "-" + NatToString(-n) else NatToString(n)
  }

  /** The value of a string of decimal digits. */
  function DigitsValue(s: string): nat
    requires IsDigits(s)
  {
    if |s| == 0 then 0
    else DigitsValue(s[..|s| - 1]) * 10 + DigitValue(s[|s| - 1])
  }

  /** Reads back an optionally signed decimal integer. */
  function ParseInt(s: string): Option<int> {
    if |s| > 1 && s[0] == '-' && IsDigits(s[1..]) then Some(-(DigitsValue(s[1..]) as int))
    else if |s| > 0 && IsDigits(s) then Some(DigitsValue(s))
    else None
  }

  /** The comparison key of a year argument: an integer is converted to its
      decimal string, a string is used as it is. */
  function YearKey(y: YearArg): (k: string)
    ensures y.IntYear? ==> ParseInt(k) == Some(y.n)
    ensures y.StrYear? ==> k == y.s
  {
    match y
    case IntYear(n) => IntToStringRoundTrip(n); IntToString(n)
    case StrYear(s) => s
  }

  lemma {:induction false} NatToStringRoundTrip(n: nat)
    ensures DigitsValue(NatToString(n)) == n
  {
    if n >= 10 {
      var s := NatToString(n);
      assert s[..|s| - 1] == NatToString(n / 10);
      NatToStringRoundTrip(n / 10);
    }
  }

  /** Printing an integer and reading it back gives the integer. */
  lemma IntToStringRoundTrip(n: int)
    ensures ParseInt(IntToString(n)) == Some(n)
  {
    if n < 0 {
      var s := IntToString(n);
      assert s[1..] == NatToString(-n);
      NatToStringRoundTrip(-n);
    } else {
      NatToStringRoundTrip(n);
    }
  }

  /** Different integer years have different keys, so a key selects one
      integer year. */
  lemma IntYearKeyInjective(a: int, b: int)
    requires YearKey(IntYear(a)) == YearKey(IntYear(b))
    ensures a == b
  {
    IntToStringRoundTrip(a);
    IntToStringRoundTrip(b);
  }

  /** An integer year and the string it prints as have the same key. */
  lemma IntAndStringYearSameKey(n: int)
    ensures YearKey(IntYear(n)) == YearKey(StrYear(IntToString(n)))
  {
  }

  /** The integer 2019 and the string "2019" have the same key. */
  lemma Year2019Key()
    ensures YearKey(IntYear(2019)) == YearKey(StrYear("2019"))
  {
  }
}
