/**
  Task argument values. Only the `source` argument is inspected, and only
  for equality with a string; every other value is carried unchanged. The
  one place a value is turned into text is the error message, which uses
  Python's `str()`, modelled by `Show`.
 */
module Values {

  /** A task argument value: Python `None`, a boolean, an integer or a string. */
  datatype Value = NoneValue | Bool(b: bool) | Int(i: int) | Str(s: string)

  /**
    Python's `str(v)`: what an f-string shows for `v`. Python 3.11 and later
    (and the matching security releases) refuse to print an integer of more
    than 4300 decimal digits and raise `ValueError`; that limit is not modelled.
   */
  function Show(v: Value): string {
    match v
    case NoneValue => "None"
    case Bool(b) => if b then "True" else "False"
    case Int(i) => if i < 0 then "-" + Digits(-i) else Digits(i)
    case Str(s) => s
  }

  predicate IsDigit(c: char) {
    '0' <= c <= '9'
  }

  predicate AllDigits(s: string) {
    forall j :: 0 <= j < |s| ==> IsDigit(s[j])
  }

  /** Decimal notation as Python prints it: at least one digit, and no leading zero unless the number is zero. */
  predicate CanonicalDigits(s: string) {
    |s| >= 1 && AllDigits(s) && (|s| > 1 ==> s[0] != '0')
  }

  function DigitChar(d: nat): (c: char)
    requires d < 10
    ensures IsDigit(c)
  {
    ('0' as int + d) as char
  }

  function DigitValue(c: char): nat
    requires IsDigit(c)
  {
    c as int - '0' as int
  }

  /** Decimal notation of `n`, most significant digit first, without leading zeros. */
  function Digits(n: nat): (s: string)
    ensures |s| >= 1
    ensures CanonicalDigits(s)
    decreases n
  {
    if n < 10 then [DigitChar(n)] else Digits(n / 10) + [DigitChar(n % 10)]
  }

  /** The number a string of decimal digits denotes. */
  function ReadDigits(s: string): nat
    requires AllDigits(s)
  {
    if |s| == 0 then 0 else ReadDigits(s[..|s| - 1]) * 10 + DigitValue(s[|s| - 1])
  }

  /** Reading back the digits of `n` gives `n`. */
  lemma {:induction false} ReadDigitsOfDigits(n: nat)
    ensures ReadDigits(Digits(n)) == n
    decreases n
  {
    if n >= 10 {
      var s := Digits(n);
      assert s[..|s| - 1] == Digits(n / 10);
      ReadDigitsOfDigits(n / 10);
    }
  }

  /**
    `str()` of an integer: its canonical decimal digits (no leading zero),
    after a minus sign when negative, denoting its magnitude.
   */
  lemma ShowIntDenotes(i: int)
    ensures var t := Show(Int(i));
      && (i >= 0 ==> CanonicalDigits(t) && ReadDigits(t) == i)
      && (i < 0 ==> |t| > 1 && t[0] == '-' && CanonicalDigits(t[1..]) && ReadDigits(t[1..]) == -i)
  {
    if i < 0 {
      var digits := Digits(-i);
      assert Show(Int(i)) == "-" + digits;
      assert ("-" + digits)[1..] == digits;
      ReadDigitsOfDigits(-i);
    } else {
      assert Show(Int(i)) == Digits(i);
      ReadDigitsOfDigits(i);
    }
  }
}
