/**
 * The two JavaScript number conversions the tracker relies on, restricted
 * to integers: `parseInt(s)` without a radix (an optional sign followed by
 * the longest run of decimal digits; `None` stands for `NaN`) and
 * `Number.prototype.toString()` of an integer.
 */
module Numerals {
  import opened Wrappers

  predicate IsDigit(c: char)
  {
    '0' <= c <= '9'
  }

  function DigitValue(c: char): (d: nat)
    requires IsDigit(c)
    ensures d < 10
  {
    c as int - '0' as int
  }

  function DigitChar(d: nat): (c: char)
    requires d < 10
    ensures IsDigit(c) && DigitValue(c) == d
  {
    ('0' as int + d) as char
  }

  predicate AllDigits(s: string)
  {
    forall i :: 0 <= i < |s| ==> IsDigit(s[i])
  }

  /** The value of a run of decimal digits, most significant digit first. */
  function DigitsValue(s: string): nat
    requires AllDigits(s)
    decreases |s|
  {
    if s == [] then 0 else DigitsValue(s[..|s| - 1]) * 10 + DigitValue(s[|s| - 1])
  }

  /** The longest prefix of `s` made of decimal digits. */
  function LeadingDigits(s: string): (r: string)
    ensures AllDigits(r) && r <= s
    ensures |r| < |s| ==> !IsDigit(s[|r|])
  {
    if s != [] && IsDigit(s[0]) then [s[0]] + LeadingDigits(s[1..]) else []
  }

  /** `s` with one leading `+` or `-` removed. */
  function Unsigned(s: string): string
  {
    if s != [] && (s[0] == '-' || s[0] == '+') then s[1..] else s
  }

  /** `parseInt(s)`: `None` is `NaN`, produced when no digit follows the sign. */
  function ParseInt(s: string): Option<int>
  {
    var digits := LeadingDigits(Unsigned(s));
    if digits == [] then None
    else if s[0] == '-' then Some(-(DigitsValue(digits) as int))
    else Some(DigitsValue(digits))
  }

  /** Decimal digits of `n` as `toString` writes them: no leading zero. */
  function NatToString(n: nat): (s: string)
    ensures AllDigits(s) && s != []
    ensures DigitsValue(s) == n
    ensures |s| > 1 ==> s[0] != '0'
    decreases n
  {
    if n < 10 then [DigitChar(n)]
    else
      var s := NatToString(n / 10) + [DigitChar(n % 10)];
      assert s[..|s| - 1] == NatToString(n / 10);
      s
  }

  /** `n.toString()` for an integer `n`. */
  function IntToString(n: int): string
  {
    if n < 0 then "-" + NatToString(-n) else NatToString(n)
  }

  lemma {:induction false} LeadingDigitsStopAtNonDigit(digits: string, rest: string)
    requires AllDigits(digits)
    requires rest == [] || !IsDigit(rest[0])
    ensures LeadingDigits(digits + rest) == digits
    decreases |digits|
  {
    if digits != [] {
      assert (digits + rest)[1..] == digits[1..] + rest;
      LeadingDigitsStopAtNonDigit(digits[1..], rest);
    }
  }

  /** A run of digits followed by a non-digit reads as the run's value. */
  lemma ParseIntDigitsPrefix(digits: string, rest: string)
    requires AllDigits(digits) && digits != []
    requires rest == [] || !IsDigit(rest[0])
    ensures ParseInt(digits + rest) == Some(DigitsValue(digits))
  {
    assert Unsigned(digits + rest) == digits + rest;
    LeadingDigitsStopAtNonDigit(digits, rest);
  }

  /** Reading back what `toString` wrote gives the integer again. */
  lemma ParseIntOfIntToString(n: int)
    ensures ParseInt(IntToString(n)) == Some(n)
  {
    var digits := NatToString(if n < 0 then -n else n);
    LeadingDigitsStopAtNonDigit(digits, []);
    assert digits + [] == digits;
    if n < 0 {
      assert Unsigned(IntToString(n)) == digits;
    } else {
      assert Unsigned(IntToString(n)) == digits;
    }
  }

  /** A digit string (what the counter holds when it is well formed) reads as its value. */
  lemma ParseIntOfDigits(s: string)
    requires AllDigits(s) && s != []
    ensures ParseInt(s) == Some(DigitsValue(s))
  {
    ParseIntDigitsPrefix(s, []);
    assert s + [] == s;
  }

  /** The two strings the tracker can write besides a numeral read as `NaN`. */
  lemma ParseIntOfWords()
    ensures ParseInt("true") == None
    ensures ParseInt("NaN") == None
    ensures ParseInt("") == None
  {
  }
}
