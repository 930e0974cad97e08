/**
 * Decimal text of natural numbers: the ASCII part of Python's str.isdigit,
 * int(s) on a digit string, and str(n) on a natural number.
 */
module Decimal {

  predicate IsDigit(c: char) {
    '0' <= c <= '9'
  }

  /** Every character is an ASCII decimal digit (the empty string qualifies). */
  predicate AllDigits(s: string) {
    forall i :: 0 <= i < |s| ==> IsDigit(s[i])
  }

  /** str.isdigit on ASCII text: non-empty and digits only. */
  function IsDigitString(s: string): (b: bool)
    ensures b ==> s != []
    ensures b ==> '-' !in s && '+' !in s && ' ' !in s
  {
    |s| > 0 && AllDigits(s)
  }

  function DigitValue(c: char): (d: nat)
    requires IsDigit(c)
    ensures d < 10
  {
    c as int - '0' as int
  }

  function DigitChar(d: nat): (c: char)
    requires d < 10
    ensures IsDigit(c) && DigitValue(c) == d
  {
    ('0' as int + d) as char
  }

  /** int(s) for a digit string; leading zeros are allowed, as in Python. */
  function Value(s: string): (n: nat)
    requires AllDigits(s)
    ensures n == 0 <==> forall i :: 0 <= i < |s| ==> s[i] == '0'
  {
    if s == [] then 0 else Value(s[..|s| - 1]) * 10 + DigitValue(s[|s| - 1])
  }

  /** str(n): the canonical decimal text, without leading zeros. */
  function Show(n: nat): (s: string)
    ensures IsDigitString(s)
    ensures '_' !in s
    ensures s[0] == '0' ==> s == "0"
    ensures n < 10 <==> |s| == 1
  {
    if n < 10 then [DigitChar(n)] else Show(n / 10) + [DigitChar(n % 10)]
  }

  /** Reading back the text of a number gives that number. */
  lemma {:induction false} ValueOfShow(n: nat)
    ensures Value(Show(n)) == n
  {
    if n >= 10 {
      var s := Show(n / 10) + [DigitChar(n % 10)];
      assert s[..|s| - 1] == Show(n / 10);
      ValueOfShow(n / 10);
    }
  }

  /** A digit string that does not start with a zero has a positive value. */
  lemma {:induction false} LeadingNonZeroIsPositive(s: string)
    requires IsDigitString(s) && s[0] != '0'
    ensures Value(s) >= 1
  {
    if |s| > 1 {
      var t := s[..|s| - 1];
      assert t[0] == s[0];
      LeadingNonZeroIsPositive(t);
    }
  }

  /** A canonical digit string (no leading zero) is the text of its own value. */
  lemma {:induction false} ShowOfValue(s: string)
    requires IsDigitString(s) && (s[0] != '0' || |s| == 1)
    ensures Show(Value(s)) == s
  {
    var t, d := s[..|s| - 1], s[|s| - 1];
    if |s| > 1 {
      assert t[0] == s[0];
      LeadingNonZeroIsPositive(t);
      ShowOfValue(t);
      var n := Value(s);
      assert n == Value(t) * 10 + DigitValue(d);
      assert n / 10 == Value(t) && n % 10 == DigitValue(d);
      assert DigitChar(DigitValue(d)) == d;
      assert s == t + [d];
    } else {
      assert DigitChar(DigitValue(d)) == d;
    }
  }

  /** Different numbers have different texts. */
  lemma ShowInjective(m: nat, n: nat)
    requires Show(m) == Show(n)
    ensures m == n
  {
    ValueOfShow(m);
    ValueOfShow(n);
  }
}
