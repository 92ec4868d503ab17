/** Decimal rendering of non-negative integers, as Integer.toString produces it
    when a number is concatenated into an unknown's name, with its inverse. */
module Decimal {

  predicate IsDigit(c: char)
  {
    '0' <= c <= '9'
  }

  predicate AllDigits(s: string)
  {
    forall i :: 0 <= i < |s| ==> IsDigit(s[i])
  }

  function DigitChar(d: nat): (c: char)
    requires d < 10
    ensures IsDigit(c)
  {
    ('0' as int + d) as char
  }

  function DigitValue(c: char): (d: nat)
    requires IsDigit(c)
    ensures d < 10
  {
    c as int - '0' as int
  }

  /** Integer.toString(n) for n >= 0: at least one digit, no leading zero. */
  function NatToString(n: nat): (s: string)
    ensures |s| >= 1 && AllDigits(s)
    ensures s[0] == '0' ==> n == 0
    decreases n
  {
    if n < 10 then [DigitChar(n)] else NatToString(n / 10) + [DigitChar(n % 10)]
  }

  /** Reads a string of decimal digits back as a number. */
  function ParseDigits(s: string): nat
    requires AllDigits(s)
  {
    if |s| == 0 then 0 else ParseDigits(s[..|s| - 1]) * 10 + DigitValue(s[|s| - 1])
  }

  /** Reading the rendering of n gives n back. */
  lemma {:induction false} ParseNatToString(n: nat)
    ensures ParseDigits(NatToString(n)) == n
    decreases n
  {
    var s := NatToString(n);
    if n >= 10 {
      ParseNatToString(n / 10);
      assert s[..|s| - 1] == NatToString(n / 10);
    }
  }

  /** Two numbers with the same rendering are equal. */
  lemma NatToStringInjective(a: nat, b: nat)
    requires NatToString(a) == NatToString(b)
    ensures a == b
  {
    ParseNatToString(a);
    ParseNatToString(b);
  }

  /** A run of digits followed by a non-digit can be split off uniquely. */
  lemma DigitsSplit(d1: string, t1: string, d2: string, t2: string)
    requires AllDigits(d1) && AllDigits(d2)
    requires |t1| > 0 && |t2| > 0 && !IsDigit(t1[0]) && !IsDigit(t2[0])
    requires d1 + t1 == d2 + t2
    ensures d1 == d2 && t1 == t2
  {
    var s := d1 + t1;
    assert s == d2 + t2;
    // the first non-digit of s sits right after each run of digits
    assert !IsDigit(s[|d1|]) && !IsDigit(s[|d2|]);
    assert forall i :: 0 <= i < |d1| ==> IsDigit(s[i]);
    assert forall i :: 0 <= i < |d2| ==> IsDigit(s[i]);
    assert |d1| == |d2|;
    assert d1 == s[..|d1|] == d2;
  }

  /** Rendered numbers followed by a non-digit determine the number and the rest. */
  lemma NatThenTextInjective(a: nat, t1: string, b: nat, t2: string)
    requires |t1| > 0 && |t2| > 0 && !IsDigit(t1[0]) && !IsDigit(t2[0])
    requires NatToString(a) + t1 == NatToString(b) + t2
    ensures a == b && t1 == t2
  {
    DigitsSplit(NatToString(a), t1, NatToString(b), t2);
    NatToStringInjective(a, b);
  }
}
