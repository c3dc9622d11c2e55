/**
  Decimal rendering of an integer, as Go's `%d` verb writes it: an optional
  minus sign, then the digits of the magnitude with no leading zeros.
  `Parse` reads such a string back and is the partner of `Render`.
 */
module Decimal {
  import opened Wrappers

  predicate IsDigit(c: char) {
    '0' <= c <= '9'
  }

  predicate AllDigits(s: string) {
    forall i :: 0 <= i < |s| ==> IsDigit(s[i])
  }

  /** The ASCII digit for a value below ten. */
  function DigitChar(d: nat): (c: char)
    requires d < 10
    ensures IsDigit(c)
  {
    ('0' as int + d) as char
  }

  /** The value of an ASCII digit; undoes DigitChar. */
  function DigitValue(c: char): (d: nat)
    requires IsDigit(c)
    ensures d < 10 && DigitChar(d) == c
  {
    c as int - '0' as int
  }

  /** The digits of `n`, most significant first; "0" is the only digit string starting with '0'. */
  function Digits(n: nat): (s: string)
    ensures |s| > 0 && AllDigits(s)
    ensures s[0] == '0' ==> n == 0 && s == "0"
    decreases n
  {
    if n < 10 then [DigitChar(n)] else Digits(n / 10) + [DigitChar(n % 10)]
  }

  /** The value of a digit string read most significant digit first. */
  function ParseDigits(s: string): nat
    requires AllDigits(s)
  {
    if s == [] then 0 else ParseDigits(s[..|s| - 1]) * 10 + DigitValue(s[|s| - 1])
  }

  lemma {:induction false} ParseDigitsOfDigits(n: nat)
    ensures ParseDigits(Digits(n)) == n
    decreases n
  {
    var s := Digits(n);
    if n < 10 {
      assert s[..|s| - 1] == [];
      assert DigitValue(s[0]) == n;
    } else {
      assert s[..|s| - 1] == Digits(n / 10);
      assert DigitValue(s[|s| - 1]) == n % 10;
      ParseDigitsOfDigits(n / 10);
    }
  }

  /** `%d` applied to a Go int. */
  function Render(i: int): (s: string)
    ensures |s| > 0 && forall k :: 0 <= k < |s| ==> s[k] == '-' || IsDigit(s[k])
  {
    if i < 0 then "-" + Digits(-i) else Digits(i)
  }

  /** Reads an optional minus sign followed by one or more digits; anything else is None. */
  function Parse(s: string): Option<int> {
    if |s| > 1 && s[0] == '-' && AllDigits(s[1..]) then Some(-(ParseDigits(s[1..]) as int))
    else if |s| > 0 && AllDigits(s) then Some(ParseDigits(s))
    else None
  }

  /** Every rendered integer reads back as itself, so `%d` loses nothing. */
  lemma {:induction false} ParseRender(i: int)
    ensures Parse(Render(i)) == Some(i)
  {
    if i < 0 {
      var s := Render(i);
      assert s[1..] == Digits(-i);
      ParseDigitsOfDigits(-i);
    } else {
      ParseDigitsOfDigits(i);
    }
  }

  /** Distinct integers render differently. */
  lemma RenderInjective(i: int, j: int)
    requires Render(i) == Render(j)
    ensures i == j
  {
    ParseRender(i);
    ParseRender(j);
  }
}
