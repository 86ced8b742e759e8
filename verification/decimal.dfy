/** Decimal rendering of integers, the `%d` conversion of a format string,
    together with the parser that inverts it. */
module Decimal {

  import opened Options

  predicate IsDigit(c: char) {
    '0' <= c <= '9'
  }

  function DigitChar(d: nat): (c: char)
    requires d < 10
    ensures IsDigit(c)
  {
    ['0', '1', '2', '3', '4', '5', '6', '7', '8', '9'][d]
  }

  function DigitValue(c: char): (d: nat)
    requires IsDigit(c)
    ensures d < 10
    ensures DigitChar(d) == c
  {
    if c == '0' then 0 else if c == '1' then 1 else if c == '2' then 2
    else if c == '3' then 3 else if c == '4' then 4 else if c == '5' then 5
    else if c == '6' then 6 else if c == '7' then 7 else if c == '8' then 8
    else 9
  }

  /** The digits of `n`, most significant first, without leading zeros. */
  function Digits(n: nat): (s: string)
    ensures |s| > 0
    ensures forall i :: 0 <= i < |s| ==> IsDigit(s[i])
    ensures s[0] != '0' || n == 0
  {
    if n < 10 then [DigitChar(n)] else Digits(n / 10) + [DigitChar(n % 10)]
  }

  /** The `%d` rendering of an integer: a minus sign for negative values,
      then the digits of the magnitude. */
  function Render(n: int): (s: string)
    ensures |s| > 0
    ensures '%' !in s
    ensures n >= 0 <==> IsDigit(s[0])
  {
    if n < 0 then "-" + Digits(-n) else Digits(n)
  }

  /** Reads a non-empty all-digit string as a natural number. */
  function ParseDigits(s: string): (n: nat)
    requires |s| > 0
    requires forall i :: 0 <= i < |s| ==> IsDigit(s[i])
  {
    if |s| == 1 then DigitValue(s[0])
    else ParseDigits(s[..|s| - 1]) * 10 + DigitValue(s[|s| - 1])
  }

  predicate AllDigits(s: string) {
    |s| > 0 && forall i :: 0 <= i < |s| ==> IsDigit(s[i])
  }

  /** Reads an optionally signed decimal numeral; `None` for anything else. */
  function Parse(s: string): (r: Option<int>)
    ensures r.Some? ==> |s| > 0
  {
    if |s| > 0 && s[0] == '-' then
      if AllDigits(s[1..]) then Some(0 - ParseDigits(s[1..]) as int) else None
    else if AllDigits(s) then Some(ParseDigits(s))
    else None
  }

  lemma {:induction false} ParseDigitsOfDigits(n: nat)
    ensures ParseDigits(Digits(n)) == n
    decreases n
  {
    if n >= 10 {
      var s := Digits(n);
      assert s[..|s| - 1] == Digits(n / 10);
      ParseDigitsOfDigits(n / 10);
    }
  }

  /** Parsing is a left inverse of rendering, so distinct integers render to
      distinct numerals. */
  lemma ParseRender(n: int)
    ensures Parse(Render(n)) == Some(n)
  {
    var s := Render(n);
    if n < 0 {
      var d := Digits(-n);
      assert s == "-" + d;
      assert s[1..] == d;
      assert AllDigits(d);
      ParseDigitsOfDigits(-n);
    } else {
      assert s == Digits(n);
      assert s[0] != '-';
      ParseDigitsOfDigits(n);
    }
  }

  lemma RenderInjective(m: int, n: int)
    ensures Render(m) == Render(n) <==> m == n
  {
    if Render(m) == Render(n) {
      ParseRender(m);
      ParseRender(n);
    }
  }
}
