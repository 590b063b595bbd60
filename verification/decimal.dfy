/**
  Decimal rendering of an integer, as Swift's string interpolation `"\(n)"`
  produces it for an `Int`: an optional leading '-', then the digits of the
  magnitude without leading zeros. `Parse` is an independent reading of such
  a text back into a number; the round trip shows that a rendered text
  determines its number.
 */
module Decimal {
  import opened Wrappers

  predicate IsDigit(c: char) {
    '0' <= c <= '9'
  }

  predicate AllDigits(s: string) {
    forall i :: 0 <= i < |s| ==> IsDigit(s[i])
  }

  /** Digits as Swift writes a magnitude: "0" alone, or no leading zero. */
  predicate CanonicalDigits(s: string) {
    s != [] && AllDigits(s) && (s[0] == '0' ==> |s| == 1)
  }

  /** The text Swift writes for an `Int`: canonical digits, with '-' only before a non-zero magnitude. */
  predicate IsCanonical(s: string) {
    CanonicalDigits(s) || (|s| > 1 && s[0] == '-' && CanonicalDigits(s[1..]) && s[1] != '0')
  }

  function DigitChar(d: nat): (c: char)
    requires d < 10
    ensures IsDigit(c) && c as int - '0' as int == d
  {
    ('0' as int + d) as char
  }

  function DigitValue(c: char): (d: nat)
    requires IsDigit(c)
    ensures d < 10
  {
    c as int - '0' as int
  }

  /** The digits of `n`, most significant first, with no leading zero. */
  function FromNat(n: nat): (r: string)
    ensures CanonicalDigits(r)
    ensures r[0] == '0' ==> n == 0
    decreases n
  {
    if n < 10 then [DigitChar(n)] else FromNat(n / 10) + [DigitChar(n % 10)]
  }

  /** The text of `"\(i)"` for an integer `i`. */
  function FromInt(i: int): (r: string)
    ensures IsCanonical(r)
    ensures r[0] == '-' <==> i < 0
  {
    if i < 0 then "-" + FromNat(-i) else FromNat(i)
  }

  /** The number a string of digits denotes. */
  function ValueOf(s: string): nat
    requires AllDigits(s)
    decreases |s|
  {
    if s == [] then 0 else ValueOf(s[..|s| - 1]) * 10 + DigitValue(s[|s| - 1])
  }

  /** Reads an optionally negative decimal numeral; None for any other text. */
  function Parse(s: string): Option<int> {
    if |s| > 1 && s[0] == '-' && AllDigits(s[1..]) then Some(-(ValueOf(s[1..]) as int))
    else if |s| > 0 && AllDigits(s) then Some(ValueOf(s))
    else None
  }

  lemma {:induction false} ValueOfFromNat(n: nat)
    ensures ValueOf(FromNat(n)) == n
    decreases n
  {
    if n >= 10 {
      var s := FromNat(n / 10);
      assert FromNat(n) == s + [DigitChar(n % 10)];
      assert (s + [DigitChar(n % 10)])[..|s|] == s;
      ValueOfFromNat(n / 10);
    }
  }

  /** Reading back a rendered integer gives that integer. */
  lemma RoundTrip(i: int)
    ensures Parse(FromInt(i)) == Some(i)
  {
    if i < 0 {
      ValueOfFromNat(-i);
      assert FromInt(i)[1..] == FromNat(-i);
    } else {
      ValueOfFromNat(i);
    }
  }

  /** Two integers render the same text exactly when they are equal. */
  lemma FromIntInjective(a: int, b: int)
    ensures FromInt(a) == FromInt(b) <==> a == b
  {
    RoundTrip(a);
    RoundTrip(b);
  }
}
