/** Decimal rendering of the amounts shown at checkout.

    Prices are kept as integer cents, so JavaScript's `n.toFixed(2)` on a
    price or a line amount becomes `FormatCents`: the whole units in decimal,
    a '.', and exactly two digits of cents. `ParseCents` reads such a text
    back and is the partner of `FormatCents`. */
module Decimal {
  import opened Optional

  predicate IsDigit(c: char) {
    '0' <= c <= '9'
  }

  predicate AllDigits(s: string) {
    forall i :: 0 <= i < |s| ==> IsDigit(s[i])
  }

  function DigitChar(d: nat): (c: char)
    requires d < 10
    ensures IsDigit(c)
  {
    ('0' as int + d) as char
  }

  function DigitValue(c: char): (d: nat)
    requires IsDigit(c)
    ensures d < 10 && DigitChar(d) == c
  {
    c as int - '0' as int
  }

  /** The decimal text of a non-negative integer, as JavaScript prints one in
      a template literal: digits only, no sign, no leading zero. */
  function NatToString(n: nat): (s: string)
    ensures |s| >= 1 && AllDigits(s)
    ensures s[0] == '0' ==> n == 0
    ensures n < 10 <==> |s| == 1
    decreases n
  {
    if n < 10 then [DigitChar(n)] else NatToString(n / 10) + [DigitChar(n % 10)]
  }

  /** The value of a string of decimal digits (the empty string reads as 0). */
  function ParseNat(s: string): nat
    requires AllDigits(s)
  {
    if s == [] then 0 else ParseNat(s[..|s| - 1]) * 10 + DigitValue(s[|s| - 1])
  }

  lemma {:induction false} ParseNatToString(n: nat)
    ensures ParseNat(NatToString(n)) == n
  {
    var s := NatToString(n);
    if n >= 10 {
      ParseNatToString(n / 10);
      assert s[..|s| - 1] == NatToString(n / 10);
    }
  }

  /** `(cents / 100).toFixed(2)` for an amount of whole cents. */
  function FormatCents(cents: nat): (s: string)
    ensures |s| >= 4 && s[|s| - 3] == '.'
    ensures AllDigits(s[..|s| - 3]) && AllDigits(s[|s| - 2..])
    ensures '\n' !in s && '$' !in s && '*' !in s
  {
    NatToString(cents / 100) + "." + [DigitChar(cents % 100 / 10), DigitChar(cents % 100 % 10)]
  }

  /** Reads a "D.CC" amount back into cents; anything else is None. */
  function ParseCents(s: string): Option<nat>
  {
    if |s| >= 4 && s[|s| - 3] == '.' && AllDigits(s[..|s| - 3]) && AllDigits(s[|s| - 2..])
    then Some(ParseNat(s[..|s| - 3]) * 100 + ParseNat(s[|s| - 2..]))
    else None
  }

  lemma ParseTwoDigits(tens: nat, ones: nat)
    requires tens < 10 && ones < 10
    ensures ParseNat([DigitChar(tens), DigitChar(ones)]) == tens * 10 + ones
  {
    var s := [DigitChar(tens), DigitChar(ones)];
    assert s[..1] == [DigitChar(tens)] && s[..1][..0] == [];
    assert ParseNat(s[..1]) == ParseNat(s[..1][..0]) * 10 + DigitValue(s[..1][0]);
  }

  lemma SplitCents(cents: nat)
    ensures cents == (cents / 100) * 100 + (cents % 100 / 10) * 10 + cents % 100 % 10
  {
  }

  lemma ParseCentsOf(whole: string, cents: string)
    requires |whole| >= 1 && AllDigits(whole) && |cents| == 2 && AllDigits(cents)
    ensures ParseCents(whole + "." + cents) == Some(ParseNat(whole) * 100 + ParseNat(cents))
  {
    var s := whole + "." + cents;
    var n := |whole|;
    assert |s| == n + 3 && |s| >= 4;
    assert s[..|s| - 3] == whole;
    assert s[|s| - 3] == '.';
    assert s[|s| - 2..] == cents;
  }

  /** Reading back a formatted amount gives the amount. */
  lemma ParseFormatCents(cents: nat)
    ensures ParseCents(FormatCents(cents)) == Some(cents)
  {
    var hi := NatToString(cents / 100);
    var lo := [DigitChar(cents % 100 / 10), DigitChar(cents % 100 % 10)];
    assert FormatCents(cents) == hi + "." + lo;
    ParseCentsOf(hi, lo);
    ParseNatToString(cents / 100);
    ParseTwoDigits(cents % 100 / 10, cents % 100 % 10);
    SplitCents(cents);
  }

  /** Two different totals never print as the same text. */
  lemma FormatCentsInjective(a: nat, b: nat)
    requires FormatCents(a) == FormatCents(b)
    ensures a == b
  {
    ParseFormatCents(a);
    ParseFormatCents(b);
  }

  /** The worked example: 1000 cents is printed "10.00". */
  lemma FormatTenDollars()
    ensures FormatCents(1000) == "10.00"
  {
    assert NatToString(10) == NatToString(1) + [DigitChar(0)];
  }
}
