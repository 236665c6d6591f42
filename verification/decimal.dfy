/** Decimal rendering of non-negative integers, as JavaScript's `String(n)` and
    template literals print them, with a parser as its inverse. */
module Decimal {

  predicate IsDigit(c: char) {
    '0' <= c <= '9'
  }

  predicate AllDigits(s: string) {
    forall i :: 0 <= i < |s| ==> IsDigit(s[i])
  }

  function DigitChar(d: nat): (c: char)
    requires d < 10
    ensures IsDigit(c)
    ensures (c as int) - ('0' as int) == d
  {
    (('0' as int) + d) as char
  }

  function DigitValue(c: char): (d: nat)
    requires IsDigit(c)
    ensures d < 10
  {
    (c as int) - ('0' as int)
  }

  /** `String(n)` for a non-negative integer below 10^21: its shortest decimal
      numeral, with no sign and no leading zero. */
  function NatToString(n: nat): (s: string)
    ensures |s| >= 1 && AllDigits(s)
    ensures |s| > 1 ==> s[0] != '0'
    decreases n
  {
    if n < 10 then [DigitChar(n)] else NatToString(n / 10) + [DigitChar(n % 10)]
  }

  /** `String(i)` for an integer of either sign. */
  function IntToString(i: int): (s: string)
    ensures |s| >= 1
    ensures i < 0 <==> s[0] == '-'
  {
    if i < 0 then "-" + NatToString(-i) else NatToString(i)
  }

  /** Reads a string of decimal digits back as a number. */
  function ParseNat(s: string): nat
    requires AllDigits(s)
    decreases |s|
  {
    if |s| == 0 then 0 else ParseNat(s[..|s| - 1]) * 10 + DigitValue(s[|s| - 1])
  }

  function Pow10(k: nat): (p: nat)
    ensures p >= 1
  {
    if k == 0 then 1 else 10 * Pow10(k - 1)
  }

  /** Reading the rendering of `n` gives back `n`. */
  lemma {:induction false} ParseNatToString(n: nat)
    ensures ParseNat(NatToString(n)) == n
    decreases n
  {
    if n >= 10 {
      var s := NatToString(n);
      assert s[..|s| - 1] == NatToString(n / 10);
      ParseNatToString(n / 10);
    }
  }

  /** Two numbers render the same exactly when they are equal. */
  lemma NatToStringInjective(a: nat, b: nat)
    ensures NatToString(a) == NatToString(b) <==> a == b
  {
    if NatToString(a) == NatToString(b) {
      ParseNatToString(a);
      ParseNatToString(b);
    }
  }

  /** A number below 10^k (k >= 1) renders in at most k digits. */
  lemma {:induction false} NatToStringLength(n: nat, k: nat)
    requires k >= 1 && n < Pow10(k)
    ensures |NatToString(n)| <= k
    decreases n
  {
    if n >= 10 {
      assert Pow10(1) == 10;
      assert k >= 2;
      assert n / 10 < Pow10(k - 1);
      NatToStringLength(n / 10, k - 1);
    }
  }

  /** A numeral followed by a non-digit can be read off unambiguously: when
      two such texts are equal, so are the numbers. */
  lemma LeadingNumber(a: nat, s: string, b: nat, t: string)
    requires NatToString(a) + s == NatToString(b) + t
    requires |s| > 0 && !IsDigit(s[0])
    requires |t| > 0 && !IsDigit(t[0])
    ensures a == b
  {
    var x := NatToString(a);
    var y := NatToString(b);
    var w := x + s;
    assert forall j :: 0 <= j < |x| ==> w[j] == x[j];
    assert forall j :: 0 <= j < |y| ==> w[j] == y[j];
    assert w[|x|] == s[0];
    assert w[|y|] == (y + t)[|y|] == t[0];
    assert |x| <= |y| by {
      assert !IsDigit(w[|y|]);
    }
    assert |y| <= |x| by {
      assert !IsDigit(w[|x|]);
    }
    assert x == w[..|x|] == y;
    NatToStringInjective(a, b);
  }

  /** The same, for numerals that follow a common prefix. */
  lemma NumberAfterPrefix(p: string, a: nat, s: string, b: nat, t: string)
    requires p + NatToString(a) + s == p + NatToString(b) + t
    requires |s| > 0 && !IsDigit(s[0])
    requires |t| > 0 && !IsDigit(t[0])
    ensures a == b
  {
    var x := p + NatToString(a) + s;
    assert x[|p|..] == NatToString(a) + s;
    assert (p + NatToString(b) + t)[|p|..] == NatToString(b) + t;
    LeadingNumber(a, s, b, t);
  }
}
