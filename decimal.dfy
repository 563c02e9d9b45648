/**
 * Decimal digits: reading a run of ASCII digits as a number (what `int.Parse`
 * does with a regex group) and writing an integer in decimal (what string
 * interpolation of an `int` does with the default format).
 */
module Decimal {

  predicate IsDigit(c: char) {
    '0' <= c <= '9'
  }

  predicate AllDigits(s: string) {
    forall i :: 0 <= i < |s| ==> IsDigit(s[i])
  }

  function DigitValue(c: char): (d: nat)
    requires IsDigit(c)
    ensures d < 10
  {
    (c as int) - ('0' as int)
  }

  function DigitChar(d: nat): (c: char)
    requires d < 10
    ensures IsDigit(c) && DigitValue(c) == d
  {
    (('0' as int) + d) as char
  }

  /** The number a digit string denotes, most significant digit first. */
  function Value(s: string): nat
    requires AllDigits(s)
  {
    if s == [] then 0
    else
      assert AllDigits(s[..|s| - 1]) by { assert forall i :: 0 <= i < |s| - 1 ==> s[..|s| - 1][i] == s[i]; }
      Value(s[..|s| - 1]) * 10 + DigitValue(s[|s| - 1])
  }

  /** Leading digit not '0' unless the string is "0" itself. */
  predicate Canonical(s: string) {
    |s| >= 1 && AllDigits(s) && (|s| > 1 ==> s[0] != '0')
  }

  /** Decimal rendering of a natural number: no sign, no leading zeros. */
  function NatToString(n: nat): (s: string)
    ensures |s| >= 1
  {
    if n < 10 then [DigitChar(n)] else NatToString(n / 10) + [DigitChar(n % 10)]
  }

  /** Decimal rendering of an integer: a '-' before the magnitude when negative. */
  function IntToString(i: int): string {
    if i < 0 then "-" + NatToString(-i) else NatToString(i)
  }

  /** NatToString writes digits only, without leading zeros, one digit exactly below ten. */
  lemma {:induction false} NatToStringCanonical(n: nat)
    ensures Canonical(NatToString(n))
    ensures n < 10 <==> |NatToString(n)| == 1
  {
    if n >= 10 {
      NatToStringCanonical(n / 10);
      var s := NatToString(n);
      assert forall i :: 0 <= i < |s| - 1 ==> s[i] == NatToString(n / 10)[i];
    }
  }

  /**
   * IntToString writes a '-' exactly for negative numbers, then a canonical
   * magnitude whose value is the number's absolute value.
   */
  lemma IntToStringShape(i: int)
    ensures i < 0 <==> IntToString(i)[0] == '-'
    ensures i >= 0 ==> Canonical(IntToString(i)) && Value(IntToString(i)) == i
    ensures i < 0 ==> Canonical(IntToString(i)[1..])
    ensures i < 0 ==> IntToString(i)[1..] == NatToString(-i) && Value(IntToString(i)[1..]) == -i
  {
    if i < 0 {
      NatToStringCanonical(-i);
      assert IntToString(i)[1..] == NatToString(-i);
      ValueOfNatToString(-i);
    } else {
      NatToStringCanonical(i);
      ValueOfNatToString(i);
    }
  }

  /** Reading back what NatToString writes gives the number again. */
  lemma {:induction false} ValueOfNatToString(n: nat)
    ensures AllDigits(NatToString(n)) && Value(NatToString(n)) == n
  {
    NatToStringCanonical(n);
    if n >= 10 {
      ValueOfNatToString(n / 10);
      NatToStringCanonical(n / 10);
      var s := NatToString(n);
      assert s[..|s| - 1] == NatToString(n / 10);
    }
  }

  /** A digit string of k digits with a non-zero first digit denotes at least 10^(k-1). */
  lemma {:induction false} ValueLowerBound(s: string)
    requires Canonical(s) && |s| > 1
    ensures Value(s) >= 10
  {
    var init := s[..|s| - 1];
    assert init[0] == s[0];
    if |init| > 1 {
      ValueLowerBound(init);
    } else {
      assert Value(init) == DigitValue(init[0]) by {
        assert init[..0] == [];
      }
    }
  }

  /** Writing out the value of a canonical digit string gives the same string. */
  lemma {:induction false} NatToStringOfValue(s: string)
    requires Canonical(s)
    ensures NatToString(Value(s)) == s
  {
    var init := s[..|s| - 1];
    if |s| == 1 {
      assert init == [];
    } else {
      assert init[0] == s[0];
      assert Canonical(init);
      ValueLowerBound(s);
      NatToStringOfValue(init);
      NatToStringCanonical(Value(s) / 10);
      assert Value(s) / 10 == Value(init);
      assert Value(s) % 10 == DigitValue(s[|s| - 1]);
      assert s == init + [s[|s| - 1]];
    }
  }
}
