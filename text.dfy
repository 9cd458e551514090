/**
 * Decimal rendering of indices, as std::to_string does for the non-negative
 * numbers the program formats into uniform names, and its inverse.
 */
module Text {
  predicate IsDigit(c: char) { '0' <= c <= '9' }

  function DigitValue(c: char): nat
    requires IsDigit(c)
  {
    (c as int) - ('0' as int)
  }

  function DigitChar(d: nat): (c: char)
    requires d < 10
    ensures IsDigit(c) && (c as int) - ('0' as int) == d
  {
    (('0' as int) + d) as char
  }

  /** std::to_string on a non-negative number: most significant digit first. */
  function NatToString(n: nat): (s: string)
    ensures |s| >= 1
    ensures forall i :: 0 <= i < |s| ==> IsDigit(s[i])
    ensures n < 10 <==> |s| == 1
  {
    if n < 10 then [DigitChar(n)] else NatToString(n / 10) + [DigitChar(n % 10)]
  }

  /** The number a string of decimal digits denotes. */
  function DigitsValue(s: string): nat
    requires forall i :: 0 <= i < |s| ==> IsDigit(s[i])
  {
    if s == [] then 0
    else 10 * DigitsValue(s[..|s| - 1]) + DigitValue(s[|s| - 1])
  }

  /** Reading back the rendered digits gives the number: rendering loses nothing. */
  lemma {:induction false} NatToStringRoundTrip(n: nat)
    ensures DigitsValue(NatToString(n)) == n
  {
    var s := NatToString(n);
    if n >= 10 {
      NatToStringRoundTrip(n / 10);
      assert s[..|s| - 1] == NatToString(n / 10);
    }
  }

  /** Different numbers render differently, so per-index names never collide. */
  lemma NatToStringInjective(m: nat, n: nat)
    ensures NatToString(m) == NatToString(n) ==> m == n
  {
    NatToStringRoundTrip(m);
    NatToStringRoundTrip(n);
  }

  /** An element name in a shader array: base + "[" + index + "]". */
  function Indexed(base: string, index: nat): (s: string)
    ensures |s| == |base| + |NatToString(index)| + 2
    ensures s[..|base|] == base && s[|s| - 1] == ']'
  {
    base + "[" + NatToString(index) + "]"
  }

  /**
   * The digits carry no bracket, so the last '[' of an element name marks where
   * the base ends: two element names are equal only for the same base and index.
   */
  lemma IndexedInjective(b1: string, i1: nat, b2: string, i2: nat)
    requires Indexed(b1, i1) == Indexed(b2, i2)
    ensures b1 == b2 && i1 == i2
  {
    var s := Indexed(b1, i1);
    var d1, d2 := NatToString(i1), NatToString(i2);
    if |d1| <= |d2| {
      SameDigitCount(b1, d1, b2, d2);
    } else {
      SameDigitCount(b2, d2, b1, d1);
    }
    assert b1 == s[..|b1|] == b2;
    assert d1 == s[|b1| + 1..|s| - 1] == d2;
    NatToStringInjective(i1, i2);
  }

  /** Between the last '[' and the closing ']' there are only digits. */
  lemma SameDigitCount(b1: string, d1: string, b2: string, d2: string)
    requires forall k :: 0 <= k < |d2| ==> IsDigit(d2[k])
    requires b1 + "[" + d1 + "]" == b2 + "[" + d2 + "]"
    requires |d1| <= |d2|
    ensures |d1| == |d2|
  {
    if |d1| < |d2| {
      IndexedLayout(b1, d1);
      IndexedLayout(b2, d2);
      assert false;
    }
  }

  /** Where the bracket and each digit sit in an element name. */
  lemma IndexedLayout(b: string, d: string)
    ensures var s := b + "[" + d + "]";
      && s[|b|] == '['
      && forall k :: 0 <= k < |d| ==> s[|b| + 1 + k] == d[k]
  {
  }
}
