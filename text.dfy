/**
 * Decimal rendering of integers as JavaScript's template strings produce
 * it (no leading zeros, a minus sign for negatives), and the parsing that
 * undoes it.
 */
module Text {
  import opened Wrappers

  predicate IsDigit(c: char) {
    '0' <= c <= '9'
  }

  predicate AllDigits(s: string) {
    forall i :: 0 <= i < |s| ==> IsDigit(s[i])
  }

  function DigitChar(d: nat): (c: char)
    requires d < 10
    ensures IsDigit(c) && (c as int) - ('0' as int) == d
  {
    (('0' as int) + d) as char
  }

  function DigitValue(c: char): (d: nat)
    requires IsDigit(c)
    ensures d < 10 && DigitChar(d) == c
  {
    (c as int) - ('0' as int)
  }

  /** Decimal digits of `n`, most significant first. */
  function NatToString(n: nat): (s: string)
    ensures |s| >= 1 && AllDigits(s)
  {
    if n < 10 then [DigitChar(n)] else NatToString(n / 10) + [DigitChar(n % 10)]
  }

  /** JavaScript's rendering of an integral number. */
  function IntToString(i: int): (s: string)
    ensures |s| >= 1
    ensures i >= 0 ==> AllDigits(s)
    ensures i < 0 ==> s[0] == '-' && AllDigits(s[1..])
  {
    if i < 0 then "-" + NatToString(-i) else NatToString(i)
  }

  /** The value of a string of decimal digits. */
  function ParseNat(s: string): nat
    requires |s| >= 1 && AllDigits(s)
  {
    if |s| == 1 then DigitValue(s[0])
    else 10 * ParseNat(s[..|s| - 1]) + DigitValue(s[|s| - 1])
  }

  lemma {:induction false} ParseNatToString(n: nat)
    ensures ParseNat(NatToString(n)) == n
  {
    if n >= 10 {
      var s := NatToString(n);
      assert s[..|s| - 1] == NatToString(n / 10);
      ParseNatToString(n / 10);
    }
  }

  /** Rendering is injective: different numbers give different strings. */
  lemma NatToStringInjective(m: nat, n: nat)
    requires NatToString(m) == NatToString(n)
    ensures m == n
  {
    ParseNatToString(m);
    ParseNatToString(n);
  }

  /** Number of leading decimal digits of `s`. */
  function DigitPrefixLength(s: string): (k: nat)
    ensures k <= |s| && AllDigits(s[..k])
    ensures k < |s| ==> !IsDigit(s[k])
  {
    if |s| == 0 || !IsDigit(s[0]) then 0
    else
      var k := 1 + DigitPrefixLength(s[1..]);
      assert s[..k] == [s[0]] + s[1..][..k - 1];
      k
  }

  /** The digit prefix of a rendered number followed by a non-digit is exactly that number. */
  lemma {:induction false} DigitPrefixOfRendered(digits: string, rest: string)
    requires AllDigits(digits)
    requires |rest| == 0 || !IsDigit(rest[0])
    ensures DigitPrefixLength(digits + rest) == |digits|
  {
    if |digits| > 0 {
      assert (digits + rest)[1..] == digits[1..] + rest;
      DigitPrefixOfRendered(digits[1..], rest);
    }
  }

  /** Splits a leading decimal number off `s`: its value and what follows, or None without digits. */
  function ParseNatPrefix(s: string): (r: Option<(nat, string)>)
    ensures r.Some? ==> |r.value.1| < |s|
  {
    var k := DigitPrefixLength(s);
    if k == 0 then None else Some((ParseNat(s[..k]), s[k..]))
  }

  lemma ParseNatPrefixRendered(n: nat, rest: string)
    requires |rest| == 0 || !IsDigit(rest[0])
    ensures ParseNatPrefix(NatToString(n) + rest) == Some((n, rest))
  {
    var s := NatToString(n) + rest;
    DigitPrefixOfRendered(NatToString(n), rest);
    assert s[..|NatToString(n)|] == NatToString(n);
    assert s[|NatToString(n)|..] == rest;
    ParseNatToString(n);
  }
}
