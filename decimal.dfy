/**
 * Decimal text of integers as `StrCat`/`StrAppend` write them (an optional minus
 * sign, then digits without leading zeros), with the parse that undoes it.
 */
module Decimal {

  predicate IsDigit(ch: char) { '0' <= ch <= '9' }

  function DigitChar(d: nat): (ch: char)
    requires d < 10
    ensures IsDigit(ch)
  {
    ['0', '1', '2', '3', '4', '5', '6', '7', '8', '9'][d]
  }

  function DigitValue(ch: char): (d: nat)
    requires IsDigit(ch)
    ensures d < 10
  {
    (ch - '0') as nat
  }

  lemma DigitRoundTrip(d: nat)
    requires d < 10
    ensures DigitValue(DigitChar(d)) == d
  {
  }

  /** Digits of a natural number, most significant first. */
  function NatText(n: nat): (s: string)
    ensures |s| >= 1
    ensures forall i :: 0 <= i < |s| ==> IsDigit(s[i])
  {
    if n < 10 then [DigitChar(n)] else NatText(n / 10) + [DigitChar(n % 10)]
  }

  /** Decimal text of an integer. */
  function IntText(n: int): (s: string)
    ensures '_' !in s
  {
    NatTextHasNoSeparator(if n < 0 then -n else n);
    if n < 0 then "-" + NatText(-n) else NatText(n)
  }

  lemma NatTextHasNoSeparator(n: nat)
    ensures '_' !in NatText(n) && '-' !in NatText(n)
  {
    var s := NatText(n);
    assert forall i :: 0 <= i < |s| ==> s[i] != '_' && s[i] != '-';
  }

  /** The text of an integer starts with a minus sign exactly when the integer is negative. */
  lemma SignOfText(n: int)
    ensures |IntText(n)| >= 1
    ensures IntText(n)[0] == '-' <==> n < 0
  {
    if n >= 0 {
      assert IsDigit(NatText(n)[0]);
    }
  }

  /** Value of a string of digits. */
  function ParseNat(s: string): nat
    requires forall i :: 0 <= i < |s| ==> IsDigit(s[i])
  {
    if |s| == 0 then 0 else 10 * ParseNat(s[..|s| - 1]) + DigitValue(s[|s| - 1])
  }

  /** Parsing the digits of n gives back n. */
  lemma {:induction false} ParseNatText(n: nat)
    ensures ParseNat(NatText(n)) == n
  {
    var s := NatText(n);
    DigitRoundTrip(n % 10);
    if n >= 10 {
      ParseNatText(n / 10);
      assert s[..|s| - 1] == NatText(n / 10);
    } else {
      assert s[..|s| - 1] == [];
    }
  }

  /** Distinct natural numbers have distinct digit strings. */
  lemma NatTextInjective(a: nat, b: nat)
    requires NatText(a) == NatText(b)
    ensures a == b
  {
    ParseNatText(a);
    ParseNatText(b);
  }

  /** A common head can be cancelled. */
  lemma PrefixCancel(h: string, a: string, b: string)
    requires h + a == h + b
    ensures a == b
  {
    assert a == (h + a)[|h|..];
    assert b == (h + b)[|h|..];
  }

  /** Value of an integer's text: a leading minus sign negates the digits after it. */
  function ParseInt(s: string): int
    requires |s| >= 1
    requires s[0] == '-' ==> forall i :: 1 <= i < |s| ==> IsDigit(s[i])
    requires s[0] != '-' ==> forall i :: 0 <= i < |s| ==> IsDigit(s[i])
  {
    if s[0] == '-' then
      assert forall i :: 0 <= i < |s| - 1 ==> s[1..][i] == s[i + 1];
      -(ParseNat(s[1..]) as int)
    else
      ParseNat(s)
  }

  /** Parsing the text of n gives back n. */
  lemma ParseIntText(n: int)
    ensures |IntText(n)| >= 1
    ensures IntText(n)[0] == '-' ==> forall i :: 1 <= i < |IntText(n)| ==> IsDigit(IntText(n)[i])
    ensures IntText(n)[0] != '-' ==> forall i :: 0 <= i < |IntText(n)| ==> IsDigit(IntText(n)[i])
    ensures ParseInt(IntText(n)) == n
  {
    SignOfText(n);
    var m := if n < 0 then -n else n;
    ParseNatText(m);
    var d := NatText(m);
    if n < 0 {
      assert IntText(n) == "-" + d;
      assert ("-" + d)[1..] == d;
    } else {
      assert IntText(n) == d;
    }
  }

  /** Distinct integers have distinct decimal texts. */
  lemma IntTextInjective(a: int, b: int)
    requires IntText(a) == IntText(b)
    ensures a == b
  {
    ParseIntText(a);
    ParseIntText(b);
  }

  /** Position of the first `sep` in `w` (|w| when there is none). */
  function FirstSeparator(w: string, sep: char): (p: nat)
    ensures p <= |w|
  {
    if |w| == 0 || w[0] == sep then 0 else 1 + FirstSeparator(w[1..], sep)
  }

  lemma {:induction false} FirstSeparatorAfter(u: string, v: string, sep: char)
    requires sep !in u
    ensures FirstSeparator(u + ([sep] + v), sep) == |u|
  {
    if |u| > 0 {
      assert (u + ([sep] + v))[1..] == u[1..] + ([sep] + v);
      FirstSeparatorAfter(u[1..], v, sep);
    }
  }

  /**
   * Cutting at the first separator: if two strings without `sep` are followed by
   * `sep`, equal concatenations have equal heads and equal tails.
   */
  lemma SplitAtSeparator(u: string, v: string, u': string, v': string, sep: char)
    requires sep !in u && sep !in u'
    requires u + ([sep] + v) == u' + ([sep] + v')
    ensures u == u' && v == v'
  {
    var w := u + ([sep] + v);
    FirstSeparatorAfter(u, v, sep);
    FirstSeparatorAfter(u', v', sep);
    assert u == w[..|u|] == u';
    assert v == w[|u| + 1..] == v';
  }
}
