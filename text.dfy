/** String helpers: decimal rendering of integers (ids, day counts,
    summary counts) and the substring test behind `String.includes`. */
module Text {

  function DigitChar(d: nat): char
    requires d < 10
  {
    "0123456789"[d]
  }

  /** Decimal digits of n, without leading zeros. */
  function NatToString(n: nat): (s: string)
    ensures |s| >= 1
    decreases n
  {
    if n < 10 then [DigitChar(n)] else NatToString(n / 10) + [DigitChar(n % 10)]
  }

  /** Template-literal rendering of an integer. */
  function IntToString(i: int): string {
    if i < 0 then "-" + NatToString(-i) else NatToString(i)
  }

  /** sub occurs in s at some position i or later. */
  predicate ContainsFrom(s: string, sub: string, i: nat)
    decreases |s| - i
  {
    i + |sub| <= |s| && (s[i..i + |sub|] == sub || ContainsFrom(s, sub, i + 1))
  }

  /** `s.includes(sub)`. */
  predicate Contains(s: string, sub: string) {
    ContainsFrom(s, sub, 0)
  }

  predicate EndsWith(s: string, suffix: string) {
    |suffix| <= |s| && s[|s| - |suffix|..] == suffix
  }

  /** A position where sub matches gives containment from any earlier start. */
  lemma {:induction false} MatchAtContains(s: string, sub: string, i: nat, j: nat)
    requires i <= j && j + |sub| <= |s| && s[j..j + |sub|] == sub
    ensures ContainsFrom(s, sub, i)
    decreases j - i
  {
    if i < j {
      MatchAtContains(s, sub, i + 1, j);
    }
  }

  lemma PrefixContains(s: string, sub: string)
    requires sub <= s
    ensures Contains(s, sub)
  {
    MatchAtContains(s, sub, 0, 0);
  }

  /** If the first two characters of sub never occur side by side in s from
      position i on, sub does not occur there. */
  lemma {:induction false} NoPairNoMatch(s: string, sub: string, i: nat)
    requires |sub| >= 2
    requires forall j | i <= j < |s| - 1 :: !(s[j] == sub[0] && s[j + 1] == sub[1])
    ensures !ContainsFrom(s, sub, i)
    decreases |s| - i
  {
    if i + |sub| <= |s| {
      assert s[i..i + |sub|][0] == s[i] && s[i..i + |sub|][1] == s[i + 1];
      assert sub[0] == s[i..i + |sub|][0] ==> sub[1] != s[i..i + |sub|][1];
      NoPairNoMatch(s, sub, i + 1);
    }
  }

  /** A character of sub that s lacks keeps sub out of s. */
  lemma {:induction false} AbsentCharNoMatch(s: string, sub: string, i: nat, k: nat)
    requires k < |sub| && sub[k] !in s
    ensures !ContainsFrom(s, sub, i)
    decreases |s| - i
  {
    if i + |sub| <= |s| {
      assert s[i..i + |sub|][k] == s[i + k];
      AbsentCharNoMatch(s, sub, i + 1, k);
    }
  }

  /** The characters c0, c1 never occur side by side in s. */
  predicate NoPair(s: string, c0: char, c1: char) {
    forall j | 0 <= j < |s| - 1 :: !(s[j] == c0 && s[j + 1] == c1)
  }

  lemma AbsentNoPair(s: string, c0: char, c1: char)
    requires c0 !in s
    ensures NoPair(s, c0, c1)
  {
  }

  /** A pair absent from both parts and from their seam is absent from the whole. */
  lemma NoPairConcat(a: string, b: string, c0: char, c1: char)
    requires NoPair(a, c0, c1) && NoPair(b, c0, c1)
    requires a != [] && b != [] ==> !(a[|a| - 1] == c0 && b[0] == c1)
    ensures NoPair(a + b, c0, c1)
  {
    forall j | 0 <= j < |a + b| - 1
      ensures !((a + b)[j] == c0 && (a + b)[j + 1] == c1)
    {
      if j + 1 < |a| {
        assert (a + b)[j] == a[j] && (a + b)[j + 1] == a[j + 1];
      } else if j >= |a| {
        assert (a + b)[j] == b[j - |a|] && (a + b)[j + 1] == b[j + 1 - |a|];
      }
    }
  }
}
