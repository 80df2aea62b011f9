/** Text helpers: decimal rendering of naturals (Python's `str(int)` / f-string `{n}`),
    reading a trailing decimal back, substring search (Python's `k in s`) and
    ASCII upper-casing (Python's `str.upper` restricted to ASCII letters). */
module Strings {

  predicate IsDigit(c: char) {
    '0' <= c <= '9'
  }

  predicate AllDigits(s: string) {
    forall i :: 0 <= i < |s| ==> IsDigit(s[i])
  }

  function DigitChar(d: nat): (c: char)
    requires d < 10
    ensures IsDigit(c) && c as int - '0' as int == d
  {
    ('0' as int + d) as char
  }

  function DigitValue(c: char): (d: nat)
    requires IsDigit(c)
    ensures d < 10 && DigitChar(d) == c
  {
    c as int - '0' as int
  }

  /** Decimal rendering without leading zeros. */
  function NatToString(n: nat): (s: string)
    ensures |s| > 0 && AllDigits(s)
    ensures s[0] == '0' ==> n == 0
    decreases n
  {
    if n < 10 then [DigitChar(n)] else NatToString(n / 10) + [DigitChar(n % 10)]
  }

  /** The number a string of decimal digits denotes. */
  function ParseNat(s: string): (n: nat)
    requires AllDigits(s)
  {
    if s == [] then 0 else 10 * ParseNat(s[..|s| - 1]) + DigitValue(s[|s| - 1])
  }

  lemma {:induction false} ParseNatToString(n: nat)
    ensures ParseNat(NatToString(n)) == n
  {
    if n >= 10 {
      var s := NatToString(n);
      assert s[..|s| - 1] == NatToString(n / 10);
      ParseNatToString(n / 10);
    }
  }

  /** The longest suffix of `s` made only of digits. */
  function TrailingDigits(s: string): (d: string)
    ensures |d| <= |s| && d == s[|s| - |d|..]
    ensures AllDigits(d)
    ensures |d| < |s| ==> !IsDigit(s[|s| - |d| - 1])
  {
    if s != [] && IsDigit(s[|s| - 1]) then TrailingDigits(s[..|s| - 1]) + [s[|s| - 1]] else []
  }

  /** TrailingDigits reaches back over any digits that end the string. */
  lemma {:induction false} TrailingDigitsCovers(s: string, n: nat)
    requires n <= |s|
    requires forall k :: |s| - n <= k < |s| ==> IsDigit(s[k])
    ensures |TrailingDigits(s)| >= n
    decreases n
  {
    if n > 0 {
      TrailingDigitsCovers(s[..|s| - 1], n - 1);
    }
  }

  /** A non-digit lies before the digits TrailingDigits finds. */
  lemma NonDigitBeforeTrailing(s: string, k: int)
    requires 0 <= k < |s| && !IsDigit(s[k])
    ensures k < |s| - |TrailingDigits(s)|
  {
    TrailingAreDigits(s);
  }

  lemma TrailingAreDigits(s: string)
    ensures forall k :: |s| - |TrailingDigits(s)| <= k < |s| ==> IsDigit(s[k])
  {
    var d := TrailingDigits(s);
    forall k | |s| - |d| <= k < |s| ensures IsDigit(s[k]) {
      assert s[k] == d[k - (|s| - |d|)];
    }
  }

  /** A run of digits written right after a non-digit is exactly what TrailingDigits finds. */
  lemma TrailingDigitsAfter(p: string, d: string)
    requires AllDigits(d)
    requires p == [] || !IsDigit(p[|p| - 1])
    ensures TrailingDigits(p + d) == d
  {
    var s := p + d;
    TrailingDigitsCovers(s, |d|);
    if p != [] {
      assert s[|p| - 1] == p[|p| - 1];
      NonDigitBeforeTrailing(s, |p| - 1);
    }
    assert |TrailingDigits(s)| == |d|;
    assert s[|s| - |d|..] == d;
  }

  /** Appending to a string leaves its first `n` characters alone. */
  lemma PrefixOfConcat(a: string, b: string, n: nat)
    requires n <= |a|
    ensures (a + b)[..n] == a[..n]
  {
  }

  /** `sub` occurs in `s` starting at index `i`. */
  ghost predicate OccursAt(s: string, sub: string, i: int) {
    0 <= i && i + |sub| <= |s| && s[i..i + |sub|] == sub
  }

  /** Python's substring test `sub in s`. */
  function Contains(s: string, sub: string): (b: bool)
    ensures b <==> exists i :: OccursAt(s, sub, i)
    decreases |s|
  {
    if |sub| > |s| then false
    else if s[..|sub|] == sub then
      assert OccursAt(s, sub, 0);
      true
    else
      ContainsShift(s, sub);
      Contains(s[1..], sub)
  }

  /** Occurrences after the first position are the occurrences in the tail. */
  lemma ContainsShift(s: string, sub: string)
    requires |s| > 0 && !OccursAt(s, sub, 0)
    ensures (exists i :: OccursAt(s, sub, i)) <==> (exists i :: OccursAt(s[1..], sub, i))
  {
    if exists i :: OccursAt(s, sub, i) {
      var i :| OccursAt(s, sub, i);
      assert s[1..][i - 1..i - 1 + |sub|] == s[i..i + |sub|];
      assert OccursAt(s[1..], sub, i - 1);
    }
    if exists i :: OccursAt(s[1..], sub, i) {
      var i :| OccursAt(s[1..], sub, i);
      assert s[i + 1..i + 1 + |sub|] == s[1..][i..i + |sub|];
      assert OccursAt(s, sub, i + 1);
    }
  }

  function UpperChar(c: char): char {
    if 'a' <= c <= 'z' then (c as int - 32) as char else c
  }

  predicate IsUpper(s: string) {
    forall i :: 0 <= i < |s| ==> UpperChar(s[i]) == s[i]
  }

  /** Upper-case every ASCII letter, leave every other character alone. */
  function Upper(s: string): (r: string)
    ensures |r| == |s| && IsUpper(r)
    ensures forall i :: 0 <= i < |s| ==> r[i] == UpperChar(s[i])
  {
    if s == [] then [] else [UpperChar(s[0])] + Upper(s[1..])
  }

  /** Upper-casing twice is upper-casing once; an upper-case string is a fixed point. */
  lemma UpperFixesUpper(s: string)
    requires IsUpper(s)
    ensures Upper(s) == s
  {
  }

  /** An occurrence survives upper-casing: a title that contains a keyword in any
      letter case contains its upper-case form once upper-cased. */
  lemma UpperKeepsOccurrence(s: string, sub: string, i: int)
    requires OccursAt(s, sub, i)
    ensures OccursAt(Upper(s), Upper(sub), i)
  {
    var u := Upper(s);
    assert u[i..i + |sub|] == Upper(sub) by {
      forall k | 0 <= k < |sub| ensures u[i..i + |sub|][k] == Upper(sub)[k] {
        assert s[i + k] == sub[k];
      }
    }
  }

  lemma EmptyContainsNothing(sub: string)
    requires |sub| > 0
    ensures !Contains([], sub)
  {
  }
}
