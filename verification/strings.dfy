/**
  String helpers that stand in for the PHP built-ins the template code uses
  (`strpos`, `str_replace`, `implode`, `str_repeat`, `substr_count`, integer
  to string conversion).  Strings are `seq<char>`; the multibyte functions
  (`mb_strpos`, `mb_substr`) become plain sequence operations.
 */
module Strings {
  import opened Errors

  /** `pat` occurs in `s` starting at index `i`. */
  predicate At(s: string, pat: string, i: int) {
    0 <= i && i + |pat| <= |s| && s[i..i + |pat|] == pat
  }

  /** The first occurrence of `pat` at or after `from` (PHP `strpos` with an offset). */
  function IndexFrom(s: string, pat: string, from: nat): (r: Option<nat>)
    ensures r.Some? ==> from <= r.value && At(s, pat, r.value)
    ensures r.Some? ==> forall j :: from <= j < r.value ==> !At(s, pat, j)
    ensures r.None? ==> forall j :: from <= j ==> !At(s, pat, j)
    decreases |s| - from
  {
    if from + |pat| > |s| then None
    else if s[from..from + |pat|] == pat then Some(from)
    else IndexFrom(s, pat, from + 1)
  }

  /** An occurrence with none before it, from `from` on, is the one `IndexFrom` finds. */
  lemma IndexFromFinds(s: string, pat: string, from: nat, p: nat)
    requires from <= p && At(s, pat, p)
    requires forall j :: from <= j < p ==> !At(s, pat, j)
    ensures IndexFrom(s, pat, from) == Some(p)
  {
  }

  /** PCRE's `\s` without the `u` flag: space, tab, newline, vertical tab, form feed, carriage return. */
  predicate IsSpace(c: char) {
    c == ' ' || c == '\t' || c == '\n' || c as int == 11 || c as int == 12 || c == '\r'
  }

  /** Length of the longest run of `\s` characters starting at `i` (the greedy `\s*`). */
  function SpaceRun(s: string, i: nat): (n: nat)
    requires i <= |s|
    ensures i + n <= |s|
    ensures forall k :: i <= k < i + n ==> IsSpace(s[k])
    ensures i + n == |s| || !IsSpace(s[i + n])
    decreases |s| - i
  {
    if i < |s| && IsSpace(s[i]) then 1 + SpaceRun(s, i + 1) else 0
  }

  /** Number of newline characters (`substr_count($s, "\n")`). */
  function Newlines(s: string): nat {
    if |s| == 0 then 0 else (if s[0] == '\n' then 1 else 0) + Newlines(s[1..])
  }

  lemma {:induction false} NewlinesAppend(a: string, b: string)
    ensures Newlines(a + b) == Newlines(a) + Newlines(b)
  {
    if |a| == 0 {
      assert a + b == b;
    } else {
      assert (a + b)[1..] == a[1..] + b;
      NewlinesAppend(a[1..], b);
    }
  }

  /** Counting newlines of a prefix that grows by one segment. */
  lemma NewlinesSplit(s: string, i: nat, j: nat)
    requires i <= j <= |s|
    ensures Newlines(s[..j]) == Newlines(s[..i]) + Newlines(s[i..j])
  {
    assert s[..j] == s[..i] + s[i..j];
    NewlinesAppend(s[..i], s[i..j]);
  }

  lemma NewlinesBounded(s: string, j: nat)
    requires j <= |s|
    ensures Newlines(s[..j]) <= Newlines(s)
  {
    NewlinesSplit(s, j, |s|);
    assert s[..|s|] == s;
  }

  /** `str_repeat("\t", n)`. */
  function Tabs(n: nat): (r: string)
    ensures |r| == n && forall k :: 0 <= k < n ==> r[k] == '\t'
  {
    if n == 0 then "" else "\t" + Tabs(n - 1)
  }

  /** `implode($sep, $parts)`. */
  function Join(parts: seq<string>, sep: string): string {
    if |parts| == 0 then ""
    else if |parts| == 1 then parts[0]
    else parts[0] + sep + Join(parts[1..], sep)
  }

  /** `str_replace($pat, $rep, $s)`: leftmost, non-overlapping replacement. */
  function ReplaceAll(s: string, pat: string, rep: string): string
    requires |pat| > 0
    decreases |s|
  {
    if |s| < |pat| then s
    else if s[..|pat|] == pat then rep + ReplaceAll(s[|pat|..], pat, rep)
    else [s[0]] + ReplaceAll(s[1..], pat, rep)
  }

  lemma {:induction false} ReplaceAllAbsent(s: string, pat: string, rep: string)
    requires |pat| > 0
    requires forall j :: !At(s, pat, j)
    ensures ReplaceAll(s, pat, rep) == s
    decreases |s|
  {
    if |s| < |pat| {
    } else {
      assert !At(s, pat, 0);
      forall j ensures !At(s[1..], pat, j) {
        if At(s[1..], pat, j) {
          assert s[1..][j..j + |pat|] == s[j + 1..j + 1 + |pat|];
          assert At(s, pat, j + 1);
        }
      }
      ReplaceAllAbsent(s[1..], pat, rep);
    }
  }

  /** A replacement whose result never contains the replaced character. */
  lemma {:induction false} ReplaceCharRemoves(s: string, c: char, d: char)
    requires c != d
    ensures c !in ReplaceAll(s, [c], [d])
    decreases |s|
  {
    if |s| < 1 {
    } else {
      ReplaceCharRemoves(s[1..], c, d);
    }
  }

  function DigitChar(d: nat): char
    requires d < 10
  {
    "0123456789"[d]
  }

  /** Decimal form of a natural number, as PHP prints an integer. */
  function NatToString(n: nat): (r: string)
    ensures |r| > 0
    ensures forall k :: 0 <= k < |r| ==> '0' <= r[k] <= '9'
    decreases n
  {
    if n < 10 then [DigitChar(n)] else NatToString(n / 10) + [DigitChar(n % 10)]
  }

  /** Decimal form of an integer (`(string) $i`). */
  function IntToString(i: int): string {
    if i < 0 then "-" + NatToString(-i) else NatToString(i)
  }

  predicate IsDigit(c: char) {
    '0' <= c <= '9'
  }

  /** The value of a string of decimal digits. */
  function DigitsValue(s: string): nat
    requires forall k :: 0 <= k < |s| ==> IsDigit(s[k])
    decreases |s|
  {
    if |s| == 0 then 0 else DigitsValue(s[..|s| - 1]) * 10 + DigitValue(s[|s| - 1])
  }

  function DigitValue(c: char): nat
    requires IsDigit(c)
  {
    c as int - '0' as int
  }

  /** Printing a natural number and reading it back gives the number. */
  lemma {:induction false} NatToStringRoundTrip(n: nat)
    ensures DigitsValue(NatToString(n)) == n
    decreases n
  {
    var r := NatToString(n);
    if n < 10 {
      assert r == [DigitChar(n)];
    } else {
      NatToStringRoundTrip(n / 10);
      assert r[..|r| - 1] == NatToString(n / 10);
    }
  }

  /** The three parts of a concatenation can be cut back out of it. */
  lemma Split3<T>(a: seq<T>, b: seq<T>, c: seq<T>)
    ensures |a + b + c| == |a| + |b| + |c|
    ensures (a + b + c)[|a + b + c| - |c|..] == c && (a + b + c)[|a|..|a| + |b|] == b
  {
    assert (a + b + c)[|a| + |b|..] == c;
  }

  /** Appending an element, then a sequence, is appending the element's one-element sequence joined to it. */
  lemma AppendCons<T>(a: seq<T>, x: T, b: seq<T>)
    ensures a + [x] + b == a + ([x] + b)
  {
  }
}
