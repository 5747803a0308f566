/** String helpers that mirror the Python `str` methods the listener relies on:
    `startswith`, `lstrip`/`rstrip`/`strip` with a character set, `in`, and
    `replace(old, "")`. */
module Strings {

  predicate StartsWith(s: string, prefix: string) {
    |prefix| <= |s| && s[..|prefix|] == prefix
  }

  /** `s.lstrip(cs)`: drops the longest prefix made of characters in `cs`. */
  function LStrip(s: string, cs: set<char>): (r: string)
    ensures |r| <= |s| && r == s[|s| - |r|..]
    ensures r == [] || r[0] !in cs
    ensures forall i :: 0 <= i < |s| - |r| ==> s[i] in cs
    decreases |s|
  {
    if |s| > 0 && s[0] in cs then LStrip(s[1..], cs) else s
  }

  /** `s.rstrip(cs)`: drops the longest suffix made of characters in `cs`. */
  function RStrip(s: string, cs: set<char>): (r: string)
    ensures |r| <= |s| && r == s[..|r|]
    ensures r == [] || r[|r| - 1] !in cs
    ensures forall i :: |r| <= i < |s| ==> s[i] in cs
    decreases |s|
  {
    if |s| > 0 && s[|s| - 1] in cs then RStrip(s[..|s| - 1], cs) else s
  }

  /** `s.strip(cs)`. */
  function Strip(s: string, cs: set<char>): string {
    RStrip(LStrip(s, cs), cs)
  }

  /** A strip leaves the string empty exactly when every character is in the set. */
  lemma StripEmptyIff(s: string, cs: set<char>)
    ensures Strip(s, cs) == [] <==> forall i :: 0 <= i < |s| ==> s[i] in cs
  {
    var l := LStrip(s, cs);
    if l != [] {
      assert l[0] == s[|s| - |l|];
    }
  }

  /** A strip does not touch a string whose end characters are outside the set. */
  lemma StripUnchanged(s: string, cs: set<char>)
    requires s == [] || (s[0] !in cs && s[|s| - 1] !in cs)
    ensures Strip(s, cs) == s
  {
  }

  /** Python's `pattern in s`. */
  predicate Contains(s: string, pattern: string)
    decreases |s|
  {
    StartsWith(s, pattern) || (|s| > 0 && Contains(s[1..], pattern))
  }

  /** `s.replace(pattern, "")`: every non-overlapping occurrence, scanned left to
      right, is removed. */
  function RemoveAll(s: string, pattern: string): (r: string)
    requires |pattern| > 0
    ensures |r| <= |s|
    decreases |s|
  {
    if |s| < |pattern| then s
    else if s[..|pattern|] == pattern then RemoveAll(s[|pattern|..], pattern)
    else [s[0]] + RemoveAll(s[1..], pattern)
  }

  /** Removing a pattern that does not occur leaves the string unchanged. */
  lemma {:induction false} RemoveAllAbsent(s: string, pattern: string)
    requires |pattern| > 0 && !Contains(s, pattern)
    ensures RemoveAll(s, pattern) == s
    decreases |s|
  {
    if |s| >= |pattern| {
      assert !StartsWith(s, pattern);
      RemoveAllAbsent(s[1..], pattern);
      assert s == [s[0]] + s[1..];
    }
  }

  /** An occurrence of the longer pattern is also one of its prefix. */
  lemma {:induction false} ContainsPrefixPattern(s: string, longer: string, shorter: string)
    requires StartsWith(longer, shorter) && Contains(s, longer)
    ensures Contains(s, shorter)
    decreases |s|
  {
    if !StartsWith(s, longer) {
      ContainsPrefixPattern(s[1..], longer, shorter);
    } else {
      assert s[..|shorter|] == longer[..|shorter|];
    }
  }

  /** A leading occurrence is removed and the scan goes on after it. */
  lemma RemoveAllHead(pattern: string, rest: string)
    requires |pattern| > 0
    ensures RemoveAll(pattern + rest, pattern) == RemoveAll(rest, pattern)
  {
    var s := pattern + rest;
    assert s[..|pattern|] == pattern && s[|pattern|..] == rest;
  }

  /** No occurrence of `pattern` starts before position `n`. */
  ghost predicate NoMatchBefore(s: string, n: nat, pattern: string)
    requires n <= |s|
  {
    forall k :: 0 <= k < n ==> !StartsWith(s[k..], pattern)
  }

  /** Characters where no occurrence starts are kept as they are. */
  lemma {:induction false} RemoveAllSkip(s: string, n: nat, pattern: string)
    requires |pattern| > 0 && n <= |s| && NoMatchBefore(s, n, pattern)
    ensures RemoveAll(s, pattern) == s[..n] + RemoveAll(s[n..], pattern)
    decreases n
  {
    if n > 0 {
      var t := s[1..];
      NoMatchShift(s, n, pattern);
      RemoveAllSkip(t, n - 1, pattern);
      RemoveAllKeepsHead(s, pattern);
      SkipOne(s, n);
    }
  }

  lemma SkipOne(s: string, n: nat)
    requires 0 < n <= |s|
    ensures s[..n] == [s[0]] + s[1..][..n - 1] && s[1..][n - 1..] == s[n..]
  {
  }

  /** Where no occurrence starts, the first character is kept. */
  lemma RemoveAllKeepsHead(s: string, pattern: string)
    requires |pattern| > 0 && |s| > 0 && !StartsWith(s, pattern)
    ensures RemoveAll(s, pattern) == [s[0]] + RemoveAll(s[1..], pattern)
  {
    if |s| < |pattern| {
      RemoveAllShort(s, pattern);
      RemoveAllShort(s[1..], pattern);
      assert s == [s[0]] + s[1..];
    }
  }

  lemma NoMatchShift(s: string, n: nat, pattern: string)
    requires 0 < n <= |s| && NoMatchBefore(s, n, pattern)
    ensures NoMatchBefore(s[1..], n - 1, pattern) && !StartsWith(s, pattern)
  {
    var t := s[1..];
    assert s[0..] == s;
    forall k | 0 <= k < n - 1 ensures !StartsWith(t[k..], pattern) {
      assert t[k..] == s[k + 1..];
    }
  }

  lemma RemoveAllShort(s: string, pattern: string)
    requires 0 < |pattern| && |s| < |pattern|
    ensures RemoveAll(s, pattern) == s
  {
  }

  /** Python's `s[:n]`. */
  function Take(s: string, n: nat): (r: string)
    ensures |r| == if |s| < n then |s| else n
    ensures r == s[..|r|]
  {
    if |s| <= n then s else s[..n]
  }
}
