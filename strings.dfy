/**
 * The string tests the classifier is built from: prefix, suffix and
 * substring tests, the trailing `\.[a-zA-Z0-9]+$` pattern, and the
 * code-point order jq's `unique` sorts strings by.
 */
module Strings {

  predicate IsPrefix(p: string, s: string) {
    |p| <= |s| && s[..|p|] == p
  }

  /** Ruby `s.match?(/<suffix>$/)` on a single-line string. */
  predicate EndsWith(s: string, suffix: string) {
    |suffix| <= |s| && s[|s| - |suffix|..] == suffix
  }

  /** Ruby `s.include?(t)`: t occurs somewhere in s. */
  predicate Contains(s: string, t: string) {
    exists i :: 0 <= i <= |s| && IsPrefix(t, s[i..])
  }

  /** A substring that uses a character s lacks cannot occur in s. */
  lemma NotContainsMissingChar(s: string, t: string, c: char)
    requires c in t && c !in s
    ensures !Contains(s, t)
  {
    var k :| 0 <= k < |t| && t[k] == c;
    forall i | 0 <= i <= |s| && |t| <= |s| - i
      ensures s[i..][..|t|] != t
    {
      assert s[i..][..|t|][k] == s[i + k];
    }
  }

  /** t occurs in s at position i when their characters agree there. */
  lemma ContainsByChars(s: string, t: string, i: nat)
    requires i + |t| <= |s| && forall k :: 0 <= k < |t| ==> s[i + k] == t[k]
    ensures Contains(s, t)
  {
    assert s[i..][..|t|] == t;
    assert IsPrefix(t, s[i..]);
  }

  /** s ends with suffix when their last characters agree. */
  lemma EndsWithByChars(s: string, suffix: string)
    requires |suffix| <= |s| && forall k :: 0 <= k < |suffix| ==> s[|s| - |suffix| + k] == suffix[k]
    ensures EndsWith(s, suffix)
  {
    assert s[|s| - |suffix|..] == suffix;
  }

  /** A string whose k-th character from the end differs from the suffix's does not end with it. */
  lemma NotEndsWithAt(s: string, suffix: string, k: nat)
    requires k < |suffix| && k < |s| && s[|s| - 1 - k] != suffix[|suffix| - 1 - k]
    ensures !EndsWith(s, suffix)
  {
    if |suffix| <= |s| {
      assert s[|s| - |suffix|..][|suffix| - 1 - k] == s[|s| - 1 - k];
    }
  }

  /** The character class `[a-zA-Z0-9]`. */
  predicate IsAlnum(c: char) {
    ('a' <= c <= 'z') || ('A' <= c <= 'Z') || ('0' <= c <= '9')
  }

  /** The pattern `\.[a-zA-Z0-9]+$`: a dot followed by one or more alphanumerics at the end. */
  ghost predicate MatchesDottedExtension(s: string) {
    exists k :: 0 <= k < |s| - 1 && s[k] == '.' && forall j :: k < j < |s| ==> IsAlnum(s[j])
  }

  /** The length of the longest alphanumeric suffix of s. */
  function TrailingAlnumCount(s: string): (n: nat)
    ensures n <= |s|
    ensures forall j :: |s| - n <= j < |s| ==> IsAlnum(s[j])
    ensures n < |s| ==> !IsAlnum(s[|s| - 1 - n])
  {
    if |s| == 0 || !IsAlnum(s[|s| - 1]) then 0
    else 1 + TrailingAlnumCount(s[..|s| - 1])
  }

  /** Computable test for `\.[a-zA-Z0-9]+$`. */
  predicate HasDottedExtension(s: string) {
    var n := TrailingAlnumCount(s);
    0 < n < |s| && s[|s| - 1 - n] == '.'
  }

  lemma DottedExtensionMatchesPattern(s: string)
    ensures HasDottedExtension(s) <==> MatchesDottedExtension(s)
  {
    var n := TrailingAlnumCount(s);
    if HasDottedExtension(s) {
      var k := |s| - 1 - n;
      assert 0 <= k < |s| - 1 && s[k] == '.' && forall j :: k < j < |s| ==> IsAlnum(s[j]);
    }
    if MatchesDottedExtension(s) {
      var k :| 0 <= k < |s| - 1 && s[k] == '.' && forall j :: k < j < |s| ==> IsAlnum(s[j]);
      assert !IsAlnum(s[k]);
      assert n == |s| - 1 - k;
    }
  }

  /** Strict code-point (lexicographic) order on strings: the order jq sorts strings by. */
  predicate Less(a: string, b: string)
    decreases |a|
  {
    |b| > 0 && (|a| == 0 || a[0] < b[0] || (a[0] == b[0] && Less(a[1..], b[1..])))
  }

  lemma {:induction false} LessIrreflexive(a: string)
    ensures !Less(a, a)
    decreases |a|
  {
    if |a| > 0 { LessIrreflexive(a[1..]); }
  }

  lemma {:induction false} LessTransitive(a: string, b: string, c: string)
    requires Less(a, b) && Less(b, c)
    ensures Less(a, c)
    decreases |a|
  {
    if |a| > 0 && a[0] == b[0] && b[0] == c[0] {
      LessTransitive(a[1..], b[1..], c[1..]);
    }
  }

  lemma {:induction false} LessTotal(a: string, b: string)
    requires a != b
    ensures Less(a, b) || Less(b, a)
    decreases |a|
  {
    if |a| > 0 && |b| > 0 && a[0] == b[0] {
      assert a == [a[0]] + a[1..] && b == [b[0]] + b[1..];
      LessTotal(a[1..], b[1..]);
    }
  }

  lemma LessAsymmetric(a: string, b: string)
    ensures Less(a, b) ==> !Less(b, a)
  {
    if Less(a, b) && Less(b, a) {
      LessTransitive(a, b, a);
      LessIrreflexive(a);
    }
  }
}
