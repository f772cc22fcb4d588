/**
 The Python `str` operations the core relies on: `find`, `in`, `startswith`,
 `split(sep)`, `sep.join(parts)` and `strip()`. Strings are sequences of
 Unicode scalar values, as Python strings are sequences of code points.
 */
module Text {
  import opened Wrappers

  /** `pat` occurs in `s` starting at index `i`. */
  predicate OccursAt(s: string, pat: string, i: nat) {
    i + |pat| <= |s| && s[i..i + |pat|] == pat
  }

  /** Python's `pat in s`. */
  predicate Contains(s: string, pat: string) {
    exists i: nat | i <= |s| :: OccursAt(s, pat, i)
  }

  /** Python's `s.startswith(prefix)`. */
  predicate StartsWith(s: string, prefix: string) {
    |prefix| <= |s| && s[..|prefix|] == prefix
  }

  /** Text appended after a prefix does not disturb it. */
  lemma StartsWithExtension(s: string, t: string, prefix: string)
    requires StartsWith(s, prefix)
    ensures StartsWith(s + t, prefix)
  {
    assert (s + t)[..|prefix|] == s[..|prefix|];
  }

  /** Python's `s.find(pat, start)`, with `None` for -1: the first occurrence at or after `start`. */
  function FindFrom(s: string, pat: string, start: nat): (r: Option<nat>)
    requires |pat| > 0
    ensures r.Some? ==> start <= r.value && OccursAt(s, pat, r.value)
    ensures forall j: nat :: start <= j && (r.None? || j < r.value) ==> !OccursAt(s, pat, j)
    decreases |s| - start
  {
    if start + |pat| > |s| then None
    else if OccursAt(s, pat, start) then Some(start)
    else FindFrom(s, pat, start + 1)
  }

  /** `find` answers exactly the question `in` asks. */
  lemma FindIffContains(s: string, pat: string)
    requires |pat| > 0
    ensures FindFrom(s, pat, 0).Some? <==> Contains(s, pat)
  {
    if FindFrom(s, pat, 0).Some? {
      assert OccursAt(s, pat, FindFrom(s, pat, 0).value);
    }
  }

  /** Python's `s.split(sep)` for a non-empty separator: the pieces between non-overlapping occurrences, left to right. */
  function Split(s: string, sep: string): (parts: seq<string>)
    requires |sep| > 0
    ensures |parts| >= 1
    decreases |s|
  {
    match FindFrom(s, sep, 0)
    case None => [s]
    case Some(i) => [s[..i]] + Split(s[i + |sep|..], sep)
  }

  /** Python's `sep.join(parts)`. */
  function Join(parts: seq<string>, sep: string): string
    decreases |parts|
  {
    if |parts| == 0 then ""
    else if |parts| == 1 then parts[0]
    else parts[0] + sep + Join(parts[1..], sep)
  }

  /** Joining the pieces of a split with the same separator gives back the original string. */
  lemma {:induction false} JoinSplit(s: string, sep: string)
    requires |sep| > 0
    ensures Join(Split(s, sep), sep) == s
    decreases |s|
  {
    match FindFrom(s, sep, 0)
    case None =>
    case Some(i) =>
      var rest := s[i + |sep|..];
      var parts := Split(rest, sep);
      var whole := [s[..i]] + parts;
      assert Split(s, sep) == whole;
      assert Join(whole, sep) == s[..i] + sep + Join(parts, sep) by {
        assert whole[1..] == parts;
      }
      JoinSplit(rest, sep);
      assert s == s[..i] + sep + rest by {
        assert s[i..i + |sep|] == sep;
        assert s == s[..i] + s[i..i + |sep|] + rest;
      }
  }

  /** No piece of a split contains the separator. */
  lemma {:induction false} SplitPiecesFree(s: string, sep: string, k: nat)
    requires |sep| > 0 && k < |Split(s, sep)|
    ensures !Contains(Split(s, sep)[k], sep)
    decreases |s|
  {
    match FindFrom(s, sep, 0)
    case None =>
      FindIffContains(s, sep);
    case Some(i) =>
      if k == 0 {
        forall j: nat | j <= i
          ensures !OccursAt(s[..i], sep, j)
        {
          if j + |sep| <= i {
            assert !OccursAt(s, sep, j);
            assert s[..i][j..j + |sep|] == s[j..j + |sep|];
          }
        }
      } else {
        SplitPiecesFree(s[i + |sep|..], sep, k - 1);
      }
  }

  /** The first piece of a split runs up to the first occurrence of the separator, or to the end. */
  lemma SplitFirstPiece(s: string, sep: string) returns (a: nat)
    requires |sep| > 0
    ensures a <= |s| && Split(s, sep)[0] == s[..a]
    ensures forall j: nat :: j < a ==> !OccursAt(s, sep, j)
    ensures a == |s| || OccursAt(s, sep, a)
  {
    match FindFrom(s, sep, 0)
    case None => a := |s|;
    case Some(k) => a := k;
  }

  /** A split yields more than one piece exactly when the separator occurs. */
  lemma SplitSeveralIffContains(s: string, sep: string)
    requires |sep| > 0
    ensures |Split(s, sep)| >= 2 <==> Contains(s, sep)
  {
    FindIffContains(s, sep);
  }

  /** Plain concatenation of the pieces, front to back. */
  function Concat(parts: seq<string>): string
    decreases |parts|
  {
    if |parts| == 0 then "" else parts[0] + Concat(parts[1..])
  }

  /** `"".join(parts)` puts nothing between the pieces: it is their plain concatenation. */
  lemma {:induction false} JoinEmptySeparator(parts: seq<string>)
    ensures Join(parts, "") == Concat(parts)
    decreases |parts|
  {
    if |parts| > 1 {
      JoinEmptySeparator(parts[1..]);
      assert Concat(parts[1..]) == parts[1] + Concat(parts[2..]);
    } else if |parts| == 1 {
      assert Concat(parts[1..]) == "";
    }
  }

  /** Python's `str.isspace()` for one character (the same set `\s` matches in a `str` pattern). */
  predicate IsSpace(c: char) {
    var n := c as int;
    (9 <= n <= 13) || (28 <= n <= 32) || n == 0x85 || n == 0xA0 || n == 0x1680
    || (0x2000 <= n <= 0x200A) || n == 0x2028 || n == 0x2029 || n == 0x202F
    || n == 0x205F || n == 0x3000
  }

  /** The length of the longest prefix of `s` whose characters all satisfy `p`. */
  function CountWhile(s: string, p: char -> bool): (n: nat)
    ensures n <= |s|
    ensures forall k :: 0 <= k < n ==> p(s[k])
    ensures n == |s| || !p(s[n])
    decreases |s|
  {
    if |s| > 0 && p(s[0]) then 1 + CountWhile(s[1..], p) else 0
  }

  /** The length of the longest suffix of `s` whose characters all satisfy `p`. */
  function CountWhileFromEnd(s: string, p: char -> bool): (n: nat)
    ensures n <= |s|
    ensures forall k :: |s| - n <= k < |s| ==> p(s[k])
    ensures n == |s| || !p(s[|s| - 1 - n])
    decreases |s|
  {
    if |s| > 0 && p(s[|s| - 1]) then 1 + CountWhileFromEnd(s[..|s| - 1], p) else 0
  }

  /** `s` is `r` placed at index `a` with nothing but whitespace around it. */
  ghost predicate IsPaddedAt(s: string, r: string, a: nat) {
    && a + |r| <= |s| && s[a..a + |r|] == r
    && (forall k :: 0 <= k < a ==> IsSpace(s[k]))
    && (forall k :: a + |r| <= k < |s| ==> IsSpace(s[k]))
  }

  /** Python's `s.strip()`: drop leading and trailing whitespace. */
  function Strip(s: string): (r: string)
    ensures r != "" ==> !IsSpace(r[0]) && !IsSpace(r[|r| - 1])
    ensures r == "" <==> forall k :: 0 <= k < |s| ==> IsSpace(s[k])
    ensures exists a :: IsPaddedAt(s, r, a)
  {
    var a := CountWhile(s, IsSpace);
    var rest := s[a..];
    var b := CountWhileFromEnd(rest, IsSpace);
    var r := rest[..|rest| - b];
    assert s[a..a + |r|] == r;
    assert forall k :: a + |r| <= k < |s| ==> s[k] == rest[k - a];
    assert IsPaddedAt(s, r, a);
    r
  }

  /** Stripping twice is stripping once: a stripped string has no surrounding whitespace left. */
  lemma StripIdempotent(s: string)
    ensures Strip(Strip(s)) == Strip(s)
  {
    var r := Strip(s);
    if r != "" {
      NoSurroundingSpaceStrips(r);
    }
  }

  /** A string that neither starts nor ends with whitespace is its own strip. */
  lemma NoSurroundingSpaceStrips(s: string)
    requires s != "" && !IsSpace(s[0]) && !IsSpace(s[|s| - 1])
    ensures Strip(s) == s
  {
    assert CountWhile(s, IsSpace) == 0;
    assert CountWhileFromEnd(s, IsSpace) == 0;
  }
}
