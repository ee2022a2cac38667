/** The few pieces of JavaScript string behaviour that the modelled code relies on:
    `trim`, `slice` with a clamped bound, and ASCII case mapping. */
module JsText {

  datatype Option<+T> = None | Some(value: T)

  /** A value, or the error a `throw` would have carried. */
  datatype Result<+T, +E> = Success(value: T) | Failure(error: E)

  /** ECMAScript WhiteSpace and LineTerminator code points: the characters `String.prototype.trim` removes. */
  const JsSpaces: set<char> := {
    '\t', '\n', '\U{000B}', '\U{000C}', '\r', ' ', '\U{00A0}', '\U{1680}',
    '\U{2000}', '\U{2001}', '\U{2002}', '\U{2003}', '\U{2004}', '\U{2005}', '\U{2006}',
    '\U{2007}', '\U{2008}', '\U{2009}', '\U{200A}',
    '\U{2028}', '\U{2029}', '\U{202F}', '\U{205F}', '\U{3000}', '\U{FEFF}'
  }

  predicate IsJsSpace(c: char) {
    c in JsSpaces
  }

  /** A string that `trim` turns into the empty string (a falsy value in JavaScript). */
  predicate IsBlank(s: string) {
    forall k :: 0 <= k < |s| ==> IsJsSpace(s[k])
  }

  /** The index of the first non-white-space character of `s` at or after `i`, or |s|. */
  function SkipSpaces(s: string, i: nat): (lo: nat)
    requires i <= |s|
    ensures i <= lo <= |s|
    ensures forall k :: i <= k < lo ==> IsJsSpace(s[k])
    ensures lo < |s| ==> !IsJsSpace(s[lo])
    decreases |s| - i
  {
    if i < |s| && IsJsSpace(s[i]) then SkipSpaces(s, i + 1) else i
  }

  /** The end of `s[lo..j]` once its trailing white space is dropped. */
  function SkipSpacesBack(s: string, lo: nat, j: nat): (hi: nat)
    requires lo <= j <= |s|
    ensures lo <= hi <= j
    ensures forall k :: hi <= k < j ==> IsJsSpace(s[k])
    ensures lo < hi ==> !IsJsSpace(s[hi - 1])
    decreases j - lo
  {
    if lo < j && IsJsSpace(s[j - 1]) then SkipSpacesBack(s, lo, j - 1) else j
  }

  /** The number of white-space characters `trim` removes from the front of `s`. */
  function LeadingSpaces(s: string): nat
  {
    SkipSpaces(s, 0)
  }

  /** `s.trim()`: the empty string exactly for blank input, otherwise the slice of `s`
      after its leading white space that neither starts nor ends with white space;
      everything it drops is white space. */
  function Trim(s: string): (r: string)
    ensures r == [] <==> IsBlank(s)
    ensures r != [] ==> !IsJsSpace(r[0]) && !IsJsSpace(r[|r| - 1])
    ensures LeadingSpaces(s) + |r| <= |s| && r == s[LeadingSpaces(s)..LeadingSpaces(s) + |r|]
    ensures forall k :: 0 <= k < LeadingSpaces(s) ==> IsJsSpace(s[k])
    ensures forall k :: LeadingSpaces(s) + |r| <= k < |s| ==> IsJsSpace(s[k])
  {
    var lo := SkipSpaces(s, 0);
    var hi := SkipSpacesBack(s, lo, |s|);
    s[lo..hi]
  }

  function Min(a: int, b: int): int { if a <= b then a else b }

  /** `s.slice(0, n)` for n >= 0: at most the first n characters. */
  function SliceTo(s: string, n: nat): (r: string)
    ensures |r| == Min(n, |s|) && r <= s
  {
    s[..Min(n, |s|)]
  }

  /** `s.slice(n)` for n >= 0: everything after the first n characters, or "" for a shorter string. */
  function SliceFrom(s: string, n: nat): (r: string)
    ensures |r| == |s| - Min(n, |s|)
    ensures SliceTo(s, n) + r == s
  {
    s[Min(n, |s|)..]
  }

  /** `toLowerCase` restricted to ASCII letters; every other character is left as it is. */
  function AsciiLower(c: char): (r: char)
    ensures 'A' <= c <= 'Z' ==> 'a' <= r <= 'z' && r as int == c as int + 32
    ensures !('A' <= c <= 'Z') ==> r == c
  {
    if 'A' <= c <= 'Z' then (c as int + 32) as char else c
  }

  /** Two adjacent slices make up the longer one. */
  lemma SlicesGlue<T>(s: seq<T>, i: nat, j: nat, a: seq<T>, b: seq<T>)
    requires i <= j <= |s| && a == s[i..j] && b == s[j..]
    ensures a + b == s[i..]
  {
  }

  /** What stands in front of the suffix from j is the prefix up to j. */
  lemma PrefixBeforeSuffix<T>(s: seq<T>, j: nat, a: seq<T>)
    requires j <= |s| && a + s[j..] == s
    ensures a == s[..j]
  {
    assert a == (a + s[j..])[..|a|];
  }
}
