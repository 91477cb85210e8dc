/** Cache keys: the request handler keys its cache by `query.lower()` and applies no
    other normalisation (no trimming, no collapsing of inner whitespace). Lower-casing
    is modelled on the ASCII letters. */
module Keys {

  predicate IsUpper(c: char) { 'A' <= c <= 'Z' }

  predicate IsLower(c: char) { 'a' <= c <= 'z' }

  function LowerChar(c: char): char {
    if IsUpper(c) then (c as int + 32) as char else c
  }

  /** The upper-case partner of a lower-case letter; every other character is its own partner. */
  function UpperChar(c: char): char {
    if IsLower(c) then (c as int - 32) as char else c
  }

  /** Two characters that differ at most in letter case. */
  predicate SameIgnoringCase(x: char, y: char) {
    x == y || x == UpperChar(y) || y == UpperChar(x)
  }

  /** Two queries that differ at most in letter case, position by position. */
  predicate EqualIgnoringCase(a: string, b: string) {
    |a| == |b| && forall i :: 0 <= i < |a| ==> SameIgnoringCase(a[i], b[i])
  }

  /** `str.lower()`: the cache key of a query. */
  function Lower(s: string): (r: string)
    ensures |r| == |s|
    ensures forall i :: 0 <= i < |r| ==> !IsUpper(r[i])
    ensures forall i :: 0 <= i < |s| && !IsUpper(s[i]) ==> r[i] == s[i]
    ensures forall i :: 0 <= i < |s| && IsUpper(s[i]) ==> IsLower(r[i]) && UpperChar(r[i]) == s[i]
  {
    seq(|s|, i requires 0 <= i < |s| => LowerChar(s[i]))
  }

  /** Lower-casing a key again changes nothing. */
  lemma LowerIdempotent(s: string)
    ensures Lower(Lower(s)) == Lower(s)
  {
  }

  /** Two queries share a cache key exactly when they differ at most in letter case. */
  lemma SameKeyIffCaseVariant(a: string, b: string)
    ensures Lower(a) == Lower(b) <==> EqualIgnoringCase(a, b)
  {
  }

  /** Surrounding whitespace is part of the key: a padded query has its own entry. */
  lemma KeyKeepsWhitespace(s: string)
    ensures Lower(" " + s) == " " + Lower(s)
    ensures Lower(" " + s) != Lower(s)
  {
  }
}
