/**
 * Rust's `str::trim`, applied to the OAuth `code` parameter before it is
 * exchanged: leading and trailing characters with the Unicode White_Space
 * property are removed, everything between them is kept.
 */
module Whitespace {

  /** The Unicode White_Space property. */
  predicate IsWhitespace(c: char)
  {
    ('\t' <= c <= '\r') || c == ' ' || c == '\U{85}' || c == '\U{A0}' || c == '\U{1680}' ||
    ('\U{2000}' <= c <= '\U{200A}') || c == '\U{2028}' || c == '\U{2029}' ||
    c == '\U{202F}' || c == '\U{205F}' || c == '\U{3000}'
  }

  /** Every character of `s` from `lo` up to `hi` is whitespace. */
  predicate BlankBetween(s: string, lo: int, hi: int)
  {
    forall i :: lo <= i < hi && 0 <= i < |s| ==> IsWhitespace(s[i])
  }

  /** The length of the longest all-whitespace prefix of `s`. */
  function LeadingSpace(s: string): (k: nat)
    ensures k <= |s| && BlankBetween(s, 0, k)
    ensures k < |s| ==> !IsWhitespace(s[k])
  {
    if s == [] || !IsWhitespace(s[0]) then 0
    else 1 + LeadingSpace(s[1..])
  }

  /** The length of the longest all-whitespace suffix of `s`. */
  function TrailingSpace(s: string): (k: nat)
    ensures k <= |s| && BlankBetween(s, |s| - k, |s|)
    ensures k < |s| ==> !IsWhitespace(s[|s| - k - 1])
  {
    if s == [] || !IsWhitespace(s[|s| - 1]) then 0
    else 1 + TrailingSpace(s[..|s| - 1])
  }

  /**
   * `s` without its surrounding whitespace: the result neither starts nor
   * ends with whitespace, and it is the piece of `s` at offset
   * `LeadingSpace(s)` with only whitespace before and after it.
   */
  function Trim(s: string): (t: string)
    ensures LeadingSpace(s) + |t| <= |s|
    ensures t == s[LeadingSpace(s)..LeadingSpace(s) + |t|]
    ensures BlankBetween(s, 0, LeadingSpace(s)) && BlankBetween(s, LeadingSpace(s) + |t|, |s|)
    ensures t == [] || (!IsWhitespace(t[0]) && !IsWhitespace(t[|t| - 1]))
  {
    var rest := s[LeadingSpace(s)..];
    rest[..|rest| - TrailingSpace(rest)]
  }

  /** Trimming twice is trimming once. */
  lemma TrimIdempotent(s: string)
    ensures Trim(Trim(s)) == Trim(s)
  {
  }

  /** A string that neither starts nor ends with whitespace is left alone. */
  lemma TrimUnchanged(s: string)
    requires s == [] || (!IsWhitespace(s[0]) && !IsWhitespace(s[|s| - 1]))
    ensures Trim(s) == s
  {
  }

  /**
   * The description of `Trim` is complete: a piece of `s` that has only
   * whitespace around it and neither starts nor ends with whitespace is
   * what `Trim` returns.
   */
  lemma TrimUnique(s: string, i: nat, n: nat)
    requires i + n <= |s|
    requires BlankBetween(s, 0, i) && BlankBetween(s, i + n, |s|)
    requires n == 0 || (!IsWhitespace(s[i]) && !IsWhitespace(s[i + n - 1]))
    ensures Trim(s) == s[i..i + n]
  {
  }
}
