/**
 * The pieces of Go's runtime and standard library that the modelled code leans on:
 * fixed-width integers, bytes, and `strings.TrimSpace` with `unicode.IsSpace`.
 */
module GoStrings {

  /** One byte of a Go string or []byte. */
  type byte = x: int | 0 <= x < 256

  /** A Go string seen as bytes, which is what `len` and slicing count. */
  type Bytes = seq<byte>

  /** Go's int64. */
  newtype int64 = x: int | -0x8000_0000_0000_0000 <= x < 0x8000_0000_0000_0000

  /** `strings.HasPrefix`, for byte strings and decoded text alike. */
  predicate HasPrefix<T(==)>(s: seq<T>, p: seq<T>) {
    |p| <= |s| && s[..|p|] == p
  }

  /** `strings.HasSuffix`. */
  predicate HasSuffix<T(==)>(s: seq<T>, p: seq<T>) {
    |p| <= |s| && s[|s| - |p|..] == p
  }

  /** `unicode.IsSpace`: the Latin-1 spaces plus the Unicode White_Space code points above U+00FF. */
  predicate IsSpace(c: char) {
    || c == '\t' || c == '\n' || c == '\U{B}' || c == '\U{C}' || c == '\r' || c == ' '
    || c == '\U{85}' || c == '\U{A0}'
    || c == '\U{1680}'
    || ('\U{2000}' <= c <= '\U{200A}')
    || c == '\U{2028}' || c == '\U{2029}' || c == '\U{202F}' || c == '\U{205F}'
    || c == '\U{3000}'
  }

  /** `strings.TrimLeftFunc(s, unicode.IsSpace)`: drops the leading run of spaces. */
  function TrimLeftSpace(s: string): (r: string)
    ensures |r| <= |s| && r == s[|s| - |r|..]
    ensures forall k :: 0 <= k < |s| - |r| ==> IsSpace(s[k])
    ensures r != [] ==> !IsSpace(r[0])
    decreases |s|
  {
    if s != [] && IsSpace(s[0]) then TrimLeftSpace(s[1..]) else s
  }

  /** `strings.TrimRightFunc(s, unicode.IsSpace)`: drops the trailing run of spaces. */
  function TrimRightSpace(s: string): (r: string)
    ensures |r| <= |s| && r == s[..|r|]
    ensures forall k :: |r| <= k < |s| ==> IsSpace(s[k])
    ensures r != [] ==> !IsSpace(r[|r| - 1])
    decreases |s|
  {
    if s != [] && IsSpace(s[|s| - 1]) then TrimRightSpace(s[..|s| - 1]) else s
  }

  /** The length of the leading run of spaces of `s`. */
  function LeadingSpaces(s: string): (n: nat)
    ensures n <= |s|
  {
    |s| - |TrimLeftSpace(s)|
  }

  /**
   * `strings.TrimSpace`: the longest factor of `s` that neither starts nor ends with a space;
   * it is empty exactly when `s` is all spaces.
   */
  function TrimSpace(s: string): (r: string)
    ensures |r| <= |s|
    ensures r != [] ==> !IsSpace(r[0]) && !IsSpace(r[|r| - 1])
    ensures r == [] <==> forall k :: 0 <= k < |s| ==> IsSpace(s[k])
    ensures LeadingSpaces(s) + |r| <= |s| && r == s[LeadingSpaces(s)..LeadingSpaces(s) + |r|]
    ensures forall k :: 0 <= k < LeadingSpaces(s) ==> IsSpace(s[k])
    ensures forall k :: LeadingSpaces(s) + |r| <= k < |s| ==> IsSpace(s[k])
  {
    TrimRightSpace(TrimLeftSpace(s))
  }

  /** Trimming an already trimmed string changes nothing. */
  lemma TrimSpaceIdempotent(s: string)
    ensures TrimSpace(TrimSpace(s)) == TrimSpace(s)
  {
  }
}
