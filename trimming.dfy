/**
 * ECMAScript's String.prototype.trim: strip WhiteSpace and LineTerminator
 * code points from both ends of a string. Both input guards and both hooks
 * test a string's truthiness after trimming, which is `IsBlank` below.
 */
module Trimming {

  /** WhiteSpace (TAB, VT, FF, SP, NBSP, ZWNBSP and every other Zs code point)
      and LineTerminator (LF, CR, LS, PS), as ECMAScript defines them. */
  predicate IsWhitespace(c: char) {
    var n := c as int;
    || n == 0x09 || n == 0x0B || n == 0x0C || n == 0x20 || n == 0xA0 || n == 0xFEFF
    || n == 0x1680 || (0x2000 <= n <= 0x200A) || n == 0x202F || n == 0x205F || n == 0x3000
    || n == 0x0A || n == 0x0D || n == 0x2028 || n == 0x2029
  }

  /** Drops the leading whitespace: the result is the longest suffix of `s`
      that does not start with whitespace. */
  function TrimStart(s: string): (r: string)
    ensures |r| <= |s| && r == s[|s| - |r|..]
    ensures forall i :: 0 <= i < |s| - |r| ==> IsWhitespace(s[i])
    ensures r == [] || !IsWhitespace(r[0])
  {
    if |s| > 0 && IsWhitespace(s[0]) then TrimStart(s[1..]) else s
  }

  /** Drops the trailing whitespace: the result is the longest prefix of `s`
      that does not end with whitespace. */
  function TrimEnd(s: string): (r: string)
    ensures |r| <= |s| && r == s[..|r|]
    ensures forall i :: |r| <= i < |s| ==> IsWhitespace(s[i])
    ensures r == [] || !IsWhitespace(r[|r| - 1])
  {
    if |s| > 0 && IsWhitespace(s[|s| - 1]) then TrimEnd(s[..|s| - 1]) else s
  }

  /** How many whitespace characters `TrimStart` drops from the front of `s`. */
  function LeadingCount(s: string): nat {
    |s| - |TrimStart(s)|
  }

  /** String.prototype.trim: the slice of `s` left once whitespace is stripped
      from both ends. Everything outside the slice is whitespace and the slice
      neither starts nor ends with whitespace. */
  function Trim(s: string): (r: string)
    ensures LeadingCount(s) + |r| <= |s|
    ensures r == s[LeadingCount(s)..LeadingCount(s) + |r|]
    ensures forall i :: 0 <= i < LeadingCount(s) ==> IsWhitespace(s[i])
    ensures forall i :: LeadingCount(s) + |r| <= i < |s| ==> IsWhitespace(s[i])
    ensures r == [] || (!IsWhitespace(r[0]) && !IsWhitespace(r[|r| - 1]))
  {
    TrimEnd(TrimStart(s))
  }

  /** A string is falsy after trimming exactly when it consists of whitespace only. */
  function IsBlank(s: string): (b: bool)
    ensures b <==> forall i :: 0 <= i < |s| ==> IsWhitespace(s[i])
  {
    Trim(s) == ""
  }

  /** Trimming a trimmed string changes nothing. */
  lemma TrimIdempotent(s: string)
    ensures Trim(Trim(s)) == Trim(s)
  {
    var r := Trim(s);
    if r != [] {
      assert TrimStart(r) == r;
      assert TrimEnd(r) == r;
    }
  }

  /** Trimming keeps a non-blank string non-blank: what is forwarded after a
      trim is never blank. */
  lemma TrimKeepsNonBlank(s: string)
    requires !IsBlank(s)
    ensures !IsBlank(Trim(s)) && Trim(s) != ""
  {
    TrimIdempotent(s);
  }
}
