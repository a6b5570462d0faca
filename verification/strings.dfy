/**
 * The two string primitives most core files rely on: ECMAScript's
 * `String.prototype.trim` and an ASCII `toLowerCase`.
 */
module Strings {

  /** The code points `trim` removes: ECMAScript WhiteSpace (TAB, VT, FF, ZWNBSP and the Zs category) and LineTerminator. */
  predicate IsWhitespace(c: char) {
    c == '\t' || c == '\n' || c == '\U{B}' || c == '\U{C}' || c == '\r' || c == ' '
    || c == '\U{A0}' || c == '\U{1680}' || ('\U{2000}' <= c <= '\U{200A}')
    || c == '\U{2028}' || c == '\U{2029}' || c == '\U{202F}' || c == '\U{205F}'
    || c == '\U{3000}' || c == '\U{FEFF}'
  }

  /** Length of the whitespace prefix of `s`. */
  function LeadingSpace(s: string): (k: nat)
    ensures k <= |s|
  {
    if s == [] || !IsWhitespace(s[0]) then 0 else 1 + LeadingSpace(s[1..])
  }

  lemma {:induction false} LeadingSpaceSpec(s: string)
    ensures forall i :: 0 <= i < LeadingSpace(s) ==> IsWhitespace(s[i])
    ensures LeadingSpace(s) < |s| ==> !IsWhitespace(s[LeadingSpace(s)])
  {
    if s != [] && IsWhitespace(s[0]) {
      LeadingSpaceSpec(s[1..]);
    }
  }

  /** Index, not below `lo`, where the whitespace suffix of `s` begins. */
  function TrailingStart(s: string, lo: nat): (k: nat)
    requires lo <= |s|
    ensures lo <= k <= |s|
    decreases |s|
  {
    if |s| == lo || !IsWhitespace(s[|s| - 1]) then |s| else TrailingStart(s[..|s| - 1], lo)
  }

  lemma {:induction false} TrailingStartSpec(s: string, lo: nat)
    requires lo <= |s|
    ensures forall i :: TrailingStart(s, lo) <= i < |s| ==> IsWhitespace(s[i])
    ensures lo < TrailingStart(s, lo) ==> !IsWhitespace(s[TrailingStart(s, lo) - 1])
    decreases |s|
  {
    if |s| != lo && IsWhitespace(s[|s| - 1]) {
      TrailingStartSpec(s[..|s| - 1], lo);
    }
  }

  /** `s.trim()`: `s` without its leading and trailing whitespace. */
  function Trim(s: string): (r: string)
    ensures |r| <= |s|
  {
    var lo := LeadingSpace(s);
    s[lo..TrailingStart(s, lo)]
  }

  /** Trimming removes only whitespace: `s` is the trimmed text framed by two all-whitespace strings. */
  lemma TrimSplit(s: string) returns (pre: string, post: string)
    ensures s == pre + Trim(s) + post
    ensures forall i :: 0 <= i < |pre| ==> IsWhitespace(pre[i])
    ensures forall i :: 0 <= i < |post| ==> IsWhitespace(post[i])
  {
    var lo := LeadingSpace(s);
    var hi := TrailingStart(s, lo);
    LeadingSpaceSpec(s);
    TrailingStartSpec(s, lo);
    pre, post := s[..lo], s[hi..];
    assert s == s[..lo] + s[lo..hi] + s[hi..];
  }

  /** The trimmed text neither starts nor ends with whitespace, and it is empty exactly when `s` is all whitespace. */
  lemma TrimShape(s: string)
    ensures Trim(s) == [] || (!IsWhitespace(Trim(s)[0]) && !IsWhitespace(Trim(s)[|Trim(s)| - 1]))
    ensures Trim(s) == [] <==> forall i :: 0 <= i < |s| ==> IsWhitespace(s[i])
  {
    var lo := LeadingSpace(s);
    LeadingSpaceSpec(s);
    TrailingStartSpec(s, lo);
  }

  /** A string that neither starts nor ends with whitespace is its own trim. */
  lemma TrimFixed(s: string)
    requires s == [] || (!IsWhitespace(s[0]) && !IsWhitespace(s[|s| - 1]))
    ensures Trim(s) == s
  {
    if s != [] {
      assert LeadingSpace(s) == 0;
      assert TrailingStart(s, 0) == |s|;
    }
  }

  /** Trimming twice is trimming once. */
  lemma TrimIdempotent(s: string)
    ensures Trim(Trim(s)) == Trim(s)
  {
    TrimShape(s);
    TrimFixed(Trim(s));
  }

  /** ASCII case mapping of one character; every other character is left as it is. */
  function LowerChar(c: char): (d: char)
    ensures 'A' <= c <= 'Z' ==> 'a' <= d <= 'z' && d as int - c as int == 32
    ensures !('A' <= c <= 'Z') ==> d == c
  {
    if 'A' <= c <= 'Z' then (c as int + 32) as char else c
  }

  /** `s.toLowerCase()` restricted to the ASCII letters. */
  function Lower(s: string): (r: string)
    ensures |r| == |s|
    ensures forall i :: 0 <= i < |s| ==> r[i] == LowerChar(s[i])
  {
    seq(|s|, i requires 0 <= i < |s| => LowerChar(s[i]))
  }
}
