/**
 * Character classes, ASCII case folding, case-insensitive search and
 * Kotlin's `trim()`, shared by every scanner of the message engine.
 *
 * Case-insensitive comparison folds ASCII letters only, which is what
 * java.util.regex does with CASE_INSENSITIVE and what Kotlin's
 * `contains(..., ignoreCase = true)` does on ASCII text.
 */
module Chars {

  predicate IsAsciiLetter(c: char) { 'A' <= c <= 'Z' || 'a' <= c <= 'z' }

  predicate IsDigit(c: char) { '0' <= c <= '9' }

  predicate IsAlnum(c: char) { IsAsciiLetter(c) || IsDigit(c) }

  /** `\s` of java.util.regex: [ \t\n\x0B\f\r]. */
  predicate IsRegexSpace(c: char) {
    c == ' ' || c == '\t' || c == '\n' || c == '\U{B}' || c == '\U{C}' || c == '\r'
  }

  /** The characters that the regex `.` does not match (no DOTALL flag). */
  predicate IsLineTerminator(c: char) {
    c == '\n' || c == '\r' || c == '\U{85}' || c == '\U{2028}' || c == '\U{2029}'
  }

  /** The characters `\b` treats as part of a word. */
  predicate IsWordChar(c: char) { IsAlnum(c) || c == '_' }

  /** Kotlin's `Char.isWhitespace()`, which `String.trim()` strips. */
  predicate IsKotlinSpace(c: char) {
    ('\t' <= c <= '\r') || ('\U{1C}' <= c <= '\U{1F}') || c == ' ' || c == '\U{A0}'
    || c == '\U{1680}' || ('\U{2000}' <= c <= '\U{200A}') || c == '\U{2028}'
    || c == '\U{2029}' || c == '\U{202F}' || c == '\U{205F}' || c == '\U{3000}'
  }

  lemma RegexSpaceIsKotlinSpace(c: char)
    ensures IsRegexSpace(c) ==> IsKotlinSpace(c)
  {
  }

  predicate AllDigits(s: string) { forall k :: 0 <= k < |s| ==> IsDigit(s[k]) }

  /** ASCII lower-casing of one character. */
  function Lower(c: char): (r: char)
    ensures IsAsciiLetter(r) <==> IsAsciiLetter(c)
    ensures !IsAsciiLetter(c) ==> r == c
    ensures 'A' <= c <= 'Z' ==> r as int == c as int + 32
  {
    if 'A' <= c <= 'Z' then (c as int + 32) as char else c
  }

  /** `lowercase()` of a whole string, with ASCII folding. */
  function LowerStr(s: string): (r: string)
    ensures |r| == |s|
  {
    if s == [] then [] else [Lower(s[0])] + LowerStr(s[1..])
  }

  /** Each character of `LowerStr(s)` is the lower-cased character of `s`. */
  lemma {:induction false} LowerStrAt(s: string)
    ensures forall k :: 0 <= k < |s| ==> LowerStr(s)[k] == Lower(s[k])
  {
    if s != [] {
      LowerStrAt(s[1..]);
    }
  }

  /** The literal `lit` occurs at position `i` of `s`, ignoring ASCII case. */
  predicate LitAt(s: string, i: nat, lit: string) {
    i + |lit| <= |s| && forall k :: 0 <= k < |lit| ==> Lower(s[i + k]) == Lower(lit[k])
  }

  /** Declarative: `lit` occurs somewhere in `s`, ignoring case. */
  ghost predicate Occurs(s: string, lit: string) {
    exists k: nat :: LitAt(s, k, lit)
  }

  /** Declarative: `k` is the first position of `lit` in `s`. */
  ghost predicate FirstAt(s: string, lit: string, k: nat) {
    LitAt(s, k, lit) && forall j: nat :: j < k ==> !LitAt(s, j, lit)
  }

  /**
   * Kotlin's `indexOf(lit, from, ignoreCase = true)`: the first position
   * at or after `from` where `lit` occurs, or -1.
   */
  function IndexOf(s: string, lit: string, from: nat): (r: int)
    ensures r == -1 || (from <= r && LitAt(s, r, lit))
    ensures forall j: nat :: from <= j && (r == -1 || j < r) ==> !LitAt(s, j, lit)
    decreases |s| - from
  {
    if from + |lit| > |s| then -1
    else if LitAt(s, from, lit) then from
    else IndexOf(s, lit, from + 1)
  }

  /** Kotlin's `contains(lit, ignoreCase = true)`. */
  function Contains(s: string, lit: string): (b: bool)
    ensures b <==> Occurs(s, lit)
  {
    var r := IndexOf(s, lit, 0);
    assert r >= 0 ==> LitAt(s, r as nat, lit);
    r >= 0
  }

  /** The first index of `lit` in `s` is `k` exactly when `k` is its first position. */
  lemma IndexOfIsFirst(s: string, lit: string, k: nat)
    ensures IndexOf(s, lit, 0) == k <==> FirstAt(s, lit, k)
  {
  }

  /** A literal that matches at `i` is evidence that it occurs. */
  lemma OccursAt(s: string, lit: string, i: nat)
    requires LitAt(s, i, lit)
    ensures Occurs(s, lit)
  {
  }

  /** The end of the longest run of characters satisfying `p` from `i` on. */
  function RunEnd(s: string, i: nat, p: char -> bool): (r: nat)
    ensures i <= r && (i <= |s| ==> r <= |s|)
    ensures forall k :: i <= k < r ==> k < |s| && p(s[k])
    ensures r < |s| ==> !p(s[r])
    decreases |s| - i
  {
    if i < |s| && p(s[i]) then RunEnd(s, i + 1, p) else i
  }

  /** Where a greedy `\s*` starting at `i` stops. */
  function SkipSpaces(s: string, i: nat): (r: nat)
    ensures i <= r && (i <= |s| ==> r <= |s|)
    ensures forall k :: i <= k < r ==> k < |s| && IsRegexSpace(s[k])
    ensures r < |s| ==> !IsRegexSpace(s[r])
  {
    RunEnd(s, i, IsRegexSpace)
  }

  /** Kotlin's `trimStart()`. */
  function TrimStart(s: string): (r: string)
    ensures |r| <= |s| && r == s[|s| - |r|..]
    ensures r == [] || !IsKotlinSpace(r[0])
  {
    if s != [] && IsKotlinSpace(s[0]) then TrimStart(s[1..]) else s
  }

  /** What `trimStart()` drops is whitespace. */
  lemma {:induction false} TrimStartDropsSpaces(s: string)
    ensures forall k :: 0 <= k < |s| - |TrimStart(s)| ==> IsKotlinSpace(s[k])
  {
    if s != [] && IsKotlinSpace(s[0]) {
      TrimStartDropsSpaces(s[1..]);
    }
  }

  /** Kotlin's `trimEnd()`. */
  function TrimEnd(s: string): (r: string)
    ensures |r| <= |s| && r == s[..|r|]
    ensures r == [] || !IsKotlinSpace(r[|r| - 1])
  {
    if s != [] && IsKotlinSpace(s[|s| - 1]) then TrimEnd(s[..|s| - 1]) else s
  }

  /** What `trimEnd()` drops is whitespace. */
  lemma {:induction false} TrimEndDropsSpaces(s: string)
    ensures forall k :: |TrimEnd(s)| <= k < |s| ==> IsKotlinSpace(s[k])
  {
    if s != [] && IsKotlinSpace(s[|s| - 1]) {
      TrimEndDropsSpaces(s[..|s| - 1]);
    }
  }

  /** Kotlin's `trim()`: no leading and no trailing whitespace. */
  function Trim(s: string): (r: string)
    ensures r == [] || (!IsKotlinSpace(r[0]) && !IsKotlinSpace(r[|r| - 1]))
    ensures exists i, j :: 0 <= i <= j <= |s| && r == s[i..j]
  {
    var t := TrimStart(s);
    var r := TrimEnd(t);
    assert r == s[|s| - |t|..|s| - |t| + |r|];
    r
  }

  /** A string without leading or trailing whitespace is its own trim. */
  lemma TrimOfTrimmed(s: string)
    requires s == [] || (!IsKotlinSpace(s[0]) && !IsKotlinSpace(s[|s| - 1]))
    ensures Trim(s) == s
  {
  }

  /** Folding case never turns whitespace into non-whitespace or back. */
  lemma LowerKeepsSpace(c: char)
    ensures IsKotlinSpace(Lower(c)) <==> IsKotlinSpace(c)
  {
  }

  lemma {:induction false} LowerStrIdempotent(s: string)
    ensures LowerStr(LowerStr(s)) == LowerStr(s)
  {
    if s != [] {
      LowerStrIdempotent(s[1..]);
    }
  }
}
