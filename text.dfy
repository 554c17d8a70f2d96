/** The JavaScript string operations the application relies on:
    `String.prototype.trim`, the regular-expression classes `\s` and `\w`,
    `startsWith`, `includes` and an ASCII `toLowerCase`. */
module Text {

  /** JavaScript's WhiteSpace and LineTerminator code points: the set that
      both `trim()` removes and the regular-expression class `\s` matches. */
  predicate IsSpace(c: char) {
    var n := c as int;
    (9 <= n <= 13) || n == 0x20 || n == 0xA0 || n == 0x1680
    || (0x2000 <= n <= 0x200A) || n == 0x2028 || n == 0x2029
    || n == 0x202F || n == 0x205F || n == 0x3000 || n == 0xFEFF
  }

  /** The regular-expression class `\w` without the `u` flag. */
  predicate IsWordChar(c: char) {
    ('a' <= c <= 'z') || ('A' <= c <= 'Z') || ('0' <= c <= '9') || c == '_'
  }

  predicate AllSpace(s: string) {
    forall k :: 0 <= k < |s| ==> IsSpace(s[k])
  }

  predicate AllWord(s: string) {
    forall k :: 0 <= k < |s| ==> IsWordChar(s[k])
  }

  /** Neither end of `s` is a space (vacuously true of the empty string). */
  predicate Trimmed(s: string) {
    s == [] || (!IsSpace(s[0]) && !IsSpace(s[|s| - 1]))
  }

  /** The end of the run of spaces in `s` that starts at `i`. */
  function SpaceRunEnd(s: string, i: nat): (j: nat)
    requires i <= |s|
    ensures i <= j <= |s| && forall k :: i <= k < j ==> IsSpace(s[k])
    ensures j < |s| ==> !IsSpace(s[j])
    decreases |s| - i
  {
    if i < |s| && IsSpace(s[i]) then SpaceRunEnd(s, i + 1) else i
  }

  /** The end of the run of `\w` characters in `s` that starts at `i`. */
  function WordRunEnd(s: string, i: nat): (j: nat)
    requires i <= |s|
    ensures i <= j <= |s| && forall k :: i <= k < j ==> IsWordChar(s[k])
    ensures j < |s| ==> !IsWordChar(s[j])
    decreases |s| - i
  {
    if i < |s| && IsWordChar(s[i]) then WordRunEnd(s, i + 1) else i
  }

  /** The start of the run of spaces in `s` that ends at `hi`, going back no
      further than `lo`. */
  function SpaceRunStart(s: string, lo: nat, hi: nat): (j: nat)
    requires lo <= hi <= |s|
    ensures lo <= j <= hi && forall k :: j <= k < hi ==> IsSpace(s[k])
    ensures j > lo ==> !IsSpace(s[j - 1])
    decreases hi - lo
  {
    if lo < hi && IsSpace(s[hi - 1]) then SpaceRunStart(s, lo, hi - 1) else hi
  }

  /** A run is determined by where it starts and the character that stops it. */
  lemma {:induction false} SpaceRunEndIs(s: string, i: nat, j: nat)
    requires i <= j <= |s| && (forall k :: i <= k < j ==> IsSpace(s[k]))
    requires j < |s| ==> !IsSpace(s[j])
    ensures SpaceRunEnd(s, i) == j
    decreases |s| - i
  {
    if i < j { SpaceRunEndIs(s, i + 1, j); }
  }

  lemma {:induction false} WordRunEndIs(s: string, i: nat, j: nat)
    requires i <= j <= |s| && (forall k :: i <= k < j ==> IsWordChar(s[k]))
    requires j < |s| ==> !IsWordChar(s[j])
    ensures WordRunEnd(s, i) == j
    decreases |s| - i
  {
    if i < j { WordRunEndIs(s, i + 1, j); }
  }

  lemma {:induction false} SpaceRunStartIs(s: string, lo: nat, j: nat, hi: nat)
    requires lo <= j <= hi <= |s| && (forall k :: j <= k < hi ==> IsSpace(s[k]))
    requires j > lo ==> !IsSpace(s[j - 1])
    ensures SpaceRunStart(s, lo, hi) == j
    decreases hi - lo
  {
    if j < hi { SpaceRunStartIs(s, lo, j, hi - 1); }
  }

  /** `s.trim()`: `s` with its leading and trailing spaces removed. The
      result is the part of `s` between two all-space runs and has no
      space at either end. */
  function Trim(s: string): (r: string)
    ensures |r| <= |s| && Trimmed(r)
    ensures r == [] <==> AllSpace(s)
    ensures exists i :: 0 <= i <= |s| - |r| && r == s[i..i + |r|]
                        && AllSpace(s[..i]) && AllSpace(s[i + |r|..])
  {
    var i := SpaceRunEnd(s, 0);
    var j := SpaceRunStart(s, i, |s|);
    assert AllSpace(s[..i]);
    assert AllSpace(s[j..]);
    assert s[i..j] == s[i..i + |s[i..j]|];
    s[i..j]
  }

  /** `!s.trim()`: the string is empty once trimmed. */
  predicate IsBlank(s: string) {
    Trim(s) == []
  }

  /** A string with no space at either end is its own trim. */
  lemma TrimOfTrimmed(s: string)
    requires Trimmed(s)
    ensures Trim(s) == s
  {
    SpaceRunEndIs(s, 0, 0);
    SpaceRunStartIs(s, 0, |s|, |s|);
  }

  /** Trimming twice is trimming once. */
  lemma TrimIdempotent(s: string)
    ensures Trim(Trim(s)) == Trim(s)
  {
    TrimOfTrimmed(Trim(s));
  }

  /** Trimming ignores spaces added on either side. */
  lemma TrimPadded(pre: string, s: string, post: string)
    requires AllSpace(pre) && AllSpace(post) && Trimmed(s) && s != []
    ensures Trim(pre + s + post) == s
  {
    var t := pre + s + post;
    var i, j := |pre|, |pre| + |s|;
    assert forall k :: 0 <= k < i ==> t[k] == pre[k];
    assert forall k :: j <= k < |t| ==> t[k] == post[k - j];
    assert t[i] == s[0] && t[j - 1] == s[|s| - 1];
    SpaceRunEndIs(t, 0, i);
    SpaceRunStartIs(t, i, j, |t|);
    assert t[i..j] == s;
  }

  /** `s.startsWith(p)`. */
  predicate StartsWith(s: string, p: string) {
    |p| <= |s| && s[..|p|] == p
  }

  /** `s.endsWith(p)`. */
  predicate EndsWith(s: string, p: string) {
    |p| <= |s| && s[|s| - |p|..] == p
  }

  /** `toLowerCase()` on one character, for the ASCII letters. */
  function LowerChar(c: char): (r: char)
    ensures 'A' <= c <= 'Z' ==> r as int == c as int + 32
    ensures !('A' <= c <= 'Z') ==> r == c
  {
    if 'A' <= c <= 'Z' then (c as int + 32) as char else c
  }

  function ToLower(s: string): (r: string)
    ensures |r| == |s| && forall k :: 0 <= k < |s| ==> r[k] == LowerChar(s[k])
  {
    if s == [] then [] else [LowerChar(s[0])] + ToLower(s[1..])
  }

  /** `hay.includes(needle)`: `needle` occurs in `hay` at some position. */
  predicate Includes(hay: string, needle: string)
    decreases |hay|
  {
    StartsWith(hay, needle) || (hay != [] && Includes(hay[1..], needle))
  }

  /** JavaScript `s || d` on strings: the empty string is falsy. */
  function OrElse(s: string, d: string): (r: string)
    ensures r == s || r == d
    ensures r == "" <==> s == "" && d == ""
  {
    if s == "" then d else s
  }
}
