/**
 * The pieces of JavaScript's string library that the application relies on:
 * `String.prototype.includes`, `trim`, `toLowerCase` (ASCII letters only),
 * the `\s` class of regular expressions, and `substring(0, n)`.
 * Strings are sequences of code points.
 */
module Text {

  /** The characters JavaScript counts as white space or line terminators
      (`\s` in a regular expression; what `trim` strips). */
  predicate IsJsSpace(c: char) {
    || c == '\t' || c == '\n' || c == '\U{000B}' || c == '\U{000C}' || c == '\r' || c == ' '
    || c == '\U{00A0}' || c == '\U{1680}' || ('\U{2000}' <= c <= '\U{200A}')
    || c == '\U{2028}' || c == '\U{2029}' || c == '\U{202F}' || c == '\U{205F}'
    || c == '\U{3000}' || c == '\U{FEFF}'
  }

  predicate AllSpace(s: string) {
    forall k :: 0 <= k < |s| ==> IsJsSpace(s[k])
  }

  predicate NoSpace(s: string) {
    forall k :: 0 <= k < |s| ==> !IsJsSpace(s[k])
  }

  /** `s.trimStart()` */
  function TrimStart(s: string): (r: string)
    ensures |r| <= |s| && r == s[|s| - |r|..]
    ensures r == [] || !IsJsSpace(r[0])
    ensures AllSpace(s[..|s| - |r|])
  {
    if s != [] && IsJsSpace(s[0]) then TrimStart(s[1..]) else s
  }

  /** `s.trimEnd()` */
  function TrimEnd(s: string): (r: string)
    ensures |r| <= |s| && r == s[..|r|]
    ensures r == [] || !IsJsSpace(r[|r| - 1])
    ensures AllSpace(s[|r|..])
  {
    if s != [] && IsJsSpace(s[|s| - 1]) then TrimEnd(s[..|s| - 1]) else s
  }

  /** `s.trim()` */
  function Trim(s: string): string {
    TrimEnd(TrimStart(s))
  }

  /** `s.trim()` is empty exactly when every character of `s` is white space. */
  lemma TrimEmptyIffAllSpace(s: string)
    ensures Trim(s) == [] <==> AllSpace(s)
  {
    var t := TrimStart(s);
    if Trim(s) == [] {
      assert AllSpace(t[0..]);
      assert t == [];
      forall k | 0 <= k < |s| ensures IsJsSpace(s[k]) {
        assert s[k] == s[..|s| - |t|][k];
      }
    }
  }

  /** ASCII upper-case letters become lower case; every other character is kept. */
  function LowerChar(c: char): char {
    if 'A' <= c <= 'Z' then (c as int + 32) as char else c
  }

  /** `s.toLowerCase()` restricted to ASCII letters. */
  function Lower(s: string): (r: string)
    ensures |r| == |s|
    ensures forall k :: 0 <= k < |s| ==> r[k] == LowerChar(s[k])
  {
    if s == [] then [] else [LowerChar(s[0])] + Lower(s[1..])
  }

  lemma LowerIdempotent(s: string)
    ensures Lower(Lower(s)) == Lower(s)
  {
  }

  /** `p` occurs in `t` at position `i`. */
  ghost predicate OccursAt(t: string, p: string, i: int) {
    0 <= i && i + |p| <= |t| && t[i..i + |p|] == p
  }

  /** `t.includes(p)`: some position of `t` starts a copy of `p`. */
  predicate Includes(t: string, p: string)
    decreases |t|
  {
    p <= t || (t != [] && Includes(t[1..], p))
  }

  /** The search in `Includes` finds an occurrence exactly when there is one. */
  lemma {:induction false} IncludesIff(t: string, p: string)
    ensures Includes(t, p) <==> exists i :: OccursAt(t, p, i)
    decreases |t|
  {
    if p <= t {
      assert OccursAt(t, p, 0);
    } else if t != [] {
      IncludesIff(t[1..], p);
      if exists i :: OccursAt(t[1..], p, i) {
        var i :| OccursAt(t[1..], p, i);
        assert t[i + 1..i + 1 + |p|] == t[1..][i..i + |p|];
        assert OccursAt(t, p, i + 1);
      }
      if exists i :: OccursAt(t, p, i) {
        var i :| OccursAt(t, p, i);
        assert i != 0;
        assert t[1..][i - 1..i - 1 + |p|] == t[i..i + |p|];
        assert OccursAt(t[1..], p, i - 1);
      }
    }
  }

  /** Every string includes itself and the empty string. */
  lemma IncludesSelfAndEmpty(t: string)
    ensures Includes(t, t) && Includes(t, [])
  {
  }

  /** An occurrence inside `t` is also an occurrence inside any extension of `t`. */
  lemma {:induction false} IncludesInPrefix(t: string, u: string, p: string)
    requires Includes(t, p)
    ensures Includes(t + u, p)
    decreases |t|
  {
    if p <= t {
      assert t == (t + u)[..|t|];
    } else {
      assert (t + u)[1..] == t[1..] + u;
      IncludesInPrefix(t[1..], u, p);
    }
  }

  /** Every character of an included string occurs in the text. */
  lemma {:induction false} IncludesChars(t: string, p: string)
    requires Includes(t, p)
    ensures forall k :: 0 <= k < |p| ==> p[k] in t
    decreases |t|
  {
    if p <= t {
      assert forall k :: 0 <= k < |p| ==> p[k] == t[k];
    } else {
      IncludesChars(t[1..], p);
      assert forall c :: c in t[1..] ==> c in t;
    }
  }

  /** `text.substring(0, n)` for a non-negative `n`: it stops at the end of the text. */
  function Prefix(text: string, n: nat): (r: string)
    ensures |r| == if n <= |text| then n else |text|
    ensures r <= text
  {
    if n <= |text| then text[..n] else text
  }
}
