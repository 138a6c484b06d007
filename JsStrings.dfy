/** The JavaScript string built-ins the widget relies on, written out as
    functions on sequences of characters: `String.prototype.trim` and
    `String.prototype.toLowerCase` on the ASCII letters. */
module JsStrings {

  /** ECMAScript's WhiteSpace and LineTerminator code points: what `trim` removes. */
  predicate IsJsSpace(c: char) {
    var n := c as int;
    n == 0x09 || n == 0x0A || n == 0x0B || n == 0x0C || n == 0x0D || n == 0x20 ||
    n == 0xA0 || n == 0x1680 || (0x2000 <= n <= 0x200A) || n == 0x2028 ||
    n == 0x2029 || n == 0x202F || n == 0x205F || n == 0x3000 || n == 0xFEFF
  }

  /** The number of white-space characters at the start of `s`. */
  function LeadingSpace(s: string): (n: nat)
    ensures n <= |s|
    ensures forall i :: 0 <= i < n ==> IsJsSpace(s[i])
    ensures n < |s| ==> !IsJsSpace(s[n])
  {
    if s == [] || !IsJsSpace(s[0]) then 0 else LeadingSpace(s[1..]) + 1
  }

  /** The number of white-space characters at the end of `s`. */
  function TrailingSpace(s: string): (n: nat)
    ensures n <= |s|
    ensures forall i :: |s| - n <= i < |s| ==> IsJsSpace(s[i])
    ensures n < |s| ==> !IsJsSpace(s[|s| - 1 - n])
  {
    if s == [] || !IsJsSpace(s[|s| - 1]) then 0 else TrailingSpace(s[..|s| - 1]) + 1
  }

  /** `r` is what `trim` leaves of `s` when the cut starts at index `a`:
      everything of `s` before and after that slice is white space, and
      neither end of the slice is. */
  ghost predicate IsTrimAt(r: string, s: string, a: nat) {
    a + |r| <= |s|
    && (forall i :: 0 <= i < |r| ==> s[a + i] == r[i])
    && (forall i :: 0 <= i < a ==> IsJsSpace(s[i]))
    && (forall i :: a + |r| <= i < |s| ==> IsJsSpace(s[i]))
    && (r != [] ==> !IsJsSpace(r[0]) && !IsJsSpace(r[|r| - 1]))
  }

  ghost predicate IsTrimOf(r: string, s: string) {
    exists a: nat :: IsTrimAt(r, s, a)
  }

  /** `String.prototype.trim`. */
  function Trim(s: string): (r: string)
    ensures |r| <= |s|
    ensures r != [] ==> !IsJsSpace(r[0]) && !IsJsSpace(r[|r| - 1])
  {
    var a := LeadingSpace(s);
    s[a..|s| - TrailingSpace(s[a..])]
  }

  /** `Trim` cuts exactly the white space at both ends. */
  lemma TrimIsTrimOf(s: string)
    ensures IsTrimOf(Trim(s), s)
  {
    var a := LeadingSpace(s);
    assert IsTrimAt(Trim(s), s, a);
  }

  /** At most one string is the trim of `s`. */
  lemma TrimOfUnique(s: string, r1: string, r2: string)
    requires IsTrimOf(r1, s) && IsTrimOf(r2, s)
    ensures r1 == r2
  {
    var a1: nat :| IsTrimAt(r1, s, a1);
    var a2: nat :| IsTrimAt(r2, s, a2);
    if r1 != [] {
      assert s[a1] == r1[0] && s[a1 + |r1| - 1] == r1[|r1| - 1];
    }
    if r2 != [] {
      assert s[a2] == r2[0] && s[a2 + |r2| - 1] == r2[|r2| - 1];
    }
    if r1 != [] && r2 != [] {
      assert a1 == a2;
      assert |r1| == |r2|;
    }
  }

  /** White space added at either end does not change what `trim` returns. */
  lemma TrimIgnoresPadding(pre: string, s: string, post: string)
    requires forall i :: 0 <= i < |pre| ==> IsJsSpace(pre[i])
    requires forall i :: 0 <= i < |post| ==> IsJsSpace(post[i])
    ensures Trim(pre + s + post) == Trim(s)
  {
    var r := Trim(s);
    TrimIsTrimOf(s);
    var a: nat :| IsTrimAt(r, s, a);
    var t := pre + s + post;
    assert forall i :: 0 <= i < |s| ==> t[|pre| + i] == s[i];
    assert forall i :: 0 <= i < |pre| ==> t[i] == pre[i];
    assert forall i :: 0 <= i < |post| ==> t[|pre| + |s| + i] == post[i];
    assert IsTrimAt(r, t, |pre| + a);
    TrimIsTrimOf(t);
    TrimOfUnique(t, r, Trim(t));
  }

  /** `toLowerCase` on one character, for the ASCII letters the model meets. */
  function LowerChar(c: char): char {
    if 'A' <= c <= 'Z' then (c as int - 'A' as int + 'a' as int) as char else c
  }

  /** `toLowerCase` on a string whose letters are ASCII. */
  function LowerString(s: string): (r: string)
    ensures |r| == |s|
    ensures forall i :: 0 <= i < |s| ==> r[i] == LowerChar(s[i])
  {
    if s == [] then [] else [LowerChar(s[0])] + LowerString(s[1..])
  }

  /** `s` and `t` differ at most in the case of ASCII letters. */
  predicate SameUpToCase(s: string, t: string) {
    |s| == |t| && forall i :: 0 <= i < |s| ==> LowerChar(s[i]) == LowerChar(t[i])
  }

  lemma SpaceIgnoresCase(x: char, y: char)
    requires LowerChar(x) == LowerChar(y)
    ensures IsJsSpace(x) <==> IsJsSpace(y)
  {
  }

  /** Trimming two strings that differ only in letter case leaves two
      strings that differ only in letter case. */
  lemma TrimIgnoresCase(s: string, t: string)
    requires SameUpToCase(s, t)
    ensures SameUpToCase(Trim(s), Trim(t))
  {
    var r := Trim(s);
    TrimIsTrimOf(s);
    var a: nat :| IsTrimAt(r, s, a);
    TrimAtIgnoresCase(s, t, r, a);
    TrimIsTrimOf(t);
    TrimOfUnique(t, t[a..a + |r|], Trim(t));
  }

  /** The same cut, made in a string that differs only in letter case, is a
      trim of that string and differs from the first cut only in case. */
  lemma TrimAtIgnoresCase(s: string, t: string, r: string, a: nat)
    requires SameUpToCase(s, t) && IsTrimAt(r, s, a)
    ensures IsTrimAt(t[a..a + |r|], t, a) && SameUpToCase(r, t[a..a + |r|])
  {
    var u := t[a..a + |r|];
    forall i | 0 <= i < |r| ensures LowerChar(r[i]) == LowerChar(u[i]) {
      assert r[i] == s[a + i] && u[i] == t[a + i];
    }
    forall i | 0 <= i < |t| && !(a <= i < a + |r|) ensures IsJsSpace(t[i]) {
      SpaceIgnoresCase(s[i], t[i]);
    }
    if r != [] {
      SpaceIgnoresCase(r[0], u[0]);
      SpaceIgnoresCase(r[|r| - 1], u[|u| - 1]);
    }
  }
}
