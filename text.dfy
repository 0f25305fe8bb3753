/**
 * Character classes and the two string transforms the form and the preview
 * are built from: ASCII upper-casing and "remove every character of a class"
 * (the `replace(/[...]/g, '')` idiom).
 */
module Text {

  predicate IsAsciiLower(c: char) { 'a' <= c <= 'z' }

  predicate IsDigit(c: char) { '0' <= c <= '9' }

  /** The complement of `[0-9]`. */
  predicate NonDigit(c: char) { !IsDigit(c) }

  /**
   * The characters matched by `\s` in an ECMAScript regular expression:
   * WhiteSpace (TAB, VT, FF, ZWNBSP and the space separators of category Zs)
   * and LineTerminator (LF, CR, LS, PS).
   */
  predicate IsWhitespace(c: char)
    ensures IsWhitespace(c) ==> !IsDigit(c) && !IsAsciiLower(c) && !('A' <= c <= 'Z')
    ensures c as int < 128 ==> (IsWhitespace(c) <==> c in "\t\n\U{000B}\U{000C}\r ")
  {
    c == '\t' || c == '\n' || c == '\U{000B}' || c == '\U{000C}' || c == '\r' ||
    c == ' ' || c == '\U{00A0}' || c == '\U{1680}' ||
    ('\U{2000}' <= c <= '\U{200A}') ||
    c == '\U{2028}' || c == '\U{2029}' || c == '\U{202F}' || c == '\U{205F}' ||
    c == '\U{3000}' || c == '\U{FEFF}'
  }

  /** Upper-casing of one character, restricted to the ASCII letters. */
  function UpperChar(c: char): (u: char)
    ensures !IsAsciiLower(u)
    ensures IsAsciiLower(c) ==> u as int == c as int - 32
    ensures !IsAsciiLower(c) ==> u == c
  {
    if IsAsciiLower(c) then (c as int - 32) as char else c
  }

  /** `toUpperCase()` on an ASCII string: every character mapped by UpperChar. */
  function ToUpper(s: string): (r: string)
    ensures |r| == |s|
    ensures forall i :: 0 <= i < |s| ==> r[i] == UpperChar(s[i])
  {
    if s == [] then [] else [UpperChar(s[0])] + ToUpper(s[1..])
  }

  /** `s.replace(/cls/g, '')`: every character for which `drop` holds is removed. */
  function RemoveAll(s: string, drop: char -> bool): (r: string)
    ensures |r| <= |s|
    ensures forall i :: 0 <= i < |r| ==> !drop(r[i])
  {
    if s == [] then []
    else
      var rest := RemoveAll(s[1..], drop);
      if drop(s[0]) then rest else [s[0]] + rest
  }

  /** Every character that is kept occurs as often as in the input; dropped ones not at all. */
  lemma {:induction false} RemoveAllCounts(s: string, drop: char -> bool)
    ensures forall c :: !drop(c) ==> multiset(RemoveAll(s, drop))[c] == multiset(s)[c]
    ensures forall c :: drop(c) ==> multiset(RemoveAll(s, drop))[c] == 0
  {
    if s != [] {
      RemoveAllCounts(s[1..], drop);
      assert s == [s[0]] + s[1..];
    }
  }

  /** `t` can be obtained from `s` by deleting characters, keeping the order of the rest. */
  predicate IsSubsequence(t: string, s: string)
    decreases |s|
  {
    if t == [] then true
    else if s == [] then false
    else if t[0] == s[0] then IsSubsequence(t[1..], s[1..])
    else IsSubsequence(t, s[1..])
  }

  /** The characters that survive keep their relative order. */
  lemma {:induction false} RemoveAllIsSubsequence(s: string, drop: char -> bool)
    ensures IsSubsequence(RemoveAll(s, drop), s)
  {
    if s != [] {
      RemoveAllIsSubsequence(s[1..], drop);
      if !drop(s[0]) {
        var r := RemoveAll(s, drop);
        assert r[0] == s[0] && r[1..] == RemoveAll(s[1..], drop);
      } else {
        SubsequenceSkip(RemoveAll(s, drop), s);
      }
    }
  }

  /** Skipping the first character of `s` keeps a subsequence a subsequence. */
  lemma {:induction false} SubsequenceSkip(t: string, s: string)
    requires s != [] && IsSubsequence(t, s[1..])
    ensures IsSubsequence(t, s)
    decreases |s|, 0
  {
    if t != [] && t[0] == s[0] {
      // a match on s[0] is greedy: t[1..] is a subsequence of s[1..] because t is
      assert IsSubsequence(t, s[1..]);
      SubsequenceTail(t, s[1..]);
    }
  }

  /** Dropping the first character of a subsequence keeps it a subsequence. */
  lemma {:induction false} SubsequenceTail(t: string, s: string)
    requires t != [] && IsSubsequence(t, s)
    ensures IsSubsequence(t[1..], s)
    decreases |s|, 1
  {
    assert s != [];
    if t[0] == s[0] {
      if t[1..] != [] {
        SubsequenceSkip(t[1..], s);
      }
    } else {
      SubsequenceTail(t, s[1..]);
      if t[1..] != [] {
        SubsequenceSkip(t[1..], s);
      }
    }
  }

  /** A string is left unchanged exactly when none of its characters is to be dropped. */
  lemma {:induction false} RemoveAllFixedPoint(s: string, drop: char -> bool)
    ensures RemoveAll(s, drop) == s <==> forall i :: 0 <= i < |s| ==> !drop(s[i])
  {
    if s != [] {
      RemoveAllFixedPoint(s[1..], drop);
      if drop(s[0]) {
        // the result is strictly shorter than s
        assert |RemoveAll(s, drop)| <= |s[1..]|;
      }
    }
  }

  /** Removing twice removes nothing more. */
  lemma RemoveAllIdempotent(s: string, drop: char -> bool)
    ensures RemoveAll(RemoveAll(s, drop), drop) == RemoveAll(s, drop)
  {
    RemoveAllFixedPoint(RemoveAll(s, drop), drop);
  }

  /** The result is empty exactly when every character of the input is dropped. */
  lemma {:induction false} RemoveAllEmpty(s: string, drop: char -> bool)
    ensures RemoveAll(s, drop) == [] <==> forall i :: 0 <= i < |s| ==> drop(s[i])
  {
    if s != [] {
      RemoveAllEmpty(s[1..], drop);
      if !drop(s[0]) {
        assert RemoveAll(s, drop)[0] == s[0];
      } else {
        forall i | 1 <= i < |s| ensures s[i] == s[1..][i - 1] { }
      }
    }
  }
}
