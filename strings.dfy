/** The JavaScript string operations the registry relies on, over `seq<char>`. */
module Strings {

  /** `s.startsWith(prefix)`: a plain prefix test. */
  predicate StartsWith(s: string, prefix: string) {
    |prefix| <= |s| && s[..|prefix|] == prefix
  }

  predicate IsLowerAscii(c: char) {
    'a' <= c <= 'z'
  }

  /** `toUpperCase` on one character, restricted to the ASCII letters. */
  function UpperChar(c: char): char {
    if IsLowerAscii(c) then (c as int - 32) as char else c
  }

  /** `s.toUpperCase()`, restricted to the ASCII letters. */
  function Upper(s: string): (r: string)
    ensures |r| == |s|
    ensures forall i :: 0 <= i < |s| ==> r[i] == UpperChar(s[i])
  {
    if s == [] then [] else [UpperChar(s[0])] + Upper(s[1..])
  }

  /** A string without lower-case ASCII letters is its own upper case. */
  lemma UpperOfUpperCase(s: string)
    requires forall i :: 0 <= i < |s| ==> !IsLowerAscii(s[i])
    ensures Upper(s) == s
  {
  }

  /** Upper-casing twice is upper-casing once. */
  lemma UpperIdempotent(s: string)
    ensures Upper(Upper(s)) == Upper(s)
  {
    assert forall i :: 0 <= i < |s| ==> UpperChar(UpperChar(s[i])) == UpperChar(s[i]);
  }

  /** Upper-casing never creates nor removes a character that is not a letter, such as '|'. */
  lemma UpperKeepsNonLetter(s: string, c: char)
    requires !IsLowerAscii(c) && !('A' <= c <= 'Z')
    ensures c in Upper(s) <==> c in s
  {
    if c in s {
      var i :| 0 <= i < |s| && s[i] == c;
      assert Upper(s)[i] == c;
    }
    if c in Upper(s) {
      var i :| 0 <= i < |s| && Upper(s)[i] == c;
      assert s[i] == c;
    }
  }

  /** The part of `s` before the first occurrence of `sep` (all of `s` when there is none). */
  function Before(sep: char, s: string): string {
    if s == [] || s[0] == sep then [] else [s[0]] + Before(sep, s[1..])
  }

  lemma {:induction false} BeforeOfSeparated(sep: char, a: string, x: string)
    requires sep !in a
    requires x == [] || x[0] == sep
    ensures Before(sep, a + x) == a
  {
    if a == [] {
      assert a + x == x;
    } else {
      assert (a + x)[0] == a[0];
      assert (a + x)[1..] == a[1..] + x;
      BeforeOfSeparated(sep, a[1..], x);
    }
  }

  /**
   * If a separator occurs in neither `a` nor `b`, and both `x` and `y` are
   * empty or start with it, then `a + x == b + y` splits only one way.
   */
  lemma SplitAtSeparator(sep: char, a: string, x: string, b: string, y: string)
    requires sep !in a && sep !in b
    requires x == [] || x[0] == sep
    requires y == [] || y[0] == sep
    requires a + x == b + y
    ensures a == b && x == y
  {
    BeforeOfSeparated(sep, a, x);
    BeforeOfSeparated(sep, b, y);
    CancelPrefix(a, x, y);
  }

  /** A common prefix cancels. */
  lemma CancelPrefix(a: string, x: string, y: string)
    requires a + x == a + y
    ensures x == y
  {
    assert x == (a + x)[|a|..] && y == (a + y)[|a|..];
  }
}
