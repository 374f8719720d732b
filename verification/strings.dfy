/** Prefix and infix tests on strings, as Python's `str.startswith` and `in`. */
module Strings {

  /** `s.startswith(p)`: a case-sensitive, character-by-character prefix test. */
  predicate StartsWith(s: string, p: string) {
    |p| <= |s| && s[..|p|] == p
  }

  /** `p in s`: `p` occurs as a contiguous piece of `s`. */
  predicate IsInfix(p: string, s: string) {
    exists i :: 0 <= i <= |s| && StartsWith(s[i..], p)
  }

  /** A string that is glued together from pieces contains each of its pieces. */
  lemma InfixOfConcat(a: string, p: string, b: string)
    ensures IsInfix(p, a + p + b)
  {
    var s := a + p + b;
    assert s[|a|..][..|p|] == p;
    assert StartsWith(s[|a|..], p);
  }

  /** Both the first and the last of two pieces placed in a template occur in it. */
  lemma InfixOfTemplate(a: string, m: string, b: string, c: string, t: string)
    ensures IsInfix(m, a + m + b + c + t) && IsInfix(t, a + m + b + c + t)
  {
    assert a + m + b + c + t == a + m + (b + c + t);
    InfixOfConcat(a, m, b + c + t);
    assert a + m + b + c + t == (a + m + b + c) + t + "";
    InfixOfConcat(a + m + b + c, t, "");
  }
}
