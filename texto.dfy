/**
 * The string operations the HR core relies on: `str.lower()`, the substring test
 * `p in s`, and Python's ordering of strings (code point by code point).
 */
module Texto {

  /** The capitals `str.lower()` changes here: ASCII A-Z and the Latin-1 capitals
      U+00C0..U+00DE except the multiplication sign U+00D7. */
  predicate Mayuscula(c: char)
  {
    'A' <= c <= 'Z' || ('\U{C0}' <= c <= '\U{DE}' && c != '\U{D7}')
  }

  /** Python's `str.lower()` on one character: a capital becomes the small letter 32 code
      points after it, every other character is kept, and no capital is left. */
  function LowerChar(c: char): (r: char)
    ensures Mayuscula(c) ==> r as int == c as int + 32
    ensures !Mayuscula(c) ==> r == c
    ensures !Mayuscula(r)
  {
    if Mayuscula(c) then (c as int + 32) as char else c
  }

  /** `s.lower()`, character by character: same length, no capital left, and a string
      without capitals is returned as it is. */
  function Lower(s: string): (r: string)
    ensures |r| == |s|
    ensures forall i :: 0 <= i < |s| ==> r[i] == LowerChar(s[i])
    ensures forall i :: 0 <= i < |r| ==> !Mayuscula(r[i])
    ensures (forall i :: 0 <= i < |s| ==> !Mayuscula(s[i])) ==> r == s
  {
    seq(|s|, i requires 0 <= i < |s| => LowerChar(s[i]))
  }

  /** Lowering twice is lowering once. */
  lemma LowerIdempotent(s: string)
    ensures Lower(Lower(s)) == Lower(s)
  {
    assert forall i :: 0 <= i < |s| ==> LowerChar(LowerChar(s[i])) == LowerChar(s[i]);
  }

  /** `p` occurs in `s` starting at position `i`. */
  ghost predicate OccursAt(s: string, p: string, i: int)
  {
    0 <= i && i + |p| <= |s| && s[i..i + |p|] == p
  }

  /** Python's `p in s` for strings: `p` is a contiguous substring of `s` (an empty
      `p` is in every string). */
  function Contains(s: string, p: string): (r: bool)
    ensures r <==> exists i :: OccursAt(s, p, i)
    decreases |s|
  {
    if |p| > |s| then
      false
    else if s[..|p|] == p then
      assert OccursAt(s, p, 0);
      true
    else
      var r := Contains(s[1..], p);
      assert r ==> exists i :: OccursAt(s, p, i) by {
        if r {
          var i :| OccursAt(s[1..], p, i);
          assert s[1..][i..i + |p|] == s[i + 1..i + 1 + |p|];
          assert OccursAt(s, p, i + 1);
        }
      }
      assert (exists i :: OccursAt(s, p, i)) ==> r by {
        if exists i :: OccursAt(s, p, i) {
          var i :| OccursAt(s, p, i);
          assert i != 0;
          assert s[1..][i - 1..i - 1 + |p|] == s[i..i + |p|];
          assert OccursAt(s[1..], p, i - 1);
        }
      }
      r
  }

  /** Python's `a < b` on strings: lexicographic by code point, a proper prefix first. */
  predicate Less(a: string, b: string)
  {
    |b| > 0 && (|a| == 0 || a[0] < b[0] || (a[0] == b[0] && Less(a[1..], b[1..])))
  }

  /** Python's `a <= b` on strings. */
  predicate LessEq(a: string, b: string)
  {
    a == b || Less(a, b)
  }

  /** Two different strings are ordered one way or the other. */
  lemma {:induction false} LessTotal(a: string, b: string)
    ensures a == b || Less(a, b) || Less(b, a)
  {
    if |a| > 0 && |b| > 0 && a[0] == b[0] {
      LessTotal(a[1..], b[1..]);
      if a[1..] == b[1..] {
        assert a == [a[0]] + a[1..] && b == [b[0]] + b[1..];
      }
    }
  }

  /** No string is less than itself, and `<` is asymmetric. */
  lemma {:induction false} LessAsymmetric(a: string, b: string)
    ensures Less(a, b) ==> !Less(b, a)
  {
    if |a| > 0 && |b| > 0 && a[0] == b[0] {
      LessAsymmetric(a[1..], b[1..]);
    }
  }

  /** `<` on strings is transitive. */
  lemma {:induction false} LessTransitive(a: string, b: string, c: string)
    requires Less(a, b) && Less(b, c)
    ensures Less(a, c)
  {
    if |a| > 0 && a[0] == b[0] && b[0] == c[0] {
      LessTransitive(a[1..], b[1..], c[1..]);
    }
  }

  /** `<=` on strings is a total order: total and transitive. */
  lemma LessEqTotalOrder(a: string, b: string, c: string)
    ensures LessEq(a, b) || LessEq(b, a)
    ensures LessEq(a, b) && LessEq(b, c) ==> LessEq(a, c)
  {
    LessTotal(a, b);
    if Less(a, b) && Less(b, c) {
      LessTransitive(a, b, c);
    }
  }
}
