/** The string operations the pages rely on: `startsWith`, `includes`,
    ASCII `toLowerCase`, and JavaScript's `<` on strings (lexicographic by
    character, a proper prefix coming first). */
module Strings {

  /** `s.startsWith(p)`. */
  predicate IsPrefix(p: string, s: string)
  {
    |p| <= |s| && s[..|p|] == p
  }

  /** Two prefixes of one string are prefixes of each other, one way or the other. */
  lemma PrefixesAreComparable(p: string, q: string, s: string)
    requires IsPrefix(p, s) && IsPrefix(q, s)
    ensures IsPrefix(p, q) || IsPrefix(q, p)
  {
    if |p| <= |q| {
      assert q[..|p|] == s[..|p|];
    } else {
      assert p[..|q|] == s[..|q|];
    }
  }

  lemma PrefixTransitive(p: string, q: string, s: string)
    requires IsPrefix(p, q) && IsPrefix(q, s)
    ensures IsPrefix(p, s)
  {
    assert s[..|p|] == s[..|q|][..|p|];
  }

  /** `t` occurs in `s` starting at position `i`. */
  predicate OccursAt(s: string, t: string, i: int)
  {
    0 <= i && i + |t| <= |s| && s[i..i + |t|] == t
  }

  /** `s.includes(t)`: `t` occurs in `s` at some position. */
  function Contains(s: string, t: string): (r: bool)
    ensures r <==> exists i :: OccursAt(s, t, i)
    decreases |s|
  {
    if IsPrefix(t, s) then
      assert OccursAt(s, t, 0);
      true
    else if s == [] then false
    else
      var r := Contains(s[1..], t);
      assert forall i :: OccursAt(s[1..], t, i) <==> OccursAt(s, t, i + 1) by {
        forall i ensures OccursAt(s[1..], t, i) <==> OccursAt(s, t, i + 1) {
          if 0 <= i && i + 1 + |t| <= |s| {
            assert s[1..][i..i + |t|] == s[i + 1..i + 1 + |t|];
          }
        }
      }
      assert !OccursAt(s, t, 0);
      assert forall i :: OccursAt(s, t, i) ==> i == 0 || OccursAt(s[1..], t, i - 1);
      r
  }

  function ToLowerChar(c: char): (d: char)
    ensures 'A' <= c <= 'Z' ==> d as int == c as int + 32
    ensures !('A' <= c <= 'Z') ==> d == c
    ensures !('A' <= d <= 'Z')
  {
    if 'A' <= c <= 'Z' then (c as int + 32) as char else c
  }

  /** `s.toLowerCase()` restricted to ASCII letters. */
  function ToLower(s: string): (r: string)
    ensures |r| == |s|
    ensures forall i :: 0 <= i < |s| ==> r[i] == ToLowerChar(s[i])
  {
    if s == [] then [] else [ToLowerChar(s[0])] + ToLower(s[1..])
  }

  /** JavaScript `a < b` on strings, character by character. A Dafny `char`
      is a Unicode scalar value, so this is JavaScript's order (by UTF-16
      code unit) on strings whose characters all lie below U+10000. */
  predicate Less(a: string, b: string)
  {
    if b == [] then false
    else if a == [] then true
    else if a[0] != b[0] then a[0] < b[0]
    else Less(a[1..], b[1..])
  }

  lemma {:induction false} LessIrreflexive(a: string)
    ensures !Less(a, a)
  {
    if a != [] {
      LessIrreflexive(a[1..]);
    }
  }

  lemma {:induction false} LessAsymmetric(a: string, b: string)
    requires Less(a, b)
    ensures !Less(b, a)
  {
    if a != [] && b != [] && a[0] == b[0] {
      LessAsymmetric(a[1..], b[1..]);
    }
  }

  lemma {:induction false} LessTransitive(a: string, b: string, c: string)
    requires Less(a, b) && Less(b, c)
    ensures Less(a, c)
  {
    if a != [] && a[0] == b[0] && b[0] == c[0] {
      LessTransitive(a[1..], b[1..], c[1..]);
    }
  }

  /** Distinct strings are always ordered one way or the other. */
  lemma {:induction false} LessTotal(a: string, b: string)
    requires a != b
    ensures Less(a, b) || Less(b, a)
  {
    if a != [] && b != [] && a[0] == b[0] {
      assert a == [a[0]] + a[1..] && b == [b[0]] + b[1..];
      LessTotal(a[1..], b[1..]);
    }
  }
}
