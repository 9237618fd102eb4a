/**
 * Character-sequence primitives from the Kotlin standard library that the
 * account-creation validators are built from: `CharSequence.all { }` and
 * `CharSequence.contains(other)`. Strings are sequences of Unicode scalar
 * values.
 */
module Text {

  /** `s.all { p(it) }`: every character of `s` satisfies `p`. */
  predicate All(s: string, p: char -> bool)
  {
    forall i :: 0 <= i < |s| ==> p(s[i])
  }

  /** `t` occurs in `s` starting at index `i`. */
  predicate OccursAt(s: string, t: string, i: int)
  {
    0 <= i && i + |t| <= |s| && s[i..i + |t|] == t
  }

  /** `s.contains(t)`: `t` occurs somewhere in `s`. */
  predicate Contains(s: string, t: string)
  {
    exists i | 0 <= i <= |s| - |t| :: OccursAt(s, t, i)
  }

  /** Containment survives putting text on either side: whatever `s`
      contains, every string that has `s` as a substring contains too. */
  lemma {:induction false} ContainsInContext(x: string, s: string, y: string, t: string)
    requires Contains(s, t)
    ensures Contains(x + s + y, t)
  {
    var i :| 0 <= i <= |s| - |t| && OccursAt(s, t, i);
    var w := x + s + y;
    assert w[|x| + i..|x| + i + |t|] == s[i..i + |t|];
    assert OccursAt(w, t, |x| + i);
  }

  /** A single character is contained exactly when it is one of the
      elements of `s`. */
  lemma {:induction false} ContainsChar(s: string, c: char)
    ensures Contains(s, [c]) <==> c in s
  {
    if c in s {
      var i :| 0 <= i < |s| && s[i] == c;
      assert s[i..i + 1] == [c];
      assert OccursAt(s, [c], i);
    }
    if Contains(s, [c]) {
      var i :| 0 <= i <= |s| - 1 && OccursAt(s, [c], i);
      assert s[i] == s[i..i + 1][0];
    }
  }

  /** Every character of a contained string appears in the containing one
      (so a string missing one of `t`'s characters cannot contain `t`). */
  lemma {:induction false} ContainedCharAppears(s: string, t: string, j: int)
    requires 0 <= j < |t|
    ensures Contains(s, t) ==> t[j] in s
  {
    if Contains(s, t) {
      var i :| 0 <= i <= |s| - |t| && OccursAt(s, t, i);
      assert s[i..i + |t|][j] == s[i + j];
    }
  }
}
