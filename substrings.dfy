/** Python's substring test `sub in s`, and where an occurrence can lie. */
module Substrings {
  /** `sub` occurs in `s` starting at index `i`. */
  predicate OccursAt(s: string, sub: string, i: int) {
    0 <= i && i + |sub| <= |s| && s[i..i + |sub|] == sub
  }

  /** Python's substring test `sub in s`: `sub` occurs somewhere in `s`
      (the empty string occurs everywhere, at index 0). */
  predicate Contains(s: string, sub: string): (b: bool)
    ensures sub == [] ==> b
    ensures b ==> |sub| <= |s|
    ensures sub == s ==> b
  {
    assert OccursAt(s, [], 0);
    assert OccursAt(s, s, 0);
    exists i :: 0 <= i <= |s| - |sub| && OccursAt(s, sub, i)
  }

  /** A pattern holding a character that `s` lacks does not occur in `s`. */
  lemma MissingCharNoMatch(s: string, sub: string, c: char)
    requires c in sub && c !in s
    ensures !Contains(s, sub)
  {
    var j :| 0 <= j < |sub| && sub[j] == c;
    forall i | 0 <= i <= |s| - |sub|
      ensures !OccursAt(s, sub, i)
    {
      assert s[i + j] in s;
    }
  }

  /** An occurrence inside a slice is an occurrence in the whole. */
  lemma SliceOccurrence(t: string, a: int, b: int, sub: string, p: int)
    requires 0 <= a <= b <= |t| && OccursAt(t[a..b], sub, p)
    ensures OccursAt(t, sub, a + p)
  {
    var u := t[a..b][p..p + |sub|];
    var v := t[a + p..a + p + |sub|];
    assert forall k :: 0 <= k < |u| ==> u[k] == v[k];
  }

  /** An occurrence that lies inside a slice is an occurrence in the slice. */
  lemma OccurrenceInSlice(t: string, a: int, b: int, sub: string, i: int)
    requires 0 <= a <= i && i + |sub| <= b <= |t| && OccursAt(t, sub, i)
    ensures OccursAt(t[a..b], sub, i - a)
  {
    var u := t[a..b][i - a..i - a + |sub|];
    var v := t[i..i + |sub|];
    assert forall k :: 0 <= k < |u| ==> u[k] == v[k];
  }

  /** When every occurrence of `sub` in `t` lies inside the window `t[a..b]`,
      `sub` occurs in the window exactly when it occurs in `t`. */
  lemma WindowMatch(window: string, t: string, a: int, b: int, sub: string)
    requires 0 <= a <= b <= |t| && window == t[a..b]
    requires forall q :: OccursAt(t, sub, q) ==> a <= q && q + |sub| <= b
    ensures Contains(window, sub) <==> Contains(t, sub)
  {
    if Contains(window, sub) {
      var p :| OccursAt(window, sub, p);
      SliceOccurrence(t, a, b, sub, p);
    }
    if Contains(t, sub) {
      var q :| OccursAt(t, sub, q);
      OccurrenceInSlice(t, a, b, sub, q);
    }
  }
}
