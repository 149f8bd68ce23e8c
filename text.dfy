/** Substring search as JavaScript's `String.prototype.includes` performs it. */
module Text {

  /** `t` occurs in `s` starting at index `i`. */
  predicate OccursAt(s: string, t: string, i: nat)
  {
    i + |t| <= |s| && s[i..i + |t|] == t
  }

  /** `s.includes(t)`: `t` is a prefix of `s` or of one of its suffixes.
      Every string includes the empty string. */
  predicate Includes(s: string, t: string)
    decreases |s|
  {
    t <= s || (|s| > 0 && Includes(s[1..], t))
  }

  /** `Includes` holds exactly when there is an index at which `t` occurs. */
  lemma {:induction false} IncludesIffOccurs(s: string, t: string)
    ensures Includes(s, t) <==> exists i: nat :: OccursAt(s, t, i)
    decreases |s|
  {
    if t <= s {
      assert OccursAt(s, t, 0);
    } else if |s| > 0 {
      IncludesIffOccurs(s[1..], t);
      if Includes(s[1..], t) {
        var i: nat :| OccursAt(s[1..], t, i);
        assert s[1..][i..i + |t|] == s[i + 1..i + 1 + |t|];
        assert OccursAt(s, t, i + 1);
      }
      if i: nat :| i > 0 && OccursAt(s, t, i) {
        assert s[1..][i - 1..i - 1 + |t|] == s[i..i + |t|];
        assert OccursAt(s[1..], t, i - 1);
      }
    }
  }

  /** Text put in front of a string cannot hide what the string includes. */
  lemma {:induction false} IncludesAfterPrefix(p: string, s: string, t: string)
    requires Includes(s, t)
    ensures Includes(p + s, t)
    decreases |p|
  {
    if p != [] {
      assert (p + s)[1..] == p[1..] + s;
      IncludesAfterPrefix(p[1..], s, t);
    } else {
      assert p + s == s;
    }
  }

  /** A string that never holds the first character of a non-empty `t` does not include `t`. */
  lemma {:induction false} NotIncludesWithoutFirstChar(s: string, t: string)
    requires |t| > 0 && t[0] !in s
    ensures !Includes(s, t)
    decreases |s|
  {
    if |s| > 0 {
      assert s[0] != t[0];
      NotIncludesWithoutFirstChar(s[1..], t);
    }
  }
}
