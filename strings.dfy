/** The two operations of Rust's `str` the core relies on: `contains` with a
    string pattern, and `replace`, which substitutes every non-overlapping
    occurrence of a pattern, scanning from the left. */
module Strings {

  /** `p` occurs in `s` starting at position `i`. */
  predicate OccursAt(s: string, p: string, i: int)
  {
    0 <= i && i + |p| <= |s| && s[i..i + |p|] == p
  }

  /** `s.contains(p)`. */
  function Contains(s: string, p: string): (b: bool)
    ensures b ==> |p| <= |s|
    ensures |p| <= |s| && s[..|p|] == p ==> b
    decreases |s|
  {
    if |s| < |p| then false
    else if s[..|p|] == p then true
    else Contains(s[1..], p)
  }

  /** `contains` holds exactly when the pattern occurs somewhere. */
  lemma {:induction false} ContainsIff(s: string, p: string)
    ensures Contains(s, p) <==> exists i :: OccursAt(s, p, i)
    decreases |s|
  {
    if |s| < |p| {
      assert forall i :: !OccursAt(s, p, i);
    } else if s[..|p|] == p {
      assert OccursAt(s, p, 0);
    } else {
      ContainsIff(s[1..], p);
      forall i | OccursAt(s, p, i)
        ensures OccursAt(s[1..], p, i - 1)
      {
        assert i != 0;
        assert s[1..][i - 1..i - 1 + |p|] == s[i..i + |p|];
      }
      forall i | OccursAt(s[1..], p, i)
        ensures OccursAt(s, p, i + 1)
      {
        assert s[1..][i..i + |p|] == s[i + 1..i + 1 + |p|];
      }
      if Contains(s[1..], p) {
        var i :| OccursAt(s[1..], p, i);
        assert OccursAt(s, p, i + 1);
      }
    }
  }

  /** `s.replace(from, to)`. An empty pattern matches before every character
      and at the end, as in Rust. Replacing a pattern by itself changes
      nothing. */
  function Replace(s: string, from: string, to: string): (r: string)
    ensures to == from ==> r == s
    decreases |s|
  {
    if from == [] then
      if s == [] then to
      else
        assert s == [s[0]] + s[1..];
        to + [s[0]] + Replace(s[1..], from, to)
    else if |s| < |from| then s
    else if s[..|from|] == from then
      assert s == s[..|from|] + s[|from|..];
      to + Replace(s[|from|..], from, to)
    else
      assert s == [s[0]] + s[1..];
      [s[0]] + Replace(s[1..], from, to)
  }

  /** Text without the pattern's first character passes through unchanged,
      whatever follows it. */
  lemma {:induction false} ReplaceSkips(a: string, t: string, from: string, to: string)
    requires from != []
    requires forall i :: 0 <= i < |a| ==> a[i] != from[0]
    ensures Replace(a + t, from, to) == a + Replace(t, from, to)
    decreases |a|
  {
    if a != [] {
      var s := a + t;
      assert s[0] == a[0];
      if |s| < |from| {
        // The pattern does not fit: Replace is the identity on s and on t.
        assert Replace(t, from, to) == t;
      } else {
        assert s[..|from|][0] == a[0];
        assert s[1..] == a[1..] + t;
        ReplaceSkips(a[1..], t, from, to);
        assert a == [a[0]] + a[1..];
      }
    } else {
      assert a + t == t;
    }
  }

  /** A string without the pattern's first character is left as it is. */
  lemma ReplaceIdentity(s: string, from: string, to: string)
    requires from != []
    requires forall i :: 0 <= i < |s| ==> s[i] != from[0]
    ensures Replace(s, from, to) == s
  {
    ReplaceSkips(s, [], from, to);
    assert s + [] == s;
  }

  /** An occurrence at the front is replaced and the scan resumes after it. */
  lemma ReplaceHit(t: string, from: string, to: string)
    requires from != []
    ensures Replace(from + t, from, to) == to + Replace(t, from, to)
  {
    var s := from + t;
    assert s[..|from|] == from;
    assert s[|from|..] == t;
  }

  /** A template with a single placeholder, surrounded by text that holds
      none of the placeholder's first character, becomes prefix, value,
      suffix. */
  lemma ReplaceSingle(prefix: string, suffix: string, from: string, to: string)
    requires from != []
    requires forall i :: 0 <= i < |prefix| ==> prefix[i] != from[0]
    requires forall i :: 0 <= i < |suffix| ==> suffix[i] != from[0]
    ensures Replace(prefix + from + suffix, from, to) == prefix + to + suffix
  {
    assert prefix + from + suffix == prefix + (from + suffix);
    ReplaceSkips(prefix, from + suffix, from, to);
    ReplaceHit(suffix, from, to);
    ReplaceIdentity(suffix, from, to);
  }
}
