/**
 * Python's substring test `p in s`, written character by character so that the
 * verifier can evaluate it on the fixed sensor-id literals.
 */
module Text {

  import opened Wrappers

  /** p occurs in s at offset i, comparing from p[k] on. */
  predicate MatchFrom(s: string, p: string, i: nat, k: nat)
    requires i + |p| <= |s| && k <= |p|
    decreases |p| - k
  {
    k == |p| || (s[i + k] == p[k] && MatchFrom(s, p, i, k + 1))
  }

  /** p occurs in s at some offset at or after i. */
  predicate ContainsFrom(s: string, p: string, i: nat)
    decreases |s| - i
  {
    i + |p| <= |s| && (MatchFrom(s, p, i, 0) || ContainsFrom(s, p, i + 1))
  }

  /** `p in s` for Python strings. */
  predicate Contains(s: string, p: string) {
    ContainsFrom(s, p, 0)
  }

  predicate OccursAt(s: string, p: string, i: int) {
    0 <= i && i + |p| <= |s| && s[i..i + |p|] == p
  }

  lemma {:induction false} MatchFromIsSlice(s: string, p: string, i: nat, k: nat)
    requires i + |p| <= |s| && k <= |p|
    ensures MatchFrom(s, p, i, k) <==> s[i + k..i + |p|] == p[k..]
    decreases |p| - k
  {
    if k < |p| {
      MatchFromIsSlice(s, p, i, k + 1);
      assert s[i + k..i + |p|] == [s[i + k]] + s[i + k + 1..i + |p|];
      assert p[k..] == [p[k]] + p[k + 1..];
    }
  }

  lemma {:induction false} ContainsFromIsOccurrence(s: string, p: string, i: nat)
    ensures ContainsFrom(s, p, i) <==> exists j :: i <= j && OccursAt(s, p, j)
    decreases |s| - i
  {
    if i + |p| <= |s| {
      MatchFromIsSlice(s, p, i, 0);
      assert p[0..] == p;
      ContainsFromIsOccurrence(s, p, i + 1);
      if MatchFrom(s, p, i, 0) {
        assert OccursAt(s, p, i);
      }
      if exists j :: i <= j && OccursAt(s, p, j) {
        var j :| i <= j && OccursAt(s, p, j);
        if j > i {
          assert i + 1 <= j;
        }
      }
    }
  }

  /** The character-level test is exactly Python's: p is a slice of s. */
  lemma ContainsIsOccurrence(s: string, p: string)
    ensures Contains(s, p) <==> exists j :: OccursAt(s, p, j)
  {
    ContainsFromIsOccurrence(s, p, 0);
  }

  /**
   * A prefix of a contained string is contained: an id containing "fingerfive"
   * contains "finger", one containing "middle" contains "mid".
   */
  lemma ContainsPrefix(s: string, p: string, q: string)
    requires |q| <= |p| && p[..|q|] == q
    requires Contains(s, p)
    ensures Contains(s, q)
  {
    ContainsIsOccurrence(s, p);
    var j :| OccursAt(s, p, j);
    assert s[j..j + |q|] == s[j..j + |p|][..|q|];
    assert OccursAt(s, q, j);
    ContainsIsOccurrence(s, q);
  }

  /**
   * Index of the first key that occurs in s, trying the keys in order: the
   * first-match-wins rule of a Python loop over an ordered dict.
   */
  function FirstContained(keys: seq<string>, s: string): (r: Option<nat>)
    ensures r.Some? ==> r.value < |keys| && Contains(s, keys[r.value])
    ensures r.Some? ==> forall j :: 0 <= j < r.value ==> !Contains(s, keys[j])
    ensures r.None? <==> forall j :: 0 <= j < |keys| ==> !Contains(s, keys[j])
  {
    if |keys| == 0 then None
    else if Contains(s, keys[0]) then Some(0)
    else match FirstContained(keys[1..], s)
      case None => None
      case Some(j) => Some(j + 1)
  }
}
