/** Character-level helpers shared by the classifier and the extraction step:
    ASCII lower-casing (the `.lower()` calls) and substring search (`in` on strings). */
module Strings {

  predicate IsUpper(c: char) {
    'A' <= c <= 'Z'
  }

  /** Lower-cases one ASCII letter; every other character is unchanged. */
  function LowerChar(c: char): char {
    if IsUpper(c) then (c as int + 32) as char else c
  }

  /** `s.lower()` on the ASCII alphabet. */
  function Lower(s: string): string {
    seq(|s|, i requires 0 <= i < |s| => LowerChar(s[i]))
  }

  const UpperAlphabet: string := "ABCDEFGHIJKLMNOPQRSTUVWXYZ"
  const LowerAlphabet: string := "abcdefghijklmnopqrstuvwxyz"

  /** Lower-casing keeps the length and every non-letter, turns the `k`-th
      upper-case letter of the alphabet into the `k`-th lower-case one, leaves
      no upper-case letter behind, and doing it twice changes nothing. */
  lemma LowerProperties(s: string)
    ensures |Lower(s)| == |s|
    ensures forall i, k :: 0 <= i < |s| && 0 <= k < 26 && s[i] == UpperAlphabet[k] ==> Lower(s)[i] == LowerAlphabet[k]
    ensures forall i :: 0 <= i < |s| && !IsUpper(s[i]) ==> Lower(s)[i] == s[i]
    ensures forall i :: 0 <= i < |s| ==> !IsUpper(Lower(s)[i])
    ensures Lower(Lower(s)) == Lower(s)
  {
  }

  /** `t in s` for strings: `t` occurs somewhere in `s` as a contiguous block. */
  predicate Contains(s: string, t: string)
    decreases |s|
  {
    t <= s || (s != [] && Contains(s[1..], t))
  }

  /** An occurrence in a suffix of `s` is an occurrence in `s`. */
  lemma {:induction false} ContainsInSuffix(s: string, t: string, k: nat)
    requires k <= |s| && Contains(s[k..], t)
    ensures Contains(s, t)
    decreases k
  {
    if k > 0 {
      assert s[1..][k - 1..] == s[k..];
      ContainsInSuffix(s[1..], t, k - 1);
    }
  }

  /** A string shorter than `t` cannot contain it. */
  lemma {:induction false} ShorterDoesNotContain(s: string, t: string)
    requires |s| < |t|
    ensures !Contains(s, t)
  {
    if s != [] {
      ShorterDoesNotContain(s[1..], t);
    }
  }

  /** `t` occurs in `s` starting at position `i`. */
  predicate OccursAt(s: string, t: string, i: nat) {
    i + |t| <= |s| && s[i..i + |t|] == t
  }

  /** Every occurrence sits at some position of `s`. */
  lemma {:induction false} ContainsWitness(s: string, t: string)
    requires Contains(s, t)
    ensures exists i: nat :: OccursAt(s, t, i)
    decreases |s|
  {
    if t <= s {
      assert OccursAt(s, t, 0);
    } else {
      ContainsWitness(s[1..], t);
      var i: nat :| OccursAt(s[1..], t, i);
      assert s[i + 1..i + 1 + |t|] == s[1..][i..i + |t|];
      assert OccursAt(s, t, i + 1);
    }
  }

  /** A block equal to `t` at some position `i` of `s` is an occurrence. */
  lemma {:induction false} ContainsAt(s: string, t: string, i: nat)
    requires i + |t| <= |s| && s[i..i + |t|] == t
    ensures Contains(s, t)
  {
    assert t <= s[i..];
    ContainsInSuffix(s, t, i);
  }
}
