/** The two pure steps between the regex matches and the batch loop:
    `list(dict.fromkeys(matches))` (checker.py:73) and
    `email.split("@")[1].lower()` (checker.py:83). */
module Extraction {
  import opened Strings

  predicate NoDup<T(==)>(s: seq<T>) {
    forall i, j :: 0 <= i < j < |s| ==> s[i] != s[j]
  }

  /** Position of the first occurrence of `x` in `xs`. */
  function FirstIndex<T(==)>(xs: seq<T>, x: T): (k: nat)
    requires x in xs
    ensures k < |xs| && xs[k] == x && x !in xs[..k]
  {
    if xs[0] == x then 0 else 1 + FirstIndex(xs[1..], x)
  }

  /** The first-occurrence position is unique: it is the only position holding
      `x` with no earlier `x`. */
  lemma FirstIndexUnique<T>(xs: seq<T>, x: T, k: nat)
    requires k < |xs| && xs[k] == x && x !in xs[..k]
    ensures FirstIndex(xs, x) == k
  {
  }

  /** Extending the list at its end does not move any first occurrence. */
  lemma FirstIndexSnoc<T>(xs: seq<T>, y: T, x: T)
    requires x in xs
    ensures FirstIndex(xs + [y], x) == FirstIndex(xs, x)
  {
    var k := FirstIndex(xs, x);
    assert (xs + [y])[..k] == xs[..k];
    FirstIndexUnique(xs + [y], x, k);
  }

  /** `list(dict.fromkeys(xs))`: a dict keeps its keys in insertion order and
      ignores re-insertion, so each value is kept at its first appearance. */
  function Dedup(xs: seq<string>): (r: seq<string>)
    ensures NoDup(r)
    ensures forall x :: x in r <==> x in xs
  {
    if xs == [] then []
    else
      var d := Dedup(xs[..|xs| - 1]);
      var y := xs[|xs| - 1];
      assert xs == xs[..|xs| - 1] + [y];
      if y in d then d else d + [y]
  }

  /** The unique addresses appear in the order of their first occurrence in
      the list of matches. */
  lemma {:induction false} DedupKeepsFirstOccurrenceOrder(xs: seq<string>)
    ensures forall i, j :: 0 <= i < j < |Dedup(xs)| ==>
      FirstIndex(xs, Dedup(xs)[i]) < FirstIndex(xs, Dedup(xs)[j])
  {
    if xs != [] {
      var p, y := xs[..|xs| - 1], xs[|xs| - 1];
      assert xs == p + [y];
      var d := Dedup(p);
      DedupKeepsFirstOccurrenceOrder(p);
      forall x | x in d ensures FirstIndex(xs, x) == FirstIndex(p, x) {
        FirstIndexSnoc(p, y, x);
      }
      if y !in d {
        assert y !in p;
        FirstIndexUnique(xs, y, |p|);
        assert Dedup(xs) == d + [y];
        forall i, j | 0 <= i < j < |Dedup(xs)|
          ensures FirstIndex(xs, Dedup(xs)[i]) < FirstIndex(xs, Dedup(xs)[j])
        {
          if j < |d| {
            assert Dedup(xs)[i] == d[i] && Dedup(xs)[j] == d[j];
          } else {
            assert Dedup(xs)[i] == d[i];
          }
        }
      }
    }
  }

  /** Dedup of an already duplicate-free list is that list: running the
      extraction over its own output changes nothing. */
  lemma {:induction false} DedupOfDistinct(xs: seq<string>)
    requires NoDup(xs)
    ensures Dedup(xs) == xs
  {
    if xs != [] {
      var p, y := xs[..|xs| - 1], xs[|xs| - 1];
      assert NoDup(p);
      DedupOfDistinct(p);
      assert y !in p;
      assert xs == p + [y];
    }
  }

  /** The text between the start of `s` and the first `@` (or the end). */
  function UpToAt(s: string): (r: string)
    ensures r <= s && '@' !in r
    ensures |r| < |s| ==> s[|r|] == '@'
  {
    if s == [] || s[0] == '@' then [] else [s[0]] + UpToAt(s[1..])
  }

  /** `s.split("@")[1]`: the field after the first `@`, up to the next `@`. */
  function SecondField(s: string): (r: string)
    requires '@' in s
    ensures '@' !in r && |r| < |s|
  {
    if s[0] == '@' then UpToAt(s[1..]) else SecondField(s[1..])
  }

  /** The domain used for classification (checker.py:83). The regex only
      yields matches holding an `@`, so `split("@")[1]` always exists. */
  function Domain(email: string): (d: string)
    requires '@' in email
    ensures |d| < |email|
  {
    Lower(SecondField(email))
  }

  /** The domain holds no `@` and no upper-case letter. */
  lemma DomainIsLowerCase(email: string)
    requires '@' in email
    ensures '@' !in Domain(email)
    ensures forall i :: 0 <= i < |Domain(email)| ==> !IsUpper(Domain(email)[i])
  {
    var f := SecondField(email);
    LowerProperties(f);
    assert forall i :: 0 <= i < |f| ==> f[i] != '@';
  }

  /** For an address `local@host` with a single `@`, the domain is the
      lower-cased host part. */
  lemma {:induction false} DomainOfAddress(local: string, host: string)
    requires '@' !in local && '@' !in host
    ensures Domain(local + "@" + host) == Lower(host)
  {
    SecondFieldOfAddress(local, host);
  }

  lemma {:induction false} SecondFieldOfAddress(local: string, host: string)
    requires '@' !in local && '@' !in host
    ensures SecondField(local + "@" + host) == host
  {
    var s := local + "@" + host;
    if local == [] {
      assert s[1..] == host;
      UpToAtNoAt(host);
    } else {
      assert s[1..] == local[1..] + "@" + host;
      SecondFieldOfAddress(local[1..], host);
    }
  }

  lemma {:induction false} UpToAtNoAt(s: string)
    requires '@' !in s
    ensures UpToAt(s) == s
  {
    if s != [] {
      UpToAtNoAt(s[1..]);
    }
  }
}
