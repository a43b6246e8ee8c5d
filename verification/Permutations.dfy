/** Index permutations and the multisets they preserve. */
module Permutations {

  /** Some of 0..n-1, none twice. */
  ghost predicate Selection(p: seq<nat>, n: nat) {
    && (forall i :: 0 <= i < |p| ==> p[i] < n)
    && (forall i, j :: 0 <= i < j < |p| ==> p[i] != p[j])
  }

  /** All of 0..n-1, each once. */
  ghost predicate Permutation(p: seq<nat>, n: nat) {
    |p| == n && Selection(p, n)
  }

  function Select<T>(s: seq<T>, p: seq<nat>): (r: seq<T>)
    requires forall i :: 0 <= i < |p| ==> p[i] < |s|
    ensures |r| == |p|
  {
    seq(|p|, i requires 0 <= i < |p| => s[p[i]])
  }

  ghost function Elements(p: seq<nat>): set<nat> {
    set i | i in p
  }

  function Remove<T>(s: seq<T>, k: nat): seq<T>
    requires k < |s|
  {
    s[..k] + s[k + 1..]
  }

  lemma RemoveMultiset<T>(s: seq<T>, k: nat)
    requires k < |s|
    ensures multiset(s) == multiset(Remove(s, k)) + multiset{s[k]}
  {
    assert s == s[..k] + [s[k]] + s[k + 1..];
  }

  /** Reading a sequence through a permutation reorders it. */
  lemma {:induction false} SelectMultiset<T>(s: seq<T>, p: seq<nat>)
    requires Permutation(p, |s|)
    ensures multiset(Select(s, p)) == multiset(s)
    decreases |s|
  {
    if s != [] {
      var k := p[0];
      var q := seq(|p| - 1, i requires 0 <= i < |p| - 1 => if p[i + 1] > k then p[i + 1] - 1 else p[i + 1]);
      SelectMultiset(Remove(s, k), q);
      assert Select(s, p) == [s[k]] + Select(Remove(s, k), q);
      RemoveMultiset(s, k);
    }
  }

  /** Every reordering is reading through some permutation. */
  lemma {:induction false} FindPermutation<T>(r: seq<T>, s: seq<T>) returns (p: seq<nat>)
    requires multiset(r) == multiset(s)
    ensures Permutation(p, |s|) && r == Select(s, p)
    decreases |r|
  {
    assert |r| == |multiset(r)| == |multiset(s)| == |s|;
    if r == [] {
      p := [];
    } else {
      var k := SameHead(r, s);
      var q := FindPermutation(r[1..], Remove(s, k));
      p := Around(s, k, q);
    }
  }

  /** A permutation of what is left without position k, with k in front. */
  lemma Around<T>(s: seq<T>, k: nat, q: seq<nat>) returns (p: seq<nat>)
    requires k < |s| && Permutation(q, |s| - 1)
    ensures Permutation(p, |s|) && Select(s, p) == [s[k]] + Select(Remove(s, k), q)
  {
    p := [k] + seq(|q|, i requires 0 <= i < |q| => if q[i] >= k then q[i] + 1 else q[i]);
  }

  lemma SameHead<T>(r: seq<T>, s: seq<T>) returns (k: nat)
    requires r != [] && multiset(r) == multiset(s)
    ensures k < |s| && s[k] == r[0] && multiset(r[1..]) == multiset(Remove(s, k))
  {
    assert r[0] in multiset(s);
    k :| 0 <= k < |s| && s[k] == r[0];
    RemoveMultiset(s, k);
    RemoveMultiset(r, 0);
    assert Remove(r, 0) == r[1..];
    assert multiset(r[1..]) == multiset(r) - multiset{r[0]};
    assert multiset(Remove(s, k)) == multiset(s) - multiset{r[0]};
  }

  function Below(n: nat): (r: set<nat>)
    ensures forall i: nat :: i in r <==> i < n
  {
    if n == 0 then {} else Below(n - 1) + {n - 1}
  }

  lemma {:induction false} BelowCardinality(n: nat)
    ensures |Below(n)| == n
  {
    if n > 0 {
      BelowCardinality(n - 1);
    }
  }

  lemma {:induction false} ElementsCardinality(p: seq<nat>, n: nat)
    requires Selection(p, n)
    ensures |Elements(p)| == |p| && Elements(p) <= Below(n)
  {
    if p != [] {
      ElementsCardinality(p[..|p| - 1], n);
      assert Elements(p) == Elements(p[..|p| - 1]) + {p[|p| - 1]};
    }
  }

  lemma {:induction false} SubsetCardinality<T>(a: set<T>, b: set<T>)
    requires a <= b
    ensures |a| <= |b|
    ensures |a| == |b| ==> a == b
  {
    if a != {} {
      var x :| x in a;
      SubsetCardinality(a - {x}, b - {x});
    }
  }

  lemma SelectionLength(p: seq<nat>, n: nat)
    requires Selection(p, n)
    ensures |p| <= n
    ensures |p| == n <==> Elements(p) == Below(n)
  {
    ElementsCardinality(p, n);
    BelowCardinality(n);
    SubsetCardinality(Elements(p), Below(n));
  }

  // ---- counting occurrences ----

  lemma Twice<T>(s: seq<T>, i: nat, j: nat)
    requires i < j < |s| && s[i] == s[j]
    ensures multiset(s)[s[i]] >= 2
  {
    assert s == s[..j] + s[j..];
    assert s[..j][i] == s[i] && s[j..][0] == s[i];
    assert s[i] in multiset(s[..j]) && s[i] in multiset(s[j..]);
  }

  lemma {:induction false} Once<T>(s: seq<T>, x: T)
    requires forall i, j :: 0 <= i < j < |s| ==> s[i] != s[j]
    ensures multiset(s)[x] <= 1
  {
    if s != [] {
      Once(s[1..], x);
      assert s == [s[0]] + s[1..];
      assert forall k :: 0 <= k < |s[1..]| ==> s[1..][k] == s[k + 1] != s[0];
      assert s[0] !in s[1..];
    }
  }
}
