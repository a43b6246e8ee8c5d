/** What the callers of a library sort rely on: the result is a sorted permutation, ties in any order. */
module Sorting {

  ghost predicate StrictWeakOrder<T(!new)>(less: (T, T) -> bool) {
    && (forall x :: !less(x, x))
    && (forall x, y, z :: less(x, y) && less(y, z) ==> less(x, z))
    && (forall x, y, z :: !less(x, y) && !less(y, z) ==> !less(x, z))
  }

  /** No element is less than one placed before it. */
  ghost predicate SortedBy<T>(less: (T, T) -> bool, s: seq<T>) {
    forall i, j :: 0 <= i < j < |s| ==> !less(s[j], s[i])
  }

  /** Stands for `sort.Sort`: callers may use nothing about the order of ties. */
  method Sort<T(!new)>(less: (T, T) -> bool, s: seq<T>) returns (r: seq<T>)
    requires StrictWeakOrder(less)
    ensures multiset(r) == multiset(s)
    ensures SortedBy(less, r)
  {
    r := [];
    for n := 0 to |s|
      invariant multiset(r) == multiset(s[..n])
      invariant SortedBy(less, r)
    {
      r := Insert(less, r, s[n]);
      assert s[..n + 1] == s[..n] + [s[n]];
    }
    assert s[..|s|] == s;
  }

  method Insert<T(!new)>(less: (T, T) -> bool, r: seq<T>, x: T) returns (r': seq<T>)
    requires StrictWeakOrder(less) && SortedBy(less, r)
    ensures multiset(r') == multiset(r) + multiset{x}
    ensures SortedBy(less, r')
  {
    hide StrictWeakOrder, SortedBy;
    var k := |r|;
    while k > 0 && less(x, r[k - 1])
      invariant 0 <= k <= |r|
      invariant forall i :: k <= i < |r| ==> less(x, r[i])
    {
      k := k - 1;
    }
    InsertSorted(less, r, k, x);
    assert r == r[..k] + r[k..];
    r' := r[..k] + [x] + r[k..];
  }

  lemma InsertSorted<T(!new)>(less: (T, T) -> bool, r: seq<T>, k: nat, x: T)
    requires StrictWeakOrder(less) && SortedBy(less, r) && k <= |r|
    requires forall i :: k <= i < |r| ==> less(x, r[i])
    requires k > 0 ==> !less(x, r[k - 1])
    ensures SortedBy(less, r[..k] + [x] + r[k..])
  {
    var t := r[..k] + [x] + r[k..];
    forall i, j | 0 <= i < j < |t| ensures !less(t[j], t[i]) {
      if j < k {
      } else if j == k {
        assert !less(r[k - 1], r[i]);
      } else if i == k {
        assert less(x, r[j - 1]);
      } else {
        assert t[j] == r[j - 1];
      }
    }
  }

  /** Lexicographic order on strings, as `<` compares them. */
  predicate LexLess(a: string, b: string) {
    b != [] && (a == [] || a[0] < b[0] || (a[0] == b[0] && LexLess(a[1..], b[1..])))
  }

  lemma {:induction false} LexTotal(a: string, b: string)
    ensures !LexLess(a, b) && !LexLess(b, a) <==> a == b
    ensures !(LexLess(a, b) && LexLess(b, a))
  {
    if a != [] && b != [] && a[0] == b[0] {
      LexTotal(a[1..], b[1..]);
      assert a == [a[0]] + a[1..] && b == [b[0]] + b[1..];
    }
  }

  lemma {:induction false} LexTransitive(a: string, b: string, c: string)
    requires LexLess(a, b) && LexLess(b, c)
    ensures LexLess(a, c)
  {
    if a != [] && a[0] == b[0] == c[0] {
      LexTransitive(a[1..], b[1..], c[1..]);
    }
  }

  lemma LexOrder()
    ensures StrictWeakOrder(LexLess)
  {
    forall x, y, z ensures !LexLess(x, x)
        && (LexLess(x, y) && LexLess(y, z) ==> LexLess(x, z))
        && (!LexLess(x, y) && !LexLess(y, z) ==> !LexLess(x, z)) {
      LexTotal(x, x); LexTotal(x, y); LexTotal(y, z); LexTotal(x, z);
      if LexLess(x, y) && LexLess(y, z) { LexTransitive(x, y, z); }
      if !LexLess(x, y) && !LexLess(y, z) && LexLess(x, z) {
        if x != y && y != z { LexTransitive(z, y, x); }
      }
    }
  }
}
