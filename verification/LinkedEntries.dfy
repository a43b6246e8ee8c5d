/** The doubly linked entry list that the search edits in place, and why undoing in last-in-first-out
    order restores it exactly. */
module LinkedEntries {
  import opened Entries
  import opened Permutations

  // ---- the pointers as values ----

  /** `next` and `prev` of every node by index; -1 stands for nil. Index 0 is the head node and
      index k + 1 is the node of entry k. */
  datatype Links = Links(next: seq<int>, prev: seq<int>)

  ghost predicate Shape(l: Links, n: nat) {
    && |l.next| == n && |l.prev| == n
    && (forall i :: 0 <= i < n ==> -1 <= l.next[i] < n && -1 <= l.prev[i] < n)
  }

  /** The nodes of `present`, and only they, are chained in index order in both directions. */
  ghost predicate Chained(l: Links, n: nat, present: set<nat>) {
    && Shape(l, n)
    && (forall i :: i in present ==> i < n)
    && (forall i :: i in present ==> NextIn(l, present, i))
    && (forall i :: i in present && i > 0 ==> PrevIn(l, present, i))
  }

  ghost predicate NextIn(l: Links, present: set<nat>, i: nat)
    requires i < |l.next|
  {
    var x := l.next[i];
    if x == -1 then forall j :: j in present ==> j <= i
    else x in present && i < x && forall j :: j in present ==> j <= i || x <= j
  }

  ghost predicate PrevIn(l: Links, present: set<nat>, i: nat)
    requires i < |l.prev|
  {
    var x := l.prev[i];
    x in present && x < i && forall j :: j in present ==> j <= x || i <= j
  }

  /** Take node c out: its neighbours skip it, its own pointers stay. */
  function Unlink(l: Links, c: nat): Links
    requires c < |l.next| && c < |l.prev|
    requires 0 <= l.prev[c] < |l.next| && l.next[c] < |l.prev|
  {
    Links(l.next[l.prev[c] := l.next[c]], if l.next[c] < 0 then l.prev else l.prev[l.next[c] := l.prev[c]])
  }

  /** Put node c back where its own pointers say it was. */
  function Relink(l: Links, c: nat): Links
    requires c < |l.next| && c < |l.prev|
    requires 0 <= l.prev[c] < |l.next| && l.next[c] < |l.prev|
  {
    Links(l.next[l.prev[c] := c], if l.next[c] < 0 then l.prev else l.prev[l.next[c] := c])
  }

  lemma UnlinkNext(l: Links, n: nat, present: set<nat>, c: nat, i: nat)
    requires Shape(l, n) && c < n && i < n
    requires c in present && i in present && i != c
    requires NextIn(l, present, i) && NextIn(l, present, c) && PrevIn(l, present, c)
    ensures NextIn(Unlink(l, c), present - {c}, i)
  {
    if i == l.prev[c] {
      assert Unlink(l, c).next[i] == l.next[c];
    } else {
      assert Unlink(l, c).next[i] == l.next[i];
    }
  }

  lemma UnlinkPrev(l: Links, n: nat, present: set<nat>, c: nat, i: nat)
    requires Shape(l, n) && c < n && i < n
    requires c in present && i in present && i != c
    requires PrevIn(l, present, i) && NextIn(l, present, c) && PrevIn(l, present, c)
    ensures PrevIn(Unlink(l, c), present - {c}, i)
  {
    if i == l.next[c] {
      assert Unlink(l, c).prev[i] == l.prev[c];
    } else {
      assert Unlink(l, c).prev[i] == l.prev[i];
    }
  }

  lemma UnlinkChained(l: Links, n: nat, present: set<nat>, c: nat)
    requires Chained(l, n, present) && c in present && c > 0
    ensures 0 <= l.prev[c]
    ensures Chained(Unlink(l, c), n, present - {c})
  {
    assert PrevIn(l, present, c) && NextIn(l, present, c);
    forall i | i in present - {c} ensures NextIn(Unlink(l, c), present - {c}, i) {
      UnlinkNext(l, n, present, c, i);
    }
    forall i | i in present - {c} && i > 0 ensures PrevIn(Unlink(l, c), present - {c}, i) {
      UnlinkPrev(l, n, present, c, i);
    }
  }

  lemma RelinkUndoesUnlink(l: Links, n: nat, present: set<nat>, c: nat)
    requires Chained(l, n, present) && c in present && c > 0
    ensures 0 <= l.prev[c]
    ensures var u := Unlink(l, c); u.prev[c] == l.prev[c] && u.next[c] == l.next[c] && Relink(u, c) == l
  {
    assert PrevIn(l, present, c) && NextIn(l, present, c);
    var p, x := l.prev[c], l.next[c];
    assert NextIn(l, present, p);
    assert l.next[p] == c;
    if x >= 0 {
      assert PrevIn(l, present, x);
      assert l.prev[x] == c;
    }
  }

  /** Both nodes of an operation, call c first, then return r. */
  ghost predicate Liftable(l: Links, n: nat, present: set<nat>, c: nat, r: nat) {
    Chained(l, n, present) && c in present && r in present && 0 < c < r
  }

  function LiftLinks(l: Links, c: nat, r: nat): Links
    requires |l.next| == |l.prev| && c < |l.next| && r < |l.next|
  {
    if 0 <= l.prev[c] < |l.next| && l.next[c] < |l.next| then
      var u := Unlink(l, c);
      if 0 <= u.prev[r] < |l.next| && u.next[r] < |l.next| then Unlink(u, r) else u
    else l
  }

  function UnliftLinks(l: Links, c: nat, r: nat): Links
    requires |l.next| == |l.prev| && c < |l.next| && r < |l.next|
  {
    if 0 <= l.prev[r] < |l.next| && l.next[r] < |l.next| then
      var u := Relink(l, r);
      if 0 <= u.prev[c] < |l.next| && u.next[c] < |l.next| then Relink(u, c) else u
    else l
  }

  /** Taking one node out of a chain and putting it back. */
  lemma UnlinkFacts(l: Links, n: nat, present: set<nat>, c: nat)
    requires Chained(l, n, present) && c in present && c > 0
    ensures c < n && Shape(l, n) && 0 <= l.prev[c] && l.prev[c] != c && l.next[c] != c
    ensures forall r :: r in present && c < r ==> 0 <= l.next[c]
    ensures var u := Unlink(l, c);
      && Chained(u, n, present - {c}) && Shape(u, n)
      && u.prev[c] == l.prev[c] && u.next[c] == l.next[c] && Relink(u, c) == l
  {
    UnlinkChained(l, n, present, c);
    RelinkUndoesUnlink(l, n, present, c);
    assert PrevIn(l, present, c) && NextIn(l, present, c);
  }

  /** What the two pointer updates of a lift may assume. */
  lemma LiftSteps(l: Links, n: nat, present: set<nat>, c: nat, r: nat)
    requires Liftable(l, n, present, c, r)
    ensures Shape(l, n) && 0 < c < r < n
    ensures 0 <= l.prev[c] && l.prev[c] != c && l.next[c] != c && 0 <= l.next[c]
    ensures var u := Unlink(l, c);
      && Shape(u, n) && 0 <= u.prev[r] && u.prev[r] != r && u.next[r] != r
      && u.prev[c] == l.prev[c] && u.next[c] == l.next[c] && Relink(u, c) == l
    ensures var u, v := Unlink(l, c), Unlink(Unlink(l, c), r);
      && LiftLinks(l, c, r) == v && Shape(v, n) && Chained(v, n, present - {c} - {r})
      && v.prev[r] == u.prev[r] && v.next[r] == u.next[r] && Relink(v, r) == u
  {
    hide Chained, Unlink, Relink;
    UnlinkFacts(l, n, present, c);
    UnlinkFacts(Unlink(l, c), n, present - {c}, r);
  }

  /** Lifting removes exactly the two nodes, and unlifting restores every pointer,
      also when the call and its return are adjacent. */
  lemma UnliftUndoesLift(l: Links, n: nat, present: set<nat>, c: nat, r: nat)
    requires Liftable(l, n, present, c, r)
    ensures Chained(LiftLinks(l, c, r), n, present - {c, r})
    ensures UnliftLinks(LiftLinks(l, c, r), c, r) == l
  {
    hide Chained, Unlink, Relink;
    LiftSteps(l, n, present, c, r);
    assert present - {c} - {r} == present - {c, r};
  }

  // ---- the heap ----

  datatype Value<I, O> = NoValue | Input(input: I) | Output(output: O)

  class Node<I, O> {
    const value: Value<I, O>
    const matching: Node?<I, O>  // a call's return node; nil on return nodes and the head
    const id: int
    var next: Node?<I, O>
    var prev: Node?<I, O>

    constructor (value: Value<I, O>, matching: Node?<I, O>, id: int)
      ensures this.value == value && this.matching == matching && this.id == id
      ensures next == null && prev == null
    {
      this.value := value;
      this.matching := matching;
      this.id := id;
      next, prev := null, null;
    }
  }

  ghost function At<I, O>(nodes: seq<Node<I, O>>, i: int): Node?<I, O>
    requires i < |nodes|
  {
    if i < 0 then null else nodes[i]
  }

  ghost predicate Distinct<T>(s: seq<T>) {
    forall i, j :: 0 <= i < j < |s| ==> s[i] != s[j]
  }

  /** The pointers in memory are those of `l`. */
  ghost predicate Reflects<I, O>(nodes: seq<Node<I, O>>, l: Links)
    reads nodes
  {
    && Distinct(nodes) && Shape(l, |nodes|)
    && (forall i :: 0 <= i < |nodes| ==> nodes[i].next == At(nodes, l.next[i]))
    && (forall i :: 0 <= i < |nodes| ==> nodes[i].prev == At(nodes, l.prev[i]))
  }

  /** The neighbours of x skip it. */
  method Bypass<I, O>(x: Node<I, O>, ghost nodes: seq<Node<I, O>>, ghost l: Links, ghost c: nat)
    requires Reflects(nodes, l) && c < |nodes| && nodes[c] == x && 0 <= l.prev[c] && l.prev[c] != c && l.next[c] != c
    modifies nodes
    ensures Reflects(nodes, Unlink(l, c))
  {
    x.prev.next := x.next;
    if x.next != null {
      x.next.prev := x.prev;
    }
  }

  /** The neighbours of x, as x remembers them, point at it again. */
  method Reattach<I, O>(x: Node<I, O>, ghost nodes: seq<Node<I, O>>, ghost l: Links, ghost c: nat)
    requires Reflects(nodes, l) && c < |nodes| && nodes[c] == x && 0 <= l.prev[c] && l.prev[c] != c && l.next[c] != c
    modifies nodes
    ensures Reflects(nodes, Relink(l, c))
  {
    x.prev.next := x;
    if x.next != null {
      x.next.prev := x;
    }
  }

  /** Take an operation's call and return out of the list. */
  method Lift<I, O>(entry: Node<I, O>, ghost nodes: seq<Node<I, O>>, ghost l: Links,
                    ghost present: set<nat>, ghost c: nat, ghost r: nat)
    requires Liftable(l, |nodes|, present, c, r) && Reflects(nodes, l)
    requires nodes[c] == entry && entry.matching == nodes[r]
    modifies nodes
    ensures Reflects(nodes, LiftLinks(l, c, r))
  {
    hide Chained;
    LiftSteps(l, |nodes|, present, c, r);
    assert entry.next != null;  // a call is never last
    Bypass(entry, nodes, l, c);
    Bypass(entry.matching, nodes, Unlink(l, c), r);
  }

  /** Put both nodes back, return first. */
  method Unlift<I, O>(entry: Node<I, O>, ghost nodes: seq<Node<I, O>>, ghost l: Links,
                      ghost present: set<nat>, ghost c: nat, ghost r: nat)
    requires Liftable(l, |nodes|, present, c, r) && Reflects(nodes, LiftLinks(l, c, r))
    requires nodes[c] == entry && entry.matching == nodes[r]
    modifies nodes
    ensures Reflects(nodes, l)
  {
    hide Chained;
    LiftSteps(l, |nodes|, present, c, r);
    Reattach(entry.matching, nodes, LiftLinks(l, c, r), r);
    Reattach(entry, nodes, Unlink(l, c), c);
  }

  // ---- building the list ----

  /** All nodes chained in index order. */
  function InitLinks(n: nat): (l: Links)
    ensures |l.next| == n && |l.prev| == n
  {
    Links(seq(n, i => if i + 1 < n then i + 1 else -1), seq(n, i => i - 1))
  }

  lemma InitChained(n: nat)
    ensures Chained(InitLinks(n), n, Below(n))
  {
    var l := InitLinks(n);
    forall i | i in Below(n) ensures NextIn(l, Below(n), i) && (i > 0 ==> PrevIn(l, Below(n), i)) {
    }
  }

  /** A whole list: every node points at the ones before and after it. */
  ghost predicate Row<I, O>(made: seq<Node<I, O>>)
    reads made
  {
    Distinct(made) && forall i :: 0 <= i < |made| ==> RowAt(made, i)
  }

  ghost predicate RowAt<I, O>(made: seq<Node<I, O>>, i: nat)
    requires i < |made|
    reads made
  {
    && made[i].next == (if i + 1 < |made| then made[i + 1] else null)
    && made[i].prev == (if i > 0 then made[i - 1] else null)
  }

  lemma RowReflects<I, O>(made: seq<Node<I, O>>)
    requires Row(made)
    ensures Reflects(made, InitLinks(|made|))
  {
    forall i | 0 <= i < |made|
      ensures made[i].next == At(made, InitLinks(|made|).next[i]) && made[i].prev == At(made, InitLinks(|made|).prev[i])
    {
      assert RowAt(made, i);
    }
  }

  method InsertBefore<I, O>(n: Node<I, O>, mark: Node?<I, O>)
    requires mark != null ==> mark != n && mark.prev != n && mark.prev != mark
    modifies {n} + (if mark == null then {} else {mark}) +
             (if mark == null || mark.prev == null then {} else {mark.prev})
    ensures mark == null ==> n.next == old(n.next) && n.prev == old(n.prev)
    ensures mark != null ==> mark.prev == n && n.next == mark && mark.next == old(mark.next)
    ensures mark != null && old(mark.prev) == null ==> n.prev == old(n.prev)
    ensures mark != null && old(mark.prev) != null ==> n.prev == old(mark.prev) && n.prev.next == n
  {
    if mark != null {
      var beforeMark := mark.prev;
      mark.prev := n;
      n.next := mark;
      if beforeMark != null {
        n.prev := beforeMark;
        beforeMark.next := n;
      }
    }
  }

  ghost function First<I, O>(made: seq<Node<I, O>>): Node?<I, O> {
    if made == [] then null else made[0]
  }

  /** A new node in front of a whole list. */
  method Prepend<I, O>(n: Node<I, O>, root: Node?<I, O>, ghost made: seq<Node<I, O>>)
    requires Row(made) && root == First(made)
    requires n !in made && n.next == null && n.prev == null
    modifies {n} + if root == null then {} else {root}
    ensures Row([n] + made)
  {
    assert made != [] ==> RowAt(made, 0);
    label before:
    InsertBefore(n, root);
    ghost var all := [n] + made;
    forall i | 0 <= i < |all| ensures RowAt(all, i) {
      if i > 0 {
        assert old@before(RowAt(made, i - 1));
      }
    }
  }

  /** The nodes carry the entries, and every call points at the node of its return. */
  ghost predicate Carries<I, O>(made: seq<Node<I, O>>, es: seq<Entry<I, O>>, from: nat)
    requires WellFormed(es)
  {
    && from <= |es| && |made| == |es| - from
    && forall k :: from <= k < |es| ==> CarriesOne(made, es, from, k)
  }

  ghost predicate CarriesOne<I, O>(made: seq<Node<I, O>>, es: seq<Entry<I, O>>, from: nat, k: nat)
    requires WellFormed(es) && from <= k < |es| && |made| == |es| - from
  {
    var n, e := made[k - from], es[k];
    && n.id == e.id
    && n.value == (if e.CallEntry? then Input(e.input) else Output(e.output))
    && n.matching == (if e.CallEntry? then ReturnNode(made, es, from, e.id) else null)
  }

  ghost function ReturnNode<I, O>(made: seq<Node<I, O>>, es: seq<Entry<I, O>>, from: nat, id: nat): Node?<I, O>
    requires WellFormed(es) && id < |es| / 2 && from <= |es| && |made| == |es| - from
  {
    if from <= ReturnPos(es, id) then made[ReturnPos(es, id) - from] else null
  }

  lemma CallsFirst<I, O>(es: seq<Entry<I, O>>, k: nat)
    requires WellFormed(es) && k < |es|
    ensures es[k].CallEntry? ==> CallPos(es, es[k].id) == k && k < ReturnPos(es, es[k].id)
    ensures es[k].ReturnEntry? ==> ReturnPos(es, es[k].id) == k
  {
  }

  lemma CarriesCons<I, O>(n: Node<I, O>, made: seq<Node<I, O>>, es: seq<Entry<I, O>>, i: nat)
    requires WellFormed(es) && i < |es| && Carries(made, es, i + 1)
    requires n.id == es[i].id
    requires n.value == if es[i].CallEntry? then Input(es[i].input) else Output(es[i].output)
    requires n.matching == if es[i].CallEntry? then ReturnNode(made, es, i + 1, es[i].id) else null
    ensures Carries([n] + made, es, i)
  {
    CallsFirst(es, i);
    forall k | i <= k < |es| ensures CarriesOne([n] + made, es, i, k) {
      CallsFirst(es, k);
      if k > i {
        assert CarriesOne(made, es, i + 1, k);
        assert ([n] + made)[k - i] == made[k - i - 1];
      }
    }
  }

  /** Built from the last entry to the first; `match` remembers the return nodes seen so far. */
  method MakeLinkedEntries<I, O>(es: seq<Entry<I, O>>) returns (root: Node?<I, O>, ghost made: seq<Node<I, O>>)
    requires WellFormed(es)
    ensures fresh(set n | n in made) && |made| == |es|
    ensures Carries(made, es, 0) && Row(made) && root == First(made)
  {
    hide CarriesOne;
    root, made := null, [];
    var returns_: map<nat, Node<I, O>> := map[];
    var i := |es|;
    while i > 0
      invariant 0 <= i <= |es|
      invariant fresh(set n | n in made)
      invariant Carries(made, es, i) && Row(made) && root == First(made)
      invariant forall id: nat :: id < |es| / 2 && i <= ReturnPos(es, id) ==>
        id in returns_ && returns_[id] == ReturnNode(made, es, i, id)
    {
      i := i - 1;
      var elem := es[i];
      CallsFirst(es, i);
      var entry: Node<I, O>;
      if elem.ReturnEntry? {
        entry := new Node(Output(elem.output), null, elem.id);
        returns_ := returns_[elem.id := entry];
      } else {
        entry := new Node(Input(elem.input), returns_[elem.id], elem.id);
      }
      CarriesCons(entry, made, es, i);
      Prepend(entry, root, made);
      root := entry;
      made := [entry] + made;
    }
  }

  method Length<I, O>(root: Node?<I, O>, ghost made: seq<Node<I, O>>) returns (l: nat)
    requires Row(made) && root == First(made)
    ensures l == |made|
  {
    l := 0;
    var n := root;
    while n != null
      invariant 0 <= l <= |made|
      invariant n == if l < |made| then made[l] else null
      decreases |made| - l
    {
      assert RowAt(made, l);
      n := n.next;
      l := l + 1;
    }
  }
}
