/** The state of the search as a whole: cursor, cache, stack, and the list at every level of it. */
module SearchTrace {
  import opened Linearizability
  import opened Permutations
  import opened Entries
  import opened LinkedEntries
  import opened Search
  import opened SearchState
  import opened Bitset

  // ---- the list during the search ----

  /** The entries of `h` laid out by position: operation times are entry indices. */
  ghost predicate Layout<I, O>(es: seq<Entry<I, O>>, h: History<I, O>) {
    && |es| == 2 * |h|
    && (forall k :: 0 <= k < |es| ==> es[k].id < |h| && k == PosIn(h, es[k]))
    && (forall id :: 0 <= id < |h| ==> 0 <= h[id].call < h[id].ret < |es|)
    && (forall id :: 0 <= id < |h| ==> es[h[id].call].CallEntry? && es[h[id].call].id == id)
    && (forall id :: 0 <= id < |h| ==> es[h[id].ret].ReturnEntry? && es[h[id].ret].id == id)
    && (forall id :: 0 <= id < |h| ==> es[h[id].call].input == h[id].input && es[h[id].ret].output == h[id].output)
  }

  ghost function PosIn<I, O>(h: History<I, O>, e: Entry<I, O>): int
    requires e.id < |h|
  {
    if e.CallEntry? then h[e.id].call else h[e.id].ret
  }

  lemma WellFormedLayout<I, O>(es: seq<Entry<I, O>>)
    requires WellFormed(es)
    ensures Layout(es, OpsOf(es))
  {
    forall k | 0 <= k < |es| ensures es[k].id < |es| / 2 && k == PosIn(OpsOf(es), es[k]) {
      CallsFirst(es, k);
    }
  }

  ghost predicate InList<I, O>(es: seq<Entry<I, O>>, done: set<nat>, k: nat) {
    k == 0 || (k <= |es| && es[k - 1].id !in done)
  }

  /** Node indices still in the list: the head and both nodes of every operation not linearized. */
  ghost function Present<I, O>(es: seq<Entry<I, O>>, done: set<nat>): (r: set<nat>)
    ensures forall k: nat :: k in r <==> InList(es, done, k)
  {
    set k | k in Below(|es| + 1) && InList(es, done, k)
  }

  /** The list at every level of the stack: each level is the one below with one operation lifted. */
  ghost predicate ListTrail<S, I, O>(es: seq<Entry<I, O>>, h: History<I, O>, ids: seq<nat>,
                                     stack: seq<Config<S>>, saved: seq<Links>) {
    && |stack| == |ids| + 1 && |saved| == |stack|
    && (forall k :: 0 <= k < |stack| ==> Chained(saved[k], |es| + 1, Present(es, stack[k].done)))
    && (forall k :: 0 <= k < |ids| ==> LiftedStep(es, h, ids[k], stack[k], saved[k], saved[k + 1]))
  }

  ghost predicate LiftedStep<S, I, O>(es: seq<Entry<I, O>>, h: History<I, O>, id: nat, c: Config<S>, l: Links, l': Links) {
    && id < |h| && 0 <= h[id].call && 0 <= h[id].ret
    && Liftable(l, |es| + 1, Present(es, c.done), h[id].call + 1, h[id].ret + 1)
    && l' == LiftLinks(l, h[id].call + 1, h[id].ret + 1)
  }

  lemma PresentMinus<I, O>(es: seq<Entry<I, O>>, h: History<I, O>, done: set<nat>, id: nat)
    requires Layout(es, h) && id < |h| && id !in done
    ensures h[id].call + 1 in Present(es, done) && h[id].ret + 1 in Present(es, done)
    ensures Present(es, done + {id}) == Present(es, done) - {h[id].call + 1, h[id].ret + 1}
  {
    var c, r := h[id].call + 1, h[id].ret + 1;
    assert InList(es, done, c) && InList(es, done, r);
    forall k: nat ensures InList(es, done + {id}, k) <==> InList(es, done, k) && k != c && k != r {
      if 0 < k <= |es| {
        assert k - 1 == PosIn(h, es[k - 1]);
      }
    }
  }

  lemma ListPush<S, I, O>(es: seq<Entry<I, O>>, h: History<I, O>, ids: seq<nat>, stack: seq<Config<S>>,
                          saved: seq<Links>, id: nat, c': Config<S>, l': Links)
    requires ListTrail(es, h, ids, stack, saved)
    requires LiftedStep(es, h, id, stack[|ids|], saved[|ids|], l')
    requires Chained(l', |es| + 1, Present(es, c'.done))
    ensures ListTrail(es, h, ids + [id], stack + [c'], saved + [l'])
  {
    hide LiftedStep, Chained, Present;
    var ids', stack', saved' := ids + [id], stack + [c'], saved + [l'];
    forall k | 0 <= k < |ids'| ensures LiftedStep(es, h, ids'[k], stack'[k], saved'[k], saved'[k + 1]) {
      if k < |ids| {
        assert LiftedStep(es, h, ids[k], stack[k], saved[k], saved[k + 1]);
      }
    }
  }

  lemma LiftOperation<S, I, O>(es: seq<Entry<I, O>>, h: History<I, O>, c: Config<S>, l: Links, id: nat)
    requires Layout(es, h) && id < |h| && id !in c.done && Chained(l, |es| + 1, Present(es, c.done))
    ensures var l' := LiftLinks(l, h[id].call + 1, h[id].ret + 1);
      LiftedStep(es, h, id, c, l, l') && Chained(l', |es| + 1, Present(es, c.done + {id}))
  {
    hide Chained, Present, LiftLinks;
    PresentMinus(es, h, c.done, id);
    UnliftUndoesLift(l, |es| + 1, Present(es, c.done), h[id].call + 1, h[id].ret + 1);
  }

  lemma ListPop<S, I, O>(es: seq<Entry<I, O>>, h: History<I, O>, ids: seq<nat>, stack: seq<Config<S>>, saved: seq<Links>)
    requires ListTrail(es, h, ids, stack, saved) && ids != []
    ensures var n := |ids| - 1;
      && ListTrail(es, h, ids[..n], stack[..n + 1], saved[..n + 1])
      && LiftedStep(es, h, ids[n], stack[n], saved[n], saved[n + 1])
  {
    hide LiftedStep, Chained, Present;
    var n := |ids| - 1;
    assert LiftedStep(es, h, ids[n], stack[n], saved[n], saved[n + 1]);
    var ids', stack', saved' := ids[..n], stack[..n + 1], saved[..n + 1];
    forall k | 0 <= k < |ids'| ensures LiftedStep(es, h, ids'[k], stack'[k], saved'[k], saved'[k + 1]) {
      assert LiftedStep(es, h, ids[k], stack[k], saved[k], saved[k + 1]);
    }
  }

  // ---- moving along the list ----

  /** The cursor is at entry `pos`, which is in the list; no return lies before it, and all calls
      before it have been tried. */
  ghost predicate Cursor<S, I, O>(m: Model<S, I, O>, es: seq<Entry<I, O>>, h: History<I, O>, view: set<Config<S>>,
                                  c: Config<S>, pos: nat) {
    && pos < |es| && InList(es, c.done, pos + 1)
    && NoReturnBefore(h, c.done, pos)
    && Tried(m, h, view, c, pos)
  }

  function NextOf(l: Links, i: nat): int {
    if i < |l.next| then l.next[i] else -1
  }

  /** Between two neighbours in the list there are no entries of pending operations. */
  lemma Neighbours<I, O>(es: seq<Entry<I, O>>, h: History<I, O>, done: set<nat>, l: Links, i: nat, b: nat)
    requires Layout(es, h) && Chained(l, |es| + 1, Present(es, done)) && InList(es, done, i)
    requires b < |h| && b !in done
    ensures i < |l.next|
    ensures h[b].call + 1 > i ==> l.next[i] != -1 && l.next[i] <= h[b].call + 1
    ensures h[b].ret + 1 > i ==> l.next[i] != -1 && l.next[i] <= h[b].ret + 1
    ensures l.next[i] != -1 ==> i < l.next[i] <= |es| && InList(es, done, l.next[i])
  {
    PresentMinus(es, h, done, b);
    assert i in Present(es, done);
    assert NextIn(l, Present(es, done), i);
  }

  lemma FromHead<S, I, O>(m: Model<S, I, O>, es: seq<Entry<I, O>>, h: History<I, O>, view: set<Config<S>>,
                          c: Config<S>, l: Links)
    requires Layout(es, h) && Chained(l, |es| + 1, Present(es, c.done)) && c.done <= Below(|h|)
    ensures NextOf(l, 0) == -1 <==> c.done == Below(|h|)
    ensures NextOf(l, 0) != -1 ==> NextOf(l, 0) > 0 && Cursor(m, es, h, view, c, NextOf(l, 0) - 1)
  {
    assert 0 in Present(es, c.done);
    assert NextIn(l, Present(es, c.done), 0);
    forall b: nat | b < |h| && b !in c.done
      ensures 0 < l.next[0] <= h[b].call + 1 && l.next[0] <= h[b].ret + 1
    {
      Neighbours(es, h, c.done, l, 0, b);
    }
    if l.next[0] != -1 {
      assert InList(es, c.done, l.next[0]);
      assert es[l.next[0] - 1].id in Below(|h|) - c.done;
    } else {
      assert c.done == Below(|h|);
    }
  }

  /** Past a call: to the next entry in the list, which exists because the call's return follows. */
  lemma Advance<S, I, O>(m: Model<S, I, O>, es: seq<Entry<I, O>>, h: History<I, O>, view: set<Config<S>>,
                         c: Config<S>, l: Links, id: nat)
    requires id < |h| && 0 <= h[id].call
    requires Layout(es, h) && Chained(l, |es| + 1, Present(es, c.done))
    requires Cursor(m, es, h, view, c, h[id].call)
    requires Moves(m, h, c, id) ==> Move(m, h, c, id) in view
    ensures h[id].call + 1 < NextOf(l, h[id].call + 1)
    ensures Cursor(m, es, h, view, c, NextOf(l, h[id].call + 1) - 1)
  {
    hide Chained, Present;
    var i := h[id].call + 1;
    Neighbours(es, h, c.done, l, i, id);
    forall b: nat | b < |h| && b !in c.done ensures l.next[i] - 1 <= h[b].ret {
      Neighbours(es, h, c.done, l, i, b);
      assert es[h[id].call] != es[h[b].ret];
    }
    forall b: nat | Moves(m, h, c, b) && h[b].call < l.next[i] - 1 ensures Move(m, h, c, b) in view {
      Neighbours(es, h, c.done, l, i, b);
      if b != id {
        assert es[h[id].call].id != es[h[b].call].id;
        assert h[b].call < h[id].call;
      }
    }
  }

  // ---- the cache ----

  datatype CacheEntry<S> = CacheEntry(linearized: seq<Word>, state: S)

  type Cache<S> = map<Word, seq<CacheEntry<S>>>

  function Bucket<S>(cache: Cache<S>, hash: Word): seq<CacheEntry<S>> {
    if hash in cache then cache[hash] else []
  }

  ghost function Pair<S>(e: CacheEntry<S>): Config<S> {
    Config(Members(e.linearized), e.state)
  }

  /** The hash table holds exactly the configurations of `view`, each in the bucket of its hash. */
  ghost predicate CacheHolds<S(!new)>(cache: Cache<S>, words: nat, view: set<Config<S>>) {
    && (forall hash, e :: e in Bucket(cache, hash) ==> |e.linearized| == words && Pair(e) in view)
    && (forall e: CacheEntry<S> :: |e.linearized| == words && Pair(e) in view ==> e in Bucket(cache, HashOf(e.linearized)))
  }

  method CacheContains<S(==,!new)>(cache: Cache<S>, entry: CacheEntry<S>, ghost words: nat, ghost view: set<Config<S>>)
      returns (found: bool)
    requires CacheHolds(cache, words, view) && |entry.linearized| == words
    ensures found <==> Pair(entry) in view
  {
    var hash := Hash(entry.linearized);
    var bucket := Bucket(cache, hash);
    for i := 0 to |bucket|
      invariant entry !in bucket[..i]
    {
      var elem := bucket[i];
      assert elem in Bucket(cache, hash);
      EqualIffSameMembers(entry.linearized, elem.linearized);
      var same := Equals(entry.linearized, elem.linearized);
      if same && entry.state == elem.state {
        return true;
      }
    }
    return false;
  }

  lemma CacheInsert<S(!new)>(cache: Cache<S>, words: nat, view: set<Config<S>>, entry: CacheEntry<S>)
    requires CacheHolds(cache, words, view) && |entry.linearized| == words
    ensures var hash := HashOf(entry.linearized);
      CacheHolds(cache[hash := Bucket(cache, hash) + [entry]], words, view + {Pair(entry)})
  {
    var hash := HashOf(entry.linearized);
    var cache' := cache[hash := Bucket(cache, hash) + [entry]];
    assert Bucket(cache', hash) == Bucket(cache, hash) + [entry];
    forall x, e | e in Bucket(cache', x) ensures |e.linearized| == words && Pair(e) in view + {Pair(entry)} {
      assert e == entry || e in Bucket(cache, x);
    }
    forall e: CacheEntry<S> | |e.linearized| == words && Pair(e) in view + {Pair(entry)}
      ensures e in Bucket(cache', HashOf(e.linearized))
    {
      if Pair(e) == Pair(entry) {
        EqualIffSameMembers(e.linearized, entry.linearized);
        assert e == entry;
        assert Bucket(cache', hash)[|Bucket(cache, hash)|] == entry;
      } else {
        assert e in Bucket(cache, HashOf(e.linearized));
      }
    }
  }

  // ---- the longest partial linearizations ----

  datatype CallsEntry<S, I, O> = CallsEntry(entry: Node<I, O>, state: S)

  ghost predicate CallsAre<S, I, O>(calls: seq<CallsEntry<S, I, O>>, ids: seq<nat>) {
    |calls| == |ids| && forall k :: 0 <= k < |ids| ==> calls[k].entry.id == ids[k]
  }

  method IdsOf<S, I, O>(calls: seq<CallsEntry<S, I, O>>, ghost ids: seq<nat>) returns (r: seq<nat>)
    requires CallsAre(calls, ids)
    ensures r == ids
  {
    r := [];
    for i := 0 to |calls|
      invariant r == ids[..i]
    {
      r := r + [calls[i].entry.id];
    }
  }

  /** `ids` was recorded for each of its operations that had nothing as long yet, and for no other. */
  ghost predicate Raised(longest: seq<Option<seq<nat>>>, r: seq<Option<seq<nat>>>, ids: seq<nat>) {
    && |r| == |longest|
    && (forall i :: i in ids ==> i < |r|)
    && (forall i :: 0 <= i < |r| ==> r[i] == if i in ids && Shorter(longest[i], |ids|) then Some(ids) else longest[i])
  }

  predicate Shorter(best: Option<seq<nat>>, n: nat) {
    best.None? || |best.value| < n
  }

  /** Keep the current sequence for each of its operations that has nothing as long yet. */
  method RecordLongest<S, I, O>(longest: seq<Option<seq<nat>>>, calls: seq<CallsEntry<S, I, O>>, ghost ids: seq<nat>)
      returns (r: seq<Option<seq<nat>>>)
    requires CallsAre(calls, ids) && Selection(ids, |longest|)
    ensures Raised(longest, r, ids)
  {
    r := longest;
    var lazy: Option<seq<nat>> := None;
    for k := 0 to |calls|
      invariant |r| == |longest| && (lazy == None || lazy == Some(ids))
      invariant forall i :: 0 <= i < |r| ==> r[i] == if i in ids[..k] && Shorter(longest[i], |ids|) then Some(ids) else longest[i]
    {
      var id := calls[k].entry.id;
      assert ids[..k + 1] == ids[..k] + [id];
      if r[id].None? || |calls| > |r[id].value| {
        if lazy.None? {
          var all := IdsOf(calls, ids);
          lazy := Some(all);
        }
        r := r[id := lazy];
      }
    }
    assert ids[..|ids|] == ids;
  }

  // ---- the whole search state ----

  /** The cached configurations, the operations on the stack, and the configuration and the list at
      every level of it. */
  datatype Trace<S(==)> = Trace(view: set<Config<S>>, ids: seq<nat>, stack: seq<Config<S>>, saved: seq<Links>) {
    ghost predicate Levels() {
      |stack| == |ids| + 1 && |saved| == |ids| + 1
    }
    ghost function Top(): Config<S>
      requires Levels()
    {
      stack[|ids|]
    }
    ghost function List(): Links
      requires Levels()
    {
      saved[|ids|]
    }
    ghost function Popped(): Trace<S>
      requires Levels() && ids != []
    {
      Trace(view, ids[..|ids| - 1], stack[..|ids|], saved[..|ids|])
    }
  }

  ghost predicate Good<S, I, O>(m: Model<S, I, O>, es: seq<Entry<I, O>>, h: History<I, O>, t: Trace<S>) {
    && t.Levels()
    && Layout(es, h)
    && Searched(m, h, t.view, t.ids, t.stack)
    && ListTrail(es, h, t.ids, t.stack, t.saved)
  }

  ghost function Pushed<S, I, O>(m: Model<S, I, O>, h: History<I, O>, t: Trace<S>, id: nat): Trace<S>
    requires t.Levels() && id < |h| && 0 <= h[id].call && 0 <= h[id].ret
    requires |t.List().next| == |t.List().prev| && h[id].call + 1 < |t.List().next| && h[id].ret + 1 < |t.List().next|
  {
    var c := Move(m, h, t.Top(), id);
    Trace(t.view + {c}, t.ids + [id], t.stack + [c], t.saved + [LiftLinks(t.List(), h[id].call + 1, h[id].ret + 1)])
  }

  ghost function Unvisited<S, I, O>(m: Model<S, I, O>, h: History<I, O>, t: Trace<S>): nat {
    |Universe(m, h, |h|) - t.view|
  }

  lemma GoodStart<S, I, O>(m: Model<S, I, O>, es: seq<Entry<I, O>>, h: History<I, O>)
    requires Layout(es, h)
    ensures Good(m, es, h, Trace({}, [], [InitConfig(m)], [InitLinks(|es| + 1)]))
  {
    hide Chained, Present, Layout, InitLinks, Searched;
    var t := Trace({}, [], [InitConfig(m)], [InitLinks(|es| + 1)]);
    InitChained(|es| + 1);
    PresentAll(es);
    SearchedStart(m, h);
    assert forall k :: 0 <= k < |t.stack| ==> t.saved[k] == InitLinks(|es| + 1) && t.stack[k].done == {};
  }

  lemma SearchedStart<S, I, O>(m: Model<S, I, O>, h: History<I, O>)
    ensures Searched(m, h, {}, [], [InitConfig(m)])
  {
    hide Universe;
    assert Reached(m, h, []) == InitConfig(m);
  }

  lemma PresentAll<I, O>(es: seq<Entry<I, O>>)
    ensures Present(es, {}) == Below(|es| + 1)
  {
    forall k: nat ensures k in Present(es, {}) <==> k in Below(|es| + 1) {
      assert InList(es, {}, k) <==> k < |es| + 1;
    }
  }

  /** What holds of the top of the stack. */
  lemma TopFacts<S, I, O>(m: Model<S, I, O>, es: seq<Entry<I, O>>, h: History<I, O>, t: Trace<S>)
    requires Good(m, es, h, t)
    ensures PartialLinearization(m, h, t.ids) && t.Top() == Reached(m, h, t.ids)
    ensures t.Top().done <= Below(|h|) && t.Top().done == Elements(t.ids)
    ensures Chained(t.List(), |es| + 1, Present(es, t.Top().done)) && Shape(t.List(), |es| + 1)
  {
    hide Universe, Settled, NoneComplete, Layout, Present, NextIn, PrevIn;
    ElementsCardinality(t.ids, |h|);
  }

  lemma AtEntry<S, I, O>(m: Model<S, I, O>, es: seq<Entry<I, O>>, h: History<I, O>, t: Trace<S>, pos: nat)
    requires Good(m, es, h, t) && Cursor(m, es, h, t.view, t.Top(), pos)
    ensures pos < |es| && es[pos].id < |h| && es[pos].id !in t.Top().done && es[pos].id in Below(|h|)
    ensures es[pos].CallEntry? ==> h[es[pos].id].call == pos && Enabled(h, t.Top().done, es[pos].id)
    ensures es[pos].ReturnEntry? ==> h[es[pos].id].ret == pos && Explored(m, h, t.view, t.Top())
  {
    hide Chained, Universe, Searched, ListTrail;
    var id := es[pos].id;
    assert pos == PosIn(h, es[pos]);
    if es[pos].CallEntry? {
      CallIsEnabled(h, t.Top().done, id);
    } else {
      forall b: nat | b < |h| ensures h[b].call != pos {
        assert es[h[b].call].CallEntry?;
      }
      ReturnExhausts(m, h, t.view, t.Top(), id);
    }
  }

  lemma OtherCalls<I, O>(es: seq<Entry<I, O>>, h: History<I, O>, id: nat)
    requires Layout(es, h) && id < |h|
    ensures forall b: nat :: b < |h| && b != id ==> h[b].call != h[id].call
  {
    forall b: nat | b < |h| && b != id ensures h[b].call != h[id].call {
      assert es[h[b].call].id == b && es[h[id].call].id == id;
    }
  }

  lemma PushGood<S, I, O>(m: Model<S, I, O>, es: seq<Entry<I, O>>, h: History<I, O>, t: Trace<S>, id: nat)
    requires Good(m, es, h, t) && id < |h|
    requires Cursor(m, es, h, t.view, t.Top(), h[id].call) && Moves(m, h, t.Top(), id)
    requires Move(m, h, t.Top(), id) !in t.view
    ensures Shape(t.List(), |es| + 1) && 0 <= h[id].call < h[id].ret < |es|
    ensures Liftable(t.List(), |es| + 1, Present(es, t.Top().done), h[id].call + 1, h[id].ret + 1)
    ensures Good(m, es, h, Pushed(m, h, t, id)) && Unvisited(m, h, Pushed(m, h, t, id)) < Unvisited(m, h, t)
  {
    hide Universe, Searched, ListTrail, Chained, Present, Layout;
    TopFacts(m, es, h, t);
    LiftOperation(es, h, t.Top(), t.List(), id);
    OtherCalls(es, h, id);
    assert id in Below(|h|);
    PushSearched(m, h, t.view, t.ids, t.stack, id);
    var c := Move(m, h, t.Top(), id);
    ListPush(es, h, t.ids, t.stack, t.saved, id, c, LiftLinks(t.List(), h[id].call + 1, h[id].ret + 1));
  }

  lemma PopGood<S, I, O>(m: Model<S, I, O>, es: seq<Entry<I, O>>, h: History<I, O>, t: Trace<S>)
    requires Good(m, es, h, t) && t.ids != [] && Explored(m, h, t.view, t.Top()) && t.Top().done != Below(|h|)
    ensures var t', id := t.Popped(), t.ids[|t.ids| - 1];
      && Good(m, es, h, t') && id < |h|
      && LiftedStep(es, h, id, t'.Top(), t'.List(), t.List())
      && t.Top() == Move(m, h, t'.Top(), id)
      && id !in t'.Top().done
      && Cursor(m, es, h, t.view, t'.Top(), h[id].call)
      && (Moves(m, h, t'.Top(), id) ==> Move(m, h, t'.Top(), id) in t.view)
  {
    hide Universe, Chained, Present, LiftedStep, Layout, Settled, NoneComplete, PartialLinearization, Reached, Explored;
    var n := |t.ids| - 1;
    TopFacts(m, es, h, t);
    PopSearched(m, h, t.view, t.ids, t.stack);
    TrailPop(m, h, t.view, t.ids, t.stack);
    ListPop(es, h, t.ids, t.stack, t.saved);
    assert t.Popped().Top() == t.stack[n] && t.Popped().List() == t.saved[n];
    PoppedCursor(m, es, h, t.view, t.stack[n], t.ids[n]);
  }

  lemma PoppedCursor<S, I, O>(m: Model<S, I, O>, es: seq<Entry<I, O>>, h: History<I, O>, view: set<Config<S>>,
                              c: Config<S>, id: nat)
    requires Layout(es, h) && Moves(m, h, c, id) && Tried(m, h, view, c, h[id].call + 1)
    ensures 0 <= h[id].call && Cursor(m, es, h, view, c, h[id].call)
  {
    assert es[h[id].call].id == id;
  }

  // ---- the nodes ----

  /** Node k + 1 carries entry k; a call points at its return. */
  ghost predicate Wired<I, O>(nodes: seq<Node<I, O>>, es: seq<Entry<I, O>>, h: History<I, O>) {
    |nodes| == |es| + 1 && forall k :: 0 <= k < |es| ==> WiredAt(nodes, es, h, k)
  }

  ghost predicate WiredAt<I, O>(nodes: seq<Node<I, O>>, es: seq<Entry<I, O>>, h: History<I, O>, k: nat)
    requires k < |es| && |nodes| == |es| + 1
  {
    var n, id := nodes[k + 1], es[k].id;
    && id < |h| && 0 <= h[id].ret < |es| && n.id == id
    && (es[k].CallEntry? ==> n.value == Input(h[id].input) && n.matching == nodes[h[id].ret + 1])
    && (es[k].ReturnEntry? ==> n.value == Output(h[id].output) && n.matching == null)
  }

  lemma CarriesWired<I, O>(head: Node<I, O>, made: seq<Node<I, O>>, es: seq<Entry<I, O>>)
    requires WellFormed(es) && Carries(made, es, 0)
    ensures Wired([head] + made, es, OpsOf(es))
  {
    var nodes := [head] + made;
    forall k | 0 <= k < |es| ensures WiredAt(nodes, es, OpsOf(es), k) {
      assert CarriesOne(made, es, 0, k);
      CallsFirst(es, k);
    }
  }

  /** The stacked calls are the nodes and states of the trace. */
  ghost predicate CallsMatch<S, I, O>(calls: seq<CallsEntry<S, I, O>>, nodes: seq<Node<I, O>>, h: History<I, O>, t: Trace<S>) {
    && t.Levels() && CallsAre(calls, t.ids)
    && forall k :: 0 <= k < |calls| ==> CallMatches(calls[k], nodes, h, t.ids[k], t.stack[k])
  }

  ghost predicate CallMatches<S, I, O>(e: CallsEntry<S, I, O>, nodes: seq<Node<I, O>>, h: History<I, O>, id: nat, c: Config<S>) {
    id < |h| && 0 <= h[id].call < |nodes| - 1 && e.entry == nodes[h[id].call + 1] && e.state == c.state
  }
}
