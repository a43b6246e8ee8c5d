/** `checkSingle`: decides whether one partition's entries are linearizable. */
module Checker {
  import opened Linearizability
  import opened Permutations
  import opened Entries
  import opened LinkedEntries
  import opened Search
  import opened SearchState
  import opened SearchTrace
  import Bitset

  /** What is recorded so far, and, when asked for, that nothing explored is missing from it. */
  ghost predicate Records<S, I, O>(m: Model<S, I, O>, h: History<I, O>, t: Trace<S>,
                                   longest: seq<Option<seq<nat>>>, computePartial: bool) {
    Recorded(m, h, longest) && (computePartial ==> Covered(t.view, t.stack, longest))
  }

  // ---- what each branch of the loop relies on ----

  lemma StartFacts<S, I, O>(m: Model<S, I, O>, es: seq<Entry<I, O>>, h: History<I, O>, head: Node<I, O>,
                            made: seq<Node<I, O>>, longest: seq<Option<seq<nat>>>, computePartial: bool)
    requires WellFormed(es) && h == OpsOf(es) && Carries(made, es, 0) && Row([head] + made)
    requires longest == seq(|h|, i => None)
    ensures var t, nodes := Trace({}, [], [InitConfig(m)], [InitLinks(|es| + 1)]), [head] + made;
      && t.Levels() && t.Top() == InitConfig(m) && Good(m, es, h, t)
      && Reflects(nodes, t.List()) && Wired(nodes, es, h)
      && Records(m, h, t, longest, computePartial) && CallsMatch([], nodes, h, t)
      && (made != [] ==> nodes[1] == made[0] && NextOf(t.List(), 0) == 1)
  {
    assert |made| == |es|;
    hide WellFormed, OpsOf, Carries, Row, Good, Reflects, Wired, Layout;
    WellFormedLayout(es);
    CarriesWired(head, made, es);
    GoodStart(m, es, h);
    RowReflects([head] + made);
  }

  /** The node under the cursor: a call exactly when it has a matching node. */
  lemma NodeFacts<S, I, O>(m: Model<S, I, O>, es: seq<Entry<I, O>>, h: History<I, O>, t: Trace<S>,
                           nodes: seq<Node<I, O>>, pos: nat)
    requires Good(m, es, h, t) && Wired(nodes, es, h) && Cursor(m, es, h, t.view, t.Top(), pos)
    ensures pos < |es| && |nodes| == |es| + 1 && t.Top().done != Below(|h|)
    ensures var id, n := es[pos].id, nodes[pos + 1];
      && id < |h| && id !in t.Top().done && n.id == id && 0 <= h[id].call < h[id].ret < |es|
      && (n.matching != null ==>
           && h[id].call == pos && Enabled(h, t.Top().done, id)
           && n.value == Input(h[id].input) && n.matching.value == Output(h[id].output)
           && n.matching == nodes[h[id].ret + 1])
      && (n.matching == null ==> Explored(m, h, t.view, t.Top()))
  {
    hide Cursor, Searched, ListTrail, Enabled, Explored, Chained, Present;
    AtEntry(m, es, h, t, pos);
    assert WiredAt(nodes, es, h, pos);
    var id := es[pos].id;
    assert WiredAt(nodes, es, h, h[id].ret);
  }

  lemma PushCalls<S, I, O>(m: Model<S, I, O>, h: History<I, O>, t: Trace<S>, t': Trace<S>,
                           nodes: seq<Node<I, O>>, calls: seq<CallsEntry<S, I, O>>, e: CallsEntry<S, I, O>, id: nat)
    requires CallsMatch(calls, nodes, h, t) && CallMatches(e, nodes, h, id, t.Top()) && e.entry.id == id
    requires t'.Levels() && t'.ids == t.ids + [id] && t'.stack == t.stack + [t'.Top()]
    ensures CallsMatch(calls + [e], nodes, h, t')
  {
    var calls' := calls + [e];
    forall k | 0 <= k < |calls'| ensures CallMatches(calls'[k], nodes, h, t'.ids[k], t'.stack[k]) {
      assert t'.stack[k] == t.stack[k];
      if k < |calls| {
        assert CallMatches(calls[k], nodes, h, t.ids[k], t.stack[k]);
      }
    }
  }

  lemma PushRecords<S, I, O>(m: Model<S, I, O>, h: History<I, O>, t: Trace<S>, c: Config<S>, t': Trace<S>,
                             longest: seq<Option<seq<nat>>>, computePartial: bool)
    requires Records(m, h, t, longest, computePartial) && t.stack != []
    requires t'.view == t.view + {c} && t'.stack == t.stack + [c]
    ensures Records(m, h, t', longest, computePartial)
  {
    hide Recorded, Covered;
    if computePartial {
      PushCovered(t.view, t.stack, c, longest);
    }
  }

  /** The top of the stack is exhausted: what is kept for its operations grows to its length. */
  lemma RecordFacts<S, I, O>(m: Model<S, I, O>, es: seq<Entry<I, O>>, h: History<I, O>, t: Trace<S>,
                             longest: seq<Option<seq<nat>>>, r: seq<Option<seq<nat>>>)
    requires t.Levels() && Good(m, es, h, t) && t.ids != [] && Records(m, h, t, longest, true)
    requires Raised(longest, r, t.ids)
    ensures Records(m, h, t.Popped(), r, true)
  {
    hide Good, Chained, Present, Reached, Shape, OnStack, Accepts, DownClosed;
    TopFacts(m, es, h, t);
    ElementsCardinality(t.ids, |h|);
    assert Covers(r, t.Top());
    hide Covers;
    PopCovered(t.view, t.stack, longest, r);
    assert t.stack[..|t.stack| - 1] == t.stack[..|t.ids|];
  }

  lemma PopFacts<S, I, O>(m: Model<S, I, O>, es: seq<Entry<I, O>>, h: History<I, O>, t: Trace<S>,
                          nodes: seq<Node<I, O>>, calls: seq<CallsEntry<S, I, O>>)
    requires Good(m, es, h, t) && Wired(nodes, es, h) && CallsMatch(calls, nodes, h, t)
    requires t.ids != [] && Explored(m, h, t.view, t.Top()) && t.Top().done != Below(|h|)
    ensures |calls| == |t.ids| && |nodes| == |es| + 1 && Selection(t.ids, |h|)
    ensures var t', id, e := t.Popped(), t.ids[|t.ids| - 1], calls[|calls| - 1];
      && t'.Levels() && Good(m, es, h, t') && CallsMatch(calls[..|calls| - 1], nodes, h, t')
      && id < |h| && 0 <= h[id].call < h[id].ret < |es|
      && e.entry == nodes[h[id].call + 1] && e.entry.id == id && e.entry.matching == nodes[h[id].ret + 1]
      && e.state == t'.Top().state && t'.Top().done == t.Top().done - {id} && id in t.Top().done
      && Liftable(t'.List(), |es| + 1, Present(es, t'.Top().done), h[id].call + 1, h[id].ret + 1)
      && t.List() == LiftLinks(t'.List(), h[id].call + 1, h[id].ret + 1)
      && Shape(t'.List(), |es| + 1)
      && Cursor(m, es, h, t'.view, t'.Top(), h[id].call)
      && (Moves(m, h, t'.Top(), id) ==> Move(m, h, t'.Top(), id) in t'.view)
  {
    hide Cursor, Searched, ListTrail, Explored, Moves, LiftLinks, Present, Layout, Chained, Shape, WiredAt, Reached,
         DownClosed, Accepts;
    TopFacts(m, es, h, t);
    PopGood(m, es, h, t);
    var t', id, k := t.Popped(), t.ids[|t.ids| - 1], |calls| - 1;
    assert CallMatches(calls[k], nodes, h, id, t.stack[k]);
    CallNode(es, h, nodes, id);
    LiftableShape(t'.List(), |es| + 1, Present(es, t'.Top().done), h[id].call + 1, h[id].ret + 1);
    forall j | 0 <= j < k ensures CallMatches(calls[..k][j], nodes, h, t'.ids[j], t'.stack[j]) {
      assert CallMatches(calls[j], nodes, h, t.ids[j], t.stack[j]);
    }
  }

  lemma LiftableShape(l: Links, n: nat, present: set<nat>, c: nat, r: nat)
    requires Liftable(l, n, present, c, r)
    ensures Shape(l, n)
  {
  }

  lemma CallNode<I, O>(es: seq<Entry<I, O>>, h: History<I, O>, nodes: seq<Node<I, O>>, id: nat)
    requires Layout(es, h) && Wired(nodes, es, h) && id < |h|
    ensures |nodes| == |es| + 1 && 0 <= h[id].call < h[id].ret < |es|
    ensures nodes[h[id].call + 1].id == id && nodes[h[id].call + 1].matching == nodes[h[id].ret + 1]
  {
    assert es[h[id].call].id == id && es[h[id].call].CallEntry?;
    assert WiredAt(nodes, es, h, h[id].call);
  }

  lemma SkipFacts<S, I, O>(m: Model<S, I, O>, es: seq<Entry<I, O>>, h: History<I, O>, t: Trace<S>, id: nat)
    requires t.Levels() && id < |h| && 0 <= h[id].call
    requires Good(m, es, h, t) && Cursor(m, es, h, t.view, t.Top(), h[id].call)
    requires Moves(m, h, t.Top(), id) ==> Move(m, h, t.Top(), id) in t.view
    ensures h[id].call + 1 < NextOf(t.List(), h[id].call + 1)
    ensures Cursor(m, es, h, t.view, t.Top(), NextOf(t.List(), h[id].call + 1) - 1)
  {
    hide Cursor, Searched, ListTrail, Layout, Present, Moves, Chained, Shape, NextOf;
    TopFacts(m, es, h, t);
    Advance(m, es, h, t.view, t.Top(), t.List(), id);
  }

  lemma HeadFacts<S, I, O>(m: Model<S, I, O>, es: seq<Entry<I, O>>, h: History<I, O>, t: Trace<S>)
    requires t.Levels() && Good(m, es, h, t)
    ensures NextOf(t.List(), 0) == -1 <==> t.Top().done == Below(|h|)
    ensures NextOf(t.List(), 0) != -1 ==> NextOf(t.List(), 0) > 0
    ensures NextOf(t.List(), 0) > 0 ==> Cursor(m, es, h, t.view, t.Top(), NextOf(t.List(), 0) - 1)
  {
    hide Cursor, Searched, ListTrail, Layout, Present, Chained, Shape, NextOf;
    TopFacts(m, es, h, t);
    FromHead(m, es, h, t.view, t.Top(), t.List());
  }

  lemma NextNode<I, O>(nodes: seq<Node<I, O>>, l: Links, i: nat)
    requires Reflects(nodes, l) && i < |nodes|
    ensures -1 <= NextOf(l, i) < |nodes|
    ensures nodes[i].next == if NextOf(l, i) == -1 then null else nodes[NextOf(l, i)]
  {
  }

  /** Nothing left to try anywhere. */
  lemma FailFacts<S, I(!new), O(!new)>(m: Model<S, I, O>, es: seq<Entry<I, O>>, h: History<I, O>, t: Trace<S>,
                                       longest: seq<Option<seq<nat>>>, computePartial: bool)
    requires WellFormed(es) && h == OpsOf(es) && Good(m, es, h, t) && t.ids == []
    requires Explored(m, h, t.view, t.Top()) && h != []
    requires Records(m, h, t, longest, computePartial)
    ensures !Linearizable(m, h)
    ensures computePartial ==> LongestPartials(m, h, longest)
  {
    assert WellTimed(h);
    hide WellFormed, ListTrail, Layout, Linearizable;
    ExhaustedRefutes(m, h, t.view, t.stack);
    if computePartial {
      ExhaustedIsLongest(m, h, t.view, t.stack, longest);
    }
  }

  /** Everything is linearized: the stack is a linearization, and nothing is longer. */
  lemma DoneFacts<S, I(!new), O(!new)>(m: Model<S, I, O>, es: seq<Entry<I, O>>, h: History<I, O>, t: Trace<S>)
    requires Good(m, es, h, t) && t.Top().done == Below(|h|)
    ensures Linearizable(m, h)
    ensures Recorded(m, h, seq(|h|, i => Some(t.ids))) && LongestPartials(m, h, seq(|h|, i => Some(t.ids)))
  {
    hide Good, Chained, Present, Shape, Recorded, LongestPartials, DownClosed, Accepts, Linearizes;
    TopFacts(m, es, h, t);
    SelectionLength(t.ids, |h|);
    CompleteLinearizes(m, h, t.ids);
    CompleteIsLongest(m, h, t.ids);
  }

  lemma CompleteIsLongest<S, I(!new), O(!new)>(m: Model<S, I, O>, h: History<I, O>, ids: seq<nat>)
    requires PartialLinearization(m, h, ids) && |ids| == |h|
    ensures Recorded(m, h, seq(|h|, i => Some(ids))) && LongestPartials(m, h, seq(|h|, i => Some(ids)))
  {
    SelectionLength(ids, |h|);
    forall i | 0 <= i < |h| ensures i in ids {
      assert i in Elements(ids);
    }
    forall p | PartialLinearization(m, h, p) ensures |p| <= |ids| {
      SelectionLength(p, |h|);
    }
  }

  lemma RecordsWithoutPartials<S, I, O>(m: Model<S, I, O>, h: History<I, O>, t: Trace<S>, longest: seq<Option<seq<nat>>>)
    requires Records(m, h, t, longest, false) && t.Levels() && t.ids != []
    ensures Records(m, h, t.Popped(), longest, false)
  {
  }

  lemma StackSelection<S, I, O>(m: Model<S, I, O>, es: seq<Entry<I, O>>, h: History<I, O>, t: Trace<S>)
    requires Good(m, es, h, t)
    ensures Selection(t.ids, |h|)
  {
    hide Chained, Layout, ListTrail;
  }

  lemma EmptyCache<S(!new)>(words: nat)
    ensures CacheHolds<S>(map[], words, {})
  {
  }

  lemma CallsFacts<S, I, O>(calls: seq<CallsEntry<S, I, O>>, nodes: seq<Node<I, O>>, h: History<I, O>, t: Trace<S>)
    requires CallsMatch(calls, nodes, h, t)
    ensures |calls| == |t.ids| && CallsAre(calls, t.ids)
  {
  }

  lemma RecordsAreRecorded<S, I, O>(m: Model<S, I, O>, h: History<I, O>, t: Trace<S>,
                                    longest: seq<Option<seq<nat>>>, computePartial: bool)
    requires Records(m, h, t, longest, computePartial)
    ensures Recorded(m, h, longest) && |longest| == |h|
  {
  }

  lemma PushedFacts<S, I, O>(m: Model<S, I, O>, es: seq<Entry<I, O>>, h: History<I, O>, t: Trace<S>, id: nat)
    requires t.Levels() && Shape(t.List(), |es| + 1) && id < |h| && 0 <= h[id].call < |es| && 0 <= h[id].ret < |es|
    ensures |t.List().next| == |t.List().prev| == |es| + 1
    ensures var t' := Pushed(m, h, t, id);
      && t'.Levels() && t'.ids == t.ids + [id] && t'.view == t.view + {t'.Top()} && t'.stack == t.stack + [t'.Top()]
      && t'.Top() == Move(m, h, t.Top(), id)
      && t'.List() == LiftLinks(t.List(), h[id].call + 1, h[id].ret + 1)
  {
  }

  // ---- the steps of the search ----

  /** The variables of the search agree with the trace. */
  ghost predicate Synced<S(!new), I, O>(m: Model<S, I, O>, es: seq<Entry<I, O>>, h: History<I, O>, t: Trace<S>,
                                        nodes: seq<Node<I, O>>, linearized: array<Bitset.Word>, state: S,
                                        calls: seq<CallsEntry<S, I, O>>, cache: Cache<S>)
    reads nodes, linearized
  {
    && t.Levels() && Good(m, es, h, t)
    && Wired(nodes, es, h) && Reflects(nodes, t.List())
    && state == t.Top().state && Bitset.Members(linearized[..]) == t.Top().done && |h| <= 64 * linearized.Length
    && CallsMatch(calls, nodes, h, t)
    && CacheHolds(cache, linearized.Length, t.view)
  }

  ghost predicate AtCursor<S, I, O>(m: Model<S, I, O>, es: seq<Entry<I, O>>, h: History<I, O>, t: Trace<S>,
                                    nodes: seq<Node<I, O>>, pos: nat, entry: Node?<I, O>) {
    t.Levels() && Cursor(m, es, h, t.view, t.Top(), pos) && pos + 1 < |nodes| && entry == nodes[pos + 1]
  }

  /** The loop invariant: in sync, and either everything is linearized or the cursor is on an entry. */
  ghost predicate Running<S(!new), I, O>(m: Model<S, I, O>, es: seq<Entry<I, O>>, h: History<I, O>, t: Trace<S>,
                                         nodes: seq<Node<I, O>>, pos: nat, head: Node<I, O>, entry: Node?<I, O>,
                                         linearized: array<Bitset.Word>, state: S,
                                         calls: seq<CallsEntry<S, I, O>>, cache: Cache<S>)
    reads nodes, linearized
  {
    && Synced(m, es, h, t, nodes, linearized, state, calls, cache)
    && |nodes| > 0 && nodes[0] == head
    && if head.next == null then t.Top().done == Below(|h|) else AtCursor(m, es, h, t, nodes, pos, entry)
  }

  /** Where the list from the head is empty, everything is linearized. */
  lemma HeadEmpty<S(!new), I, O>(m: Model<S, I, O>, es: seq<Entry<I, O>>, h: History<I, O>, t: Trace<S>, nodes: seq<Node<I, O>>)
    requires t.Levels() && Good(m, es, h, t) && |nodes| > 0 && Reflects(nodes, t.List())
    ensures nodes[0].next == null <==> t.Top().done == Below(|h|)
  {
    hide Good, Reflects;
    HeadFacts(m, es, h, t);
    NextNode(nodes, t.List(), 0);
  }

  /** Past a call that cannot be taken here, or that leads to a configuration seen before. */
  method Skip<S(!new), I, O>(ghost m: Model<S, I, O>, ghost es: seq<Entry<I, O>>, ghost h: History<I, O>, ghost t: Trace<S>,
                             ghost nodes: seq<Node<I, O>>, ghost pos: nat, ghost id: nat, entry: Node<I, O>)
      returns (next: Node?<I, O>, ghost pos': nat)
    requires t.Levels() && Good(m, es, h, t) && Reflects(nodes, t.List()) && |nodes| == |es| + 1
    requires id < |h| && h[id].call == pos && AtCursor(m, es, h, t, nodes, pos, entry)
    requires Moves(m, h, t.Top(), id) ==> Move(m, h, t.Top(), id) in t.view
    ensures AtCursor(m, es, h, t, nodes, pos', next) && pos < pos' < |es|
  {
    hide Good, Reflects, Cursor, Moves, NextOf, Enabled;
    SkipFacts(m, es, h, t, id);
    NextNode(nodes, t.List(), pos + 1);
    next := entry.next;
    pos' := NextOf(t.List(), pos + 1) - 1;
  }

  /** The configuration that linearizing operation `id` leads to, and whether it is cached already. */
  method Probe<S(==, !new), I, O>(ghost m: Model<S, I, O>, ghost h: History<I, O>, ghost t: Trace<S>, id: nat,
                                  linearized: array<Bitset.Word>, newState: S, cache: Cache<S>)
      returns (e: CacheEntry<S>, found: bool)
    requires t.Levels() && CacheHolds(cache, linearized.Length, t.view)
    requires id < |h| <= 64 * linearized.Length && Bitset.Members(linearized[..]) == t.Top().done
    requires newState == Move(m, h, t.Top(), id).state
    ensures |e.linearized| == linearized.Length && Pair(e) == Move(m, h, t.Top(), id)
    ensures found <==> Pair(e) in t.view
  {
    hide CacheHolds, Bitset.Members;
    var newLinearized := Bitset.Clone(linearized);
    Bitset.Set(newLinearized, id);
    e := CacheEntry(newLinearized[..], newState);
    found := CacheContains(cache, e, linearized.Length, t.view);
  }

  /** Cache the new configuration, linearize the operation and start over at the head of the list. */
  method Descend<S(!new), I, O>(ghost m: Model<S, I, O>, ghost es: seq<Entry<I, O>>, ghost h: History<I, O>, ghost t: Trace<S>,
                                ghost nodes: seq<Node<I, O>>, ghost pos: nat, ghost id: nat, head: Node<I, O>, entry: Node<I, O>,
                                linearized: array<Bitset.Word>, state: S, e: CacheEntry<S>,
                                calls: seq<CallsEntry<S, I, O>>, cache: Cache<S>)
      returns (calls': seq<CallsEntry<S, I, O>>, cache': Cache<S>, next: Node?<I, O>, ghost t': Trace<S>, ghost pos': nat)
    requires Synced(m, es, h, t, nodes, linearized, state, calls, cache) && nodes[0] == head
    requires id < |h| && h[id].call == pos && AtCursor(m, es, h, t, nodes, pos, entry)
    requires entry.id == id && 0 <= h[id].ret < |es| && entry.matching == nodes[h[id].ret + 1]
    requires Moves(m, h, t.Top(), id) && Pair(e) == Move(m, h, t.Top(), id) && Pair(e) !in t.view
    requires |e.linearized| == linearized.Length
    modifies nodes, linearized
    ensures Running(m, es, h, t', nodes, pos', head, next, linearized, e.state, calls', cache')
    ensures Unvisited(m, h, t') < Unvisited(m, h, t)
    ensures t.stack != [] && t'.view == t.view + {Pair(e)} && t'.stack == t.stack + [Pair(e)]
  {
    hide Good, Reflects, Cursor, CallsMatch, CacheHolds, Moves, NextOf, Unvisited, Liftable, LiftLinks, Present,
         Bitset.Members, Shape, WiredAt, Bitset.HashOf;
    var hash := Bitset.Hash(e.linearized);
    CacheInsert(cache, linearized.Length, t.view, e);
    cache' := cache[hash := Bucket(cache, hash) + [e]];
    PushGood(m, es, h, t, id);
    PushedFacts(m, es, h, t, id);
    t' := Pushed(m, h, t, id);
    PushCalls(m, h, t, t', nodes, calls, CallsEntry(entry, state), id);
    calls' := calls + [CallsEntry(entry, state)];
    Bitset.Set(linearized, entry.id);
    Lift(entry, nodes, t.List(), Present(es, t.Top().done), pos + 1, h[id].ret + 1);
    next := head.next;
    HeadFacts(m, es, h, t');
    NextNode(nodes, t'.List(), 0);
    pos' := if NextOf(t'.List(), 0) > 0 then NextOf(t'.List(), 0) - 1 else 0;
  }

  /** The top of the stack is exhausted: undo its operation and move past it. */
  method Backtrack<S(!new), I, O>(ghost m: Model<S, I, O>, ghost es: seq<Entry<I, O>>, ghost h: History<I, O>, ghost t: Trace<S>,
                                  ghost nodes: seq<Node<I, O>>, ghost head: Node<I, O>, linearized: array<Bitset.Word>, ghost state: S,
                                  calls: seq<CallsEntry<S, I, O>>, ghost cache: Cache<S>)
      returns (calls': seq<CallsEntry<S, I, O>>, state': S, next: Node?<I, O>, ghost pos': nat)
    requires Synced(m, es, h, t, nodes, linearized, state, calls, cache) && nodes[0] == head
    requires t.ids != [] && |calls| == |t.ids| && Explored(m, h, t.view, t.Top()) && t.Top().done != Below(|h|)
    modifies nodes, linearized
    ensures Running(m, es, h, t.Popped(), nodes, pos', head, next, linearized, state', calls', cache)
    ensures Unvisited(m, h, t.Popped()) == Unvisited(m, h, t) && |t.Popped().ids| < |t.ids|
  {
    hide Good, Reflects, Cursor, CallsMatch, CacheHolds, Moves, NextOf, Liftable, LiftLinks, Present,
         Bitset.Members, Shape, Explored, WiredAt, Selection;
    PopFacts(m, es, h, t, nodes, calls);
    var callsTop := calls[|calls| - 1];
    var entry := callsTop.entry;
    state' := callsTop.state;
    Bitset.Clear(linearized, entry.id);
    calls' := calls[..|calls| - 1];
    ghost var t', id := t.Popped(), t.ids[|t.ids| - 1];
    Unlift(entry, nodes, t'.List(), Present(es, t'.Top().done), h[id].call + 1, h[id].ret + 1);
    next, pos' := Skip(m, es, h, t', nodes, h[id].call, id, entry);
    HeadEmpty(m, es, h, t', nodes);
    assert id in Below(|h|);
  }

  /** On a call: take it if the model accepts it and the outcome is new, otherwise move past it. */
  method OnCall<S(==, !new), I, O>(m: Model<S, I, O>, ghost es: seq<Entry<I, O>>, ghost h: History<I, O>, ghost t: Trace<S>,
                                   ghost nodes: seq<Node<I, O>>, ghost pos: nat, head: Node<I, O>, entry: Node<I, O>,
                                   linearized: array<Bitset.Word>, state: S, calls: seq<CallsEntry<S, I, O>>,
                                   cache: Cache<S>, ghost longest: seq<Option<seq<nat>>>, ghost computePartial: bool)
      returns (calls': seq<CallsEntry<S, I, O>>, cache': Cache<S>, state': S, next: Node?<I, O>,
               ghost t': Trace<S>, ghost pos': nat)
    requires Running(m, es, h, t, nodes, pos, head, entry, linearized, state, calls, cache)
    requires Records(m, h, t, longest, computePartial) && head.next != null && entry.matching != null
    modifies nodes, linearized
    ensures Running(m, es, h, t', nodes, pos', head, next, linearized, state', calls', cache')
    ensures Records(m, h, t', longest, computePartial)
    ensures Unvisited(m, h, t') < Unvisited(m, h, t) || (t' == t && pos < pos' < |es|)
  {
    hide Good, Cursor, Reflects, WiredAt, CallsMatch, CacheHolds, Records, Bitset.Members, Unvisited, Enabled, Explored;
    NodeFacts(m, es, h, t, nodes, pos);
    ghost var id: nat := es[pos].id;
    var matching := entry.matching;
    calls', cache', state', t' := calls, cache, state, t;
    var step := m.step(state, entry.value.input, matching.value.output);
    if step.0 {
      var e, found := Probe(m, h, t, entry.id, linearized, step.1, cache);
      if !found {
        calls', cache', next, t', pos' := Descend(m, es, h, t, nodes, pos, id, head, entry, linearized, state, e, calls, cache);
        PushRecords(m, h, t, Pair(e), t', longest, computePartial);
        state' := step.1;
      } else {
        next, pos' := Skip(m, es, h, t, nodes, pos, id, entry);
      }
    } else {
      next, pos' := Skip(m, es, h, t, nodes, pos, id, entry);
    }
  }

  /** On a return with something on the stack: record how far this got, then backtrack. */
  method OnReturn<S(!new), I, O>(ghost m: Model<S, I, O>, ghost es: seq<Entry<I, O>>, ghost h: History<I, O>, ghost t: Trace<S>,
                                 ghost nodes: seq<Node<I, O>>, ghost pos: nat, head: Node<I, O>, entry: Node<I, O>,
                                 linearized: array<Bitset.Word>, ghost state: S, calls: seq<CallsEntry<S, I, O>>,
                                 ghost cache: Cache<S>, longest: seq<Option<seq<nat>>>, computePartial: bool)
      returns (calls': seq<CallsEntry<S, I, O>>, state': S, next: Node?<I, O>, longest': seq<Option<seq<nat>>>, ghost pos': nat)
    requires Running(m, es, h, t, nodes, pos, head, entry, linearized, state, calls, cache)
    requires Records(m, h, t, longest, computePartial) && head.next != null && entry.matching == null && |calls| > 0
    modifies nodes, linearized
    ensures t.Levels() && t.ids != []
    ensures Running(m, es, h, t.Popped(), nodes, pos', head, next, linearized, state', calls', cache)
    ensures Records(m, h, t.Popped(), longest', computePartial)
    ensures Unvisited(m, h, t.Popped()) == Unvisited(m, h, t) && |t.Popped().ids| < |t.ids|
  {
    hide Good, Cursor, Reflects, WiredAt, CallsMatch, CacheHolds, Records, Recorded, Bitset.Members, Unvisited, Enabled,
         Explored, Raised, Selection, CallsAre;
    NodeFacts(m, es, h, t, nodes, pos);
    CallsFacts(calls, nodes, h, t);
    longest' := longest;
    if computePartial {
      RecordsAreRecorded(m, h, t, longest, computePartial);
      StackSelection(m, es, h, t);
      longest' := RecordLongest(longest, calls, t.ids);
      RecordFacts(m, es, h, t, longest, longest');
    } else {
      RecordsWithoutPartials(m, h, t, longest);
    }
    calls', state', next, pos' := Backtrack(m, es, h, t, nodes, head, linearized, state, calls, cache);
  }

  /** The search is over when nothing is on the stack and the cursor is on a return. */
  lemma Stuck<S(!new), I(!new), O(!new)>(m: Model<S, I, O>, es: seq<Entry<I, O>>, h: History<I, O>, t: Trace<S>,
                                         nodes: seq<Node<I, O>>, pos: nat, head: Node<I, O>, entry: Node<I, O>,
                                         linearized: array<Bitset.Word>, state: S, cache: Cache<S>,
                                         longest: seq<Option<seq<nat>>>, computePartial: bool)
    requires WellFormed(es) && h == OpsOf(es)
    requires Running(m, es, h, t, nodes, pos, head, entry, linearized, state, [], cache)
    requires Records(m, h, t, longest, computePartial) && head.next != null && entry.matching == null
    ensures !Linearizable(m, h) && (computePartial ==> LongestPartials(m, h, longest))
  {
    hide Good, Cursor, Reflects, WiredAt, CallsMatch, CacheHolds, Records, Bitset.Members, Enabled, Explored, WellFormed, OpsOf;
    NodeFacts(m, es, h, t, nodes, pos);
    CallsFacts([], nodes, h, t);
    FailFacts(m, es, h, t, longest, computePartial);
  }

  /** The search is over when the list is empty: the stack is a linearization of everything. */
  lemma Finished<S(!new), I(!new), O(!new)>(m: Model<S, I, O>, es: seq<Entry<I, O>>, h: History<I, O>, t: Trace<S>,
                                            nodes: seq<Node<I, O>>, pos: nat, head: Node<I, O>, entry: Node?<I, O>,
                                            linearized: array<Bitset.Word>, state: S, calls: seq<CallsEntry<S, I, O>>,
                                            cache: Cache<S>)
    requires Running(m, es, h, t, nodes, pos, head, entry, linearized, state, calls, cache) && head.next == null
    ensures Linearizable(m, h) && CallsAre(calls, t.ids)
    ensures Recorded(m, h, seq(|h|, i => Some(t.ids))) && LongestPartials(m, h, seq(|h|, i => Some(t.ids)))
  {
    hide Good, Reflects, WiredAt, CallsMatch, CacheHolds, Bitset.Members, Recorded, LongestPartials, CallsAre;
    DoneFacts(m, es, h, t);
    CallsFacts(calls, nodes, h, t);
  }

  // ---- the check ----

  /** `kill(i)` is what the i-th look at the shared kill flag returns. */
  method CheckSingle<S(==, !new), I(!new), O(!new)>(m: Model<S, I, O>, history: seq<Entry<I, O>>,
                                                    computePartial: bool, kill: nat -> bool)
      returns (ok: bool, longest: seq<Option<seq<nat>>>)
    requires WellFormed(history)
    ensures ok ==> Linearizable(m, OpsOf(history))
    ensures (forall i :: !kill(i)) ==> (ok <==> Linearizable(m, OpsOf(history)))
    ensures Recorded(m, OpsOf(history), longest)
    ensures ok || (computePartial && forall i :: !kill(i)) ==> LongestPartials(m, OpsOf(history), longest)
  {
    hide Good, Cursor, Reflects, Wired, CallsMatch, CacheHolds, Records, Recorded, LongestPartials, Linearizable,
         WellFormed, Row, Carries, Bitset.Members, Unvisited, InitLinks, Enabled, Explored, NextOf, Selection,
         OpAt, Bitset.HashOf, Grows, CallsAre;
    var entry, made := MakeLinkedEntries(history);
    var len := Length(entry, made);
    var n := len / 2;
    var linearized := Bitset.NewBitset(n);
    var cache: Cache<S> := map[];
    var calls: seq<CallsEntry<S, I, O>> := [];
    longest := seq(n, i => None);
    var state := m.init;
    var headEntry := new Node(NoValue, null, -1);
    Prepend(headEntry, entry, made);

    ghost var h, nodes := OpsOf(history), [headEntry] + made;
    ghost var t := Trace({}, [], [InitConfig(m)], [InitLinks(|history| + 1)]);
    ghost var pos: nat := 0;
    StartFacts(m, history, h, headEntry, made, longest, computePartial);
    EmptyCache<S>(linearized.Length);
    HeadFacts(m, history, h, t);
    NextNode(nodes, t.List(), 0);
    assert Running(m, history, h, t, nodes, pos, headEntry, entry, linearized, state, calls, cache);
    hide Running, OpsOf;
    var looks := 0;
    while headEntry.next != null
      invariant Running(m, history, h, t, nodes, pos, headEntry, entry, linearized, state, calls, cache)
      invariant Records(m, h, t, longest, computePartial)
      invariant headEntry.next != null ==> entry != null
      decreases Unvisited(m, h, t), |t.ids|, |history| - pos
    {
      RecordsAreRecorded(m, h, t, longest, computePartial);
      if kill(looks) {
        return false, longest;
      }
      looks := looks + 1;
      if entry.matching != null {
        calls, cache, state, entry, t, pos := OnCall(m, history, h, t, nodes, pos, headEntry, entry, linearized, state,
                                                     calls, cache, longest, computePartial);
      } else {
        if |calls| == 0 {
          Stuck(m, history, h, t, nodes, pos, headEntry, entry, linearized, state, cache, longest, computePartial);
          return false, longest;
        }
        calls, state, entry, longest, pos := OnReturn(m, history, h, t, nodes, pos, headEntry, entry, linearized, state,
                                                      calls, cache, longest, computePartial);
        t := t.Popped();
      }
    }
    Finished(m, history, h, t, nodes, pos, headEntry, entry, linearized, state, calls, cache);
    var all := IdsOf(calls, t.ids);
    longest := seq(n, i => Some(all));
    ok := true;
  }
}
