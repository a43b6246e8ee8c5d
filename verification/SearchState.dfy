/** What the backtracking search keeps true: about the configurations it has cached, about the list
    it edits, and about the longest partial linearizations it records. */
module SearchState {
  import opened Linearizability
  import opened Permutations
  import opened LinkedEntries
  import opened Search

  datatype Option<T> = None | Some(value: T)

  // ---- the cache and the stack ----

  /** Every move of `c` whose call entry lies before `upto` leads into the cache. */
  ghost predicate Tried<S, I, O>(m: Model<S, I, O>, h: History<I, O>, view: set<Config<S>>, c: Config<S>, upto: int) {
    forall id: nat :: Moves(m, h, c, id) && h[id].call < upto ==> Move(m, h, c, id) in view
  }

  /** `c` is one of the configurations above the start. */
  ghost predicate OnStack<S>(stack: seq<Config<S>>, c: Config<S>) {
    exists k :: 1 <= k < |stack| && c == stack[k]
  }

  /** The configurations along the current path, each a move from the one below, and each tried
      up to and including the choice made there. */
  ghost predicate Trail<S, I, O>(m: Model<S, I, O>, h: History<I, O>, view: set<Config<S>>, ids: seq<nat>,
                                 stack: seq<Config<S>>) {
    && |stack| == |ids| + 1 && stack[0] == InitConfig(m)
    && forall k :: 0 <= k < |ids| ==> TrailStep(m, h, view, ids[k], stack[k], stack[k + 1])
  }

  ghost predicate TrailStep<S, I, O>(m: Model<S, I, O>, h: History<I, O>, view: set<Config<S>>, id: nat,
                                     c: Config<S>, c': Config<S>) {
    Moves(m, h, c, id) && c' == Move(m, h, c, id) && Tried(m, h, view, c, h[id].call + 1)
  }

  /** Whatever left the stack was explored completely. */
  ghost predicate Settled<S, I, O>(m: Model<S, I, O>, h: History<I, O>, view: set<Config<S>>, stack: seq<Config<S>>) {
    forall c :: c in view ==> OnStack(stack, c) || Explored(m, h, view, c)
  }

  /** No cached configuration is complete, except possibly the current one. */
  ghost predicate NoneComplete<S>(n: nat, view: set<Config<S>>, ids: seq<nat>) {
    forall c :: c in view && c.done == Below(n) ==> Elements(ids) == Below(n)
  }

  /** The invariant of the depth-first search. */
  ghost predicate Searched<S, I, O>(m: Model<S, I, O>, h: History<I, O>, view: set<Config<S>>, ids: seq<nat>,
                                    stack: seq<Config<S>>) {
    && PartialLinearization(m, h, ids)
    && Trail(m, h, view, ids, stack)
    && stack[|ids|] == Reached(m, h, ids)
    && Settled(m, h, view, stack)
    && NoneComplete(|h|, view, ids)
    && view <= Universe(m, h, |h|)
  }

  lemma TrailPush<S, I, O>(m: Model<S, I, O>, h: History<I, O>, view: set<Config<S>>, ids: seq<nat>,
                           stack: seq<Config<S>>, id: nat, c': Config<S>)
    requires Trail(m, h, view, ids, stack)
    requires TrailStep(m, h, view + {c'}, id, stack[|ids|], c')
    ensures Trail(m, h, view + {c'}, ids + [id], stack + [c'])
  {
    var ids', stack' := ids + [id], stack + [c'];
    forall k | 0 <= k < |ids'| ensures TrailStep(m, h, view + {c'}, ids'[k], stack'[k], stack'[k + 1]) {
      if k < |ids| {
        assert TrailStep(m, h, view, ids[k], stack[k], stack[k + 1]);
      }
    }
  }

  lemma SettledPush<S, I, O>(m: Model<S, I, O>, h: History<I, O>, view: set<Config<S>>, stack: seq<Config<S>>,
                             c': Config<S>)
    requires Settled(m, h, view, stack) && stack != []
    ensures Settled(m, h, view + {c'}, stack + [c'])
  {
    var stack' := stack + [c'];
    forall x | x in view + {c'} ensures OnStack(stack', x) || Explored(m, h, view + {c'}, x) {
      if x == c' {
        assert stack'[|stack|] == x;
      } else if OnStack(stack, x) {
        var k :| 1 <= k < |stack| && x == stack[k];
        assert stack'[k] == x;
      }
    }
  }

  lemma SmallerRest<T>(u: set<T>, v: set<T>, x: T)
    requires x in u && x !in v
    ensures |u - (v + {x})| < |u - v|
  {
    assert u - v == (u - (v + {x})) + {x};
  }

  /** Descending into a configuration that is not cached yet. */
  lemma PushSearched<S, I, O>(m: Model<S, I, O>, h: History<I, O>, view: set<Config<S>>, ids: seq<nat>,
                              stack: seq<Config<S>>, id: nat)
    requires Searched(m, h, view, ids, stack) && Elements(ids) != Below(|h|)
    requires Moves(m, h, stack[|ids|], id) && Tried(m, h, view, stack[|ids|], h[id].call)
    requires forall b: nat :: b < |h| && b != id ==> h[b].call != h[id].call
    requires Move(m, h, stack[|ids|], id) !in view
    ensures var c' := Move(m, h, stack[|ids|], id);
      && Searched(m, h, view + {c'}, ids + [id], stack + [c'])
      && |Universe(m, h, |h|) - (view + {c'})| < |Universe(m, h, |h|) - view|
  {
    var c := stack[|ids|];
    var c' := Move(m, h, c, id);
    ExtendPartial(m, h, ids, id);
    SelectionLength(ids + [id], |h|);
    ReachedInUniverse(m, h, ids + [id], |h|);
    SmallerRest(Universe(m, h, |h|), view, c');
    TrailPush(m, h, view, ids, stack, id, c');
    SettledPush(m, h, view, stack, c');
  }

  lemma TrailPop<S, I, O>(m: Model<S, I, O>, h: History<I, O>, view: set<Config<S>>, ids: seq<nat>,
                          stack: seq<Config<S>>)
    requires Trail(m, h, view, ids, stack) && ids != []
    ensures Trail(m, h, view, ids[..|ids| - 1], stack[..|ids|])
    ensures TrailStep(m, h, view, ids[|ids| - 1], stack[|ids| - 1], stack[|ids|])
  {
    var ids', stack' := ids[..|ids| - 1], stack[..|ids|];
    forall k | 0 <= k < |ids'| ensures TrailStep(m, h, view, ids'[k], stack'[k], stack'[k + 1]) {
      assert TrailStep(m, h, view, ids[k], stack[k], stack[k + 1]);
    }
    assert TrailStep(m, h, view, ids[|ids'|], stack[|ids'|], stack[|ids'| + 1]);
  }

  lemma SettledPop<S, I, O>(m: Model<S, I, O>, h: History<I, O>, view: set<Config<S>>, stack: seq<Config<S>>)
    requires Settled(m, h, view, stack) && |stack| > 1 && Explored(m, h, view, stack[|stack| - 1])
    ensures Settled(m, h, view, stack[..|stack| - 1])
  {
    forall x | x in view ensures OnStack(stack[..|stack| - 1], x) || Explored(m, h, view, x) {
      if OnStack(stack, x) {
        var k :| 1 <= k < |stack| && x == stack[k];
        if k < |stack| - 1 {
          assert stack[..|stack| - 1][k] == x;
        }
      }
    }
  }

  /** Backtracking: the configuration left behind is explored, and its choice has been tried below. */
  lemma PopSearched<S, I, O>(m: Model<S, I, O>, h: History<I, O>, view: set<Config<S>>, ids: seq<nat>,
                             stack: seq<Config<S>>)
    requires Searched(m, h, view, ids, stack) && ids != [] && Elements(ids) != Below(|h|)
    requires Explored(m, h, view, stack[|ids|])
    ensures var n := |ids| - 1;
      Searched(m, h, view, ids[..n], stack[..n + 1]) && Tried(m, h, view, stack[n], h[ids[n]].call + 1)
  {
    var n := |ids| - 1;
    LastMove(m, h, ids);
    TrailPop(m, h, view, ids, stack);
    SettledPop(m, h, view, stack);
    assert forall c :: c in view ==> c.done != Below(|h|);
    TrailReaches(m, h, view, ids[..n], stack[..n + 1]);
  }

  lemma {:induction false} TrailReaches<S, I, O>(m: Model<S, I, O>, h: History<I, O>, view: set<Config<S>>,
                                                 ids: seq<nat>, stack: seq<Config<S>>)
    requires PartialLinearization(m, h, ids) && Trail(m, h, view, ids, stack)
    ensures stack[|ids|] == Reached(m, h, ids)
    decreases |ids|
  {
    if ids == [] {
      assert Reached(m, h, ids) == InitConfig(m);
    } else {
      LastMove(m, h, ids);
      TrailPop(m, h, view, ids, stack);
      TrailReaches(m, h, view, ids[..|ids| - 1], stack[..|ids|]);
    }
  }

  /** With the stack empty and the start explored, nothing was missed. */
  lemma ExhaustedRefutes<S, I(!new), O(!new)>(m: Model<S, I, O>, h: History<I, O>, view: set<Config<S>>,
                                              stack: seq<Config<S>>)
    requires Searched(m, h, view, [], stack) && Explored(m, h, view, stack[0])
    requires WellTimed(h) && h != []
    ensures !Linearizable(m, h)
    ensures forall p :: PartialLinearization(m, h, p) && p != [] ==> Reached(m, h, p) in view
  {
    forall c | c in view ensures Explored(m, h, view, c) {
      assert !OnStack(stack, c);
    }
    forall p | PartialLinearization(m, h, p) && p != [] ensures Reached(m, h, p) in view {
      ClosedCacheIsComplete(m, h, view, p);
    }
    assert 0 in Below(|h|) && 0 !in Elements([]);
    forall p | PartialLinearization(m, h, p) ensures |p| != |h| {
      SelectionLength(p, |h|);
    }
    if Linearizable(m, h) {
      var p := LinearizationIsComplete(m, h);
      assert false;
    }
  }

  // ---- positions in the list ----

  /** Everything not linearized yet returns at or after `pos`. */
  ghost predicate NoReturnBefore<I, O>(h: History<I, O>, done: set<nat>, pos: int) {
    forall b: nat :: b < |h| && b !in done ==> pos <= h[b].ret
  }

  lemma CallIsEnabled<I, O>(h: History<I, O>, done: set<nat>, id: nat)
    requires id < |h| && id !in done && NoReturnBefore(h, done, h[id].call)
    ensures Enabled(h, done, id)
  {
  }

  /** At a return entry every enabled call lies behind. */
  lemma ReturnExhausts<S, I, O>(m: Model<S, I, O>, h: History<I, O>, view: set<Config<S>>, c: Config<S>, id: nat)
    requires id < |h| && id !in c.done && Tried(m, h, view, c, h[id].ret)
    requires forall b: nat :: b < |h| ==> h[b].call != h[id].ret
    ensures Explored(m, h, view, c)
  {
    forall b: nat | Moves(m, h, c, b) ensures Move(m, h, c, b) in view {
      assert !Precedes(h[id], h[b]);
    }
  }

  // ---- the longest partial linearizations ----

  /** Recorded sequences are partial linearizations that contain the operation they are kept for. */
  ghost predicate Recorded<S, I, O>(m: Model<S, I, O>, h: History<I, O>, longest: seq<Option<seq<nat>>>) {
    && |longest| == |h|
    && forall i :: 0 <= i < |h| && longest[i].Some? ==>
      PartialLinearization(m, h, longest[i].value) && i in longest[i].value
  }

  /** What is kept for each operation of `c` is at least as long as `c`. */
  ghost predicate Covers<S>(longest: seq<Option<seq<nat>>>, c: Config<S>) {
    forall i :: i in c.done ==> i < |longest| && longest[i].Some? && |c.done| <= |longest[i].value|
  }

  /** Every configuration that left the stack is covered. */
  ghost predicate Covered<S>(view: set<Config<S>>, stack: seq<Config<S>>, longest: seq<Option<seq<nat>>>) {
    forall c :: c in view ==> OnStack(stack, c) || Covers(longest, c)
  }

  /** Entries are only ever replaced by longer ones. */
  ghost predicate Grows(longest: seq<Option<seq<nat>>>, longest': seq<Option<seq<nat>>>) {
    && |longest| == |longest'|
    && forall i :: 0 <= i < |longest| && longest[i].Some? ==>
      longest'[i].Some? && |longest[i].value| <= |longest'[i].value|
  }

  lemma PushCovered<S>(view: set<Config<S>>, stack: seq<Config<S>>, c': Config<S>, longest: seq<Option<seq<nat>>>)
    requires Covered(view, stack, longest) && stack != []
    ensures Covered(view + {c'}, stack + [c'], longest)
  {
    var stack' := stack + [c'];
    forall x | x in view + {c'} ensures OnStack(stack', x) || Covers(longest, x) {
      if x == c' {
        assert stack'[|stack|] == x;
      } else if OnStack(stack, x) {
        var k :| 1 <= k < |stack| && x == stack[k];
        assert stack'[k] == x;
      }
    }
  }

  lemma PopCovered<S>(view: set<Config<S>>, stack: seq<Config<S>>, longest: seq<Option<seq<nat>>>,
                      longest': seq<Option<seq<nat>>>)
    requires |stack| > 1 && Covered(view, stack, longest)
    requires Grows(longest, longest') && Covers(longest', stack[|stack| - 1])
    ensures Covered(view, stack[..|stack| - 1], longest')
  {
    forall x | x in view ensures OnStack(stack[..|stack| - 1], x) || Covers(longest', x) {
      if OnStack(stack, x) {
        var k :| 1 <= k < |stack| && x == stack[k];
        if k < |stack| - 1 {
          assert stack[..|stack| - 1][k] == x;
        }
      }
    }
  }

  /** For every operation: a longest partial linearization containing it, and none only if there is none. */
  ghost predicate LongestPartials<S, I, O>(m: Model<S, I, O>, h: History<I, O>, longest: seq<Option<seq<nat>>>) {
    && Recorded(m, h, longest)
    && forall i, p :: 0 <= i < |h| && PartialLinearization(m, h, p) && i in p ==>
      longest[i].Some? && |p| <= |longest[i].value|
  }

  lemma ExhaustedIsLongest<S, I, O>(m: Model<S, I, O>, h: History<I, O>, view: set<Config<S>>,
                                    stack: seq<Config<S>>, longest: seq<Option<seq<nat>>>)
    requires |stack| == 1 && Covered(view, stack, longest) && Recorded(m, h, longest)
    requires forall p :: PartialLinearization(m, h, p) && p != [] ==> Reached(m, h, p) in view
    ensures LongestPartials(m, h, longest)
  {
    forall i, p | 0 <= i < |h| && PartialLinearization(m, h, p) && i in p
      ensures longest[i].Some? && |p| <= |longest[i].value|
    {
      assert !OnStack(stack, Reached(m, h, p));
      ElementsCardinality(p, |h|);
      assert i in Reached(m, h, p).done;
    }
  }
}
