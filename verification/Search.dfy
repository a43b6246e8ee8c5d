/** The space the checker explores: configurations reached by linearizing one enabled operation
    at a time, and why a memoized depth-first search of it decides linearizability. */
module Search {
  import opened Linearizability
  import opened Permutations

  /** The operations linearized so far and the model state they lead to. */
  datatype Config<S> = Config(done: set<nat>, state: S)

  /** Not yet linearized, while everything that returned before its call already is. */
  ghost predicate Enabled<I, O>(h: History<I, O>, done: set<nat>, id: nat) {
    && id < |h| && id !in done
    && forall b: nat :: b < |h| && Precedes(h[b], h[id]) ==> b in done
  }

  function StepOf<S, I, O>(m: Model<S, I, O>, h: History<I, O>, state: S, id: nat): (bool, S)
    requires id < |h|
  {
    m.step(state, h[id].input, h[id].output)
  }

  ghost predicate Moves<S, I, O>(m: Model<S, I, O>, h: History<I, O>, c: Config<S>, id: nat) {
    Enabled(h, c.done, id) && StepOf(m, h, c.state, id).0
  }

  ghost function Move<S, I, O>(m: Model<S, I, O>, h: History<I, O>, c: Config<S>, id: nat): Config<S>
    requires id < |h|
  {
    Config(c.done + {id}, StepOf(m, h, c.state, id).1)
  }

  // ---- partial linearizations ----

  /** The model state after a sequence of operations. */
  function StateAfter<S, I, O>(m: Model<S, I, O>, s: History<I, O>): S {
    if s == [] then m.init
    else m.step(StateAfter(m, s[..|s| - 1]), s[|s| - 1].input, s[|s| - 1].output).1
  }

  /** Each operation comes after all that returned before its call. */
  ghost predicate DownClosed<I, O>(h: History<I, O>, p: seq<nat>)
    requires Selection(p, |h|)
  {
    forall i, b: nat :: 0 <= i < |p| && b < |h| && Precedes(h[b], h[p[i]]) ==> b in p[..i]
  }

  /** Distinct operations, each placed after all that returned before its call, every step accepted. */
  ghost predicate PartialLinearization<S, I, O>(m: Model<S, I, O>, h: History<I, O>, p: seq<nat>) {
    && Selection(p, |h|)
    && DownClosed(h, p)
    && Accepts(m, m.init, Select(h, p))
  }

  ghost function Reached<S, I, O>(m: Model<S, I, O>, h: History<I, O>, p: seq<nat>): Config<S>
    requires Selection(p, |h|)
  {
    Config(Elements(p), StateAfter(m, Select(h, p)))
  }

  lemma {:induction false} AcceptsSnoc<S, I, O>(m: Model<S, I, O>, pre: History<I, O>, s: History<I, O>,
                                                x: Operation<I, O>)
    ensures Accepts(m, StateAfter(m, pre), s + [x]) <==>
      Accepts(m, StateAfter(m, pre), s) && m.step(StateAfter(m, pre + s), x.input, x.output).0
    decreases s
  {
    if s == [] {
      assert pre + s == pre && s + [x] == [x];
      assert Accepts(m, m.step(StateAfter(m, pre), x.input, x.output).1, [x][1..]);
    } else {
      var pre' := pre + [s[0]];
      assert pre'[..|pre|] == pre;
      AcceptsSnoc(m, pre', s[1..], x);
      assert pre' + s[1..] == pre + s;
      assert (s + [x])[1..] == s[1..] + [x];
    }
  }

  lemma DownClosedSnoc<I, O>(h: History<I, O>, p: seq<nat>, id: nat)
    requires Selection(p + [id], |h|) && id < |h|
    ensures Selection(p, |h|)
    ensures DownClosed(h, p + [id]) <==>
      DownClosed(h, p) && forall b: nat :: b < |h| && Precedes(h[b], h[id]) ==> b in p
  {
    var q := p + [id];
    assert forall i :: 0 <= i < |p| ==> q[i] == p[i] && q[..i] == p[..i];
    assert q[|p|] == id && q[..|p|] == p;
    assert forall i :: 0 <= i < |p| ==> p[i] < |h|;
    if DownClosed(h, q) {
      forall i, b: nat | 0 <= i < |p| && b < |h| && Precedes(h[b], h[p[i]]) ensures b in p[..i] {
        assert Precedes(h[b], h[q[i]]);
      }
    }
  }

  lemma SelectSnoc<S, I, O>(m: Model<S, I, O>, h: History<I, O>, p: seq<nat>, id: nat)
    requires Selection(p, |h|) && id < |h|
    ensures Select(h, p + [id]) == Select(h, p) + [h[id]]
    ensures StateAfter(m, Select(h, p + [id])) == StepOf(m, h, StateAfter(m, Select(h, p)), id).1
    ensures Accepts(m, m.init, Select(h, p + [id])) <==>
      Accepts(m, m.init, Select(h, p)) && StepOf(m, h, StateAfter(m, Select(h, p)), id).0
  {
    var s := Select(h, p);
    assert Select(h, p + [id]) == s + [h[id]];
    assert (s + [h[id]])[..|s|] == s && [] + s == s;
    AcceptsSnoc(m, [], s, h[id]);
  }

  /** A partial linearization grows by exactly the moves of the configuration it reaches. */
  lemma ExtendPartial<S, I, O>(m: Model<S, I, O>, h: History<I, O>, p: seq<nat>, id: nat)
    requires PartialLinearization(m, h, p) && id < |h|
    ensures PartialLinearization(m, h, p + [id]) <==> Moves(m, h, Reached(m, h, p), id)
    ensures PartialLinearization(m, h, p + [id]) ==> Reached(m, h, p + [id]) == Move(m, h, Reached(m, h, p), id)
  {
    assert Elements(p + [id]) == Elements(p) + {id};
    assert id in p <==> id in Elements(p);
    if id in p {
      var i :| 0 <= i < |p| && p[i] == id;
      assert (p + [id])[i] == (p + [id])[|p|];
    } else {
      DownClosedSnoc(h, p, id);
      SelectSnoc(m, h, p, id);
    }
  }

  /** The last operation of a partial linearization is a move out of the rest. */
  lemma LastMove<S, I, O>(m: Model<S, I, O>, h: History<I, O>, p: seq<nat>)
    requires PartialLinearization(m, h, p) && p != []
    ensures var q, id := p[..|p| - 1], p[|p| - 1];
      PartialLinearization(m, h, q) && Moves(m, h, Reached(m, h, q), id) &&
      Reached(m, h, p) == Move(m, h, Reached(m, h, q), id)
  {
    var q, id := p[..|p| - 1], p[|p| - 1];
    assert p == q + [id];
    DownClosedSnoc(h, q, id);
    SelectSnoc(m, h, q, id);
    ExtendPartial(m, h, q, id);
  }

  /** Complete partial linearizations are linearizations. */
  lemma CompleteLinearizes<S, I(!new), O(!new)>(m: Model<S, I, O>, h: History<I, O>, p: seq<nat>)
    requires PartialLinearization(m, h, p) && |p| == |h|
    ensures Linearizes(m, h, Select(h, p))
  {
    SelectMultiset(h, p);
    var s := Select(h, p);
    forall i, j | 0 <= i < j < |s| ensures !Precedes(s[j], s[i]) {
      assert p[j] !in p[..i];
    }
  }

  /** Linearizations are complete partial linearizations. */
  lemma LinearizationIsComplete<S, I(!new), O(!new)>(m: Model<S, I, O>, h: History<I, O>) returns (p: seq<nat>)
    requires Linearizable(m, h) && WellTimed(h)
    ensures PartialLinearization(m, h, p) && |p| == |h|
  {
    var s :| Linearizes(m, h, s);
    p := FindPermutation(s, h);
    SelectionLength(p, |h|);
    forall i, b: nat | 0 <= i < |p| && b < |h| && Precedes(h[b], h[p[i]]) ensures b in p[..i] {
      assert b in Elements(p);
      var j :| 0 <= j < |p| && p[j] == b;
      assert s[j] == h[b] && s[i] == h[p[i]];
      assert !(i < j);
      assert h[b].call <= h[b].ret;
      assert j != i;
      assert p[..i][j] == b;
    }
  }

  // ---- memoized search ----

  /** Every move out of `c` leads into `cache`. */
  ghost predicate Explored<S, I, O>(m: Model<S, I, O>, h: History<I, O>, cache: set<Config<S>>, c: Config<S>) {
    forall id: nat :: Moves(m, h, c, id) ==> Move(m, h, c, id) in cache
  }

  function InitConfig<S, I, O>(m: Model<S, I, O>): Config<S> {
    Config({}, m.init)
  }

  /** A cache that holds every move out of the start and out of its own members holds every
      configuration that a partial linearization can reach. */
  lemma {:induction false} ClosedCacheIsComplete<S, I, O>(m: Model<S, I, O>, h: History<I, O>,
                                                          cache: set<Config<S>>, p: seq<nat>)
    requires Explored(m, h, cache, InitConfig(m))
    requires forall c :: c in cache ==> Explored(m, h, cache, c)
    requires PartialLinearization(m, h, p) && p != []
    ensures Reached(m, h, p) in cache
    decreases |p|
  {
    var q := p[..|p| - 1];
    LastMove(m, h, p);
    if q == [] {
      assert Reached(m, h, q) == InitConfig(m);
    } else {
      ClosedCacheIsComplete(m, h, cache, q);
    }
  }

  /** A finite set that contains every configuration reachable in at most k moves. */
  ghost function Universe<S, I, O>(m: Model<S, I, O>, h: History<I, O>, k: nat): set<Config<S>> {
    if k == 0 then {InitConfig(m)}
    else Universe(m, h, k - 1) + set c, id | c in Universe(m, h, k - 1) && id in Below(|h|) :: Move(m, h, c, id)
  }

  lemma {:induction false} ReachedInUniverse<S, I, O>(m: Model<S, I, O>, h: History<I, O>, p: seq<nat>, k: nat)
    requires PartialLinearization(m, h, p) && |p| <= k
    ensures Reached(m, h, p) in Universe(m, h, k)
    decreases k
  {
    if p == [] {
      assert Reached(m, h, p) == InitConfig(m);
      if k > 0 { ReachedInUniverse(m, h, p, k - 1); }
    } else {
      LastMove(m, h, p);
      ReachedInUniverse(m, h, p[..|p| - 1], k - 1);
    }
  }
}
