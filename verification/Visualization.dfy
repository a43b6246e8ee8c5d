/** The data behind the visualizer: replaying the recorded partial linearizations of one partition. */
module Visualization {
  import opened Linearizability
  import opened Permutations
  import opened Sorting
  import opened Entries
  import opened LinkedEntries
  import opened Search
  import opened Parallel

  datatype Step<S> = Step(id: nat, state: S)

  /** Longer partial linearizations first. */
  predicate Longer(a: seq<nat>, b: seq<nat>) {
    |a| > |b|
  }

  /** How an operation is drawn. */
  datatype Element = Element(clientId: int, start: int, end: int, description: string)

  /** The values of the calls and of the returns by operation id. */
  ghost predicate ValuesOf<I, O>(h: History<I, O>, calls: map<nat, I>, rets: map<nat, O>) {
    forall id: nat :: id < |h| ==> id in calls && id in rets && calls[id] == h[id].input && rets[id] == h[id].output
  }

  /** Every operation is drawn for its client, from the time of its call to the time of its return. */
  ghost predicate Drawn<I(!new), O(!new)>(es: seq<Entry<I, O>>, describe: (I, O) -> string, elements: seq<Element>)
    requires WellFormed(es)
  {
    |elements| == |es| / 2 && forall id: nat :: id < |elements| ==>
      var call, ret := es[CallPos(es, id)], es[ReturnPos(es, id)];
      elements[id] == Element(call.clientId, call.time, ret.time, describe(call.input, ret.output))
  }

  method CollectValues<I(!new), O(!new)>(es: seq<Entry<I, O>>, describe: (I, O) -> string)
      returns (elements: seq<Element>, calls: map<nat, I>, rets: map<nat, O>)
    requires WellFormed(es)
    ensures ValuesOf(OpsOf(es), calls, rets) && Drawn(es, describe, elements)
  {
    elements := seq(|es| / 2, i => Element(0, 0, 0, ""));
    calls, rets := map[], map[];
    for k := 0 to |es|
      invariant |elements| == |es| / 2
      invariant forall j :: 0 <= j < k && es[j].CallEntry? ==>
        && es[j].id in calls && calls[es[j].id] == es[j].input
        && elements[es[j].id].clientId == es[j].clientId && elements[es[j].id].start == es[j].time
      invariant forall j :: 0 <= j < k && es[j].ReturnEntry? ==>
        && es[j].id in calls && es[j].id in rets && rets[es[j].id] == es[j].output && elements[es[j].id].end == es[j].time
        && elements[es[j].id].description == describe(calls[es[j].id], es[j].output)
    {
      assert es[CallPos(es, es[k].id)].id == es[k].id;
      match es[k]
      case CallEntry(input, id, time, clientId) =>
        elements := elements[id := elements[id].(clientId := clientId, start := time)];
        calls := calls[id := input];
      case ReturnEntry(output, id, time, _) =>
        elements := elements[id := elements[id].(end := time, description := describe(calls[id], output))];
        rets := rets[id := output];
    }
    forall id: nat | id < |OpsOf(es)|
      ensures id in calls && id in rets && calls[id] == OpsOf(es)[id].input && rets[id] == OpsOf(es)[id].output
      ensures var call, ret := es[CallPos(es, id)], es[ReturnPos(es, id)];
        elements[id] == Element(call.clientId, call.time, ret.time, describe(call.input, ret.output))
    {
      assert es[CallPos(es, id)].id == id && es[ReturnPos(es, id)].id == id;
    }
  }

  /** Step j of a replay: the operation and the model state after it. */
  ghost predicate Shows<S, I, O>(m: Model<S, I, O>, h: History<I, O>, partial: seq<nat>, j: nat, step: Step<S>)
    requires Selection(partial, |h|) && j < |partial|
  {
    step.id == partial[j] && step.state == StateAfter(m, Select(h, partial[..j + 1]))
  }

  ghost predicate Replayed<S, I, O>(m: Model<S, I, O>, h: History<I, O>, partial: seq<nat>, steps: seq<Step<S>>)
    requires Selection(partial, |h|)
  {
    |steps| == |partial| && forall j :: 0 <= j < |steps| ==> Shows(m, h, partial, j, steps[j])
  }

  /** The model accepts the next operation of a partial linearization. */
  lemma NextAccepted<S, I, O>(m: Model<S, I, O>, h: History<I, O>, partial: seq<nat>, j: nat)
    requires PartialLinearization(m, h, partial) && j < |partial|
    ensures Selection(partial[..j], |h|) && Selection(partial[..j + 1], |h|)
    ensures var step := StepOf(m, h, StateAfter(m, Select(h, partial[..j])), partial[j]);
      step.0 && step.1 == StateAfter(m, Select(h, partial[..j + 1]))
  {
    PrefixPartial(m, h, partial, j + 1);
    var p := partial[..j + 1];
    assert p[..|p| - 1] == partial[..j];
    LastMove(m, h, p);
  }

  lemma {:induction false} PrefixPartial<S, I, O>(m: Model<S, I, O>, h: History<I, O>, partial: seq<nat>, j: nat)
    requires PartialLinearization(m, h, partial) && j <= |partial|
    ensures PartialLinearization(m, h, partial[..j])
    decreases |partial|
  {
    if j == |partial| {
      assert partial[..j] == partial;
    } else {
      LastMove(m, h, partial);
      var q := partial[..|partial| - 1];
      assert q[..j] == partial[..j];
      PrefixPartial(m, h, q, j);
    }
  }

  /** One partial linearization, replayed. The original panics when a step is refused; here that
      branch is proved dead. */
  method Replay<S, I, O>(m: Model<S, I, O>, ghost h: History<I, O>, calls: map<nat, I>, rets: map<nat, O>, partial: seq<nat>)
      returns (steps: seq<Step<S>>)
    requires ValuesOf(h, calls, rets) && PartialLinearization(m, h, partial)
    ensures Replayed(m, h, partial, steps)
  {
    steps := [];
    var state := m.init;
    for j := 0 to |partial|
      invariant Selection(partial[..j], |h|) && state == StateAfter(m, Select(h, partial[..j]))
      invariant |steps| == j && forall k :: 0 <= k < j ==> Shows(m, h, partial, k, steps[k])
    {
      NextAccepted(m, h, partial, j);
      var id := partial[j];
      var step := m.step(state, calls[id], rets[id]);
      if !step.0 {
        assert false;
      }
      state := step.1;
      steps := steps + [Step(id, state)];
    }
  }

  /** Among the first n sequences, the index shown for an operation is that of the first longest one containing it. */
  ghost predicate PicksLargest(partials: seq<seq<nat>>, n: nat, largest: map<nat, nat>) {
    && n <= |partials|
    && (forall id :: id in largest ==> largest[id] < n && id in partials[largest[id]])
    && (forall i :: 0 <= i < n ==> Beaten(partials, partials[i], |partials[i]|, largest))
    && (forall id :: id in largest ==> FirstBest(partials, id, largest[id]))
  }

  /** Every earlier sequence with the operation is shorter. */
  ghost predicate FirstBest(partials: seq<seq<nat>>, id: nat, best: nat) {
    best < |partials| && forall k :: 0 <= k < best && id in partials[k] ==> |partials[k]| < |partials[best]|
  }

  lemma NewBest(partials: seq<seq<nat>>, i: nat, largest: map<nat, nat>, id: nat)
    requires i < |partials| && forall k :: 0 <= k < i ==> Beaten(partials, partials[k], |partials[k]|, largest)
    requires id in largest ==> largest[id] < |partials| && |partials[largest[id]]| < |partials[i]|
    ensures FirstBest(partials, id, i)
  {
    forall k | 0 <= k < i && id in partials[k] ensures |partials[k]| < |partials[i]| {
      assert Beaten(partials, partials[k], |partials[k]|, largest);
      var j :| 0 <= j < |partials[k]| && partials[k][j] == id;
    }
  }

  /** Each of these operations is shown in a sequence of at least n operations. */
  ghost predicate Beaten(partials: seq<seq<nat>>, ids: seq<nat>, n: nat, largest: map<nat, nat>) {
    forall j :: 0 <= j < |ids| ==> ids[j] in largest && largest[ids[j]] < |partials| && n <= |partials[largest[ids[j]]]|
  }

  lemma BeatenStays(partials: seq<seq<nat>>, ids: seq<nat>, n: nat, largest: map<nat, nat>, id: nat, i: nat)
    requires Beaten(partials, ids, n, largest) && i < |partials|
    requires id in largest ==> largest[id] < |partials| && |partials[largest[id]]| < |partials[i]|
    ensures Beaten(partials, ids, n, largest[id := i])
  {
  }

  /** Scan the sequences, longest first; an operation keeps the first index that beats its best so far. */
  method PickLargest(partials: seq<seq<nat>>) returns (largest: map<nat, nat>)
    ensures PicksLargest(partials, |partials|, largest)
  {
    hide Beaten, FirstBest;
    largest := map[];
    for i := 0 to |partials|
      invariant PicksLargest(partials, i, largest)
    {
      var partial := partials[i];
      NothingBeaten(partials, largest);
      for j := 0 to |partial|
        invariant forall id :: id in largest ==> largest[id] <= i && id in partials[largest[id]]
        invariant forall k :: 0 <= k < i ==> Beaten(partials, partials[k], |partials[k]|, largest)
        invariant Beaten(partials, partial[..j], |partial|, largest)
        invariant forall id :: id in largest ==> FirstBest(partials, id, largest[id])
      {
        var id := partial[j];
        if id !in largest || |partials[largest[id]]| < |partial| {
          forall k | 0 <= k < i ensures Beaten(partials, partials[k], |partials[k]|, largest[id := i]) {
            BeatenStays(partials, partials[k], |partials[k]|, largest, id, i);
          }
          BeatenStays(partials, partial[..j], |partial|, largest, id, i);
          NewBest(partials, i, largest, id);
          largest := largest[id := i];
        }
        BeatenSnoc(partials, partial, j, largest);
      }
      assert partial[..|partial|] == partial;
    }
  }

  lemma NothingBeaten(partials: seq<seq<nat>>, largest: map<nat, nat>)
    ensures forall n :: Beaten(partials, [], n, largest)
  {
  }

  lemma BeatenSnoc(partials: seq<seq<nat>>, partial: seq<nat>, j: nat, largest: map<nat, nat>)
    requires j < |partial| && Beaten(partials, partial[..j], |partial|, largest)
    requires partial[j] in largest && largest[partial[j]] < |partials| && |partial| <= |partials[largest[partial[j]]]|
    ensures Beaten(partials, partial[..j + 1], |partial|, largest)
  {
    assert partial[..j + 1] == partial[..j] + [partial[j]];
  }

  /** The visualization data of one partition. */
  method ComputeVisualization<S, I(!new), O(!new)>(m: Model<S, I, O>, describe: (I, O) -> string, es: seq<Entry<I, O>>,
                                                    partials: seq<seq<nat>>, ghost complete: bool)
      returns (elements: seq<Element>, sorted: seq<seq<nat>>, linearizations: seq<seq<Step<S>>>, largest: map<nat, nat>)
    requires WellFormed(es) && Informative(m, OpsOf(es), partials, complete)
    ensures Drawn(es, describe, elements)
    ensures multiset(sorted) == multiset(partials) && SortedBy(Longer, sorted)
    ensures |linearizations| == |sorted|
    ensures forall i :: 0 <= i < |sorted| ==>
      PartialLinearization(m, OpsOf(es), sorted[i]) && Replayed(m, OpsOf(es), sorted[i], linearizations[i])
    ensures PicksLargest(sorted, |sorted|, largest)
  {
    hide WellFormed, OpsOf, ShowsLongest, SortedBy, Replayed, PicksLargest, Drawn;
    var calls, rets;
    elements, calls, rets := CollectValues(es, describe);
    LongerOrder();
    sorted := Sort(Longer, partials);
    SortedInformative(m, OpsOf(es), partials, sorted);
    linearizations := [];
    for i := 0 to |sorted|
      invariant |linearizations| == i
      invariant forall k :: 0 <= k < i ==> Replayed(m, OpsOf(es), sorted[k], linearizations[k])
    {
      var steps := Replay(m, OpsOf(es), calls, rets, sorted[i]);
      linearizations := linearizations + [steps];
    }
    largest := PickLargest(sorted);
  }

  lemma SortedInformative<S, I, O>(m: Model<S, I, O>, h: History<I, O>, partials: seq<seq<nat>>, sorted: seq<seq<nat>>)
    requires forall p :: p in partials ==> PartialLinearization(m, h, p)
    requires multiset(sorted) == multiset(partials)
    ensures forall i :: 0 <= i < |sorted| ==> PartialLinearization(m, h, sorted[i])
  {
    forall i | 0 <= i < |sorted| ensures sorted[i] in partials {
      assert sorted[i] in multiset(sorted);
    }
  }

  lemma LongerOrder()
    ensures StrictWeakOrder(Longer)
  {
  }

  /** When the search was not cut short, the sequence shown for an operation is as long as any
      partial linearization that contains it. */
  lemma ShownIsLongest<S, I, O>(m: Model<S, I, O>, h: History<I, O>, partials: seq<seq<nat>>, sorted: seq<seq<nat>>,
                                largest: map<nat, nat>, id: nat, p: seq<nat>)
    requires Informative(m, h, partials, true) && multiset(sorted) == multiset(partials) && PicksLargest(sorted, |sorted|, largest)
    requires PartialLinearization(m, h, p) && id in p
    ensures id in largest && largest[id] < |sorted| && id in sorted[largest[id]]
    ensures PartialLinearization(m, h, sorted[largest[id]]) && |p| <= |sorted[largest[id]]|
  {
    assert Displayed(partials, id, |p|);
    var q :| q in partials && id in q && |p| <= |q|;
    assert q in multiset(sorted);
    var i :| 0 <= i < |sorted| && sorted[i] == q;
    assert Beaten(sorted, sorted[i], |sorted[i]|, largest);
    SortedInformative(m, h, partials, sorted);
  }
}
