/** `checkParallel`: one search per partition, results arriving in any order, possibly cut by a timeout. */
module Parallel {
  import opened Linearizability
  import opened Permutations
  import opened Entries
  import opened Search
  import opened SearchState
  import opened Checker

  datatype CheckResult = Unknown | Ok | Illegal

  /** The search of partition i never sees the kill flag set. */
  ghost predicate NeverCut(late: nat -> nat -> bool, i: nat) {
    forall n :: !late(i)(n)
  }

  type Histories<I, O> = seq<seq<Entry<I, O>>>

  ghost predicate AllWellFormed<I, O>(history: Histories<I, O>) {
    forall i :: 0 <= i < |history| ==> WellFormed(history[i])
  }

  ghost predicate PartLinearizable<S, I(!new), O(!new)>(m: Model<S, I, O>, history: Histories<I, O>, i: nat)
    requires AllWellFormed(history) && i < |history|
  {
    Linearizable(m, OpsOf(history[i]))
  }

  /** What the receiving loop knows: `ok` says exactly whether all results seen so far were true, and none of them is from a
      search that was cut short. */
  ghost predicate Received<S, I(!new), O(!new)>(m: Model<S, I, O>, history: Histories<I, O>, pending: set<nat>, ok: bool)
    requires AllWellFormed(history)
  {
    ok <==> forall i: nat :: i < |history| && i !in pending ==> PartLinearizable(m, history, i)
  }

  /** All partitions whose results were received are linearizable. */
  ghost predicate AllFine<S, I(!new), O(!new)>(m: Model<S, I, O>, history: Histories<I, O>, seen: set<nat>)
    requires AllWellFormed(history)
  {
    forall i: nat :: i < |history| && i in seen ==> PartLinearizable(m, history, i)
  }

  /** Recorded partial linearizations of every partition that has reported. */
  ghost predicate Logged<S, I(!new), O(!new)>(m: Model<S, I, O>, history: Histories<I, O>, pending: set<nat>,
                                              longest: seq<seq<Option<seq<nat>>>>)
    requires AllWellFormed(history)
  {
    && |longest| == |history|
    && forall i: nat :: i < |history| && i !in pending ==> Recorded(m, OpsOf(history[i]), longest[i])
  }

  /** Where no timeout cut the search: the longest ones. */
  ghost predicate AllLongest<S, I(!new), O(!new)>(m: Model<S, I, O>, history: Histories<I, O>, pending: set<nat>,
                                                  longest: seq<seq<Option<seq<nat>>>>)
    requires AllWellFormed(history) && |longest| == |history|
  {
    forall i: nat :: i < |history| && i !in pending ==> LongestPartials(m, OpsOf(history[i]), longest[i])
  }

  /** The partial linearizations handed to the visualizer: exactly those recorded, each once. */
  ghost predicate Collected(longest: seq<Option<seq<nat>>>, partials: seq<seq<nat>>) {
    && (forall p :: p in partials <==> Some(p) in longest)
    && (forall i, j :: 0 <= i < j < |partials| ==> partials[i] != partials[j])
  }

  method Collect(longest: seq<Option<seq<nat>>>) returns (partials: seq<seq<nat>>)
    ensures Collected(longest, partials)
  {
    partials := [];
    for j := 0 to |longest|
      invariant Collected(longest[..j], partials)
    {
      assert longest[..j + 1] == longest[..j] + [longest[j]];
      if longest[j].Some? && longest[j].value !in partials {
        partials := partials + [longest[j].value];
      }
    }
    assert longest[..|longest|] == longest;
  }

  /** Some recorded sequence contains operation j and has at least n operations. */
  ghost predicate Displayed(partials: seq<seq<nat>>, j: nat, n: nat) {
    exists q :: q in partials && j in q && n <= |q|
  }

  /** For every operation of the partition, one of its longest partial linearizations is among them. */
  ghost predicate ShowsLongest<S, I, O>(m: Model<S, I, O>, h: History<I, O>, partials: seq<seq<nat>>) {
    forall j: nat, p :: PartialLinearization(m, h, p) && j in p ==> Displayed(partials, j, |p|)
  }

  /** What is handed to the visualizer for one partition. */
  ghost predicate Informative<S, I, O>(m: Model<S, I, O>, h: History<I, O>, partials: seq<seq<nat>>, complete: bool) {
    && (forall p :: p in partials ==> PartialLinearization(m, h, p))
    && (forall i, j :: 0 <= i < j < |partials| ==> partials[i] != partials[j])
    && (complete ==> ShowsLongest(m, h, partials))
  }

  lemma CollectedInformative<S, I, O>(m: Model<S, I, O>, h: History<I, O>, longest: seq<Option<seq<nat>>>,
                                      partials: seq<seq<nat>>, complete: bool)
    requires Collected(longest, partials) && Recorded(m, h, longest)
    requires complete ==> LongestPartials(m, h, longest)
    ensures Informative(m, h, partials, complete)
  {
    forall p | p in partials ensures PartialLinearization(m, h, p) {
      var i :| 0 <= i < |longest| && longest[i] == Some(p);
    }
    if complete {
      forall j: nat, p | PartialLinearization(m, h, p) && j in p ensures Displayed(partials, j, |p|) {
        assert j < |h|;
        assert longest[j] == Some(longest[j].value) && longest[j] in longest;
      }
    }
  }

  /** Partition i's result arrives. */
  lemma Arrives<S, I(!new), O(!new)>(m: Model<S, I, O>, history: Histories<I, O>, pending: set<nat>, ok: bool, i: nat, r: bool)
    requires AllWellFormed(history) && Received(m, history, pending, ok) && i < |history|
    requires r <==> PartLinearizable(m, history, i)
    ensures Received(m, history, pending - {i}, ok && r)
  {
    hide PartLinearizable;
  }

  lemma Logs<S, I(!new), O(!new)>(m: Model<S, I, O>, history: Histories<I, O>, pending: set<nat>,
                                  longest: seq<seq<Option<seq<nat>>>>, i: nat, l: seq<Option<seq<nat>>>)
    requires AllWellFormed(history) && Logged(m, history, pending, longest) && i < |history|
    requires Recorded(m, OpsOf(history[i]), l)
    ensures Logged(m, history, pending - {i}, longest[i := l])
    ensures AllLongest(m, history, pending, longest) && LongestPartials(m, OpsOf(history[i]), l) ==>
      AllLongest(m, history, pending - {i}, longest[i := l])
  {
    hide Recorded, LongestPartials, WellFormed, OpsOf;
  }

  lemma StillLongest<S, I(!new), O(!new)>(m: Model<S, I, O>, history: Histories<I, O>, pending: set<nat>, cut: set<nat>,
                                          longest: seq<seq<Option<seq<nat>>>>, i: nat, l: seq<Option<seq<nat>>>)
    requires AllWellFormed(history) && |longest| == |history| && i < |history| && AllLongest(m, history, pending + cut, longest)
    requires i in cut || LongestPartials(m, OpsOf(history[i]), l)
    ensures AllLongest(m, history, (pending - {i}) + cut, longest[i := l])
  {
    hide LongestPartials, WellFormed, OpsOf;
  }

  lemma StartReceiving<S, I(!new), O(!new)>(m: Model<S, I, O>, history: Histories<I, O>, pending: set<nat>,
                                            longest: seq<seq<Option<seq<nat>>>>)
    requires AllWellFormed(history) && |longest| == |history| && pending == Below(|history|)
    ensures Received(m, history, pending, true) && Logged(m, history, pending, longest) && AllLongest(m, history, pending, longest)
  {
  }

  /** The select loop. A result received here was computed with the kill flag still 0, because only
      this loop sets it, on leaving. */
  method Receive<S(==, !new), I(!new), O(!new)>(m: Model<S, I, O>, history: Histories<I, O>, computeInfo: bool, timeout: bool)
      returns (ok: bool, timedOut: bool, longest: seq<seq<Option<seq<nat>>>>, pending: set<nat>)
    requires AllWellFormed(history)
    requires timeout || |history| > 0
    ensures pending <= Below(|history|) && |longest| == |history|
    ensures Received(m, history, pending, ok) && Logged(m, history, pending, longest)
    ensures computeInfo ==> AllLongest(m, history, pending, longest)
    ensures timedOut ==> timeout && (pending != {} || history == []) && (ok || computeInfo)
    ensures !timedOut ==> pending == {} || (!ok && !computeInfo)
  {
    hide WellFormed, PartLinearizable, Recorded, LongestPartials, OpsOf, Received, Logged, AllLongest;
    ok, timedOut := true, false;
    longest := seq(|history|, i => []);
    pending := Below(|history|);
    var count := 0;
    BelowCardinality(|history|);
    StartReceiving(m, history, pending, longest);
    while true
      invariant pending <= Below(|history|) && count + |pending| == |history| && |longest| == |history|
      invariant Received(m, history, pending, ok) && Logged(m, history, pending, longest)
      invariant computeInfo ==> AllLongest(m, history, pending, longest)
      invariant pending != {} || (timeout && history == [])
      invariant ok || computeInfo
      decreases |pending|
    {
      var fires: bool := *;
      if timeout && (pending == {} || fires) {
        timedOut := true;
        return;
      }
      var i :| i in pending;
      var r, l := CheckPart(m, history, i, computeInfo);
      Arrives(m, history, pending, ok, i, r);
      Logs(m, history, pending, longest, i, l);
      longest, pending, count := longest[i := l], pending - {i}, count + 1;
      ok := ok && r;
      if !ok && !computeInfo {
        return;
      }
      if count >= |history| {
        assert |pending| == 0 && pending == {};
        return;
      }
    }
  }

  /** One partition's search, not cut short. */
  method CheckPart<S(==, !new), I(!new), O(!new)>(m: Model<S, I, O>, history: Histories<I, O>, i: nat, computeInfo: bool)
      returns (r: bool, l: seq<Option<seq<nat>>>)
    requires AllWellFormed(history) && i < |history|
    ensures r <==> PartLinearizable(m, history, i)
    ensures Recorded(m, OpsOf(history[i]), l)
    ensures computeInfo ==> LongestPartials(m, OpsOf(history[i]), l)
  {
    hide WellFormed, Recorded, LongestPartials, OpsOf, Linearizable;
    r, l := CheckSingle(m, history[i], computeInfo, _ => false);
  }

  /** Wait for the searches still running, whose view of the kill flag is `late`, and collect what
      all of them recorded. */
  method Drain<S(==, !new), I(!new), O(!new)>(m: Model<S, I, O>, history: Histories<I, O>,
                                              received: seq<seq<Option<seq<nat>>>>, waiting: set<nat>, late: nat -> nat -> bool)
      returns (partials: seq<seq<seq<nat>>>)
    requires AllWellFormed(history) && waiting <= Below(|history|) && |received| == |history|
    requires Logged(m, history, waiting, received) && AllLongest(m, history, waiting, received)
    ensures |partials| == |history|
    ensures forall i :: 0 <= i < |history| ==> Informative(m, OpsOf(history[i]), partials[i], i !in waiting || NeverCut(late, i))
  {
    hide WellFormed, Recorded, LongestPartials, OpsOf, Logged, AllLongest, Informative, Collected, NeverCut;
    var longest, pending := received, waiting;
    ghost var cut := set i | i in waiting && !NeverCut(late, i);
    assert waiting + cut == waiting;
    while pending != {}
      invariant pending <= waiting && |longest| == |history|
      invariant Logged(m, history, pending, longest) && AllLongest(m, history, pending + cut, longest)
      decreases |pending|
    {
      var i :| i in pending;
      var _, l := CheckSingle(m, history[i], true, late(i));
      if NeverCut(late, i) {
        SeesNothing(late, i);
      }
      Logs(m, history, pending, longest, i, l);
      StillLongest(m, history, pending, cut, longest, i, l);
      longest, pending := longest[i := l], pending - {i};
    }
    assert {} + cut == cut;
    partials := CollectAll(m, history, longest, cut);
  }

  method CollectAll<S, I(!new), O(!new)>(m: Model<S, I, O>, history: Histories<I, O>, longest: seq<seq<Option<seq<nat>>>>, ghost cut: set<nat>)
      returns (partials: seq<seq<seq<nat>>>)
    requires AllWellFormed(history) && Logged(m, history, {}, longest) && AllLongest(m, history, cut, longest)
    ensures |partials| == |history| && forall i :: 0 <= i < |history| ==> Informative(m, OpsOf(history[i]), partials[i], i !in cut)
  {
    hide WellFormed, Recorded, LongestPartials, OpsOf, Informative, Collected;
    partials := [];
    for i := 0 to |history|
      invariant |partials| == i && forall k :: 0 <= k < i ==> Informative(m, OpsOf(history[k]), partials[k], k !in cut)
    {
      LoggedAt(m, history, longest, cut, i);
      var collected := Collect(longest[i]);
      CollectedInformative(m, OpsOf(history[i]), longest[i], collected, i !in cut);
      partials := partials + [collected];
    }
  }

  lemma SeesNothing(late: nat -> nat -> bool, i: nat)
    requires NeverCut(late, i)
    ensures forall n :: !late(i)(n)
  {
  }

  method CheckParallel<S(==, !new), I(!new), O(!new)>(m: Model<S, I, O>, history: Histories<I, O>, computeInfo: bool,
                                                      timeout: bool, late: nat -> nat -> bool)
      returns (result: CheckResult, partials: seq<seq<seq<nat>>>, timedOut: bool, ghost seen: set<nat>)
    requires AllWellFormed(history)
    requires timeout || |history| > 0
    ensures seen <= Below(|history|)
    ensures timedOut ==> timeout && (seen != Below(|history|) || history == [])
    ensures !timedOut ==> seen == Below(|history|) || (result == Illegal && !computeInfo)
    ensures result == Illegal <==> !AllFine(m, history, seen)
    ensures result == Unknown <==> timedOut && AllFine(m, history, seen)
    ensures timedOut && !computeInfo ==> result == Unknown
    ensures result == Ok ==> !timedOut && forall i: nat :: i < |history| ==> PartLinearizable(m, history, i)
    ensures result == Illegal ==> exists i: nat :: i < |history| && !PartLinearizable(m, history, i)
    ensures if computeInfo then |partials| == |history| else partials == []
    ensures computeInfo ==> forall i :: 0 <= i < |history| ==>
      Informative(m, OpsOf(history[i]), partials[i], i in seen || NeverCut(late, i))
  {
    hide WellFormed, PartLinearizable, OpsOf, Received, Logged, AllLongest, ShowsLongest, PartialLinearization, NeverCut, AllFine;
    var ok, longest, pending;
    ok, timedOut, longest, pending := Receive(m, history, computeInfo, timeout);
    seen := Below(|history|) - pending;
    Verdict(m, history, pending, seen, ok);
    partials := [];
    if computeInfo {
      partials := Drain(m, history, longest, pending, late);
    }
    if !ok {
      result := Illegal;
    } else if timedOut {
      result := Unknown;
    } else {
      result := Ok;
    }
  }

  lemma LoggedAt<S, I(!new), O(!new)>(m: Model<S, I, O>, history: Histories<I, O>, longest: seq<seq<Option<seq<nat>>>>,
                                      cut: set<nat>, i: nat)
    requires AllWellFormed(history) && Logged(m, history, {}, longest) && i < |history| && AllLongest(m, history, cut, longest)
    ensures |longest| == |history| && Recorded(m, OpsOf(history[i]), longest[i])
    ensures i !in cut ==> LongestPartials(m, OpsOf(history[i]), longest[i])
  {
  }

  lemma Verdict<S, I(!new), O(!new)>(m: Model<S, I, O>, history: Histories<I, O>, pending: set<nat>, seen: set<nat>, ok: bool)
    requires AllWellFormed(history) && Received(m, history, pending, ok) && pending <= Below(|history|) && seen == Below(|history|) - pending
    ensures ok <==> AllFine(m, history, seen)
    ensures ok && pending == {} ==> forall i: nat :: i < |history| ==> PartLinearizable(m, history, i)
    ensures !ok ==> exists i: nat :: i < |history| && !PartLinearizable(m, history, i)
    ensures seen == Below(|history|) <==> pending == {}
  {
    hide PartLinearizable;
  }
}
