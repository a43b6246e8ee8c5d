/** The searches and the receiving loop of `checkParallel` as concurrent steps: why a result that the
    loop receives never comes from a search that was cut short. */
module ParallelRuns {
  import opened Parallel

  /** Where one partition's goroutine is: still searching, its result in the channel, received by the loop, or received
      and dropped after it. */
  datatype Part = Searching | Sent(result: bool) | Taken(result: bool) | Dropped(result: bool)

  datatype State = State(parts: seq<Part>, kill: bool, ok: bool, timedOut: bool, count: nat, looping: bool)

  /** `linearizable` is the truth about each partition; `computeInfo` and `timeout` are the call's arguments. */
  datatype Call = Call(linearizable: seq<bool>, computeInfo: bool, timeout: bool)

  ghost predicate Init(c: Call, s: State) {
    s == State(seq(|c.linearizable|, i => Searching), false, true, false, 0, true)
  }

  /** A search ends. One that never saw the kill flag set is exact; in any case it answers true
      only for a linearizable partition. */
  ghost predicate Finish(c: Call, s: State, s': State, i: nat, r: bool) {
    && i < |s.parts| == |c.linearizable| && s.parts[i].Searching?
    && (r ==> c.linearizable[i]) && (!s.kill ==> r == c.linearizable[i])
    && s' == s.(parts := s.parts[i := Sent(r)])
  }

  /** The loop receives a result. */
  ghost predicate Receive(c: Call, s: State, s': State, i: nat) {
    && s.looping && i < |s.parts| && s.parts[i].Sent?
    && var ok := s.ok && s.parts[i].result;
       var stop := !ok && !c.computeInfo;
       s' == State(s.parts[i := Taken(s.parts[i].result)], s.kill || stop, ok, s.timedOut, s.count + 1,
                   !stop && s.count + 1 < |s.parts|)
  }

  ghost predicate Timeout(c: Call, s: State, s': State) {
    s.looping && c.timeout && s' == s.(timedOut := true, kill := true, looping := false)
  }

  /** After the loop, with computeInfo, the remaining results are received and dropped. */
  ghost predicate Drop(c: Call, s: State, s': State, i: nat) {
    && !s.looping && c.computeInfo && i < |s.parts| && s.parts[i].Sent?
    && s' == s.(parts := s.parts[i := Dropped(s.parts[i].result)], count := s.count + 1)
  }

  ghost predicate Next(c: Call, s: State, s': State) {
    || (exists i, r :: Finish(c, s, s', i, r))
    || (exists i :: Receive(c, s, s', i))
    || Timeout(c, s, s')
    || (exists i :: Drop(c, s, s', i))
  }

  ghost predicate Run(c: Call, run: seq<State>) {
    && run != [] && Init(c, run[0])
    && forall k :: 0 <= k < |run| - 1 ==> Next(c, run[k], run[k + 1])
  }

  function VerdictOf(s: State): CheckResult {
    if !s.ok then Illegal else if s.timedOut then Unknown else Ok
  }

  ghost function NotTaken(parts: seq<Part>): set<nat> {
    set i: nat | i < |parts| && !parts[i].Taken?
  }

  /** All partitions whose results the loop received are linearizable. */
  ghost predicate TakenFine(c: Call, s: State)
    requires |s.parts| == |c.linearizable|
  {
    forall i :: 0 <= i < |s.parts| && s.parts[i].Taken? ==> c.linearizable[i]
  }

  /** While the loop runs no search has been told to stop, so every result so far is exact. */
  ghost predicate Inv(c: Call, s: State) {
    && |s.parts| == |c.linearizable|
    && (s.looping ==> !s.kill && !s.timedOut)
    && (s.looping ==> forall i :: 0 <= i < |s.parts| && !s.parts[i].Searching? ==> s.parts[i].result == c.linearizable[i])
    && (s.looping ==> s.count + |NotTaken(s.parts)| == |s.parts|)
    && (s.ok <==> TakenFine(c, s))
    && (!s.looping && s.ok && !s.timedOut ==> forall i :: 0 <= i < |s.parts| ==> c.linearizable[i])
    && (s.timedOut ==> c.timeout && (s.ok || c.computeInfo))
    && (s.looping ==> s.ok || c.computeInfo)
    && (s.looping && s.count == |s.parts| ==> s.parts == [])
  }

  lemma TakeOne(parts: seq<Part>, i: nat, p: Part)
    requires i < |parts| && !parts[i].Taken? && p.Taken?
    ensures |NotTaken(parts[i := p])| == |NotTaken(parts)| - 1
  {
    assert NotTaken(parts[i := p]) == NotTaken(parts) - {i};
  }

  lemma InitInv(c: Call, s: State)
    requires Init(c, s)
    ensures Inv(c, s)
  {
    AllNotTaken(s.parts);
  }

  lemma {:induction false} AllNotTaken(parts: seq<Part>)
    requires forall i :: 0 <= i < |parts| ==> parts[i].Searching?
    ensures |NotTaken(parts)| == |parts|
  {
    if parts != [] {
      var n := |parts| - 1;
      AllNotTaken(parts[..n]);
      assert NotTaken(parts) == NotTaken(parts[..n]) + {n};
    }
  }

  lemma NextInv(c: Call, s: State, s': State)
    requires Inv(c, s) && Next(c, s, s')
    ensures Inv(c, s')
  {
    if i: nat, r :| Finish(c, s, s', i, r) {
      assert NotTaken(s'.parts) == NotTaken(s.parts);
    } else if i: nat :| Receive(c, s, s', i) {
      TakeOne(s.parts, i, s'.parts[i]);
      ReceiveInv(c, s, s', i);
    }
  }

  lemma ReceiveInv(c: Call, s: State, s': State, i: nat)
    requires Inv(c, s) && Receive(c, s, s', i)
    requires |NotTaken(s'.parts)| == |NotTaken(s.parts)| - 1
    ensures Inv(c, s')
  {
    assert s.parts[i].result == c.linearizable[i];
    if s'.ok && !s'.looping {
      assert NotTaken(s'.parts) == {};
      forall j: nat | j < |s'.parts| ensures c.linearizable[j] {
        assert j !in NotTaken(s'.parts);
      }
    }
  }

  /** Whatever the interleaving: Illegal exactly if the loop received the result of a partition that is not linearizable,
      Unknown exactly if it timed out without one, and Ok only if every partition is linearizable. */
  lemma {:induction false} VerdictIsExact(c: Call, run: seq<State>)
    requires Run(c, run)
    ensures Inv(c, run[|run| - 1])
    ensures var s := run[|run| - 1];
      !s.looping ==>
        && |s.parts| == |c.linearizable|
        && (VerdictOf(s) == Ok ==> forall i :: 0 <= i < |c.linearizable| ==> c.linearizable[i])
        && (VerdictOf(s) == Illegal <==> !TakenFine(c, s))
        && (VerdictOf(s) == Unknown <==> s.timedOut && TakenFine(c, s))
        && (s.timedOut ==> c.timeout && (c.computeInfo || VerdictOf(s) == Unknown))
    decreases |run|
  {
    if |run| == 1 {
      InitInv(c, run[0]);
    } else {
      var n := |run| - 1;
      VerdictIsExact(c, run[..n]);
      NextInv(c, run[n - 1], run[n]);
    }
  }

  /** With no partitions and no timeout the loop waits for ever: no step leaves its start. */
  lemma NoPartitionsNeverReturns(c: Call, s: State)
    requires Init(c, s) && c.linearizable == [] && !c.timeout
    ensures s.looping && forall s' :: !Next(c, s, s')
  {
  }
}
