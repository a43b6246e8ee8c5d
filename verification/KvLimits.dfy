/** What happens when a copy of a write arrives after the write's Clear: it is applied again, and that is exactly when
    exactly-once fails. */
module KvLimits {
  import opened Linearizability
  import opened Permutations
  import opened KvModels
  import opened Locality
  import opened KvServer
  import opened KvProtocol

  // ---- one step ----

  /** A copy of a write leaves the server as it is if and only if the write is still in its table. */
  lemma StaleUnchangedIff(s: System, id: int)
    requires Can(s, Stale(id)) && !IsGet(s.calls[id].input)
    ensures Take(s, Stale(id)).server == s.server <==> id in s.server.cache
  {
    hide Without;
    var s' := Take(s, Stale(id));
    assert id in s'.server.cache;
  }

  /** In a state that a run without late copies reaches, the next copy of a write keeps exactly-once if and only if the
      write's Clear has not been handled. */
  lemma StaleKeepsIff(s: System, id: int)
    requires Inv(s) && Can(s, Stale(id)) && !IsGet(s.calls[id].input)
    ensures Inv(Take(s, Stale(id))) <==> id !in s.cleared
    ensures Distinct(Take(s, Stale(id)).effects) <==> id !in s.cleared
  {
    hide Inv, Distinct, Take;
    if id !in s.cleared {
      TakeKeeps(s, Stale(id));
      InvDistinct(Take(s, Stale(id)));
    } else {
      LateDoubles(s, id);
      DoubledNotDistinct(Take(s, Stale(id)).effects);
      if Inv(Take(s, Stale(id))) {
        InvDistinct(Take(s, Stale(id)));
      }
    }
  }

  lemma InvDistinct(s: System)
    requires Inv(s)
    ensures Distinct(s.effects)
  {
  }

  // ---- whole runs ----

  /** Some write has two effects. */
  ghost predicate Doubled(effects: seq<Effect>) {
    exists i, j :: 0 <= i < j < |effects| && effects[i].id == effects[j].id && !IsGet(effects[i].input)
  }

  /** Effects are effects of their calls. */
  ghost predicate Consistent(s: System) {
    forall k :: 0 <= k < |s.effects| ==> s.effects[k].id in s.calls && s.effects[k].input == s.calls[s.effects[k].id].input
  }

  lemma DoubledNotDistinct(effects: seq<Effect>)
    requires Doubled(effects)
    ensures !Distinct(effects)
  {
  }

  /** A copy that comes after its Clear is a second effect. */
  lemma LateDoubles(s: System, id: int)
    requires Inv(s) && Can(s, Stale(id)) && !IsGet(s.calls[id].input) && id in s.cleared
    ensures Doubled(Take(s, Stale(id)).effects)
  {
    hide Replays, After, SameStore, Known, HandlePut, HandleAppend, Without;
    assert CallOk(s, id);
    var k :| 0 <= k < |s.effects| && s.effects[k].id == id;
    assert EffectOf(s, k);
    var effects := Take(s, Stale(id)).effects;
    assert effects[k].id == effects[|s.effects|].id;
  }

  lemma ConsistentKept(s: System, a: Step)
    requires Consistent(s) && Can(s, a)
    ensures Consistent(Take(s, a))
  {
    hide Serve;
  }

  lemma DoubledRest(effects: seq<Effect>, i: nat, j: nat, k: nat)
    requires i < j < |effects| && effects[i].id == effects[j].id && !IsGet(effects[i].input) && k < |effects| && k != i && k != j
    ensures Doubled(Remove(effects, k))
  {
    var rest := Remove(effects, k);
    var i', j' := if i < k then i else i - 1, if j < k then j else j - 1;
    assert rest[i'] == effects[i] && rest[j'] == effects[j];
  }

  lemma DoubledMore(a: seq<Effect>, b: seq<Effect>)
    requires Doubled(a) && a <= b
    ensures Doubled(b)
  {
    var i, j :| 0 <= i < j < |a| && a[i].id == a[j].id && !IsGet(a[i].input);
    assert b[i] == a[i] && b[j] == a[j];
  }

  /** No later step takes a doubled effect back. */
  lemma DoubledKept(s: System, a: Step)
    requires Consistent(s) && Can(s, a) && Doubled(s.effects)
    ensures Doubled(Take(s, a).effects)
  {
    hide Serve, Remove;
    var effects := Take(s, a).effects;
    if a.LoseReply? && IsGet(s.calls[a.id].input) && Took(s.effects, a.id) {
      var i, j :| 0 <= i < j < |s.effects| && s.effects[i].id == s.effects[j].id && !IsGet(s.effects[i].input);
      var k :| 0 <= k < |s.effects| && s.effects[k].id == a.id && effects == Remove(s.effects, k);
      assert s.effects[j].input == s.effects[i].input;
      DoubledRest(s.effects, i, j, k);
    } else {
      DoubledMore(s.effects, effects);
    }
  }

  lemma {:induction false} TimelyOrDoubled(run: seq<System>, steps: seq<Step>, n: nat)
    requires Run(run, steps) && n < |run|
    ensures Consistent(run[n])
    ensures (forall k :: 0 <= k < n ==> Timely(run[k], steps[k])) || Doubled(run[n].effects)
  {
    hide Take, Can, Timely, Doubled;
    if n > 0 {
      var s, a := run[n - 1], steps[n - 1];
      TimelyOrDoubled(run, steps, n - 1);
      assert run[n - 1 + 1] == Take(s, a);
      ConsistentKept(s, a);
      if forall k :: 0 <= k < n - 1 ==> Timely(run[k], steps[k]) {
        RunKeeps(run, steps, n - 1);
        LateOrTimely(s, a);
      } else {
        DoubledKept(s, a);
      }
    }
  }

  lemma LateOrTimely(s: System, a: Step)
    requires Inv(s) && Can(s, a)
    ensures Timely(s, a) || Doubled(Take(s, a).effects)
  {
    hide Inv, Take, Doubled;
    if !Timely(s, a) {
      LateDoubles(s, a.id);
    }
  }

  /** Over whole runs: no write has taken effect twice if and only if no copy of a write has arrived after its Clear. */
  lemma OnceIffTimely(run: seq<System>, steps: seq<Step>)
    requires Run(run, steps)
    ensures Distinct(run[|run| - 1].effects) <==> TimelyRun(run, steps)
  {
    hide Run, Distinct, Doubled, Inv;
    RunLength(run, steps);
    var n := |run| - 1;
    TimelyOrDoubled(run, steps, n);
    if TimelyRun(run, steps) {
      TimelyKeeps(run, steps, n);
      InvDistinct(run[n]);
    } else {
      DoubledNotDistinct(run[n].effects);
    }
  }

  lemma RunLength(run: seq<System>, steps: seq<Step>)
    requires Run(run, steps)
    ensures |run| == |steps| + 1
  {
  }

  // ---- a run that is not linearizable ----

  ghost predicate Reachable(s: System) {
    exists run, steps :: Run(run, steps) && run[|run| - 1] == s
  }

  lemma Go(s: System, a: Step)
    requires Reachable(s) && Can(s, a)
    ensures Reachable(Take(s, a))
  {
    hide Can, Take, Start;
    var run, steps :| Run(run, steps) && run[|run| - 1] == s;
    var run', steps' := run + [Take(s, a)], steps + [a];
    assert Run(run', steps');
  }

  lemma RunTo(s: System) returns (run: seq<System>, steps: seq<Step>)
    requires Reachable(s)
    ensures Run(run, steps) && run[|run| - 1] == s
  {
    run, steps :| Run(run, steps) && run[|run| - 1] == s;
  }

  /** A put from beginning to end. */
  lemma FullPut(s: System, id: int, key: string, value: string) returns (s': System)
    requires Reachable(s) && id !in s.calls && id !in s.server.cache
    ensures Reachable(s') && s'.clock == s.clock + 5 && s'.server == Server(s.server.data[key := value], s.server.cache)
    ensures s'.calls == s.calls[id := Call(KvInput(1, key, value), s.clock, Done(Lookup(s.server.data, key), s.clock + 4))]
  {
    hide Reachable, Without;
    var input := KvInput(1, key, value);
    Go(s, Begin(id, input));
    var s1 := Take(s, Begin(id, input));
    Go(s1, Handle(id));
    var s2 := Take(s1, Handle(id));
    Go(s2, Receive(id));
    var s3 := Take(s2, Receive(id));
    Go(s3, HandleTheClear(id));
    var s4 := Take(s3, HandleTheClear(id));
    Go(s4, ReceiveCleared(id));
    s' := Take(s4, ReceiveCleared(id));
    assert s'.server.cache == s.server.cache;
  }

  /** A get from beginning to end. */
  lemma FullGet(s: System, id: int, key: string) returns (s': System)
    requires Reachable(s) && id !in s.calls
    ensures Reachable(s') && s'.clock == s.clock + 3 && s'.server == s.server
    ensures s'.calls == s.calls[id := Call(KvInput(0, key, ""), s.clock, Done(Lookup(s.server.data, key), s.clock + 2))]
  {
    hide Reachable, Without;
    var input := KvInput(0, key, "");
    Go(s, Begin(id, input));
    var s1 := Take(s, Begin(id, input));
    Go(s1, Handle(id));
    var s2 := Take(s1, Handle(id));
    Go(s2, Receive(id));
    s' := Take(s2, Receive(id));
  }

  lemma LateCopy(s: System, id: int) returns (s': System)
    requires Reachable(s) && id in s.calls && s.calls[id].input.op == 1 && id !in s.server.cache
    ensures Reachable(s') && s'.clock == s.clock + 1 && s'.calls == s.calls
    ensures s'.server.data == s.server.data[s.calls[id].input.key := s.calls[id].input.value]
  {
    hide Reachable, Without;
    Go(s, Stale(id));
    s' := Take(s, Stale(id));
    assert s'.calls == s.calls;
  }

  lemma Increasing(h: KvHistory, t: KvHistory, p: seq<nat>, i: nat, j: nat)
    requires |h| == 3 && Precedes(h[0], h[1]) && Precedes(h[1], h[2]) && Precedes(h[0], h[2])
    requires Permutation(p, 3) && t == Select(h, p) && RespectsRealTime(t) && i < j < 3
    ensures p[i] < p[j] < 3
  {
    assert t[i] == h[p[i]] && t[j] == h[p[j]] && !Precedes(t[j], t[i]);
  }

  /** Operations one after the other have only one order. */
  lemma OneOrder(h: KvHistory, t: KvHistory)
    requires |h| == 3 && Precedes(h[0], h[1]) && Precedes(h[1], h[2]) && Precedes(h[0], h[2])
    requires multiset(t) == multiset(h) && RespectsRealTime(t)
    ensures t == h
  {
    var p := FindPermutation(t, h);
    Increasing(h, t, p, 0, 1);
    Increasing(h, t, p, 1, 2);
    assert p[0] == 0 && p[1] == 1 && p[2] == 2;
  }

  const HISTORY: KvHistory :=
    [Operation(1, KvInput(1, "k", "a"), 0, KvOutput(""), 4), Operation(2, KvInput(1, "k", "b"), 5, KvOutput("a"), 9),
     Operation(3, KvInput(0, "k", ""), 11, KvOutput("a"), 13)]

  lemma NotLinearizable()
    ensures !Linearizable(MapModel, HISTORY)
  {
    hide Accepts;
    forall t ensures !Linearizes(MapModel, HISTORY, t) {
      if Linearizes(MapModel, HISTORY, t) {
        OneOrder(HISTORY, t);
        Refused();
      }
    }
  }

  lemma Refused()
    ensures !Accepts(MapModel, map[], HISTORY)
  {
    var h := HISTORY;
    var a, b: Store := map["k" := "a"], map["k" := "b"];
    assert MapModel.step(map[], h[0].input, h[0].output).1 == a;
    assert MapModel.step(a, h[1].input, h[1].output).1 == b;
    assert Lookup(b, "k") == "b" && "b"[0] != "a"[0];
    assert !MapModel.step(b, h[2].input, h[2].output).0;
    assert h[1..][0] == h[1] && h[1..][1..][0] == h[2];
    assert !Accepts(MapModel, b, h[1..][1..]);
    assert !Accepts(MapModel, a, h[1..]);
  }

  /** A put, a later put of the same key, a copy of the first put, a get: the get returns what was overwritten before
      the get began. Every call has returned and the history is not linearizable. */
  lemma LateCopyBreaksLinearizability() returns (run: seq<System>, steps: seq<Step>)
    ensures Run(run, steps) && Logged(run[|run| - 1], [1, 2, 3], HISTORY) && !Linearizable(MapModel, HISTORY)
  {
    hide Run, Take, Can, Linearizable;
    var s0 := System(Server(map[], map[]), map[], 0, [], {});
    Begins(s0);
    var s1 := FullPut(s0, 1, "k", "a");
    var s2 := FullPut(s1, 2, "k", "b");
    var s3 := LateCopy(s2, 1);
    var s4 := FullGet(s3, 3, "k");
    run, steps := RunTo(s4);
    NotLinearizable();
    FinalLog(s4);
  }

  lemma Begins(s: System)
    requires Start(s)
    ensures Reachable(s)
  {
    var run, steps: seq<Step> := [s], [];
    assert Run(run, steps) && run[|run| - 1] == s;
  }

  lemma FinalLog(s: System)
    requires s.calls == map[1 := Call(KvInput(1, "k", "a"), 0, Done("", 4)), 2 := Call(KvInput(1, "k", "b"), 5, Done("a", 9)),
                            3 := Call(KvInput(0, "k", ""), 11, Done("a", 13))]
    ensures Logged(s, [1, 2, 3], HISTORY)
  {
    forall k | 0 <= k < 3 ensures Returned(s, [1, 2, 3][k], HISTORY[k]) {
    }
  }
}
