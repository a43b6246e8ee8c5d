/** Any number of clerks calling the server concurrently over a network that loses requests and replies and
    delivers old copies late. Call numbers are never reused. As long as no copy of a write arrives after the
    write's Clear has been handled, every write takes effect exactly once and, at every moment, what has happened
    so far is linearizable; a single copy that arrives later is a second effect. */
module KvProtocol {
  import opened Linearizability
  import opened Permutations
  import opened KvModels
  import opened Locality
  import opened Search
  import opened KvServer

  // ---- calls ----

  /** Where a call stands. `Calling`: no answer yet. `Handled`: the server has answered, the reply is under way.
      A write goes on to clear its table entry before it returns. */
  datatype Phase =
    | Calling
    | Handled(reply: string)
    | Clearing(reply: string)
    | Cleared(reply: string)
    | Done(reply: string, ret: nat)

  datatype Call = Call(input: KvInput, start: nat, phase: Phase)

  /** A request that took effect, with the value it returned. */
  datatype Effect = Effect(id: int, input: KvInput, out: string)

  /** `effects` and `cleared` are history: what took effect, in that order, and the writes whose Clear has been
      handled. No step looks at them. */
  datatype System = System(server: Server, calls: map<int, Call>, clock: nat, effects: seq<Effect>, cleared: set<int>)

  predicate IsGet(input: KvInput) { input.op == 0 }

  /** The requests clerks make: get, put, and append with a return value. */
  predicate Known(input: KvInput) { input.op == 0 || input.op == 1 || input.op == 3 }

  function Serve(s: Server, input: KvInput, id: int): (Server, string) {
    if IsGet(input) then (s, Lookup(s.data, input.key))
    else if input.op == 1 then HandlePut(s, input.key, input.value, id)
    else HandleAppend(s, input.key, input.value, id)
  }

  // ---- steps ----

  datatype Step =
    | Begin(id: int, input: KvInput)
    | Handle(id: int)
    | LoseReply(id: int)
    | Receive(id: int)
    | HandleTheClear(id: int)
    | LoseClearReply(id: int)
    | ReceiveCleared(id: int)
    | Stale(id: int)       // a copy of the request, from a call that failed, is handled; its reply reaches nobody
    | StaleClear(id: int)  // likewise a copy of the Clear

  predicate Can(s: System, a: Step) {
    match a
    case Begin(id, input) => id !in s.calls && Known(input)
    case Handle(id) => id in s.calls && s.calls[id].phase.Calling?
    case LoseReply(id) => id in s.calls && s.calls[id].phase.Handled?
    case Receive(id) => id in s.calls && s.calls[id].phase.Handled?
    case HandleTheClear(id) => id in s.calls && s.calls[id].phase.Clearing?
    case LoseClearReply(id) => id in s.calls && s.calls[id].phase.Cleared?
    case ReceiveCleared(id) => id in s.calls && s.calls[id].phase.Cleared?
    case Stale(id) => id in s.calls
    case StaleClear(id) => id in s.calls && !IsGet(s.calls[id].input) && !s.calls[id].phase.Calling? && !s.calls[id].phase.Handled?
  }

  function Move(s: System, id: int, phase: Phase): System
    requires id in s.calls
  {
    s.(calls := s.calls[id := s.calls[id].(phase := phase)], clock := s.clock + 1)
  }

  ghost predicate Took(effects: seq<Effect>, id: int) {
    exists k :: 0 <= k < |effects| && effects[k].id == id
  }

  ghost function Without(effects: seq<Effect>, id: int): seq<Effect> {
    if Took(effects, id)
    then var k :| 0 <= k < |effects| && effects[k].id == id; Remove(effects, k)
    else effects
  }

  ghost function Take(s: System, a: Step): System
    requires Can(s, a)
  {
    match a
    case Begin(id, input) => s.(calls := s.calls[id := Call(input, s.clock, Calling)], clock := s.clock + 1)
    case Handle(id) =>
      var input := s.calls[id].input;
      var (server, reply) := Serve(s.server, input, id);
      var first := IsGet(input) || id !in s.server.cache;
      Move(s, id, Handled(reply)).(server := server,
                                   effects := if first then s.effects + [Effect(id, input, reply)] else s.effects)
    case Stale(id) =>
      var input := s.calls[id].input;
      var (server, reply) := Serve(s.server, input, id);
      var first := !IsGet(input) && id !in s.server.cache;
      Move(s, id, s.calls[id].phase).(server := server,
                                      effects := if first then s.effects + [Effect(id, input, reply)] else s.effects)
    case StaleClear(id) =>
      Move(s, id, s.calls[id].phase).(server := HandleClear(s.server, id), cleared := s.cleared + {id})
    case LoseReply(id) =>
      Move(s, id, Calling).(effects := if IsGet(s.calls[id].input) then Without(s.effects, id) else s.effects)
    case Receive(id) =>
      var reply := s.calls[id].phase.reply;
      if IsGet(s.calls[id].input) then Move(s, id, Done(reply, s.clock)) else Move(s, id, Clearing(reply))
    case HandleTheClear(id) =>
      Move(s, id, Cleared(s.calls[id].phase.reply)).(server := HandleClear(s.server, id), cleared := s.cleared + {id})
    case LoseClearReply(id) => Move(s, id, Clearing(s.calls[id].phase.reply))
    case ReceiveCleared(id) => Move(s, id, Done(s.calls[id].phase.reply, s.clock))
  }

  ghost predicate Start(s: System) {
    s == System(Server(map[], map[]), map[], 0, [], {})
  }

  ghost predicate Run(run: seq<System>, steps: seq<Step>) {
    && |run| == |steps| + 1 && Start(run[0])
    && forall k :: 0 <= k < |steps| ==> Can(run[k], steps[k]) && run[k + 1] == Take(run[k], steps[k])
  }

  /** Not a copy of a write that has been cleared. */
  predicate Timely(s: System, a: Step) {
    a.Stale? && a.id in s.calls && !IsGet(s.calls[a.id].input) ==> a.id !in s.cleared
  }

  ghost predicate TimelyRun(run: seq<System>, steps: seq<Step>) {
    Run(run, steps) && forall k :: 0 <= k < |steps| ==> Timely(run[k], steps[k])
  }

  // ---- effects as a sequential run ----

  ghost function After(effects: seq<Effect>): Store {
    if effects == [] then map[]
    else
      var e := effects[|effects| - 1];
      MapStep(After(effects[..|effects| - 1]), e.input, KvOutput(e.out)).1
  }

  /** Every effect returned the value its key had just before. */
  ghost predicate Replays(effects: seq<Effect>) {
    effects == [] ||
    var n := |effects| - 1;
    Replays(effects[..n]) && effects[n].out == Lookup(After(effects[..n]), effects[n].input.key)
  }

  ghost predicate SameStore(a: Store, b: Store) {
    forall k :: Lookup(a, k) == Lookup(b, k)
  }

  lemma AfterSnoc(effects: seq<Effect>, e: Effect)
    ensures After(effects + [e]) == MapStep(After(effects), e.input, KvOutput(e.out)).1
    ensures Replays(effects + [e]) <==> Replays(effects) && e.out == Lookup(After(effects), e.input.key)
  {
    assert (effects + [e])[..|effects|] == effects;
  }

  lemma StepSame(a: Store, b: Store, input: KvInput, out: KvOutput)
    requires SameStore(a, b)
    ensures SameStore(MapStep(a, input, out).1, MapStep(b, input, out).1)
    ensures IsGet(input) ==> SameStore(MapStep(a, input, out).1, a)
  {
    assert Lookup(a, input.key) == Lookup(b, input.key);
    var a', b' := MapStep(a, input, out).1, MapStep(b, input, out).1;
    forall k ensures Lookup(a', k) == Lookup(b', k) {
      assert Lookup(a, k) == Lookup(b, k);
    }
  }

  /** A read can be dropped from the run. */
  lemma {:induction false} DropRead(effects: seq<Effect>, k: nat)
    requires Replays(effects) && k < |effects| && IsGet(effects[k].input)
    ensures Replays(Remove(effects, k)) && SameStore(After(Remove(effects, k)), After(effects))
    decreases |effects|
  {
    hide MapStep, Lookup;
    var n := |effects| - 1;
    var front, e := effects[..n], effects[n];
    if k == n {
      assert Remove(effects, k) == front;
      StepSame(After(front), After(front), e.input, KvOutput(e.out));
    } else {
      DropRead(front, k);
      var rest := Remove(front, k);
      assert Remove(effects, k) == rest + [e];
      AfterSnoc(rest, e);
      assert Lookup(After(rest), e.input.key) == Lookup(After(front), e.input.key);
      StepSame(After(rest), After(front), e.input, KvOutput(e.out));
    }
  }

  // ---- the invariant ----

  ghost predicate EffectOf(s: System, k: nat)
    requires k < |s.effects|
  {
    var e := s.effects[k];
    && e.id in s.calls && s.calls[e.id].input == e.input && s.calls[e.id].start < s.clock
    && (IsGet(e.input) || (e.id in s.cleared <==> e.id !in s.server.cache))
    && (e.id in s.server.cache ==> s.server.cache[e.id] == e.out)
    && PhaseOf(s, e)
  }

  /** What the call's phase says about an effect of the call. */
  ghost predicate PhaseOf(s: System, e: Effect)
    requires e.id in s.calls
  {
    match s.calls[e.id].phase
    case Calling => !IsGet(e.input) && e.id !in s.cleared
    case Handled(r) => r == e.out && e.id !in s.cleared
    case Clearing(r) => r == e.out && !IsGet(e.input)
    case Cleared(r) => r == e.out && !IsGet(e.input) && e.id in s.cleared
    case Done(r, ret) => r == e.out && (IsGet(e.input) || e.id in s.cleared) && s.calls[e.id].start <= ret < s.clock
  }

  /** A call past the server's answer has taken effect. */
  ghost predicate CallOk(s: System, id: int)
    requires id in s.calls
  {
    && Known(s.calls[id].input) && s.calls[id].start < s.clock
    && (!s.calls[id].phase.Calling? ==> Took(s.effects, id))
    && (!Took(s.effects, id) ==> id !in s.server.cache && id !in s.cleared)
  }

  /** Nothing that took effect earlier was begun after something that took effect later had returned. */
  ghost predicate InTime(s: System) {
    forall i, j :: 0 <= i < j < |s.effects| && s.effects[i].id in s.calls && s.effects[j].id in s.calls ==>
      s.calls[s.effects[j].id].phase.Done? ==> s.calls[s.effects[i].id].start <= s.calls[s.effects[j].id].phase.ret
  }

  ghost predicate Distinct(effects: seq<Effect>) {
    forall i, j :: 0 <= i < j < |effects| ==> effects[i].id != effects[j].id
  }

  ghost predicate CallsOk(s: System) {
    && (forall k :: 0 <= k < |s.effects| ==> EffectOf(s, k))
    && (forall id :: id in s.calls ==> CallOk(s, id))
    && (forall id :: id in s.server.cache || id in s.cleared ==> id in s.calls && !IsGet(s.calls[id].input))
  }

  ghost predicate StoreOk(s: System) {
    Replays(s.effects) && SameStore(s.server.data, After(s.effects))
  }

  ghost predicate Inv(s: System) {
    CallsOk(s) && Distinct(s.effects) && StoreOk(s) && InTime(s)
  }

  /** A step that changes one call's phase, and of table and history at most what concerns that call. */
  ghost predicate ChangesPhase(s: System, s': System, id: int) {
    && id in s.calls && id in s'.calls
    && s' == Move(s, id, s'.calls[id].phase).(server := s'.server, cleared := s'.cleared)
    && (s'.calls[id].phase.Done? ==> s'.calls[id].phase.ret == s.clock || s'.calls[id].phase == s.calls[id].phase)
    && s'.server.data == s.server.data && s'.server.cache - {id} == s.server.cache - {id}
    && s'.cleared - {id} == s.cleared - {id}
    && (id in s'.server.cache || id in s'.cleared ==> !IsGet(s.calls[id].input))
  }

  lemma SameElsewhere(s: System, s': System, id: int, x: int)
    requires ChangesPhase(s, s', id) && x != id
    ensures x in s'.server.cache <==> x in s.server.cache
    ensures x in s.server.cache ==> s'.server.cache[x] == s.server.cache[x]
    ensures x in s'.cleared <==> x in s.cleared
    ensures x in s'.calls <==> x in s.calls
    ensures x in s.calls ==> s'.calls[x] == s.calls[x]
  {
    assert x in s'.server.cache - {id} <==> x in s.server.cache - {id};
    assert x in s'.cleared - {id} <==> x in s.cleared - {id};
    if x in s.server.cache {
      assert (s'.server.cache - {id})[x] == (s.server.cache - {id})[x];
    }
  }

  lemma EffectElsewhere(s: System, s': System, id: int, k: nat)
    requires ChangesPhase(s, s', id) && k < |s.effects| && s.effects[k].id != id && EffectOf(s, k)
    ensures EffectOf(s', k)
  {
    hide Took;
    SameElsewhere(s, s', id, s.effects[k].id);
  }

  lemma CallElsewhere(s: System, s': System, id: int, x: int)
    requires ChangesPhase(s, s', id) && x != id && x in s.calls && CallOk(s, x)
    ensures CallOk(s', x)
  {
    hide Known;
    SameElsewhere(s, s', id, x);
  }

  lemma TimeElsewhere(s: System, s': System, id: int)
    requires ChangesPhase(s, s', id) && InTime(s)
    requires forall k :: 0 <= k < |s.effects| ==> EffectOf(s, k) && EffectOf(s', k)
    ensures InTime(s')
  {
    forall i, j | 0 <= i < j < |s'.effects| && s'.effects[i].id in s'.calls && s'.effects[j].id in s'.calls &&
                  s'.calls[s'.effects[j].id].phase.Done?
      ensures s'.calls[s'.effects[i].id].start <= s'.calls[s'.effects[j].id].phase.ret
    {
      assert EffectOf(s, i) && EffectOf(s', j);
    }
  }

  lemma PhaseChanges(s: System, s': System, id: int)
    requires Inv(s) && ChangesPhase(s, s', id)
    requires forall k :: 0 <= k < |s.effects| && s.effects[k].id == id ==> EffectOf(s', k)
    requires CallOk(s', id)
    ensures Inv(s')
  {
    hide Replays, After, SameStore, Known, EffectOf, CallOk, Distinct, InTime;
    forall k | 0 <= k < |s'.effects| ensures EffectOf(s', k) {
      if s.effects[k].id != id {
        EffectElsewhere(s, s', id, k);
      }
    }
    forall x | x in s'.calls ensures CallOk(s', x) {
      if x != id {
        CallElsewhere(s, s', id, x);
      }
    }
    forall x | x in s'.server.cache || x in s'.cleared ensures x in s'.calls && !IsGet(s'.calls[x].input) {
      if x != id {
        SameElsewhere(s, s', id, x);
      }
    }
    TimeElsewhere(s, s', id);
  }

  lemma BeginKeeps(s: System, id: int, input: KvInput)
    requires Inv(s) && Can(s, Begin(id, input))
    ensures Inv(Take(s, Begin(id, input)))
  {
    hide Replays, After, SameStore;
    var s' := Take(s, Begin(id, input));
    forall k | 0 <= k < |s'.effects| ensures EffectOf(s', k) {
      assert EffectOf(s, k);
    }
    forall x | x in s'.calls ensures CallOk(s', x) {
      if x != id {
        assert CallOk(s, x);
      }
    }
    assert InTime(s') by {
      forall i, j | 0 <= i < j < |s'.effects| && s'.effects[i].id in s'.calls && s'.effects[j].id in s'.calls &&
                    s'.calls[s'.effects[j].id].phase.Done?
        ensures s'.calls[s'.effects[i].id].start <= s'.calls[s'.effects[j].id].phase.ret
      {
        assert EffectOf(s, i) && EffectOf(s, j);
      }
    }
  }

  /** The first time a request is handled: by the call that waits for it, or as an old copy of a write. */
  ghost predicate TakesEffect(s: System, s': System, e: Effect) {
    && e.id in s.calls && s.calls[e.id].phase.Calling? && e.input == s.calls[e.id].input && !Took(s.effects, e.id)
    && e.id in s'.calls && (s'.calls[e.id].phase == Handled(e.out) || (s'.calls[e.id].phase == Calling && !IsGet(e.input)))
    && s' == Move(s, e.id, s'.calls[e.id].phase).(server := s'.server, effects := s.effects + [e])
    && s'.server.cache == if IsGet(e.input) then s.server.cache else s.server.cache[e.id := e.out]
  }

  lemma FirstCalls(s: System, s': System, e: Effect)
    requires CallsOk(s) && TakesEffect(s, s', e)
    ensures CallsOk(s')
  {
    hide Known, Took;
    assert CallOk(s, e.id);
    forall k | 0 <= k < |s'.effects| ensures EffectOf(s', k) {
      if k < |s.effects| {
        assert EffectOf(s, k);
        TookAt(s.effects, k);
      }
    }
    forall x | x in s'.calls ensures CallOk(s', x) {
      assert CallOk(s, x);
      TookSnoc(s.effects, e, x);
    }
  }

  lemma TookAt(effects: seq<Effect>, k: nat)
    requires k < |effects|
    ensures Took(effects, effects[k].id)
  {
  }

  lemma FirstTime(s: System, s': System, e: Effect)
    requires Distinct(s.effects) && InTime(s) && TakesEffect(s, s', e)
    ensures Distinct(s'.effects) && InTime(s')
  {
  }

  lemma FirstKeeps(s: System, s': System, e: Effect)
    requires Inv(s) && TakesEffect(s, s', e) && (s'.server, e.out) == Serve(s.server, e.input, e.id)
    ensures Inv(s')
  {
    hide StoreOk, CallsOk, InTime, Distinct, Serve, TakesEffect;
    FirstStore(s, s', e);
    FirstCalls(s, s', e);
    FirstTime(s, s', e);
  }

  /** A request that takes effect. */
  lemma HandleFirst(s: System, id: int)
    requires Inv(s) && Can(s, Handle(id)) && (IsGet(s.calls[id].input) || id !in s.server.cache)
    ensures Inv(Take(s, Handle(id)))
  {
    hide Inv, Serve, Took, Known;
    var s' := Take(s, Handle(id));
    NotYet(s, id);
    ServeCache(s.server, s.calls[id].input, id);
    FirstKeeps(s, s', s'.effects[|s.effects|]);
  }

  /** An old copy of a write, handled before any other copy. */
  lemma StaleFirst(s: System, id: int)
    requires Inv(s) && Can(s, Stale(id)) && !IsGet(s.calls[id].input) && id !in s.server.cache && id !in s.cleared
    ensures Inv(Take(s, Stale(id)))
  {
    hide Inv, Serve, Took, Known;
    var s' := Take(s, Stale(id));
    StillCalling(s, id);
    NotYet(s, id);
    ServeCache(s.server, s.calls[id].input, id);
    FirstKeeps(s, s', s'.effects[|s.effects|]);
  }

  /** A write that is neither in the table nor cleared is still waiting for its first answer. */
  lemma StillCalling(s: System, id: int)
    requires Inv(s) && id in s.calls && !IsGet(s.calls[id].input) && id !in s.server.cache && id !in s.cleared
    ensures s.calls[id].phase.Calling?
  {
    hide Replays, After, SameStore, Known;
    assert CallOk(s, id);
    forall k | 0 <= k < |s.effects| ensures s.effects[k].id != id {
      assert EffectOf(s, k);
    }
  }

  lemma KnownCall(s: System, id: int)
    requires CallsOk(s) && id in s.calls
    ensures Known(s.calls[id].input) && (!Took(s.effects, id) ==> id !in s.server.cache)
  {
    assert CallOk(s, id);
  }

  lemma TookSnoc(effects: seq<Effect>, e: Effect, id: int)
    ensures Took(effects + [e], id) <==> Took(effects, id) || e.id == id
  {
    var longer := effects + [e];
    if Took(effects, id) {
      var k :| 0 <= k < |effects| && effects[k].id == id;
      assert longer[k].id == id;
    }
    assert longer[|effects|] == e;
  }

  lemma ServeCache(server: Server, input: KvInput, id: int)
    requires IsGet(input) || id !in server.cache
    ensures var (server', reply) := Serve(server, input, id);
      server'.cache == if IsGet(input) then server.cache else server.cache[id := reply]
  {
  }

  /** A call that is not answered yet and has no table entry has not taken effect. */
  lemma NotYet(s: System, id: int)
    requires Inv(s) && id in s.calls && s.calls[id].phase.Calling? && (IsGet(s.calls[id].input) || id !in s.server.cache)
    ensures !Took(s.effects, id)
  {
    hide Replays, After, SameStore, Known;
    forall k | 0 <= k < |s.effects| ensures s.effects[k].id != id {
      assert EffectOf(s, k);
    }
  }

  lemma FirstStore(s: System, s': System, e: Effect)
    requires StoreOk(s) && CallsOk(s) && TakesEffect(s, s', e) && (s'.server, e.out) == Serve(s.server, e.input, e.id)
    ensures StoreOk(s')
  {
    hide Replays, After, CallsOk;
    AfterSnoc(s.effects, e);
    KnownCall(s, e.id);
    assert Lookup(s.server.data, e.input.key) == Lookup(After(s.effects), e.input.key);
    ServeData(s, s', e);
    var a, b := s'.server.data, MapStep(After(s.effects), e.input, KvOutput(e.out)).1;
    forall k ensures Lookup(a, k) == Lookup(b, k) {
      assert Lookup(s.server.data, k) == Lookup(After(s.effects), k);
    }
  }

  lemma ServeData(s: System, s': System, e: Effect)
    requires (s'.server, e.out) == Serve(s.server, e.input, e.id) && Known(e.input) && (IsGet(e.input) || e.id !in s.server.cache)
    ensures e.out == Lookup(s.server.data, e.input.key)
    ensures s'.server.data == if IsGet(e.input) then s.server.data
                              else s.server.data[e.input.key := if e.input.op == 1 then e.input.value else e.out + e.input.value]
  {
  }

  /** A repeated write is answered from the table. */
  lemma AgainKeeps(s: System, id: int, a: Step)
    requires Inv(s) && (a == Handle(id) || a == Stale(id)) && Can(s, a) && !IsGet(s.calls[id].input) && id in s.server.cache
    ensures Inv(Take(s, a))
  {
    hide Replays, After, SameStore, Known;
    var s' := Take(s, a);
    assert CallOk(s, id);
    forall k | 0 <= k < |s.effects| && s.effects[k].id == id ensures EffectOf(s', k) {
      assert EffectOf(s, k);
    }
    PhaseChanges(s, s', id);
  }

  lemma ForgetStore(s: System, k: nat)
    requires StoreOk(s) && k < |s.effects| && IsGet(s.effects[k].input)
    ensures Replays(Remove(s.effects, k)) && SameStore(s.server.data, After(Remove(s.effects, k)))
  {
    hide After, Replays, SameStore;
    DropRead(s.effects, k);
    SameOn(s.server.data, After(s.effects), After(Remove(s.effects, k)));
  }

  /** Where the effects of a run without entry k were before. */
  function Back(i: nat, k: nat): nat { if i < k then i else i + 1 }

  lemma ForgetCalls(s: System, s': System, id: int, k: nat)
    requires CallsOk(s) && Distinct(s.effects) && id in s.calls && IsGet(s.calls[id].input) && k < |s.effects| && s.effects[k].id == id
    requires s' == Move(s, id, Calling).(effects := Remove(s.effects, k))
    ensures CallsOk(s')
  {
    hide Known;
    forall i | 0 <= i < |s'.effects| ensures EffectOf(s', i) {
      assert EffectOf(s, Back(i, k));
      assert s'.effects[i] == s.effects[Back(i, k)];
    }
    forall x | x in s'.calls ensures CallOk(s', x) {
      assert CallOk(s, x);
      if x != id {
        TookRest(s.effects, k, x);
      }
    }
  }

  lemma ForgetTime(s: System, s': System, id: int, k: nat)
    requires Distinct(s.effects) && InTime(s) && id in s.calls && k < |s.effects| && s.effects[k].id == id
    requires s' == Move(s, id, Calling).(effects := Remove(s.effects, k))
    ensures Distinct(s'.effects) && InTime(s')
  {
    forall i | 0 <= i < |s'.effects| ensures s'.effects[i] == s.effects[Back(i, k)] {
    }
    forall i, j | 0 <= i < j < |s'.effects| && s'.effects[i].id in s'.calls && s'.effects[j].id in s'.calls &&
                  s'.calls[s'.effects[j].id].phase.Done?
      ensures s'.calls[s'.effects[i].id].start <= s'.calls[s'.effects[j].id].phase.ret
    {
      assert Back(i, k) < Back(j, k);
    }
  }

  /** Losing the reply to a read forgets the read. */
  lemma ForgetKeeps(s: System, id: int)
    requires Inv(s) && Can(s, LoseReply(id)) && IsGet(s.calls[id].input)
    ensures Inv(Take(s, LoseReply(id)))
  {
    hide Replays, After, SameStore, InTime, Distinct, Serve;
    var s' := Take(s, LoseReply(id));
    assert CallOk(s, id);
    var k :| 0 <= k < |s.effects| && s.effects[k].id == id && s'.effects == Remove(s.effects, k);
    assert EffectOf(s, k);
    hide CallsOk;
    ForgetStore(s, k);
    ForgetCalls(s, s', id, k);
    ForgetTime(s, s', id, k);
  }

  lemma SameOn(a: Store, b: Store, c: Store)
    requires SameStore(a, b) && SameStore(c, b)
    ensures SameStore(a, c)
  {
    forall k ensures Lookup(a, k) == Lookup(c, k) {
      assert Lookup(a, k) == Lookup(b, k) && Lookup(c, k) == Lookup(b, k);
    }
  }

  lemma TookRest(effects: seq<Effect>, k: nat, id: int)
    requires k < |effects| && id != effects[k].id
    ensures Took(Remove(effects, k), id) <==> Took(effects, id)
  {
    var rest := Remove(effects, k);
    if Took(effects, id) {
      var i :| 0 <= i < |effects| && effects[i].id == id;
      assert rest[if i < k then i else i - 1].id == id;
    }
    if Took(rest, id) {
      var i :| 0 <= i < |rest| && rest[i].id == id;
      assert effects[if i < k then i else i + 1].id == id;
    }
  }

  /** The remaining steps move one call along. */
  lemma MoveKeeps(s: System, a: Step)
    requires Inv(s) && Can(s, a) && !a.Begin? && !a.Handle? && (a.LoseReply? ==> !IsGet(s.calls[a.id].input))
    requires a.Stale? ==> IsGet(s.calls[a.id].input)
    ensures Inv(Take(s, a))
  {
    hide Replays, After, SameStore, Known, HandlePut, HandleAppend;
    var s', id := Take(s, a), a.id;
    assert CallOk(s, id);
    forall k | 0 <= k < |s.effects| && s.effects[k].id == id ensures EffectOf(s', k) {
      assert EffectOf(s, k);
    }
    PhaseChanges(s, s', id);
  }

  lemma TakeKeeps(s: System, a: Step)
    requires Inv(s) && Can(s, a) && Timely(s, a)
    ensures Inv(Take(s, a))
  {
    hide Inv, Take;
    match a
    case Begin(id, input) => BeginKeeps(s, id, input);
    case Handle(id) =>
      if IsGet(s.calls[id].input) || id !in s.server.cache {
        HandleFirst(s, id);
      } else {
        AgainKeeps(s, id, a);
      }
    case Stale(id) =>
      if IsGet(s.calls[id].input) {
        MoveKeeps(s, a);
      } else if id in s.server.cache {
        AgainKeeps(s, id, a);
      } else {
        StaleFirst(s, id);
      }
    case LoseReply(id) =>
      if IsGet(s.calls[id].input) {
        ForgetKeeps(s, id);
      } else {
        MoveKeeps(s, a);
      }
    case _ => MoveKeeps(s, a);
  }

  lemma {:induction false} RunKeeps(run: seq<System>, steps: seq<Step>, n: nat)
    requires Run(run, steps) && n < |run| && forall k :: 0 <= k < n ==> Timely(run[k], steps[k])
    ensures Inv(run[n])
  {
    hide Take, Can, Timely;
    if n == 0 {
      assert After([]) == map[];
    } else {
      RunKeeps(run, steps, n - 1);
      assert run[n - 1 + 1] == Take(run[n - 1], steps[n - 1]);
      TakeKeeps(run[n - 1], steps[n - 1]);
    }
  }

  lemma TimelyKeeps(run: seq<System>, steps: seq<Step>, n: nat)
    requires TimelyRun(run, steps) && n < |run|
    ensures Inv(run[n])
  {
    hide Inv, Take, Can, Timely, Start;
    RunKeeps(run, steps, n);
  }

  // ---- exactly once, at every moment ----

  /** The call has taken effect with this result. */
  ghost predicate TookWith(s: System, id: int, out: string) {
    id in s.calls && exists n :: 0 <= n < |s.effects| && s.effects[n] == Effect(id, s.calls[id].input, out)
  }

  /** No call has two effects, a returned call has one, with the reply it returned; every effect returned the value just
      before it, the store is what the effects make it, and the table holds exactly the writes that have taken effect
      and are not cleared, which are none of the returned ones. */
  ghost predicate OnceEach(s: System) {
    && Distinct(s.effects) && (forall n :: 0 <= n < |s.effects| ==> TookWith(s, s.effects[n].id, s.effects[n].out))
    && (forall id :: id in s.calls && s.calls[id].phase.Done? ==> TookWith(s, id, s.calls[id].phase.reply))
    && Replays(s.effects) && SameStore(s.server.data, After(s.effects))
    && (forall id :: id in s.server.cache <==>
          id in s.calls && !IsGet(s.calls[id].input) && Took(s.effects, id) && id !in s.cleared)
    && (forall id :: id in s.calls && s.calls[id].phase.Done? ==> id !in s.server.cache)
  }

  lemma InvOnce(s: System)
    requires Inv(s)
    ensures OnceEach(s)
  {
    hide Replays, After, SameStore, Known;
    forall n | 0 <= n < |s.effects| ensures TookWith(s, s.effects[n].id, s.effects[n].out) {
      assert EffectOf(s, n);
    }
    forall id | id in s.calls
      ensures s.calls[id].phase.Done? ==> TookWith(s, id, s.calls[id].phase.reply) && id !in s.server.cache
      ensures !IsGet(s.calls[id].input) ==> (id in s.server.cache <==> Took(s.effects, id) && id !in s.cleared)
    {
      assert CallOk(s, id);
      if Took(s.effects, id) {
        var n :| 0 <= n < |s.effects| && s.effects[n].id == id;
        assert EffectOf(s, n);
      }
    }
  }

  lemma ExactlyOnce(run: seq<System>, steps: seq<Step>, n: nat)
    requires TimelyRun(run, steps) && n < |run|
    ensures OnceEach(run[n])
  {
    hide TimelyRun, OnceEach, Inv;
    TimelyKeeps(run, steps, n);
    InvOnce(run[n]);
  }

  // ---- linearizability, at every moment ----

  /** The call as an entry of a history; one that has not returned counts as returning now. */
  function Entry(s: System, e: Effect): KvOperation
    requires e.id in s.calls
  {
    var c := s.calls[e.id];
    Operation(e.id, e.input, c.start, KvOutput(e.out), if c.phase.Done? then c.phase.ret else s.clock)
  }

  ghost predicate Entries(s: System, effects: seq<Effect>, h: KvHistory) {
    |h| == |effects| && forall k :: 0 <= k < |h| ==> effects[k].id in s.calls && h[k] == Entry(s, effects[k])
  }

  lemma EntryAccepted(st: Store, s: System, e: Effect)
    requires e.id in s.calls && Known(e.input) && e.out == Lookup(st, e.input.key)
    ensures MapModel.step(st, Entry(s, e).input, Entry(s, e).output) == (true, MapStep(st, e.input, KvOutput(e.out)).1)
  {
  }

  lemma {:induction false} EntriesAccepted(s: System, effects: seq<Effect>, h: KvHistory)
    requires Entries(s, effects, h) && Replays(effects) && forall k :: 0 <= k < |effects| ==> Known(effects[k].input)
    ensures Accepts(MapModel, StateAfter(MapModel, []), h) && StateAfter(MapModel, h) == After(effects)
  {
    hide MapStep, Known;
    if h != [] {
      var n := |h| - 1;
      EntriesAccepted(s, effects[..n], h[..n]);
      EntryAccepted(After(effects[..n]), s, effects[n]);
      assert h == h[..n] + [h[n]];
      assert [] + h[..n] == h[..n];
      AcceptsSnoc(MapModel, [], h[..n], h[n]);
    }
  }

  lemma EntriesInTime(s: System, h: KvHistory)
    requires Inv(s) && Entries(s, s.effects, h)
    ensures RespectsRealTime(h)
  {
    hide Replays, After, SameStore, Known;
    forall i, j | 0 <= i < j < |h| ensures !Precedes(h[j], h[i]) {
      assert EffectOf(s, i) && EffectOf(s, j);
    }
  }

  /** The calls that have taken effect, in the order they did, are a linearization. */
  lemma EffectsLinearize(s: System, h: KvHistory)
    requires Inv(s) && Entries(s, s.effects, h)
    ensures Linearizes(MapModel, h, h)
  {
    forall k | 0 <= k < |s.effects| ensures Known(s.effects[k].input) {
      assert EffectOf(s, k);
      assert CallOk(s, s.effects[k].id);
    }
    EntriesAccepted(s, s.effects, h);
    EntriesInTime(s, h);
  }

  /** A history of what has happened so far, in whatever order it was logged: every returned call as it returned, every
      call that has taken effect and not returned as returning now, and no other. */
  ghost predicate Logged(s: System, ids: seq<int>, h: KvHistory) {
    && |h| == |ids|
    && (forall i, j :: 0 <= i < j < |ids| ==> ids[i] != ids[j])
    && (forall id :: id in ids <==> id in s.calls && (s.calls[id].phase.Done? || Took(s.effects, id)))
    && (forall k :: 0 <= k < |h| ==> Returned(s, ids[k], h[k]) || Underway(s, ids[k], h[k]))
  }

  ghost predicate Returned(s: System, id: int, o: KvOperation) {
    id in s.calls && s.calls[id].phase.Done? &&
    o == Operation(id, s.calls[id].input, s.calls[id].start, KvOutput(s.calls[id].phase.reply), s.calls[id].phase.ret)
  }

  ghost predicate Underway(s: System, id: int, o: KvOperation) {
    id in s.calls && !s.calls[id].phase.Done? && TookWith(s, id, o.output.value) &&
    o == Operation(id, s.calls[id].input, s.calls[id].start, o.output, s.clock)
  }

  /** What is logged for a call is its effect. */
  lemma LoggedEntry(s: System, ids: seq<int>, h: KvHistory, i: nat, k: nat)
    requires Inv(s) && Logged(s, ids, h) && i < |h| && k < |s.effects| && s.effects[k].id == ids[i]
    ensures s.effects[k].id in s.calls && h[i] == Entry(s, s.effects[k])
  {
    hide Replays, After, SameStore, Known;
    assert EffectOf(s, k);
    if !s.calls[ids[i]].phase.Done? {
      assert Underway(s, ids[i], h[i]);
      var n :| 0 <= n < |s.effects| && s.effects[n] == Effect(ids[i], s.calls[ids[i]].input, h[i].output.value);
      assert n == k;
    }
  }

  lemma {:induction false} LoggedSame(s: System, ids: seq<int>, h: KvHistory, t: KvHistory)
    requires Inv(s) && Logged(s, ids, h) && Entries(s, s.effects, t)
    ensures multiset(t) == multiset(h)
  {
    hide Replays, After, SameStore, Known, Returned, Underway;
    forall k | 0 <= k < |t| ensures t[k] in h {
      assert EffectOf(s, k);
      var i :| 0 <= i < |ids| && ids[i] == s.effects[k].id;
      LoggedEntry(s, ids, h, i, k);
      assert h[i] == t[k];
    }
    forall i | 0 <= i < |h| ensures h[i] in t && h[i].clientId == ids[i] {
      assert ids[i] in ids && CallOk(s, ids[i]);
      var k :| 0 <= k < |s.effects| && s.effects[k].id == ids[i];
      LoggedEntry(s, ids, h, i, k);
      assert h[i] == t[k];
    }
    SameElements(t, h);
  }

  /** At every moment of every run without late copies, what has happened so far is linearizable against the whole map. */
  lemma AlwaysLinearizable(run: seq<System>, steps: seq<Step>, n: nat, ids: seq<int>, h: KvHistory)
    requires TimelyRun(run, steps) && n < |run| && Logged(run[n], ids, h)
    ensures Linearizable(MapModel, h)
  {
    hide TimelyRun, Replays, After, SameStore, Known, Accepts, Logged, InTime, Distinct;
    TimelyKeeps(run, steps, n);
    var s := run[n];
    forall k | 0 <= k < |s.effects| ensures s.effects[k].id in s.calls {
      assert EffectOf(s, k);
    }
    var t := seq(|s.effects|, k requires 0 <= k < |s.effects| => Entry(s, s.effects[k]));
    EffectsLinearize(s, t);
    LoggedSame(s, ids, h, t);
    assert Linearizes(MapModel, h, t);
  }

  /** In particular, once every call has returned, the history of all calls is. */
  lemma CompletedIsLinearizable(run: seq<System>, steps: seq<Step>, n: nat, ids: seq<int>, h: KvHistory)
    requires TimelyRun(run, steps) && n < |run| && |h| == |ids|
    requires forall i, j :: 0 <= i < j < |ids| ==> ids[i] != ids[j]
    requires forall id :: id in ids <==> id in run[n].calls
    requires forall k :: 0 <= k < |h| ==> Returned(run[n], ids[k], h[k])
    ensures Linearizable(MapModel, h)
  {
    hide TimelyRun, Took;
    forall id | id in run[n].calls ensures run[n].calls[id].phase.Done? {
      var k :| 0 <= k < |ids| && ids[k] == id;
      assert Returned(run[n], ids[k], h[k]);
    }
    AlwaysLinearizable(run, steps, n, ids, h);
  }

  /** Two sequences without repetitions and with the same elements are reorderings of each other. */
  lemma SameElements(a: KvHistory, b: KvHistory)
    requires forall i, j :: 0 <= i < j < |a| ==> a[i].clientId != a[j].clientId
    requires forall i, j :: 0 <= i < j < |b| ==> b[i].clientId != b[j].clientId
    requires (forall k :: 0 <= k < |a| ==> a[k] in b) && (forall k :: 0 <= k < |b| ==> b[k] in a)
    ensures multiset(a) == multiset(b)
  {
    forall x ensures multiset(a)[x] == multiset(b)[x] {
      Once(a, x);
      Once(b, x);
      assert x in a <==> x in b;
      assert x in multiset(a) <==> x in a;
      assert x in multiset(b) <==> x in b;
    }
  }
}
