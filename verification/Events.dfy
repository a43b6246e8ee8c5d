/** Histories given as events: ids are renumbered from zero in order of appearance and the events become the
    entry list the checker searches. */
module Events {
  import opened Linearizability
  import opened Permutations
  import opened Entries
  import opened Search
  import opened Parallel

  datatype Event<I, O> =
    | CallEvent(clientId: int, input: I, id: int)
    | ReturnEvent(clientId: int, output: O, id: int)

  /** Every operation is called once and returns once, later. */
  ghost predicate Paired<I, O>(es: seq<Event<I, O>>) {
    && (forall i, j :: 0 <= i < j < |es| && es[i].id == es[j].id ==> es[i].CallEvent? && es[j].ReturnEvent?)
    && (forall i :: 0 <= i < |es| ==> HasCall(es, es[i].id) && HasReturn(es, es[i].id))
  }

  ghost predicate HasCall<I, O>(es: seq<Event<I, O>>, id: int) {
    exists i :: 0 <= i < |es| && es[i].CallEvent? && es[i].id == id
  }

  ghost predicate HasReturn<I, O>(es: seq<Event<I, O>>, id: int) {
    exists i :: 0 <= i < |es| && es[i].ReturnEvent? && es[i].id == id
  }

  ghost predicate Seen<I, O>(es: seq<Event<I, O>>, id: int) {
    exists i :: 0 <= i < |es| && es[i].id == id
  }

  // ---- the history that events denote ----

  /** The positions of the calls, in order. */
  ghost function Calls<I, O>(es: seq<Event<I, O>>): (r: seq<nat>)
    ensures forall k :: 0 <= k < |r| ==> r[k] < |es| && es[r[k]].CallEvent?
  {
    if es == [] then []
    else
      var n := |es| - 1;
      Calls(es[..n]) + if es[n].CallEvent? then [n] else []
  }

  ghost function ReturnOf<I, O>(es: seq<Event<I, O>>, id: int): (j: nat)
    requires HasReturn(es, id)
    ensures j < |es| && es[j].ReturnEvent? && es[j].id == id
  {
    var j: nat :| j < |es| && es[j].ReturnEvent? && es[j].id == id;
    j
  }

  /** One operation for every call, in order, with its return; positions are times. */
  ghost function Denoted<I, O>(es: seq<Event<I, O>>): (h: History<I, O>)
    requires Paired(es)
    ensures |h| == |Calls(es)|
  {
    seq(|Calls(es)|, k requires 0 <= k < |Calls(es)| =>
      var i := Calls(es)[k];
      var j := ReturnOf(es, es[i].id);
      Operation(es[i].clientId, es[i].input, i, es[j].output, j))
  }

  /** The call at position i is the one after those before it. */
  lemma {:induction false} CallIndex<I, O>(es: seq<Event<I, O>>, i: nat)
    requires i < |es| && es[i].CallEvent?
    ensures |Calls(es[..i])| < |Calls(es)| && Calls(es)[|Calls(es[..i])|] == i
  {
    var n := |es| - 1;
    if i < n {
      CallIndex(es[..n], i);
      assert es[..n][..i] == es[..i];
    }
  }

  lemma {:induction false} CallAt<I, O>(es: seq<Event<I, O>>, k: nat)
    requires k < |Calls(es)|
    ensures |Calls(es[..Calls(es)[k]])| == k
  {
    var n := |es| - 1;
    if k < |Calls(es[..n])| {
      CallAt(es[..n], k);
      assert es[..n][..Calls(es[..n])[k]] == es[..Calls(es)[k]];
    }
  }

  // ---- renumbering ----

  /** The same events under other ids, two of them equal exactly when they were before. */
  ghost predicate Renamed<I, O>(es: seq<Event<I, O>>, r: seq<Event<I, O>>) {
    && |r| == |es|
    && (forall i :: 0 <= i < |es| ==> r[i] == es[i].(id := r[i].id))
    && (forall i, j :: 0 <= i < |es| && 0 <= j < |es| ==> (r[i].id == r[j].id <==> es[i].id == es[j].id))
  }

  /** The ids are 0..n-1. */
  ghost predicate Dense<I, O>(r: seq<Event<I, O>>, n: nat) {
    forall d :: 0 <= d < n <==> Seen(r, d)
  }

  /** Calls are numbered in order: those among the first i events, with `next` to come. */
  ghost predicate NumberedTo<I, O>(es: seq<Event<I, O>>, r: seq<Event<I, O>>, i: nat, next: nat) {
    && i <= |es| && i <= |r| && next == |Calls(es[..i])|
    && forall k :: 0 <= k < i && es[k].CallEvent? ==> r[k].id == |Calls(es[..k])|
  }

  lemma NumberedNext<I, O>(es: seq<Event<I, O>>, r: seq<Event<I, O>>, i: nat, next: nat, v: Event<I, O>)
    requires Paired(es) && i == |r| < |es| && NumberedTo(es, r, i, next)
    requires if Seen(es[..i], es[i].id) then true else v.id == next
    ensures NumberedTo(es, r + [v], i + 1, if Seen(es[..i], es[i].id) then next else next + 1)
  {
    SeenIffReturn(es, i);
  }

  /** The loop's state after the events `es`: the map holds every id seen, with its number. */
  ghost predicate Mapped<I, O>(es: seq<Event<I, O>>, e: seq<Event<I, O>>, m: map<int, nat>, id: nat) {
    && Renamed(es, e) && Dense(e, id)
    && (forall x :: x in m <==> Seen(es, x))
    && (forall k :: 0 <= k < |es| ==> es[k].id in m && e[k].id == m[es[k].id] < id)
  }

  lemma MappedKnown<I, O>(es: seq<Event<I, O>>, e: seq<Event<I, O>>, m: map<int, nat>, id: nat, v: Event<I, O>)
    requires Mapped(es, e, m, id) && v.id in m
    ensures Mapped(es + [v], e + [v.(id := m[v.id])], m, id)
  {
    SeenSnoc(es, v);
    SeenSnoc(e, v.(id := m[v.id]));
  }

  lemma MappedNew<I, O>(es: seq<Event<I, O>>, e: seq<Event<I, O>>, m: map<int, nat>, id: nat, v: Event<I, O>)
    requires Mapped(es, e, m, id) && v.id !in m
    ensures Mapped(es + [v], e + [v.(id := id)], m[v.id := id], id + 1)
  {
    NotSeen(es, v.id);
    SeenSnoc(es, v);
    SeenSnoc(e, v.(id := id));
  }

  lemma MappedKeys<I, O>(es: seq<Event<I, O>>, e: seq<Event<I, O>>, m: map<int, nat>, id: nat, x: int)
    requires Mapped(es, e, m, id)
    ensures x in m <==> Seen(es, x)
    ensures |e| == |es|
  {
  }

  method Renumber<I, O>(events: seq<Event<I, O>>) returns (e: seq<Event<I, O>>, ghost n: nat)
    ensures Renamed(events, e) && Dense(e, n)
    ensures Paired(events) ==> NumberedTo(events, e, |events|, n)
  {
    e := [];
    var m: map<int, nat> := map[];
    var id := 0;
    for i := 0 to |events|
      invariant Mapped(events[..i], e, m, id)
      invariant Paired(events) ==> NumberedTo(events, e, i, id)
    {
      hide Paired, NumberedTo, Mapped, Seen;
      var v := events[i];
      MappedKeys(events[..i], e, m, id, v.id);
      if Paired(events) {
        NumberedNext(events, e, i, id, v.(id := if v.id in m then m[v.id] else id));
      }
      assert events[..i + 1] == events[..i] + [v];
      if v.id in m {
        MappedKnown(events[..i], e, m, id, v);
        e := e + [v.(id := m[v.id])];
      } else {
        MappedNew(events[..i], e, m, id, v);
        e := e + [v.(id := id)];
        m := m[v.id := id];
        id := id + 1;
      }
    }
    assert events[..|events|] == events;
    n := id;
  }

  /** In a paired history an event's id has been seen exactly if the event is a return. */
  lemma SeenIffReturn<I, O>(es: seq<Event<I, O>>, i: nat)
    requires i < |es|
    ensures Paired(es) ==> (Seen(es[..i], es[i].id) <==> es[i].ReturnEvent?)
    ensures |Calls(es[..i + 1])| == |Calls(es[..i])| + if es[i].CallEvent? then 1 else 0
  {
    assert es[..i + 1][..i] == es[..i];
    if Paired(es) && es[i].ReturnEvent? {
      assert HasCall(es, es[i].id);
      var a :| 0 <= a < |es| && es[a].CallEvent? && es[a].id == es[i].id;
      assert a < i && es[..i][a] == es[a];
    }
  }

  lemma SeenSnoc<I, O>(es: seq<Event<I, O>>, v: Event<I, O>)
    ensures forall x :: Seen(es + [v], x) <==> Seen(es, x) || x == v.id
  {
    var longer := es + [v];
    forall x ensures Seen(longer, x) <==> Seen(es, x) || x == v.id {
      if Seen(es, x) {
        var i :| 0 <= i < |es| && es[i].id == x;
        assert longer[i].id == x;
      }
      assert longer[|es|] == v;
    }
  }

  lemma NotSeen<I, O>(es: seq<Event<I, O>>, x: int)
    requires !Seen(es, x)
    ensures forall k :: 0 <= k < |es| ==> es[k].id != x
  {
  }

  lemma RenamedPaired<I, O>(es: seq<Event<I, O>>, r: seq<Event<I, O>>)
    requires Paired(es) && Renamed(es, r)
    ensures Paired(r)
  {
    forall i | 0 <= i < |r| ensures HasCall(r, r[i].id) && HasReturn(r, r[i].id) {
      assert HasCall(es, es[i].id) && HasReturn(es, es[i].id);
      var a :| 0 <= a < |es| && es[a].CallEvent? && es[a].id == es[i].id;
      var b :| 0 <= b < |es| && es[b].ReturnEvent? && es[b].id == es[i].id;
      assert r[a].CallEvent? && r[a].id == r[i].id;
      assert r[b].ReturnEvent? && r[b].id == r[i].id;
    }
  }

  // ---- counting: as many calls as returns as operations ----

  ghost function Ids<I, O>(es: seq<Event<I, O>>, calls: bool): seq<int> {
    if es == [] then []
    else
      var n := |es| - 1;
      Ids(es[..n], calls) + if es[n].CallEvent? == calls then [es[n].id] else []
  }

  lemma {:induction false} IdsCount<I, O>(es: seq<Event<I, O>>)
    ensures |Ids(es, true)| + |Ids(es, false)| == |es|
  {
    if es != [] {
      IdsCount(es[..|es| - 1]);
    }
  }

  lemma {:induction false} IdsAre<I, O>(es: seq<Event<I, O>>, calls: bool, x: int)
    ensures x in Ids(es, calls) <==> exists i :: 0 <= i < |es| && es[i].CallEvent? == calls && es[i].id == x
  {
    if es != [] {
      var n := |es| - 1;
      IdsAre(es[..n], calls, x);
      assert es == es[..n] + [es[n]];
      if i :| 0 <= i < |es| && es[i].CallEvent? == calls && es[i].id == x {
        assert i < n ==> es[..n][i] == es[i];
      }
    }
  }

  lemma {:induction false} IdsDistinct<I, O>(es: seq<Event<I, O>>, calls: bool)
    requires forall i, j :: 0 <= i < j < |es| && es[i].id == es[j].id ==> es[i].CallEvent? && es[j].ReturnEvent?
    ensures forall i, j :: 0 <= i < j < |Ids(es, calls)| ==> Ids(es, calls)[i] != Ids(es, calls)[j]
  {
    if es != [] {
      var n := |es| - 1;
      IdsDistinct(es[..n], calls);
      IdsAre(es[..n], calls, es[n].id);
      assert forall i :: 0 <= i < n ==> es[..n][i] == es[i];
    }
  }

  /** Each half of a paired history names every operation once. */
  lemma HalfCount<I, O>(es: seq<Event<I, O>>, n: nat, calls: bool)
    requires Paired(es) && Dense(es, n)
    ensures |Ids(es, calls)| == n
  {
    IdsDistinct(es, calls);
    var ids := Ids(es, calls);
    forall x ensures x in ids <==> 0 <= x < n {
      IdsAre(es, calls, x);
      assert 0 <= x < n <==> Seen(es, x);
      if Seen(es, x) {
        var k :| 0 <= k < |es| && es[k].id == x;
        assert HasCall(es, es[k].id) && HasReturn(es, es[k].id);
      }
    }
    assert forall i :: 0 <= i < |ids| ==> ids[i] in ids;
    var p: seq<nat> := seq(|ids|, i requires 0 <= i < |ids| => assert ids[i] in ids; ids[i]);
    assert Selection(p, n);
    forall x: nat ensures x in Elements(p) <==> x in Below(n) {
      assert x in p <==> x in ids by {
        if x in ids {
          var i :| 0 <= i < |ids| && ids[i] == x;
          assert p[i] == x;
        }
      }
    }
    SelectionLength(p, n);
  }

  // ---- entries ----

  /** An event at position `time` as an entry. */
  function ToEntry<I, O>(e: Event<I, O>, time: int): Entry<I, O>
    requires e.id >= 0
  {
    match e
    case CallEvent(c, input, id) => CallEntry(input, id, time, c)
    case ReturnEvent(c, output, id) => ReturnEntry(output, id, time, c)
  }

  ghost predicate Converts<I, O>(es: seq<Event<I, O>>, entries: seq<Entry<I, O>>) {
    |entries| == |es| && forall i :: 0 <= i < |es| ==> es[i].id >= 0 && entries[i] == ToEntry(es[i], i)
  }

  method ConvertEntries<I, O>(events: seq<Event<I, O>>) returns (entries: seq<Entry<I, O>>)
    requires forall i :: 0 <= i < |events| ==> events[i].id >= 0
    ensures Converts(events, entries)
  {
    entries := [];
    for i := 0 to |events|
      invariant |entries| == i && forall k :: 0 <= k < i ==> entries[k] == ToEntry(events[k], k)
    {
      entries := entries + [ToEntry(events[i], i)];
    }
  }

  /** A paired history, renumbered, is an entry list the checker can search. */
  lemma ConvertedWellFormed<I, O>(es: seq<Event<I, O>>, n: nat, entries: seq<Entry<I, O>>)
    requires Paired(es) && Dense(es, n) && Converts(es, entries)
    ensures WellFormed(entries) && |entries| == 2 * n
  {
    hide HasCall, HasReturn, Complete;
    IdsCount(es);
    HalfCount(es, n, true);
    HalfCount(es, n, false);
    forall i | 0 <= i < |entries| ensures entries[i].id < n {
      assert Seen(es, es[i].id);
    }
    forall id: nat | id < n ensures Complete(entries, id) {
      ConvertedComplete(es, n, entries, id);
    }
  }

  lemma ConvertedComplete<I, O>(es: seq<Event<I, O>>, n: nat, entries: seq<Entry<I, O>>, id: nat)
    requires Paired(es) && Dense(es, n) && Converts(es, entries) && id < n
    ensures Complete(entries, id)
  {
    assert Seen(es, id);
    var k :| 0 <= k < |es| && es[k].id == id;
    assert HasCall(es, es[k].id) && HasReturn(es, es[k].id);
    var i :| 0 <= i < |es| && es[i].CallEvent? && es[i].id == id;
    var j :| 0 <= j < |es| && es[j].ReturnEvent? && es[j].id == id;
    assert IsCall(entries, i, id) && IsReturn(entries, j, id);
  }

  lemma {:induction false} CallsCount<I, O>(es: seq<Event<I, O>>)
    ensures |Calls(es)| == |Ids(es, true)|
  {
    if es != [] {
      CallsCount(es[..|es| - 1]);
    }
  }

  lemma {:induction false} RenamedCalls<I, O>(es: seq<Event<I, O>>, r: seq<Event<I, O>>)
    requires Renamed(es, r)
    ensures Calls(r) == Calls(es)
  {
    if es != [] {
      RenamedCalls(es[..|es| - 1], r[..|es| - 1]);
    }
  }

  /** The k-th operation of the entry list is the k-th call with its return. */
  lemma SameOperation<I, O>(es: seq<Event<I, O>>, r: seq<Event<I, O>>, n: nat, entries: seq<Entry<I, O>>, k: nat)
    requires Paired(es) && Renamed(es, r) && NumberedTo(es, r, |es|, n) && Converts(r, entries) && WellFormed(entries)
    requires k < |Calls(es)| == |entries| / 2
    ensures OpsOf(entries)[k] == Denoted(es)[k]
  {
    hide WellFormed, Converts;
    var i, j := CallPos(entries, k), ReturnPos(entries, k);
    var c := Calls(es)[k];
    CallAt(es, k);
    ConvertedAt(r, entries, i);
    ConvertedAt(r, entries, j);
    assert r[c].id == k == r[i].id == r[j].id;
    assert es[i].id == es[c].id == es[j].id;
    assert i == c && j == ReturnOf(es, es[c].id);
  }

  lemma ConvertedAt<I, O>(r: seq<Event<I, O>>, entries: seq<Entry<I, O>>, i: nat)
    requires Converts(r, entries) && i < |entries|
    ensures |entries| == |r| && r[i].id >= 0 && entries[i] == ToEntry(r[i], i)
  {
  }

  lemma SameOperations<I, O>(es: seq<Event<I, O>>, r: seq<Event<I, O>>, n: nat, entries: seq<Entry<I, O>>)
    requires Paired(es) && Renamed(es, r) && NumberedTo(es, r, |es|, n) && Dense(r, n) && Converts(r, entries)
    ensures WellFormed(entries) && OpsOf(entries) == Denoted(es)
  {
    hide WellFormed, Paired, Renamed, NumberedTo, Dense, Converts, OpsOf, Denoted;
    RenamedPaired(es, r);
    ConvertedWellFormed(r, n, entries);
    HalfCount(r, n, true);
    CallsCount(r);
    RenamedCalls(es, r);
    forall k: nat | k < |Calls(es)| ensures OpsOf(entries)[k] == Denoted(es)[k] {
      SameOperation(es, r, n, entries, k);
    }
  }

  /** What all these partitions denote is linearizable. */
  ghost predicate DenotedFine<S, I(!new), O(!new)>(m: Model<S, I, O>, partitions: seq<seq<Event<I, O>>>, seen: set<nat>)
    requires forall i :: 0 <= i < |partitions| ==> Paired(partitions[i])
  {
    forall i: nat :: i < |partitions| && i in seen ==> Linearizable(m, Denoted(partitions[i]))
  }

  lemma SameFine<S, I(!new), O(!new)>(m: Model<S, I, O>, partitions: seq<seq<Event<I, O>>>, l: Histories<I, O>, seen: set<nat>)
    requires (forall i :: 0 <= i < |partitions| ==> Paired(partitions[i])) && AllWellFormed(l) && |l| == |partitions|
    requires forall k :: 0 <= k < |l| ==> OpsOf(l[k]) == Denoted(partitions[k])
    ensures AllFine(m, l, seen) <==> DenotedFine(m, partitions, seen)
  {
    hide WellFormed, Paired, Denoted, OpsOf, Linearizable;
    if AllFine(m, l, seen) {
      forall i: nat | i < |partitions| && i in seen ensures Linearizable(m, Denoted(partitions[i])) {
        assert PartLinearizable(m, l, i);
      }
    }
  }

  /** A history of events, partitioned: without a timeout the verdict on what the events denote is exact; a timeout turns
      it into Unknown unless a partition that is not linearizable has been found by then. If asked, the
      partial linearizations of every partition are given, the longest ones unless a timeout cut the search. */
  method CheckEvents<S(==, !new), I(!new), O(!new)>(m: Model<S, I, O>, partitions: seq<seq<Event<I, O>>>, verbose: bool,
                                                     timeout: bool, late: nat -> nat -> bool)
      returns (result: CheckResult, partials: seq<seq<seq<nat>>>, ghost timedOut: bool, ghost seen: set<nat>)
    requires forall i :: 0 <= i < |partitions| ==> Paired(partitions[i])
    requires partitions != [] || timeout
    ensures result == Ok ==> forall i :: 0 <= i < |partitions| ==> Linearizable(m, Denoted(partitions[i]))
    ensures result == Illegal ==> exists i :: 0 <= i < |partitions| && !Linearizable(m, Denoted(partitions[i]))
    ensures seen <= Below(|partitions|) && (timedOut ==> timeout)
    ensures !timedOut ==> seen == Below(|partitions|) || (result == Illegal && !verbose)
    ensures result == Illegal <==> !DenotedFine(m, partitions, seen)
    ensures result == Unknown <==> timedOut && DenotedFine(m, partitions, seen)
    ensures timedOut && !verbose ==> result == Unknown
    ensures if verbose then |partials| == |partitions| else partials == []
    ensures verbose ==> forall i :: 0 <= i < |partials| ==>
      Informative(m, Denoted(partitions[i]), partials[i], i in seen || NeverCut(late, i))
  {
    hide WellFormed, Paired, Denoted, OpsOf, Linearizable, ShowsLongest, PartialLinearization, AllFine, DenotedFine, NeverCut;
    var l: Histories<I, O> := [];
    for i := 0 to |partitions|
      invariant |l| == i && AllWellFormed(l) && forall k :: 0 <= k < i ==> OpsOf(l[k]) == Denoted(partitions[k])
    {
      var entries := PrepareOne(partitions[i]);
      l := l + [entries];
    }
    result, partials, timedOut, seen := CheckParallel(m, l, verbose, timeout, late);
    assert AllFine(m, l, seen) <==> DenotedFine(m, partitions, seen) by {
      SameFine(m, partitions, l, seen);
    }
    if result == Ok {
      forall i | 0 <= i < |partitions| ensures Linearizable(m, Denoted(partitions[i])) {
        assert PartLinearizable(m, l, i);
      }
    }
  }

  method PrepareOne<I(!new), O(!new)>(events: seq<Event<I, O>>) returns (entries: seq<Entry<I, O>>)
    requires Paired(events)
    ensures WellFormed(entries) && OpsOf(entries) == Denoted(events)
  {
    hide WellFormed, Paired, Converts, Dense, Renamed, NumberedTo, OpsOf, Denoted;
    var r, n := Renumber(events);
    NonNegative(r, n);
    entries := ConvertEntries(r);
    SameOperations(events, r, n, entries);
  }

  lemma NonNegative<I, O>(r: seq<Event<I, O>>, n: nat)
    requires Dense(r, n)
    ensures forall i :: 0 <= i < |r| ==> r[i].id >= 0
  {
    forall i | 0 <= i < |r| ensures r[i].id >= 0 {
      assert Seen(r, r[i].id);
    }
  }
}
