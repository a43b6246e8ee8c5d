/** The time-ordered list of calls and returns that the checker searches. */
module Entries {
  import opened Linearizability
  import opened Permutations
  import opened Sorting

  datatype Entry<I, O> =
    | CallEntry(input: I, id: nat, time: int, clientId: int)
    | ReturnEntry(output: O, id: nat, time: int, clientId: int)

  /** Ties are broken so that calls come before returns. */
  predicate ByTime<I, O>(a: Entry<I, O>, b: Entry<I, O>) {
    if a.time != b.time then a.time < b.time else a.CallEntry? && b.ReturnEntry?
  }

  predicate IsCall<I, O>(es: seq<Entry<I, O>>, i: int, id: int) {
    0 <= i < |es| && es[i].CallEntry? && es[i].id == id
  }

  predicate IsReturn<I, O>(es: seq<Entry<I, O>>, i: int, id: int) {
    0 <= i < |es| && es[i].ReturnEntry? && es[i].id == id
  }

  /** Operation `id` has a call with a return after it. */
  ghost predicate Complete<I, O>(es: seq<Entry<I, O>>, id: nat) {
    exists i, j :: i < j && IsCall(es, i, id) && IsReturn(es, j, id)
  }

  /** The ids are 0..n-1 and each has exactly one call, followed by exactly one return. */
  ghost predicate WellFormed<I, O>(es: seq<Entry<I, O>>) {
    && |es| % 2 == 0
    && (forall i :: 0 <= i < |es| ==> es[i].id < |es| / 2)
    && (forall id: nat :: id < |es| / 2 ==> Complete(es, id))
    && (forall i, j :: 0 <= i < j < |es| && es[i].id == es[j].id ==> es[i].CallEntry? && es[j].ReturnEntry?)
  }

  ghost function CallPos<I, O>(es: seq<Entry<I, O>>, id: nat): (i: nat)
    requires WellFormed(es) && id < |es| / 2
    ensures IsCall(es, i, id)
  {
    assert Complete(es, id);
    var i: nat :| IsCall(es, i, id);
    i
  }

  ghost function ReturnPos<I, O>(es: seq<Entry<I, O>>, id: nat): (j: nat)
    requires WellFormed(es) && id < |es| / 2
    ensures IsReturn(es, j, id) && CallPos(es, id) < j
  {
    assert Complete(es, id);
    var j: nat :| IsReturn(es, j, id);
    j
  }

  /** Operation `id` of the list, dated by the positions of its two entries. */
  ghost function OpAt<I, O>(es: seq<Entry<I, O>>, id: nat): Operation<I, O>
    requires WellFormed(es) && id < |es| / 2
  {
    var i, j := CallPos(es, id), ReturnPos(es, id);
    Operation(es[i].clientId, es[i].input, i, es[j].output, j)
  }

  /** The history an entry list stands for. */
  ghost function OpsOf<I, O>(es: seq<Entry<I, O>>): (h: History<I, O>)
    requires WellFormed(es)
    ensures |h| == |es| / 2
  {
    seq(|es| / 2, id requires 0 <= id < |es| / 2 => OpAt(es, id))
  }

  lemma ByTimeOrder<I(!new), O(!new)>()
    ensures StrictWeakOrder<Entry<I, O>>(ByTime)
  {
    forall x: Entry<I, O>, y: Entry<I, O>, z: Entry<I, O> ensures !ByTime(x, x)
        && (ByTime(x, y) && ByTime(y, z) ==> ByTime(x, z))
        && (!ByTime(x, y) && !ByTime(y, z) ==> !ByTime(x, z)) {
    }
  }

  /** Two entries per operation, then sorted by time. */
  method MakeEntries<I(!new), O(!new)>(history: History<I, O>) returns (entries: seq<Entry<I, O>>)
    requires WellTimed(history)
    ensures WellFormed(entries)
    ensures SameShape(history, OpsOf(entries))
  {
    entries := [];
    for id := 0 to |history|
      invariant |entries| == 2 * id
      invariant RawEntries(history, entries)
    {
      var elem := history[id];
      entries := entries + [CallEntry(elem.input, id, elem.call, elem.clientId)];
      entries := entries + [ReturnEntry(elem.output, id, elem.ret, elem.clientId)];
    }
    ghost var raw := entries;
    ByTimeOrder<I, O>();
    entries := Sort(ByTime, entries);
    SortedWellFormed(history, raw, entries);
    SortedSameShape(history, raw, entries);
  }

  /** The unsorted list: call and return of each operation side by side. */
  ghost predicate RawEntries<I, O>(h: History<I, O>, raw: seq<Entry<I, O>>) {
    && |raw| % 2 == 0 && |raw| / 2 <= |h|
    && forall k :: 0 <= k < |raw| ==>
      raw[k] == if k % 2 == 0 then CallEntry(h[k / 2].input, k / 2, h[k / 2].call, h[k / 2].clientId)
                else ReturnEntry(h[k / 2].output, k / 2, h[k / 2].ret, h[k / 2].clientId)
  }

  lemma EntryFromRaw<I(!new), O(!new)>(h: History<I, O>, raw: seq<Entry<I, O>>, es: seq<Entry<I, O>>, i: nat)
      returns (k: nat)
    requires RawEntries(h, raw) && multiset(es) == multiset(raw) && i < |es|
    ensures k < |raw| && es[i] == raw[k]
  {
    assert es[i] in multiset(es);
    assert es[i] in raw;
    k :| 0 <= k < |raw| && raw[k] == es[i];
  }

  lemma FindInSorted<T>(raw: seq<T>, es: seq<T>, k: nat) returns (i: nat)
    requires multiset(es) == multiset(raw) && k < |raw|
    ensures i < |es| && es[i] == raw[k]
  {
    assert raw[k] in multiset(raw);
    assert raw[k] in es;
    i :| 0 <= i < |es| && es[i] == raw[k];
  }

  lemma SortedDistinct<I(!new), O(!new)>(h: History<I, O>, raw: seq<Entry<I, O>>, es: seq<Entry<I, O>>, i: nat, j: nat)
    requires RawEntries(h, raw) && multiset(es) == multiset(raw) && i < j < |es|
    ensures es[i] != es[j]
  {
    if es[i] == es[j] {
      Twice(es, i, j);
      assert forall a, b :: 0 <= a < b < |raw| ==> raw[a] != raw[b];
      Once(raw, es[i]);
    }
  }

  lemma SortedWellFormed<I(!new), O(!new)>(h: History<I, O>, raw: seq<Entry<I, O>>, es: seq<Entry<I, O>>)
    requires WellTimed(h) && RawEntries(h, raw) && |raw| == 2 * |h|
    requires multiset(es) == multiset(raw) && SortedBy(ByTime, es)
    ensures |es| == |raw| && WellFormed(es)
  {
    assert |es| == |multiset(es)| == |raw|;
    forall i | 0 <= i < |es| ensures es[i].id < |es| / 2 {
      var k := EntryFromRaw(h, raw, es, i);
    }
    forall id: nat | id < |es| / 2 ensures Complete(es, id)
    {
      assert 2 * id < |raw| && (2 * id) / 2 == id && (2 * id + 1) / 2 == id;
      var i := FindInSorted(raw, es, 2 * id);
      var j := FindInSorted(raw, es, 2 * id + 1);
      assert ByTime(es[i], es[j]);
      assert i < j && IsCall(es, i, id) && IsReturn(es, j, id);
    }
    forall i, j | 0 <= i < j < |es| && es[i].id == es[j].id
      ensures es[i].CallEntry? && es[j].ReturnEntry?
    {
      var a := EntryFromRaw(h, raw, es, i);
      var b := EntryFromRaw(h, raw, es, j);
      SortedDistinct(h, raw, es, i, j);
      assert !ByTime(es[j], es[i]);
    }
  }

  lemma SortedSameShape<I(!new), O(!new)>(h: History<I, O>, raw: seq<Entry<I, O>>, es: seq<Entry<I, O>>)
    requires WellTimed(h) && RawEntries(h, raw) && |raw| == 2 * |h|
    requires multiset(es) == multiset(raw) && SortedBy(ByTime, es) && |es| == |raw| && WellFormed(es)
    ensures SameShape(h, OpsOf(es))
  {
    forall id: nat | id < |h|
      ensures var i, j := CallPos(es, id), ReturnPos(es, id);
        && es[i].input == h[id].input && es[i].time == h[id].call
        && es[j].output == h[id].output && es[j].time == h[id].ret
    {
      var a := EntryFromRaw(h, raw, es, CallPos(es, id));
      var b := EntryFromRaw(h, raw, es, ReturnPos(es, id));
    }
    forall a: nat, b: nat | a < |h| && b < |h|
      ensures Precedes(h[a], h[b]) <==> Precedes(OpsOf(es)[a], OpsOf(es)[b])
    {
      var r, c := ReturnPos(es, a), CallPos(es, b);
      assert Precedes(h[a], h[b]) <==> ByTime(es[r], es[c]);
      assert !Precedes(h[a], h[b]) <==> ByTime(es[c], es[r]);
    }
  }
}
