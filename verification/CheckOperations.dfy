/** The whole check of a key-value history: partition, order, search, combine. */
module CheckOperations {
  import opened Linearizability
  import opened KvModels
  import opened Locality
  import opened Entries
  import opened Permutations
  import opened Sorting
  import opened Search
  import opened Parallel

  /** The entry lists are those of the per-key histories. */
  ghost predicate Prepared(parts: seq<KvHistory>, l: Histories<KvInput, KvOutput>) {
    && |l| <= |parts| && AllWellFormed(l)
    && forall i :: 0 <= i < |l| ==> SameShape(parts[i], OpsOf(l[i]))
  }

  lemma PartWellTimed(history: KvHistory, key: string)
    requires WellTimed(history)
    ensures WellTimed(ForKey(history, key))
  {
    var p := ForKey(history, key);
    forall i | 0 <= i < |p| ensures p[i].call <= p[i].ret {
      ForKeyInBounds(history, key, p[i]);
    }
  }

  lemma PartVerdict(part: KvHistory, es: seq<Entry<KvInput, KvOutput>>)
    requires WellFormed(es) && SameShape(part, OpsOf(es))
    ensures Linearizable(KvModel, part) <==> Linearizable(KvModel, OpsOf(es))
  {
    hide WellFormed, OpsOf, Linearizable;
    if Linearizable(KvModel, part) {
      LinearizableSameShape(KvModel, part, OpsOf(es));
    }
    if Linearizable(KvModel, OpsOf(es)) {
      assert SameShape(OpsOf(es), part);
      LinearizableSameShape(KvModel, OpsOf(es), part);
    }
  }

  /** Every part is linearizable exactly when the whole history is, against the whole map. */
  lemma WholeVerdict(history: KvHistory, keys: seq<string>, parts: seq<KvHistory>, l: Histories<KvInput, KvOutput>)
    requires WellTimed(history) && PartsByKey(history, keys, parts) && Prepared(parts, l) && |l| == |parts|
    ensures (forall i: nat :: i < |l| ==> PartLinearizable(KvModel, l, i)) <==> Linearizable(MapModel, history)
  {
    hide WellFormed, OpsOf, Linearizable, ForKey;
    LocalityTheorem(history);
    forall i: nat | i < |l| ensures PartLinearizable(KvModel, l, i) <==> Linearizable(KvModel, ForKey(history, keys[i])) {
      PartVerdict(parts[i], l[i]);
    }
    assert forall k :: k in KeysOf(history) <==> k in keys;
    if forall i: nat :: i < |l| ==> PartLinearizable(KvModel, l, i) {
      forall k | k in KeysOf(history) ensures Linearizable(KvModel, ForKey(history, k)) {
        var i :| 0 <= i < |keys| && keys[i] == k;
        assert PartLinearizable(KvModel, l, i);
      }
    }
    if Linearizable(MapModel, history) {
      forall i: nat | i < |l| ensures PartLinearizable(KvModel, l, i) {
        assert keys[i] in KeysOf(history);
      }
    }
  }

  // ---- what is handed on about a part is about that part ----

  lemma {:induction false} PartialSameShape<S, I, O>(m: Model<S, I, O>, a: History<I, O>, b: History<I, O>, p: seq<nat>)
    requires SameShape(a, b) && PartialLinearization(m, a, p)
    ensures PartialLinearization(m, b, p)
  {
    AcceptsSameValues(m, m.init, Select(a, p), Select(b, p));
  }

  lemma InformativeSameShape<S, I, O>(m: Model<S, I, O>, a: History<I, O>, b: History<I, O>, partials: seq<seq<nat>>, complete: bool)
    requires SameShape(a, b) && Informative(m, a, partials, complete)
    ensures Informative(m, b, partials, complete)
  {
    hide PartialLinearization, SameShape;
    forall p | PartialLinearization(m, a, p) ensures PartialLinearization(m, b, p) {
      PartialSameShape(m, a, b, p);
    }
    Reversed(a, b);
    forall p | PartialLinearization(m, b, p) ensures PartialLinearization(m, a, p) {
      PartialSameShape(m, b, a, p);
    }
  }

  lemma Reversed<I, O>(a: History<I, O>, b: History<I, O>)
    requires SameShape(a, b)
    ensures SameShape(b, a)
  {
  }

  /** For every key, in the order of keys: partial linearizations of its operations, the longest ones for every key that
      was checked in time or whose search was not cut. */
  ghost predicate Explains(history: KvHistory, keys: seq<string>, parts: seq<KvHistory>, partials: seq<seq<seq<nat>>>,
                           seen: set<string>, late: nat -> nat -> bool) {
    && PartsByKey(history, keys, parts) && |partials| == |parts|
    && forall i :: 0 <= i < |parts| ==> Informative(KvModel, parts[i], partials[i], keys[i] in seen || NeverCut(late, i))
  }

  /** All these keys are linearizable. */
  ghost predicate KeysFine(history: KvHistory, seen: set<string>) {
    forall k :: k in seen ==> Linearizable(KvModel, ForKey(history, k))
  }

  lemma SeenKeys(history: KvHistory, keys: seq<string>, parts: seq<KvHistory>, l: Histories<KvInput, KvOutput>, heard: set<nat>,
                 seen: set<string>)
    requires PartsByKey(history, keys, parts) && Prepared(parts, l) && |l| == |parts| && heard <= Below(|l|)
    requires seen == set i | i in heard && i < |keys| :: keys[i]
    ensures seen <= KeysOf(history) && (heard == Below(|l|) ==> seen == KeysOf(history))
    ensures AllFine(KvModel, l, heard) <==> KeysFine(history, seen)
  {
    hide WellFormed, OpsOf, Linearizable, ForKey, SameShape;
    forall i: nat | i < |l| ensures PartLinearizable(KvModel, l, i) <==> Linearizable(KvModel, ForKey(history, keys[i])) {
      PartVerdict(parts[i], l[i]);
    }
    assert forall k :: k in KeysOf(history) <==> k in keys;
    if AllFine(KvModel, l, heard) {
      forall k | k in seen ensures Linearizable(KvModel, ForKey(history, k)) {
        var i :| i in heard && i < |keys| && keys[i] == k;
        assert PartLinearizable(KvModel, l, i);
      }
    }
    if KeysFine(history, seen) {
      forall i: nat | i < |l| && i in heard ensures PartLinearizable(KvModel, l, i) {
        assert keys[i] in seen;
      }
    }
  }

  lemma HeardOnce(history: KvHistory, keys: seq<string>, parts: seq<KvHistory>, heard: set<nat>, seen: set<string>, i: nat)
    requires PartsByKey(history, keys, parts) && seen == (set k | k in heard && k < |keys| :: keys[k]) && i < |keys|
    ensures keys[i] in seen <==> i in heard
  {
    hide ForKey, LexLess;
    if keys[i] in seen {
      var k :| k in heard && k < |keys| && keys[k] == keys[i];
      LexTotal(keys[i], keys[k]);
    }
  }

  lemma NoEmptyPartition(history: KvHistory, keys: seq<string>, parts: seq<KvHistory>)
    requires PartsByKey(history, keys, parts) && history != []
    ensures parts != []
  {
    assert history[0].input.key in KeysOf(history);
  }

  /** With no timeout the verdict is exact; a timeout turns it into Unknown unless a key that is not linearizable has
      been found by then, with `seen` the keys that have been checked. If asked, every key's partial
      linearizations are given, the longest ones unless a timeout cut its search. On an empty history without a
      timeout the original waits for ever, hence the second precondition. */
  method CheckOperations(history: KvHistory, verbose: bool, timeout: bool, late: nat -> nat -> bool)
      returns (result: CheckResult, partials: seq<seq<seq<nat>>>, ghost timedOut: bool, ghost seen: set<string>)
    requires WellTimed(history)
    requires history != [] || timeout
    ensures result == Ok ==> Linearizable(MapModel, history)
    ensures result == Illegal ==> !Linearizable(MapModel, history)
    ensures seen <= KeysOf(history) && (timedOut ==> timeout)
    ensures !timedOut ==> seen == KeysOf(history) || (result == Illegal && !verbose)
    ensures result == Illegal <==> !KeysFine(history, seen)
    ensures result == Unknown <==> timedOut && KeysFine(history, seen)
    ensures timedOut && !verbose ==> result == Unknown
    ensures if verbose then exists keys, parts :: Explains(history, keys, parts, partials, seen, late) else partials == []
  {
    hide WellFormed, OpsOf, Linearizable, ForKey, WellTimed, SameShape, PartLinearizable, ShowsLongest, PartialLinearization,
         AllFine, KeysFine, KeysOf, NeverCut, LexLess;
    var parts := Partition(history);
    ghost var keys :| PartsByKey(history, keys, parts);
    var l: Histories<KvInput, KvOutput> := [];
    for i := 0 to |parts|
      invariant |l| == i && Prepared(parts, l)
    {
      PartWellTimed(history, keys[i]);
      var entries := MakeEntries(parts[i]);
      l := l + [entries];
    }
    if history != [] {
      NoEmptyPartition(history, keys, parts);
    }
    WholeVerdict(history, keys, parts, l);
    ghost var heard;
    result, partials, timedOut, heard := CheckParallel(KvModel, l, verbose, timeout, late);
    seen := set i | i in heard && i < |keys| :: keys[i];
    SeenKeys(history, keys, parts, l, heard, seen);
    if verbose {
      forall i | 0 <= i < |parts| ensures Informative(KvModel, parts[i], partials[i], keys[i] in seen || NeverCut(late, i)) {
        Reversed(parts[i], OpsOf(l[i]));
        HeardOnce(history, keys, parts, heard, seen, i);
        InformativeSameShape(KvModel, OpsOf(l[i]), parts[i], partials[i], keys[i] in seen || NeverCut(late, i));
      }
      assert Explains(history, keys, parts, partials, seen, late);
    }
  }
}
