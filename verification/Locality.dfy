/** Partitioning by key is sound and complete: a history is linearizable against the whole
    key-value map exactly when every key's sub-history is linearizable against the single-key model. */
module Locality {
  import opened Linearizability
  import opened KvModels

  type Store = map<string, string>

  /** A key that was never written reads as the empty string. */
  function Lookup(m: Store, key: string): string {
    if key in m then m[key] else ""
  }

  /** The whole store taking one step: only the addressed key changes. */
  function MapStep(m: Store, inp: KvInput, out: KvOutput): (bool, Store) {
    var r := Step(Lookup(m, inp.key), inp, out);
    (r.0, m[inp.key := r.1])
  }

  const MapModel: Model<Store, KvInput, KvOutput> := Model(map[], MapStep)

  // ---- acceptance is per key ----

  /** One step of the map is one step of its key and leaves every other key's run alone. */
  lemma StepPerKey(m: Store, s: KvHistory, k: string)
    requires s != []
    ensures var r := Step(Lookup(m, s[0].input.key), s[0].input, s[0].output);
      Accepts(KvModel, Lookup(m, k), ForKey(s, k)) <==>
      (k == s[0].input.key ==> r.0) && Accepts(KvModel, Lookup(m[s[0].input.key := r.1], k), ForKey(s[1..], k))
  {
    if k == s[0].input.key {
      assert ForKey(s, k)[1..] == ForKey(s[1..], k);
    } else {
      assert ForKey(s, k) == ForKey(s[1..], k);
    }
  }

  /** The map accepts a sequence exactly when each key's projection is accepted on its own. */
  lemma {:induction false} AcceptsPerKey(m: Store, s: KvHistory)
    ensures Accepts(MapModel, m, s) <==> forall k :: Accepts(KvModel, Lookup(m, k), ForKey(s, k))
    decreases s
  {
    if s != [] {
      var r := MapStep(m, s[0].input, s[0].output);
      AcceptsPerKey(r.1, s[1..]);
      forall k ensures Accepts(KvModel, Lookup(m, k), ForKey(s, k)) <==>
                       (k == s[0].input.key ==> r.0) && Accepts(KvModel, Lookup(r.1, k), ForKey(s[1..], k)) {
        StepPerKey(m, s, k);
      }
      assert Accepts(KvModel, Lookup(m, s[0].input.key), ForKey(s, s[0].input.key)) ==> r.0;
    }
  }

  // ---- what the map accepts, in the operations' own terms ----

  /** The operation returned what the earlier writes of its key left. */
  ghost predicate ReadsItsKey(s: KvHistory, i: nat)
    requires i < |s|
  {
    Returns(s[i].input) ==> s[i].output.value == ValueLeft(ForKey(s[..i], s[i].input.key))
  }

  ghost predicate Holds(m: Store, s: KvHistory) {
    forall k :: Lookup(m, k) == ValueLeft(ForKey(s, k))
  }

  lemma HoldsNext(m: Store, s: KvHistory, o: KvOperation)
    requires Holds(m, s)
    ensures MapStep(m, o.input, o.output).0 <==> (Returns(o.input) ==> o.output.value == ValueLeft(ForKey(s, o.input.key)))
    ensures Holds(MapStep(m, o.input, o.output).1, s + [o])
  {
    hide ValueLeft;
    StepMeaning(ForKey(s, o.input.key), o);
    forall k ensures Lookup(MapStep(m, o.input, o.output).1, k) == ValueLeft(ForKey(s + [o], k)) {
      ForKeyConcat(s, [o], k);
      assert ForKey([o], k) == if o.input.key == k then [o] else [];
      assert ForKey(s, k) + [] == ForKey(s, k);
    }
  }

  lemma {:induction false} MapAcceptsFrom(m: Store, s: KvHistory, n: nat)
    requires n <= |s| && Holds(m, s[..n])
    ensures Accepts(MapModel, m, s[n..]) <==> forall i: nat :: n <= i < |s| ==> ReadsItsKey(s, i)
    decreases |s| - n
  {
    hide ValueLeft, ForKey, Holds, MapStep;
    if n < |s| {
      HoldsNext(m, s[..n], s[n]);
      assert s[..n] + [s[n]] == s[..n + 1];
      assert s[n..][1..] == s[n + 1..] && s[n..][0] == s[n];
      MapAcceptsFrom(MapStep(m, s[n].input, s[n].output).1, s, n + 1);
      assert ReadsItsKey(s, n) <==> MapStep(m, s[n].input, s[n].output).0;
    }
  }

  /** The whole map accepts a sequence if and only if every get and every append with a return value returned exactly
      the value that the writes of its key before it left. */
  lemma MapAcceptsIff(s: KvHistory)
    ensures Accepts(MapModel, MapModel.init, s) <==> forall i: nat :: i < |s| ==> ReadsItsKey(s, i)
  {
    hide Accepts, ReadsItsKey, Holds;
    HoldsNothing();
    assert s[..0] == [] && s[0..] == s;
    MapAcceptsFrom(map[], s, 0);
  }

  lemma HoldsNothing()
    ensures Holds(map[], [])
  {
    NothingLeft();
  }

  /** Linearizability of a key-value history without the model: some order of its operations that respects real time,
      in which everything that is returned is what the earlier writes of its key left. */
  lemma MapLinearizableIff(h: KvHistory)
    ensures Linearizable(MapModel, h) <==>
      exists s: KvHistory :: multiset(s) == multiset(h) && RespectsRealTime(s) && forall i: nat :: i < |s| ==> ReadsItsKey(s, i)
  {
    hide Accepts, ReadsItsKey, RespectsRealTime;
    forall s: KvHistory
      ensures Linearizes(MapModel, h, s) <==>
        multiset(s) == multiset(h) && RespectsRealTime(s) && forall i: nat :: i < |s| ==> ReadsItsKey(s, i)
    {
      MapAcceptsIff(s);
    }
  }

  // ---- easy direction: project a linearization onto one key ----

  lemma {:induction false} ForKeyInBounds(s: KvHistory, key: string, x: KvOperation)
    ensures x in ForKey(s, key) <==> x in s && x.input.key == key
  {
    ForKeyCount(s, key, x);
    assert x in s <==> multiset(s)[x] > 0;
    assert x in ForKey(s, key) <==> multiset(ForKey(s, key))[x] > 0;
  }

  lemma {:induction false} ProjectionRespectsRealTime(s: KvHistory, key: string)
    requires RespectsRealTime(s)
    ensures RespectsRealTime(ForKey(s, key))
  {
    if s != [] {
      ProjectionRespectsRealTime(s[1..], key);
      var p := ForKey(s[1..], key);
      forall j | 0 <= j < |p| ensures !Precedes(p[j], s[0]) {
        ForKeyInBounds(s[1..], key, p[j]);
      }
    }
  }

  lemma ProjectionSameMultiset(s: KvHistory, h: KvHistory, key: string)
    requires multiset(s) == multiset(h)
    ensures multiset(ForKey(s, key)) == multiset(ForKey(h, key))
  {
    forall o ensures multiset(ForKey(s, key))[o] == multiset(ForKey(h, key))[o] {
      ForKeyCount(s, key, o);
      ForKeyCount(h, key, o);
    }
  }

  // ---- hard direction: give every operation a linearization point and merge by point ----

  /** An operation with the moment at which it takes effect. */
  datatype Stamped = Stamped(at: int, op: KvOperation)

  function Ops(t: seq<Stamped>): KvHistory {
    seq(|t|, i requires 0 <= i < |t| => t[i].op)
  }

  /** Points lie within their operations and never decrease along the sequence. */
  ghost predicate Timeline(t: seq<Stamped>) {
    && (forall i :: 0 <= i < |t| ==> t[i].op.call <= t[i].at <= t[i].op.ret)
    && (forall i, j :: 0 <= i < j < |t| ==> t[i].at <= t[j].at)
  }

  lemma TimelineRespectsRealTime(t: seq<Stamped>)
    requires Timeline(t)
    ensures RespectsRealTime(Ops(t))
  {
    forall i, j | 0 <= i < j < |Ops(t)| ensures !Precedes(Ops(t)[j], Ops(t)[i]) {
      assert t[i].at <= t[j].at;
    }
  }

  /** Each operation takes effect at the latest invocation seen so far. */
  function StampFrom(lo: int, s: KvHistory): (t: seq<Stamped>)
    ensures |t| == |s|
    decreases s
  {
    if s == [] then []
    else
      var at := if lo < s[0].call then s[0].call else lo;
      [Stamped(at, s[0])] + StampFrom(at, s[1..])
  }

  lemma NoStamps()
    ensures Timeline([]) && Ops([]) == []
  {
  }

  lemma StampCons(x: Stamped, rest: seq<Stamped>)
    requires Timeline(rest) && x.op.call <= x.at <= x.op.ret && forall i :: 0 <= i < |rest| ==> x.at <= rest[i].at
    ensures Timeline([x] + rest) && Ops([x] + rest) == [x.op] + Ops(rest)
  {
  }

  lemma {:induction false} StampTimeline(lo: int, s: KvHistory)
    requires RespectsRealTime(s) && WellTimed(s)
    requires forall i :: 0 <= i < |s| ==> lo <= s[i].ret
    ensures Timeline(StampFrom(lo, s))
    ensures Ops(StampFrom(lo, s)) == s
    ensures forall i :: 0 <= i < |s| ==> lo <= StampFrom(lo, s)[i].at
    decreases s
  {
    hide Timeline, Ops;
    if s == [] {
      NoStamps();
    }
    if s != [] {
      var at := if lo < s[0].call then s[0].call else lo;
      forall i | 0 <= i < |s[1..]| ensures at <= s[1..][i].ret {
        assert s[1..][i] == s[i + 1];
        assert !Precedes(s[i + 1], s[0]);
      }
      StampTimeline(at, s[1..]);
      assert s == [s[0]] + s[1..];
      StampCons(Stamped(at, s[0]), StampFrom(at, s[1..]));
    }
  }

  function Merge(a: seq<Stamped>, b: seq<Stamped>): seq<Stamped> {
    if a == [] then b
    else if b == [] then a
    else if a[0].at <= b[0].at then [a[0]] + Merge(a[1..], b)
    else [b[0]] + Merge(a, b[1..])
  }

  lemma {:induction false} MergeElements(a: seq<Stamped>, b: seq<Stamped>)
    ensures multiset(Merge(a, b)) == multiset(a) + multiset(b)
  {
    if a != [] && b != [] {
      if a[0].at <= b[0].at {
        MergeElements(a[1..], b);
        assert a == [a[0]] + a[1..];
      } else {
        MergeElements(a, b[1..]);
        assert b == [b[0]] + b[1..];
      }
    }
  }

  lemma {:induction false} MergeTimeline(a: seq<Stamped>, b: seq<Stamped>)
    requires Timeline(a) && Timeline(b)
    ensures Timeline(Merge(a, b))
  {
    if a != [] && b != [] {
      if a[0].at <= b[0].at {
        MergeTimeline(a[1..], b);
        ConsTimeline(a[0], a[1..], b);
      } else {
        MergeTimeline(a, b[1..]);
        ConsTimeline(b[0], a, b[1..]);
      }
    }
  }

  lemma ConsTimeline(x: Stamped, a: seq<Stamped>, b: seq<Stamped>)
    requires Timeline(Merge(a, b)) && x.op.call <= x.at <= x.op.ret
    requires forall i :: 0 <= i < |a| ==> x.at <= a[i].at
    requires forall i :: 0 <= i < |b| ==> x.at <= b[i].at
    ensures Timeline([x] + Merge(a, b))
  {
    var m := Merge(a, b);
    MergeElements(a, b);
    forall j | 0 <= j < |m| ensures x.at <= m[j].at {
      assert m[j] in multiset(m);
      assert m[j] in a || m[j] in b;
    }
  }

  lemma OpsCons(x: Stamped, t: seq<Stamped>)
    ensures Ops([x] + t) == [x.op] + Ops(t)
  {
  }

  /** Merging interleaves two sequences that share no key without disturbing either. */
  lemma {:induction false} MergeProjects(a: seq<Stamped>, b: seq<Stamped>, k: string)
    requires (forall i :: 0 <= i < |a| ==> a[i].op.input.key != k)
          || (forall i :: 0 <= i < |b| ==> b[i].op.input.key != k)
    ensures ForKey(Ops(Merge(a, b)), k) == ForKey(Ops(a), k) + ForKey(Ops(b), k)
  {
    hide ForKey, Ops;
    EmptyProjects(k);
    if a == [] || b == [] {
    } else if a[0].at <= b[0].at {
      MergeProjects(a[1..], b, k);
      ConsProjects(a[0], a[1..], Merge(a[1..], b), k);
      assert a == [a[0]] + a[1..];
    } else {
      MergeProjects(a, b[1..], k);
      ConsProjects(b[0], b[1..], Merge(a, b[1..]), k);
      assert b == [b[0]] + b[1..];
      if b[0].op.input.key == k {
        NoOpWithKey(a, k);
      }
    }
  }

  lemma EmptyProjects(k: string)
    ensures ForKey(Ops([]), k) == []
  {
    assert Ops([]) == [];
  }

  lemma NoOpWithKey(a: seq<Stamped>, k: string)
    requires forall i :: 0 <= i < |a| ==> a[i].op.input.key != k
    ensures ForKey(Ops(a), k) == []
  {
    NoKey(Ops(a), k);
  }

  lemma ConsProjects(x: Stamped, t: seq<Stamped>, m: seq<Stamped>, k: string)
    ensures var px := if x.op.input.key == k then [x.op] else [];
      ForKey(Ops([x] + t), k) == px + ForKey(Ops(t), k) && ForKey(Ops([x] + m), k) == px + ForKey(Ops(m), k)
  {
    OpsCons(x, t);
    OpsCons(x, m);
    ForKeyConcat([x.op], Ops(t), k);
    ForKeyConcat([x.op], Ops(m), k);
  }

  lemma {:induction false} NoKey(s: KvHistory, k: string)
    requires forall i :: 0 <= i < |s| ==> s[i].input.key != k
    ensures ForKey(s, k) == []
  {
    if s != [] {
      NoKey(s[1..], k);
    }
  }

  lemma {:induction false} OnlyKey(s: KvHistory, k: string)
    requires forall i :: 0 <= i < |s| ==> s[i].input.key == k
    ensures ForKey(s, k) == s
  {
    if s != [] {
      OnlyKey(s[1..], k);
    }
  }

  /** Merge the per-key linearizations of the listed keys into one timeline. */
  lemma {:induction false} MergeKeys(h: KvHistory, keys: set<string>) returns (t: seq<Stamped>)
    requires WellTimed(h)
    requires forall k :: k in keys ==> Linearizable(KvModel, ForKey(h, k))
    ensures Timeline(t)
    ensures forall k :: k in keys ==> Linearizes(KvModel, ForKey(h, k), ForKey(Ops(t), k))
    ensures forall k :: k !in keys ==> ForKey(Ops(t), k) == []
    decreases |keys|
  {
    hide ForKey, Ops, Linearizable, Linearizes, WellTimed;
    if keys == {} {
      t := [];
      forall k ensures ForKey(Ops(t), k) == [] {
        EmptyProjects(k);
      }
    } else {
      var key :| key in keys;
      var rest := MergeKeys(h, keys - {key});
      assert Linearizable(KvModel, ForKey(h, key));
      t := AddKey(h, key, rest);
    }
  }

  /** One more key joins the timeline; the others are undisturbed. */
  lemma AddKey(h: KvHistory, key: string, rest: seq<Stamped>) returns (t: seq<Stamped>)
    requires WellTimed(h) && Timeline(rest)
    requires Linearizable(KvModel, ForKey(h, key)) && ForKey(Ops(rest), key) == []
    ensures Timeline(t)
    ensures Linearizes(KvModel, ForKey(h, key), ForKey(Ops(t), key))
    ensures forall k :: k != key ==> ForKey(Ops(t), k) == ForKey(Ops(rest), k)
  {
    var s :| Linearizes(KvModel, ForKey(h, key), s);
    var own := StampOne(h, key, s);
    t := Merge(rest, own);
    MergeTimeline(rest, own);
    forall k ensures ForKey(Ops(t), k) == if k == key then s else ForKey(Ops(rest), k) {
      ProjectMerged(rest, own, s, key, k);
    }
  }

  lemma StampOne(h: KvHistory, key: string, s: KvHistory) returns (own: seq<Stamped>)
    requires WellTimed(h) && Linearizes(KvModel, ForKey(h, key), s)
    ensures Timeline(own) && Ops(own) == s
    ensures forall i :: 0 <= i < |s| ==> s[i].input.key == key
  {
    forall i | 0 <= i < |s| ensures s[i] in h && s[i].input.key == key {
      assert s[i] in multiset(s);
      assert s[i] in ForKey(h, key);
      ForKeyInBounds(h, key, s[i]);
    }
    var lo := LowerBound(s);
    StampTimeline(lo, s);
    own := StampFrom(lo, s);
  }

  lemma {:induction false} LowerBound(s: KvHistory) returns (lo: int)
    ensures forall i :: 0 <= i < |s| ==> lo <= s[i].ret
  {
    if s == [] {
      lo := 0;
    } else {
      lo := LowerBound(s[1..]);
      assert forall i :: 1 <= i < |s| ==> s[i] == s[1..][i - 1];
      lo := if lo < s[0].ret then lo else s[0].ret;
    }
  }

  lemma ProjectMerged(rest: seq<Stamped>, own: seq<Stamped>, s: KvHistory, key: string, k: string)
    requires Ops(own) == s
    requires forall i :: 0 <= i < |s| ==> s[i].input.key == key
    requires ForKey(Ops(rest), key) == []
    ensures ForKey(Ops(Merge(rest, own)), k) == if k == key then s else ForKey(Ops(rest), k)
  {
    assert forall i :: 0 <= i < |own| ==> own[i].op == s[i];
    if k == key {
      forall i | 0 <= i < |rest| ensures rest[i].op.input.key != k {
        assert Ops(rest)[i] == rest[i].op;
        ForKeyInBounds(Ops(rest), k, rest[i].op);
      }
      OnlyKey(s, k);
    } else {
      NoKey(s, k);
    }
    MergeProjects(rest, own, k);
  }

  // ---- the theorem ----

  lemma ProjectLinearization(h: KvHistory, key: string)
    requires Linearizable(MapModel, h)
    ensures Linearizable(KvModel, ForKey(h, key))
  {
    var s :| Linearizes(MapModel, h, s);
    AcceptsPerKey(map[], s);
    ProjectionRespectsRealTime(s, key);
    ProjectionSameMultiset(s, h, key);
    assert Accepts(KvModel, Lookup(map[], key), ForKey(s, key));
    assert Linearizes(KvModel, ForKey(h, key), ForKey(s, key));
  }

  lemma MergeLinearizations(h: KvHistory)
    requires WellTimed(h)
    requires forall k :: k in KeysOf(h) ==> Linearizable(KvModel, ForKey(h, k))
    ensures Linearizable(MapModel, h)
  {
    var t := MergeKeys(h, KeysOf(h));
    var s := Ops(t);
    TimelineRespectsRealTime(t);
    forall o ensures multiset(s)[o] == multiset(h)[o] {
      var k := o.input.key;
      ForKeyCount(s, k, o);
      ForKeyCount(h, k, o);
      if k !in KeysOf(h) {
        NoKey(h, k);
      }
    }
    forall k ensures Accepts(KvModel, Lookup(map[], k), ForKey(s, k)) {
      if k in KeysOf(h) {
        assert Linearizes(KvModel, ForKey(h, k), ForKey(s, k));
      }
    }
    AcceptsPerKey(map[], s);
    assert Linearizes(MapModel, h, s);
  }

  /** The contract of `Partition`: linearizable as a whole if and only if linearizable key by key. */
  lemma LocalityTheorem(h: KvHistory)
    requires WellTimed(h)
    ensures Linearizable(MapModel, h) <==> forall k :: k in KeysOf(h) ==> Linearizable(KvModel, ForKey(h, k))
  {
    if Linearizable(MapModel, h) {
      forall k | k in KeysOf(h) ensures Linearizable(KvModel, ForKey(h, k)) {
        ProjectLinearization(h, k);
      }
    } else if forall k :: k in KeysOf(h) ==> Linearizable(KvModel, ForKey(h, k)) {
      MergeLinearizations(h);
    }
  }
}
