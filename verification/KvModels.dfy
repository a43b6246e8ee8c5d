/** The single-key model the checker runs, and the partition of a history by key. */
module KvModels {
  import opened Linearizability
  import opened Permutations
  import opened Sorting

  type Uint8 = x: int | 0 <= x < 256

  /** op: 0 get, 1 put, 2 append, anything else append with a return value. */
  datatype KvInput = KvInput(op: Uint8, key: string, value: string)
  datatype KvOutput = KvOutput(value: string)

  type KvOperation = Operation<KvInput, KvOutput>
  type KvHistory = History<KvInput, KvOutput>

  /** One key's value; the key itself is ignored because histories are partitioned by key. */
  function Step(state: string, inp: KvInput, out: KvOutput): (bool, string) {
    if inp.op == 0 then (out.value == state, state)
    else if inp.op == 1 then (true, inp.value)
    else if inp.op == 2 then (true, state + inp.value)
    else (out.value == state, state + inp.value)
  }

  const KvModel: Model<string, KvInput, KvOutput> := Model("", Step)

  // ---- what the model accepts ----

  /** The position of the last put, or -1. */
  ghost function LastPut(s: KvHistory): (j: int)
    ensures -1 <= j < |s| && (j >= 0 ==> s[j].input.op == 1)
    ensures forall i :: j < i < |s| ==> s[i].input.op != 1
  {
    if s == [] then -1
    else if s[|s| - 1].input.op == 1 then |s| - 1
    else LastPut(s[..|s| - 1])
  }

  /** All that is appended, one after the other; op 2 and anything above appends. */
  ghost function Appended(s: KvHistory): string {
    if s == [] then ""
    else Appended(s[..|s| - 1]) + if s[|s| - 1].input.op >= 2 then s[|s| - 1].input.value else ""
  }

  /** The value the writes of `s` leave, whatever any operation returned: what was put last, if anything, and all that
      was appended since. */
  ghost function ValueLeft(s: KvHistory): string {
    var j := LastPut(s);
    (if j >= 0 then s[j].input.value else "") + Appended(s[j + 1..])
  }

  /** Gets and appends with a return value return the value; put and plain append return nothing that counts. */
  predicate Returns(inp: KvInput) {
    inp.op == 0 || inp.op > 2
  }

  ghost predicate ReturnsRight(s: KvHistory, i: nat)
    requires i < |s|
  {
    Returns(s[i].input) ==> s[i].output.value == ValueLeft(s[..i])
  }

  lemma ValueSnoc(s: KvHistory, o: KvOperation)
    ensures var v := ValueLeft(s); var inp := o.input;
      ValueLeft(s + [o]) == if inp.op == 0 then v else if inp.op == 1 then inp.value else v + inp.value
  {
    var t, j := s + [o], LastPut(s);
    assert t[..|s|] == s;
    if o.input.op == 1 {
      assert LastPut(t) == |s| && t[|s| + 1..] == [];
    } else {
      assert LastPut(t) == j;
      assert t[j + 1..] == s[j + 1..] + [o];
      assert (s[j + 1..] + [o])[..|s[j + 1..]|] == s[j + 1..];
    }
  }

  /** The state after a step is the value left; the step is accepted exactly if what it returns is the value before. */
  lemma StepMeaning(s: KvHistory, o: KvOperation)
    ensures Step(ValueLeft(s), o.input, o.output) == (Returns(o.input) ==> o.output.value == ValueLeft(s), ValueLeft(s + [o]))
  {
    hide ValueLeft;
    ValueSnoc(s, o);
  }

  lemma {:induction false} AcceptsFrom(s: KvHistory, n: nat)
    requires n <= |s|
    ensures Accepts(KvModel, ValueLeft(s[..n]), s[n..]) <==> forall i: nat :: n <= i < |s| ==> ReturnsRight(s, i)
    decreases |s| - n
  {
    hide ValueLeft;
    if n < |s| {
      AcceptsFrom(s, n + 1);
      StepMeaning(s[..n], s[n]);
      assert s[..n] + [s[n]] == s[..n + 1];
      assert s[n..][1..] == s[n + 1..] && s[n..][0] == s[n];
      assert ReturnsRight(s, n) <==> Step(ValueLeft(s[..n]), s[n].input, s[n].output).0;
    }
  }

  /** The single-key model accepts a sequence if and only if every get and every append with a return value returned
      exactly the value that the writes before it left. */
  lemma KvAcceptsIff(s: KvHistory)
    ensures Accepts(KvModel, KvModel.init, s) <==> forall i: nat :: i < |s| ==> ReturnsRight(s, i)
  {
    hide Accepts, ReturnsRight, ValueLeft;
    NothingLeft();
    assert s[..0] == [] && s[0..] == s;
    AcceptsFrom(s, 0);
  }

  lemma NothingLeft()
    ensures ValueLeft([]) == ""
  {
    var none: KvHistory := [];
    assert LastPut(none) == -1;
    assert none[0..] == none;
    assert Appended(none) == "";
  }

  // ---- one key's operations ----

  /** The operations on one key, in history order. */
  function ForKey(h: KvHistory, key: string): KvHistory {
    if h == [] then []
    else (if h[0].input.key == key then [h[0]] else []) + ForKey(h[1..], key)
  }

  ghost function KeysOf(h: KvHistory): set<string> {
    set i | 0 <= i < |h| :: h[i].input.key
  }

  lemma ForKeyUnfold(h: KvHistory, key: string)
    ensures h == [] ==> ForKey(h, key) == []
    ensures h != [] ==> ForKey(h, key) == (if h[0].input.key == key then [h[0]] else []) + ForKey(h[1..], key)
  {
  }

  lemma {:induction false} ForKeyConcat(a: KvHistory, b: KvHistory, key: string)
    ensures ForKey(a + b, key) == ForKey(a, key) + ForKey(b, key)
  {
    hide ForKey;
    ForKeyUnfold(a, key);
    if a == [] {
      assert a + b == b;
    } else {
      ForKeyUnfold(a + b, key);
      ForKeyConcat(a[1..], b, key);
      assert (a + b)[1..] == a[1..] + b;
    }
  }

  /** Filtering by key keeps exactly the occurrences with that key. */
  lemma {:induction false} ForKeyCount(h: KvHistory, key: string, o: KvOperation)
    ensures multiset(ForKey(h, key))[o] == if o.input.key == key then multiset(h)[o] else 0
  {
    if h != [] {
      ForKeyCount(h[1..], key, o);
      assert h == [h[0]] + h[1..];
    }
  }

  /** One part per key, in the order of the sorted keys, holding that key's operations in history order. */
  ghost predicate PartsByKey(history: KvHistory, keys: seq<string>, parts: seq<KvHistory>) {
    && |parts| == |keys|
    && (forall i :: 0 <= i < |parts| ==> parts[i] == ForKey(history, keys[i]))
    && (forall i, j :: 0 <= i < j < |keys| ==> LexLess(keys[i], keys[j]))
    && (set k | k in keys) == KeysOf(history)
  }

  /** Splits the history by key. */
  method Partition(history: KvHistory) returns (ret: seq<KvHistory>)
    ensures exists keys :: PartsByKey(history, keys, ret)
  {
    hide ForKey, LexLess, KeysOf;
    var m := Group(history);
    var keys := SortedKeys(m.Keys);
    ret := [];
    for i := 0 to |keys|
      invariant |ret| == i
      invariant forall j :: 0 <= j < i ==> ret[j] == ForKey(history, keys[j])
    {
      assert keys[i] in m.Keys;
      ret := ret + [m[keys[i]]];
    }
    assert PartsByKey(history, keys, ret);
  }

  /** The first loop of the partition: append every operation to its key's slice. */
  method Group(history: KvHistory) returns (m: map<string, KvHistory>)
    ensures Grouped(m, history)
  {
    hide Grouped;
    m := map[];
    GroupedNone();
    for n := 0 to |history|
      invariant Grouped(m, history[..n])
    {
      var key := history[n].input.key;
      GroupedSnoc(m, history[..n], history[n]);
      assert history[..n + 1] == history[..n] + [history[n]];
      m := m[key := (if key in m then m[key] else []) + [history[n]]];
    }
    assert history[..|history|] == history;
  }

  /** `m` holds the operations of `h` by key. */
  ghost predicate Grouped(m: map<string, KvHistory>, h: KvHistory) {
    && m.Keys == KeysOf(h)
    && forall k :: ForKey(h, k) == if k in m then m[k] else []
  }

  lemma GroupedNone()
    ensures Grouped(map[], [])
  {
  }

  lemma GroupedSnoc(m: map<string, KvHistory>, h: KvHistory, v: KvOperation)
    requires Grouped(m, h)
    ensures var key := v.input.key;
      Grouped(m[key := (if key in m then m[key] else []) + [v]], h + [v])
  {
    hide KeysOf;
    var key := v.input.key;
    var m' := m[key := (if key in m then m[key] else []) + [v]];
    KeysOfSnoc(h, v);
    forall k ensures ForKey(h + [v], k) == if k in m' then m'[k] else [] {
      ForKeyConcat(h, [v], k);
    }
  }

  lemma KeysOfSnoc(h: KvHistory, v: KvOperation)
    ensures KeysOf(h + [v]) == KeysOf(h) + {v.input.key}
  {
    forall k | k in KeysOf(h) + {v.input.key} ensures k in KeysOf(h + [v]) {
      if k in KeysOf(h) {
        var i :| 0 <= i < |h| && h[i].input.key == k;
        assert (h + [v])[i].input.key == k;
      } else {
        assert (h + [v])[|h|].input.key == k;
      }
    }
  }

  /** Map iteration gives the keys in any order; they are then sorted. */
  method SortedKeys(s: set<string>) returns (r: seq<string>)
    ensures (set k | k in r) == s
    ensures forall i, j :: 0 <= i < j < |r| ==> LexLess(r[i], r[j])
  {
    var todo, keys := s, [];
    while todo != {}
      invariant (set k | k in keys) + todo == s
      invariant (set k | k in keys) !! todo
      invariant forall i, j :: 0 <= i < j < |keys| ==> keys[i] != keys[j]
      decreases |todo|
    {
      var k :| k in todo;
      todo := todo - {k};
      keys := keys + [k];
    }
    LexOrder();
    r := Sort(LexLess, keys);
    SortDistinct(keys, r);
  }

  lemma SortDistinct(keys: seq<string>, r: seq<string>)
    requires forall i, j :: 0 <= i < j < |keys| ==> keys[i] != keys[j]
    requires multiset(r) == multiset(keys) && SortedBy(LexLess, r)
    ensures (set k | k in r) == (set k | k in keys)
    ensures forall i, j :: 0 <= i < j < |r| ==> LexLess(r[i], r[j])
  {
    forall k ensures k in r <==> k in keys {
      assert k in multiset(r) <==> k in multiset(keys);
    }
    forall i, j | 0 <= i < j < |r| ensures LexLess(r[i], r[j]) {
      LexTotal(r[i], r[j]);
      if r[i] == r[j] {
        Twice(r, i, j);
        Once(keys, r[i]);
      }
    }
  }
}
