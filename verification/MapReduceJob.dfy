/** A whole job: one map task per file, any number of reduce tasks, map outputs listed in the order the map
    tasks were committed. Its output is the sequential program's, up to the order of lines. */
module MapReduceJob {
  import opened MapReduce
  import opened Permutations

  // ---- partitions ----

  lemma {:induction false} PartConcat(hash: Hash, a: seq<KeyValue>, b: seq<KeyValue>, n: nat, r: nat)
    requires n > 0
    ensures Part(hash, a + b, n, r) == Part(hash, a, n, r) + Part(hash, b, n, r)
  {
    if b == [] {
      assert a + b == a;
    } else {
      var k := |b| - 1;
      PartConcat(hash, a, b[..k], n, r);
      assert a + b == (a + b[..k]) + [b[k]];
      PartSnoc(hash, a + b[..k], b[k], n, r);
    }
  }

  /** A partition holds all of a key or none of it. */
  lemma {:induction false} PartValues(hash: Hash, kvs: seq<KeyValue>, n: nat, r: nat, key: string)
    requires n > 0
    ensures ValuesFor(Part(hash, kvs, n, r), key) == if hash(key) % n == r then ValuesFor(kvs, key) else []
    ensures HasKey(Part(hash, kvs, n, r), key) <==> hash(key) % n == r && HasKey(kvs, key)
  {
    if kvs == [] {
      assert Part(hash, kvs, n, r) == [] && ValuesFor([], key) == [];
    } else {
      var k := |kvs| - 1;
      var front, kv := kvs[..k], kvs[k];
      assert kvs == front + [kv];
      PartValues(hash, front, n, r, key);
      PartSnoc(hash, front, kv, n, r);
      ValuesSnoc(front, kv, key);
      KeySnoc(front, kv, key);
      var p := Part(hash, front, n, r);
      if hash(kv.key) % n == r {
        ValuesSnoc(p, kv, key);
        KeySnoc(p, kv, key);
      } else {
        assert p + [] == p;
        assert ValuesFor(front, key) + [] == ValuesFor(front, key);
      }
    }
  }

  lemma KeySnoc(kvs: seq<KeyValue>, kv: KeyValue, key: string)
    ensures HasKey(kvs + [kv], key) <==> HasKey(kvs, key) || kv.key == key
  {
    var longer := kvs + [kv];
    if HasKey(kvs, key) {
      var i :| 0 <= i < |kvs| && kvs[i].key == key;
      assert longer[i].key == key;
    }
    assert longer[|kvs|] == kv;
  }

  /** Partition r of every file's pairs. */
  ghost function Parts(mapf: Mapf, hash: Hash, files: seq<File>, n: nat, r: nat): (p: seq<seq<KeyValue>>)
    requires n > 0
    ensures |p| == |files|
  {
    seq(|files|, m requires 0 <= m < |files| => Part(hash, MapAll(mapf, [files[m]]), n, r))
  }

  lemma {:induction false} PartOfAll(mapf: Mapf, hash: Hash, files: seq<File>, n: nat, r: nat)
    requires n > 0
    ensures Part(hash, MapAll(mapf, files), n, r) == Flatten(Parts(mapf, hash, files, n, r))
  {
    if files != [] {
      var k := |files| - 1;
      PartOfAll(mapf, hash, files[..k], n, r);
      assert Parts(mapf, hash, files, n, r)[..k] == Parts(mapf, hash, files[..k], n, r);
      MapOne(mapf, files[k]);
      PartConcat(hash, MapAll(mapf, files[..k]), mapf(files[k].name, files[k].content), n, r);
    }
  }

  lemma MapOne(mapf: Mapf, file: File)
    ensures MapAll(mapf, [file]) == mapf(file.name, file.content)
  {
    assert [file][..0] == [];
    assert MapAll(mapf, []) == [];
  }

  // ---- in whatever order map outputs are listed ----

  lemma {:induction false} FlattenRemove<T>(s: seq<seq<T>>, k: nat)
    requires k < |s|
    ensures multiset(Flatten(s)) == multiset(Flatten(Remove(s, k))) + multiset(s[k])
  {
    var n := |s| - 1;
    if k == n {
      assert Remove(s, k) == s[..n];
    } else {
      FlattenRemove(s[..n], k);
      var rest := Remove(s, k);
      assert rest[..n - 1] == Remove(s[..n], k) && rest[n - 1] == s[n];
    }
  }

  lemma {:induction false} FlattenPermuted<T>(s: seq<seq<T>>, t: seq<seq<T>>)
    requires multiset(s) == multiset(t)
    ensures multiset(Flatten(s)) == multiset(Flatten(t))
    decreases |s|
  {
    if s == [] {
      assert |multiset(t)| == 0;
    } else {
      var n := |s| - 1;
      assert s == s[..n] + [s[n]];
      assert s[n] in multiset(t);
      var k :| 0 <= k < |t| && t[k] == s[n];
      RemoveMultiset(t, k);
      assert multiset(s[..n]) == multiset(s) - multiset{s[n]} == multiset(Remove(t, k));
      FlattenPermuted(s[..n], Remove(t, k));
      FlattenRemove(t, k);
    }
  }

  /** The files listed for a reduce task: those of the map tasks, in commit order, that wrote one for it. */
  ghost function Listed(written: seq<map<nat, seq<KeyValue>>>, order: seq<nat>, r: nat): seq<seq<KeyValue>>
    requires forall i :: 0 <= i < |order| ==> order[i] < |written|
  {
    if order == [] then []
    else
      var k := |order| - 1;
      Listed(written, order[..k], r) + if r in written[order[k]] then [written[order[k]][r]] else []
  }

  /** A map task that wrote no file for r had nothing to say to it. */
  lemma {:induction false} ListedAll(written: seq<map<nat, seq<KeyValue>>>, parts: seq<seq<KeyValue>>, order: seq<nat>, r: nat)
    requires |parts| == |written| && forall i :: 0 <= i < |order| ==> order[i] < |written|
    requires forall m: nat :: m < |parts| ==> parts[m] == if r in written[m] then written[m][r] else []
    ensures Flatten(Listed(written, order, r)) == Flatten(Select(parts, order))
  {
    if order != [] {
      var k := |order| - 1;
      ListedAll(written, parts, order[..k], r);
      assert Select(parts, order)[..k] == Select(parts, order[..k]);
      var l := Listed(written, order[..k], r);
      if r in written[order[k]] {
        assert (l + [written[order[k]][r]])[..|l|] == l;
      } else {
        assert l + [] == l && Flatten(l) + [] == Flatten(l);
      }
    }
  }

  /** What a reduce task reads is its partition of everything, reordered. */
  lemma ListedIsPart(mapf: Mapf, hash: Hash, files: seq<File>, n: nat, r: nat,
                     written: seq<map<nat, seq<KeyValue>>>, order: seq<nat>)
    requires n > 0 && r < n && |written| == |files| && Permutation(order, |files|)
    requires forall m: nat :: m < |files| ==> Outputs(mapf, hash, files[m], n, written[m])
    ensures multiset(Flatten(Listed(written, order, r))) == multiset(Part(hash, MapAll(mapf, files), n, r))
  {
    hide Part, MapAll;
    var parts := Parts(mapf, hash, files, n, r);
    forall m: nat | m < |parts| ensures parts[m] == if r in written[m] then written[m][r] else [] {
      assert Outputs(mapf, hash, files[m], n, written[m]);
    }
    ListedAll(written, parts, order, r);
    SelectMultiset(parts, order);
    FlattenPermuted(Select(parts, order), parts);
    PartOfAll(mapf, hash, files, n, r);
  }

  /** What a map task for one file leaves behind. */
  ghost predicate Outputs(mapf: Mapf, hash: Hash, file: File, n: nat, written: map<nat, seq<KeyValue>>)
    requires n > 0
  {
    && (forall r: nat :: r in written <==> r < n && Part(hash, MapAll(mapf, [file]), n, r) != [])
    && (forall r: nat :: r in written ==> written[r] == Part(hash, MapAll(mapf, [file]), n, r))
  }

  // ---- putting the reduce tasks together ----

  /** The lines of the first `upto` partitions. */
  ghost predicate ReducesBelow(reducef: Reducef, hash: Hash, kvs: seq<KeyValue>, n: nat, upto: nat, lines: seq<Line>)
    requires n > 0
  {
    && (forall i, j :: 0 <= i < j < |lines| ==> lines[i].key != lines[j].key)
    && (forall key :: HasLine(lines, key) <==> HasKey(kvs, key) && hash(key) % n < upto)
    && (forall i :: 0 <= i < |lines| ==> LineOk(reducef, kvs, lines[i]))
  }

  lemma PartLine(reducef: Reducef, hash: Hash, kvs: seq<KeyValue>, n: nat, r: nat, line: Line)
    requires n > 0 && LineOk(reducef, Part(hash, kvs, n, r), line) && hash(line.key) % n == r
    ensures LineOk(reducef, kvs, line)
  {
    PartValues(hash, kvs, n, r, line.key);
  }

  lemma LineConcat(a: seq<Line>, b: seq<Line>, key: string)
    ensures HasLine(a + b, key) <==> HasLine(a, key) || HasLine(b, key)
  {
    var s := a + b;
    if HasLine(a, key) {
      var i :| 0 <= i < |a| && a[i].key == key;
      assert s[i].key == key;
    }
    if HasLine(b, key) {
      var i :| 0 <= i < |b| && b[i].key == key;
      assert s[|a| + i].key == key;
    }
  }

  lemma AddPart(reducef: Reducef, hash: Hash, kvs: seq<KeyValue>, n: nat, r: nat, lines: seq<Line>, more: seq<Line>)
    requires n > 0 && r < n && ReducesBelow(reducef, hash, kvs, n, r, lines) && Reduces(reducef, Part(hash, kvs, n, r), more)
    ensures ReducesBelow(reducef, hash, kvs, n, r + 1, lines + more)
  {
    hide Part, LineOk, HasKey;
    forall key ensures HasLine(more, key) <==> HasKey(kvs, key) && hash(key) % n == r {
      PartValues(hash, kvs, n, r, key);
    }
    var all := lines + more;
    forall i | 0 <= i < |all| ensures LineOk(reducef, kvs, all[i]) {
      if i >= |lines| {
        assert HasLine(more, all[i].key);
        PartLine(reducef, hash, kvs, n, r, more[i - |lines|]);
      }
    }
    forall key ensures HasLine(all, key) <==> HasKey(kvs, key) && hash(key) % n < r + 1 {
      LineConcat(lines, more, key);
    }
    forall i, j | 0 <= i < j < |all| ensures all[i].key != all[j].key {
      if i < |lines| <= j {
        assert HasLine(lines, all[i].key) && HasLine(more, all[j].key);
      }
    }
  }

  // ---- the job ----

  /** Map every file, reduce every partition. */
  method RunJob(mapf: Mapf, reducef: Reducef, hash: Hash, files: seq<File>, n: nat, order: seq<nat>) returns (lines: seq<Line>)
    requires n > 0 && Permutation(order, |files|)
    ensures Reduces(reducef, MapAll(mapf, files), lines)
  {
    hide Part, MapAll, Reduces, LineOk, HasKey, ReducesBelow, Outputs, Permutation;
    var written: seq<map<nat, seq<KeyValue>>> := [];
    for m := 0 to |files|
      invariant |written| == m
      invariant forall i: nat :: i < m ==> Outputs(mapf, hash, files[i], n, written[i])
    {
      var w, parts := DoMap(mapf, hash, [files[m]], n);
      assert Outputs(mapf, hash, files[m], n, w) by {
        OutputsOk(mapf, hash, files[m], n, w);
      }
      written := written + [w];
    }
    lines := [];
    NothingBelow(reducef, hash, MapAll(mapf, files), n);
    for r := 0 to n
      invariant ReducesBelow(reducef, hash, MapAll(mapf, files), n, r, lines)
    {
      InRange(order, |files|);
      var inputs := ListFiles(written, order, r);
      var more := DoReduce(reducef, inputs);
      ListedIsPart(mapf, hash, files, n, r, written, order);
      ReducesPermuted(reducef, Flatten(inputs), Part(hash, MapAll(mapf, files), n, r), more);
      AddPart(reducef, hash, MapAll(mapf, files), n, r, lines, more);
      lines := lines + more;
    }
    AllBelow(reducef, hash, MapAll(mapf, files), n, lines);
  }

  lemma InRange(order: seq<nat>, n: nat)
    requires Permutation(order, n)
    ensures forall i :: 0 <= i < |order| ==> order[i] < n
  {
  }

  lemma OutputsOk(mapf: Mapf, hash: Hash, file: File, n: nat, written: map<nat, seq<KeyValue>>)
    requires n > 0
    requires forall r: nat :: r in written <==> r < n && Part(hash, MapAll(mapf, [file]), n, r) != []
    requires forall r: nat :: r in written ==> written[r] == Part(hash, MapAll(mapf, [file]), n, r)
    ensures Outputs(mapf, hash, file, n, written)
  {
  }

  lemma NothingBelow(reducef: Reducef, hash: Hash, kvs: seq<KeyValue>, n: nat)
    requires n > 0
    ensures ReducesBelow(reducef, hash, kvs, n, 0, [])
  {
  }

  lemma AllBelow(reducef: Reducef, hash: Hash, kvs: seq<KeyValue>, n: nat, lines: seq<Line>)
    requires n > 0 && ReducesBelow(reducef, hash, kvs, n, n, lines)
    ensures Reduces(reducef, kvs, lines)
  {
  }

  method ListFiles(written: seq<map<nat, seq<KeyValue>>>, order: seq<nat>, r: nat) returns (inputs: seq<seq<KeyValue>>)
    requires forall i :: 0 <= i < |order| ==> order[i] < |written|
    ensures inputs == Listed(written, order, r)
  {
    inputs := [];
    for i := 0 to |order|
      invariant inputs == Listed(written, order[..i], r)
    {
      assert order[..i + 1][..i] == order[..i];
      if r in written[order[i]] {
        inputs := inputs + [written[order[i]][r]];
      }
    }
    assert order[..|order|] == order;
  }

  /** The distributed job and the sequential program print the same lines, if reduce ignores the order of values. */
  method SameAsSequential(mapf: Mapf, reducef: Reducef, hash: Hash, files: seq<File>, n: nat, order: seq<nat>)
      returns (distributed: seq<Line>, sequential: seq<Line>)
    requires n > 0 && Permutation(order, |files|) && OrderInsensitive(reducef)
    ensures multiset(distributed) == multiset(sequential)
    ensures Reduces(reducef, MapAll(mapf, files), distributed)
  {
    hide Reduces, MapAll;
    distributed := RunJob(mapf, reducef, hash, files, n, order);
    sequential := Sequential(mapf, reducef, files);
    OutputDetermined(reducef, MapAll(mapf, files), distributed, sequential);
  }
}
