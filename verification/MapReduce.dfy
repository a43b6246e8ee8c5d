/** Map, partition, sort and group over many tasks gives the output of the sequential program. */
module MapReduce {
  import opened Sorting

  datatype KeyValue = KeyValue(key: string, value: string)
  datatype File = File(name: string, content: string)

  /** One line of output: a key and what reduce made of its values. */
  datatype Line = Line(key: string, output: string)

  type Mapf = (string, string) -> seq<KeyValue>
  type Reducef = (string, seq<string>) -> string
  type Hash = string -> nat

  function Flatten<T>(s: seq<seq<T>>): seq<T> {
    if s == [] then [] else Flatten(s[..|s| - 1]) + s[|s| - 1]
  }

  // ---- what the output means ----

  function ValuesFor(kvs: seq<KeyValue>, key: string): seq<string> {
    if kvs == [] then []
    else
      var n := |kvs| - 1;
      ValuesFor(kvs[..n], key) + if kvs[n].key == key then [kvs[n].value] else []
  }

  ghost predicate HasKey(kvs: seq<KeyValue>, key: string) {
    exists i :: 0 <= i < |kvs| && kvs[i].key == key
  }

  ghost predicate HasLine(lines: seq<Line>, key: string) {
    exists i :: 0 <= i < |lines| && lines[i].key == key
  }

  /** The line is what reduce makes of the key's values, in some order. */
  ghost predicate LineOk(reducef: Reducef, kvs: seq<KeyValue>, line: Line) {
    exists vals :: multiset(vals) == multiset(ValuesFor(kvs, line.key)) && line.output == reducef(line.key, vals)
  }

  /** One line for every key, none twice, each from exactly that key's values. */
  ghost predicate Reduces(reducef: Reducef, kvs: seq<KeyValue>, lines: seq<Line>) {
    && (forall i, j :: 0 <= i < j < |lines| ==> lines[i].key != lines[j].key)
    && (forall key :: HasLine(lines, key) <==> HasKey(kvs, key))
    && (forall i :: 0 <= i < |lines| ==> LineOk(reducef, kvs, lines[i]))
  }

  ghost predicate OrderInsensitive(reducef: Reducef) {
    forall key, a, b :: multiset(a) == multiset(b) ==> reducef(key, a) == reducef(key, b)
  }

  // ---- values by key ----

  lemma ValuesSnoc(kvs: seq<KeyValue>, kv: KeyValue, key: string)
    ensures ValuesFor(kvs + [kv], key) == ValuesFor(kvs, key) + if kv.key == key then [kv.value] else []
  {
    assert (kvs + [kv])[..|kvs|] == kvs;
  }

  lemma {:induction false} ValuesConcat(a: seq<KeyValue>, b: seq<KeyValue>, key: string)
    ensures ValuesFor(a + b, key) == ValuesFor(a, key) + ValuesFor(b, key)
  {
    if b == [] {
      assert a + b == a && ValuesFor(b, key) == [];
    } else {
      var front, kv := b[..|b| - 1], b[|b| - 1];
      ValuesConcat(a, front, key);
      assert a + b == a + front + [kv] && b == front + [kv];
      ValuesSnoc(a + front, kv, key);
      ValuesSnoc(front, kv, key);
    }
  }

  lemma {:induction false} NoValues(kvs: seq<KeyValue>, key: string)
    requires !HasKey(kvs, key)
    ensures ValuesFor(kvs, key) == []
  {
    if kvs != [] {
      var n := |kvs| - 1;
      assert kvs[n].key != key;
      assert forall i :: 0 <= i < n ==> kvs[..n][i] == kvs[i];
      NoValues(kvs[..n], key);
    }
  }

  /** A key's values, counted. */
  lemma {:induction false} ValuesCount(kvs: seq<KeyValue>, key: string, value: string)
    ensures multiset(ValuesFor(kvs, key))[value] == multiset(kvs)[KeyValue(key, value)]
  {
    if kvs != [] {
      var n := |kvs| - 1;
      var front, kv := kvs[..n], kvs[n];
      ValuesCount(front, key, value);
      assert kvs == front + [kv];
      ValuesSnoc(front, kv, key);
      assert multiset(kvs) == multiset(front) + multiset{kv};
      if kv.key == key {
        assert multiset(ValuesFor(kvs, key)) == multiset(ValuesFor(front, key)) + multiset{kv.value};
        assert kv == KeyValue(key, kv.value);
      }
    }
  }

  lemma ValuesPermuted(a: seq<KeyValue>, b: seq<KeyValue>, key: string)
    requires multiset(a) == multiset(b)
    ensures multiset(ValuesFor(a, key)) == multiset(ValuesFor(b, key))
  {
    forall v ensures multiset(ValuesFor(a, key))[v] == multiset(ValuesFor(b, key))[v] {
      ValuesCount(a, key, v);
      ValuesCount(b, key, v);
    }
  }

  lemma KeyPermuted(a: seq<KeyValue>, b: seq<KeyValue>, key: string)
    requires multiset(a) == multiset(b) && HasKey(a, key)
    ensures HasKey(b, key)
  {
    var i :| 0 <= i < |a| && a[i].key == key;
    assert a[i] in multiset(b);
    var j :| 0 <= j < |b| && b[j] == a[i];
  }

  /** Only which pairs there are matters, not in which order they come. */
  lemma ReducesPermuted(reducef: Reducef, a: seq<KeyValue>, b: seq<KeyValue>, lines: seq<Line>)
    requires Reduces(reducef, a, lines) && multiset(a) == multiset(b)
    ensures Reduces(reducef, b, lines)
  {
    hide ValuesFor, HasKey, HasLine;
    forall key ensures HasLine(lines, key) <==> HasKey(b, key) {
      if HasKey(a, key) {
        KeyPermuted(a, b, key);
      }
      if HasKey(b, key) {
        KeyPermuted(b, a, key);
      }
    }
    forall i | 0 <= i < |lines| ensures LineOk(reducef, b, lines[i]) {
      assert LineOk(reducef, a, lines[i]);
      ValuesPermuted(a, b, lines[i].key);
    }
  }

  /** An output is determined, up to the order of its lines, if reduce does not look at the order of values. */
  lemma OutputDetermined(reducef: Reducef, kvs: seq<KeyValue>, a: seq<Line>, b: seq<Line>)
    requires OrderInsensitive(reducef) && Reduces(reducef, kvs, a) && Reduces(reducef, kvs, b)
    ensures multiset(a) == multiset(b)
  {
    hide OrderInsensitive, ValuesFor, HasKey, LineOk;
    forall x ensures multiset(a)[x] == multiset(b)[x] {
      if x in a {
        LineFound(reducef, kvs, a, b, x);
      }
      if x in b {
        LineFound(reducef, kvs, b, a, x);
      }
      LineOnce(a, x);
      LineOnce(b, x);
    }
  }

  lemma LineFound(reducef: Reducef, kvs: seq<KeyValue>, a: seq<Line>, b: seq<Line>, x: Line)
    requires OrderInsensitive(reducef) && Reduces(reducef, kvs, a) && Reduces(reducef, kvs, b) && x in a
    ensures x in b
  {
    hide ValuesFor, HasKey;
    var i :| 0 <= i < |a| && a[i] == x;
    assert HasLine(a, x.key) && HasLine(b, x.key);
    var j :| 0 <= j < |b| && b[j].key == x.key;
    assert LineOk(reducef, kvs, a[i]) && LineOk(reducef, kvs, b[j]);
  }

  lemma {:induction false} LineOnce(lines: seq<Line>, x: Line)
    requires forall i, j :: 0 <= i < j < |lines| ==> lines[i].key != lines[j].key
    ensures multiset(lines)[x] == if x in lines then 1 else 0
  {
    if lines != [] {
      LineOnce(lines[1..], x);
      assert lines == [lines[0]] + lines[1..];
      assert forall k :: 0 <= k < |lines[1..]| ==> lines[1..][k] == lines[k + 1];
    }
  }

  // ---- sort and group ----

  predicate KeyLess(a: KeyValue, b: KeyValue) {
    LexLess(a.key, b.key)
  }

  lemma KeyOrder()
    ensures StrictWeakOrder(KeyLess)
  {
    hide LexLess;
    LexOrder();
    forall x: KeyValue, y: KeyValue, z: KeyValue ensures !KeyLess(x, x)
        && (KeyLess(x, y) && KeyLess(y, z) ==> KeyLess(x, z))
        && (!KeyLess(x, y) && !KeyLess(y, z) ==> !KeyLess(x, z)) {
    }
  }

  /** Everything before position i has a key that does not occur from i on. */
  ghost predicate Boundary(s: seq<KeyValue>, i: nat) {
    i <= |s| && forall a, b :: 0 <= a < i <= b < |s| ==> s[a].key != s[b].key
  }

  /** A run of equal keys in a sorted sequence is all there is of that key. */
  lemma RunIsBoundary(s: seq<KeyValue>, i: nat, j: nat)
    requires SortedBy(KeyLess, s) && Boundary(s, i) && i < j <= |s|
    requires forall k :: i <= k < j ==> s[k].key == s[i].key
    requires j < |s| ==> s[j].key != s[i].key
    ensures Boundary(s, j)
  {
    hide LexLess;
    forall a, b | 0 <= a < j <= b < |s| ensures s[a].key != s[b].key {
      if a >= i {
        LexTotal(s[i].key, s[j].key);
        LexTotal(s[j].key, s[b].key);
        assert !KeyLess(s[j], s[i]) && (b == j || !KeyLess(s[b], s[j]));
        if s[b].key == s[i].key && b != j {
          assert LexLess(s[i].key, s[j].key);
        }
      }
    }
  }

  lemma {:induction false} ValuesOfRun(s: seq<KeyValue>, key: string, values: seq<string>)
    requires |values| == |s| && forall k :: 0 <= k < |s| ==> s[k] == KeyValue(key, values[k])
    ensures ValuesFor(s, key) == values
  {
    if s != [] {
      var n := |s| - 1;
      ValuesOfRun(s[..n], key, values[..n]);
      assert values == values[..n] + [values[n]];
    }
  }

  /** Pairs of other keys change nothing about a line. */
  lemma LineKept(reducef: Reducef, a: seq<KeyValue>, b: seq<KeyValue>, line: Line)
    requires LineOk(reducef, a, line) && !HasKey(b, line.key)
    ensures LineOk(reducef, a + b, line)
  {
    ValuesConcat(a, b, line.key);
    NoValues(b, line.key);
    assert ValuesFor(a + b, line.key) == ValuesFor(a, line.key);
  }

  lemma LineOfRun(reducef: Reducef, a: seq<KeyValue>, b: seq<KeyValue>, key: string, values: seq<string>)
    requires !HasKey(a, key) && |values| == |b| && forall k :: 0 <= k < |b| ==> b[k] == KeyValue(key, values[k])
    ensures LineOk(reducef, a + b, Line(key, reducef(key, values)))
  {
    ValuesConcat(a, b, key);
    NoValues(a, key);
    ValuesOfRun(b, key, values);
    assert ValuesFor(a + b, key) == values;
  }

  /** One more run of a new key, and its line. */
  lemma ReducesRun(reducef: Reducef, a: seq<KeyValue>, b: seq<KeyValue>, key: string, values: seq<string>, lines: seq<Line>)
    requires Reduces(reducef, a, lines) && !HasKey(a, key) && b != []
    requires |values| == |b| && forall k :: 0 <= k < |b| ==> b[k] == KeyValue(key, values[k])
    ensures Reduces(reducef, a + b, lines + [Line(key, reducef(key, values))])
  {
    hide ValuesFor, LineOk;
    var line := Line(key, reducef(key, values));
    var lines' := lines + [line];
    assert !HasLine(lines, key);
    forall i | 0 <= i < |lines'| ensures LineOk(reducef, a + b, lines'[i]) {
      if i < |lines| {
        assert lines[i].key != key;
        assert !HasKey(b, lines[i].key);
        LineKept(reducef, a, b, lines[i]);
      } else {
        LineOfRun(reducef, a, b, key, values);
      }
    }
    forall k ensures HasLine(lines', k) <==> HasKey(a + b, k) {
      RunKeys(a, b, key, k);
      LineKeys(lines, line, k);
    }
  }

  lemma RunKeys(a: seq<KeyValue>, b: seq<KeyValue>, key: string, k: string)
    requires b != [] && forall i :: 0 <= i < |b| ==> b[i].key == key
    ensures HasKey(a + b, k) <==> HasKey(a, k) || k == key
  {
    var s := a + b;
    if HasKey(a, k) {
      var i :| 0 <= i < |a| && a[i].key == k;
      assert s[i].key == k;
    }
    assert s[|a|] == b[0];
  }

  lemma LineKeys(lines: seq<Line>, line: Line, k: string)
    ensures HasLine(lines + [line], k) <==> HasLine(lines, k) || k == line.key
  {
    var longer := lines + [line];
    if HasLine(lines, k) {
      var i :| 0 <= i < |lines| && lines[i].key == k;
      assert longer[i].key == k;
    }
    assert longer[|lines|] == line;
  }

  /** Lines come in the order of their keys. */
  ghost predicate InKeyOrder(lines: seq<Line>) {
    forall i, j :: 0 <= i < j < |lines| ==> LexLess(lines[i].key, lines[j].key)
  }

  lemma NextInOrder(reducef: Reducef, s: seq<KeyValue>, i: nat, lines: seq<Line>, output: string)
    requires SortedBy(KeyLess, s) && Boundary(s, i) && i < |s| && Reduces(reducef, s[..i], lines) && InKeyOrder(lines)
    ensures InKeyOrder(lines + [Line(s[i].key, output)])
  {
    hide LexLess, LineOk;
    forall k | 0 <= k < |lines| ensures LexLess(lines[k].key, s[i].key) {
      assert HasLine(lines, lines[k].key) && HasKey(s[..i], lines[k].key);
      var a :| 0 <= a < i && s[..i][a].key == lines[k].key;
      assert !KeyLess(s[i], s[a]);
      LexTotal(s[a].key, s[i].key);
    }
  }

  /** Calls reduce on each run of equal keys of a sorted sequence. */
  method GroupReduce(reducef: Reducef, s: seq<KeyValue>) returns (lines: seq<Line>)
    requires SortedBy(KeyLess, s)
    ensures Reduces(reducef, s, lines) && InKeyOrder(lines)
  {
    hide Reduces, SortedBy, ValuesFor, HasKey, InKeyOrder;
    lines := [];
    var i := 0;
    assert Reduces(reducef, s[..0], lines) && InKeyOrder(lines) by {
      NothingReduced(reducef);
    }
    while i < |s|
      invariant 0 <= i <= |s| && Boundary(s, i) && Reduces(reducef, s[..i], lines) && InKeyOrder(lines)
    {
      var j := i + 1;
      while j < |s| && s[j].key == s[i].key
        invariant i < j <= |s| && forall k :: i <= k < j ==> s[k].key == s[i].key
      {
        j := j + 1;
      }
      var values := [];
      for k := i to j
        invariant |values| == k - i && forall x :: 0 <= x < |values| ==> values[x] == s[i + x].value
      {
        values := values + [s[k].value];
      }
      NewKey(s, i);
      ReducesRun(reducef, s[..i], s[i..j], s[i].key, values, lines);
      NextInOrder(reducef, s, i, lines, reducef(s[i].key, values));
      assert s[..i] + s[i..j] == s[..j];
      lines := lines + [Line(s[i].key, reducef(s[i].key, values))];
      RunIsBoundary(s, i, j);
      i := j;
    }
    assert s[..i] == s;
  }

  lemma NothingReduced(reducef: Reducef)
    ensures Reduces(reducef, [], []) && InKeyOrder([])
  {
  }

  lemma NewKey(s: seq<KeyValue>, i: nat)
    requires Boundary(s, i) && i < |s|
    ensures !HasKey(s[..i], s[i].key)
  {
  }

  /** A reduce task: read the files, sort, group. */
  method DoReduce(reducef: Reducef, files: seq<seq<KeyValue>>) returns (lines: seq<Line>)
    ensures Reduces(reducef, Flatten(files), lines) && InKeyOrder(lines)
  {
    hide Reduces, SortedBy, StrictWeakOrder, InKeyOrder;
    var intermediate := [];
    for f := 0 to |files|
      invariant intermediate == Flatten(files[..f])
    {
      assert files[..f + 1][..f] == files[..f];
      intermediate := intermediate + files[f];
    }
    assert files[..|files|] == files;
    KeyOrder();
    var sorted := Sort(KeyLess, intermediate);
    lines := GroupReduce(reducef, sorted);
    ReducesPermuted(reducef, sorted, intermediate, lines);
  }

  // ---- the sequential program ----

  /** What map emits for all the files, in order. */
  function MapAll(mapf: Mapf, files: seq<File>): seq<KeyValue> {
    if files == [] then []
    else
      var n := |files| - 1;
      MapAll(mapf, files[..n]) + mapf(files[n].name, files[n].content)
  }

  method Sequential(mapf: Mapf, reducef: Reducef, files: seq<File>) returns (lines: seq<Line>)
    ensures Reduces(reducef, MapAll(mapf, files), lines) && InKeyOrder(lines)
  {
    hide Reduces, SortedBy, StrictWeakOrder, InKeyOrder;
    var intermediate := [];
    for f := 0 to |files|
      invariant intermediate == MapAll(mapf, files[..f])
    {
      assert files[..f + 1][..f] == files[..f];
      intermediate := intermediate + mapf(files[f].name, files[f].content);
    }
    assert files[..|files|] == files;
    KeyOrder();
    var sorted := Sort(KeyLess, intermediate);
    lines := GroupReduce(reducef, sorted);
    ReducesPermuted(reducef, sorted, intermediate, lines);
  }

  // ---- map tasks ----

  /** The pairs that belong to partition r of n. */
  function Part(hash: Hash, kvs: seq<KeyValue>, n: nat, r: nat): seq<KeyValue>
    requires n > 0
  {
    if kvs == [] then []
    else
      var k := |kvs| - 1;
      Part(hash, kvs[..k], n, r) + if hash(kvs[k].key) % n == r then [kvs[k]] else []
  }

  /** A map task: the pairs of each partition, in the order map emitted them, as the contents of one file per
      partition that is not empty; and the list of those partitions, once for each input file read so far. */
  method DoMap(mapf: Mapf, hash: Hash, files: seq<File>, nReduce: nat) returns (written: map<nat, seq<KeyValue>>, parts: seq<nat>)
    requires nReduce > 0
    ensures forall r: nat :: r in written <==> r < nReduce && Part(hash, MapAll(mapf, files), nReduce, r) != []
    ensures forall r: nat :: r in written ==> written[r] == Part(hash, MapAll(mapf, files), nReduce, r)
    ensures forall r: nat :: r in parts <==> r in written
    ensures |files| == 1 ==> forall i, j :: 0 <= i < j < |parts| ==> parts[i] < parts[j]
  {
    hide Part, MapAll;
    var buckets := seq(nReduce, _ => []);
    written, parts := map[], [];
    EmptyParts(mapf, hash, nReduce);
    for f := 0 to |files|
      invariant |buckets| == nReduce
      invariant forall r: nat :: r < nReduce ==> buckets[r] == Part(hash, MapAll(mapf, files[..f]), nReduce, r)
      invariant Written(buckets, nReduce, written, parts)
      invariant f == 0 ==> parts == [] && written == map[]
      invariant f == 1 ==> forall i, j :: 0 <= i < j < |parts| ==> parts[i] < parts[j]
    {
      var kva := mapf(files[f].name, files[f].content);
      MapSnoc(mapf, files, f);
      buckets := Distribute(hash, MapAll(mapf, files[..f]), kva, buckets, nReduce);
      var more;
      written, more := WriteFiles(buckets, nReduce, written, parts);
      parts := parts + more;
    }
    assert files[..|files|] == files;
  }

  ghost predicate Written(buckets: seq<seq<KeyValue>>, n: nat, written: map<nat, seq<KeyValue>>, parts: seq<nat>) {
    && |buckets| == n
    && (forall r: nat :: r in written <==> r < n && buckets[r] != [])
    && (forall r: nat :: r in written ==> written[r] == buckets[r])
    && (forall r: nat :: r in parts <==> r in written)
  }

  lemma EmptyParts(mapf: Mapf, hash: Hash, n: nat)
    requires n > 0
    ensures forall r :: Part(hash, MapAll(mapf, []), n, r) == []
  {
  }

  lemma MapSnoc(mapf: Mapf, files: seq<File>, f: nat)
    requires f < |files|
    ensures MapAll(mapf, files[..f + 1]) == MapAll(mapf, files[..f]) + mapf(files[f].name, files[f].content)
  {
    assert files[..f + 1][..f] == files[..f];
  }

  lemma PartSnoc(hash: Hash, kvs: seq<KeyValue>, kv: KeyValue, n: nat, r: nat)
    requires n > 0
    ensures Part(hash, kvs + [kv], n, r) == Part(hash, kvs, n, r) + if hash(kv.key) % n == r then [kv] else []
  {
    assert (kvs + [kv])[..|kvs|] == kvs;
  }

  /** Append each pair to the bucket of its partition. */
  method Distribute(hash: Hash, ghost before: seq<KeyValue>, kva: seq<KeyValue>, buckets: seq<seq<KeyValue>>, n: nat)
      returns (r: seq<seq<KeyValue>>)
    requires n > 0 && |buckets| == n && forall i: nat :: i < n ==> buckets[i] == Part(hash, before, n, i)
    ensures |r| == n && forall i: nat :: i < n ==> r[i] == Part(hash, before + kva, n, i)
    ensures forall i: nat :: i < n && buckets[i] != [] ==> r[i] != []
  {
    hide Part;
    r := buckets;
    assert before + kva[..0] == before;
    for k := 0 to |kva|
      invariant |r| == n && forall i: nat :: i < n ==> r[i] == Part(hash, before + kva[..k], n, i)
      invariant forall i: nat :: i < n && buckets[i] != [] ==> r[i] != []
    {
      var num := hash(kva[k].key) % n;
      forall i: nat | i < n
        ensures Part(hash, before + kva[..k + 1], n, i) == Part(hash, before + kva[..k], n, i) + if num == i then [kva[k]] else []
      {
        assert before + kva[..k + 1] == before + kva[..k] + [kva[k]];
        PartSnoc(hash, before + kva[..k], kva[k], n, i);
      }
      r := r[num := r[num] + [kva[k]]];
    }
    assert kva[..|kva|] == kva;
  }

  /** Write out every bucket that is not empty, replacing what an earlier round wrote. */
  method WriteFiles(buckets: seq<seq<KeyValue>>, n: nat, before: map<nat, seq<KeyValue>>, ghost parts: seq<nat>)
      returns (written: map<nat, seq<KeyValue>>, more: seq<nat>)
    requires |buckets| == n && (forall r: nat :: r in before ==> r < n && buckets[r] != []) && (forall r: nat :: r in parts <==> r in before)
    ensures Written(buckets, n, written, parts + more)
    ensures forall i, j :: 0 <= i < j < |more| ==> more[i] < more[j]
  {
    written, more := before, [];
    for i := 0 to n
      invariant forall r: nat :: r in written <==> r in before || (r < i && buckets[r] != [])
      invariant forall r: nat :: r in written ==> written[r] == if r < i then buckets[r] else before[r]
      invariant forall r: nat :: r in more <==> r < i && buckets[r] != []
      invariant (forall a :: 0 <= a < |more| ==> more[a] < i) && (forall a, b :: 0 <= a < b < |more| ==> more[a] < more[b])
    {
      if |buckets[i]| != 0 {
        more := more + [i];
        written := written[i := buckets[i]];
      }
    }
  }
}
