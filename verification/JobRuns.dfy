/** Runs of the coordinator with workers that do the work: map tasks read the files they were told and leave files on
    disk, reduce tasks read the files they were told and print lines. When the coordinator is done, what has been printed is the sequential program's
    output, whoever did what when. */
module JobRuns {
  import opened MapReduce
  import opened Coordinator
  import J = MapReduceJob
  import R = CoordinatorRuns

  datatype Program = Program(mapf: Mapf, reducef: Reducef, hash: Hash, files: seq<File>)

  /** What a file holds: text to map, or pairs a map task wrote. */
  datatype Content = Text(file: File) | Pairs(kvs: seq<KeyValue>)

  type Disk = map<Name, Content>

  datatype Work = Work(sys: R.System, disk: Disk, printed: map<nat, seq<Line>>)

  // ---- what workers do ----

  predicate HasTexts(disk: Disk, names: seq<Name>) {
    forall i :: 0 <= i < |names| ==> names[i] in disk && disk[names[i]].Text?
  }

  function Texts(disk: Disk, names: seq<Name>): seq<File>
    requires HasTexts(disk, names)
  {
    seq(|names|, i requires 0 <= i < |names| => disk[names[i]].file)
  }

  /** The files a map task writes and the partitions it reports, from the files it read. */
  ghost predicate MapsTo(p: Program, texts: seq<File>, n: int, written: map<nat, seq<KeyValue>>, parts: seq<nat>) {
    && n > 0
    && (forall r: nat :: r in written <==> r < n && Part(p.hash, MapAll(p.mapf, texts), n, r) != [])
    && (forall r: nat :: r in written ==> written[r] == Part(p.hash, MapAll(p.mapf, texts), n, r))
    && forall r: nat :: r in parts <==> r in written
  }

  /** A map worker reads what it was told. */
  method MapWorker(p: Program, disk: Disk, names: seq<Name>, n: nat) returns (written: map<nat, seq<KeyValue>>, parts: seq<nat>)
    requires HasTexts(disk, names) && n > 0
    ensures MapsTo(p, Texts(disk, names), n, written, parts)
    ensures |names| == 1 ==> R.Reports(parts, n)
  {
    hide Part, MapAll;
    written, parts := DoMap(p.mapf, p.hash, Texts(disk, names), n);
    forall i | 0 <= i < |parts| ensures parts[i] < n {
      assert parts[i] in parts;
    }
  }

  function Stored(m: nat, written: map<nat, seq<KeyValue>>): Disk {
    map r | r in written :: Mid(m, r) := Pairs(written[r])
  }

  ghost predicate Readable(disk: Disk, names: seq<Name>) {
    forall i :: 0 <= i < |names| ==> names[i] in disk && disk[names[i]].Pairs?
  }

  ghost function Contents(disk: Disk, names: seq<Name>): seq<seq<KeyValue>>
    requires Readable(disk, names)
  {
    seq(|names|, i requires 0 <= i < |names| => disk[names[i]].kvs)
  }

  ghost predicate Maps(p: Program, x: Work, x': Work, h: R.Held, parts: seq<nat>, written: map<nat, seq<KeyValue>>) {
    && HasTexts(x.disk, h.files) && MapsTo(p, Texts(x.disk, h.files), h.nReduce, written, parts)
    && x'.disk == x.disk + Stored(h.num, written) && x'.printed == x.printed
  }

  ghost predicate Prints(p: Program, x: Work, x': Work, h: R.Held, lines: seq<Line>) {
    && Readable(x.disk, h.files) && Reduces(p.reducef, Flatten(Contents(x.disk, h.files)), lines)
    && x'.disk == x.disk && x'.printed == x.printed[h.num := lines]
  }

  ghost predicate Works(p: Program, x: Work, x': Work, a: R.Step) {
    && R.Can(x.sys, a) && R.InRange(x.sys, a) && x'.sys == R.Take(x.sys, a)
    && match a
       case Ask(_) => x'.disk == x.disk && x'.printed == x.printed
       case Finish(w, parts) =>
         var h := x.sys.held[w];
         if h.kind == MapTask then exists written :: Maps(p, x, x', h, parts, written)
         else exists lines :: Prints(p, x, x', h, lines)
  }

  /** Before the job there are the input files and nothing else. */
  ghost predicate InputsOnly(p: Program, disk: Disk) {
    disk == map i: nat | i < |p.files| :: Input(i) := Text(p.files[i])
  }

  ghost predicate JobRun(p: Program, n: nat, run: seq<Work>, steps: seq<R.Step>) {
    && |run| == |steps| + 1 && R.Start(run[0].sys, n) && run[0].sys.job.nfile == |p.files|
    && InputsOnly(p, run[0].disk) && run[0].printed == map[]
    && forall k :: 0 <= k < |steps| ==> Works(p, run[k], run[k + 1], steps[k])
  }

  // ---- the invariant ----

  /** A reduce task's list of files does not change while a worker is busy with it. */
  ghost predicate Current(s: R.System) {
    forall w :: w in s.held && s.held[w].kind == ReduceTask && s.held[w].num < |s.job.reduces| ==>
      s.held[w].files == s.job.reduces[s.held[w].num].files
  }

  ghost function WrittenBy(x: Work, m: nat): map<nat, seq<KeyValue>> {
    if m in x.sys.parts
    then map r | r in x.sys.parts[m] && Mid(m, r) in x.disk && x.disk[Mid(m, r)].Pairs? :: x.disk[Mid(m, r)].kvs else map[]
  }

  /** What map task m reported is on disk and is its output. */
  ghost predicate OnDisk(p: Program, n: nat, x: Work, m: nat) {
    && n > 0 && m < |p.files| && m in x.sys.parts
    && (forall r :: r in x.sys.parts[m] ==> Mid(m, r) in x.disk && x.disk[Mid(m, r)].Pairs?)
    && J.Outputs(p.mapf, p.hash, p.files[m], n, WrittenBy(x, m))
  }

  ghost predicate Printed(p: Program, n: nat, x: Work, r: nat) {
    n > 0 && r in x.printed && Reduces(p.reducef, Part(p.hash, MapAll(p.mapf, p.files), n, r), x.printed[r])
  }

  ghost predicate Inputs(p: Program, disk: Disk) {
    forall i: nat :: i < |p.files| ==> Input(i) in disk && disk[Input(i)] == Text(p.files[i])
  }

  ghost predicate Fine(p: Program, n: nat, x: Work) {
    && R.Inv(x.sys, n) && x.sys.job.nfile == |p.files| && Current(x.sys) && Inputs(p, x.disk)
    && (forall m :: m in x.sys.order ==> OnDisk(p, n, x, m))
    && (forall r: nat :: r < |x.sys.job.reduces| && x.sys.job.reduces[r].state == Completed ==> Printed(p, n, x, r))
  }

  // ---- asking ----

  lemma AskCurrent(s: R.System, w: int)
    requires Current(s) && R.Can(s, R.Ask(w))
    ensures var s' := R.Take(s, R.Ask(w));
      && Current(s') && s'.order == s.order && s'.parts == s.parts && s'.job.nfile == s.job.nfile
      && |s'.job.reduces| == |s.job.reduces|
      && forall r: nat :: r < |s.job.reduces| ==> (s'.job.reduces[r].state == Completed ==> s.job.reduces[r].state == Completed)
  {
  }

  lemma SameDisk(p: Program, n: nat, x: Work, x': Work, m: nat)
    requires OnDisk(p, n, x, m) && x'.disk == x.disk && m in x'.sys.parts && x'.sys.parts[m] == x.sys.parts[m]
    ensures OnDisk(p, n, x', m)
  {
    hide J.Outputs;
    assert WrittenBy(x', m) == WrittenBy(x, m);
  }

  lemma AskFine(p: Program, n: nat, x: Work, x': Work, w: int)
    requires Fine(p, n, x) && Works(p, x, x', R.Ask(w))
    ensures Fine(p, n, x')
  {
    hide R.Inv, Current, OnDisk, Reduces, Part, MapAll, R.Take;
    R.TakeKeeps(x.sys, n, R.Ask(w));
    AskCurrent(x.sys, w);
    forall m | m in x'.sys.order ensures OnDisk(p, n, x', m) {
      OnDiskHas(p, n, x, m);
      SameDisk(p, n, x, x', m);
    }
  }

  lemma OnDiskHas(p: Program, n: nat, x: Work, m: nat)
    requires OnDisk(p, n, x, m)
    ensures m in x.sys.parts
  {
  }

  // ---- finishing a map task ----

  /** While a map task is unfinished no reduce task is given out. */
  lemma FinishMapCurrent(s: R.System, n: nat, w: int, parts: seq<nat>)
    requires R.Inv(s, n) && R.Can(s, R.Finish(w, parts)) && R.InRange(s, R.Finish(w, parts)) && s.held[w].kind == MapTask
    ensures s.held[w].num !in s.order && s.held[w].num < |s.job.maps| == s.job.nfile && s.held[w].nReduce == n
    ensures s.held[w].files == [Input(s.held[w].num)]
    ensures Current(R.Take(s, R.Finish(w, parts)))
  {
    hide R.Names, R.DoneSet, ListFiles;
    var m := s.held[w].num;
    assert s.job.maps[m].state == InProc;
  }

  /** What a map worker reads is its task's own file. */
  lemma OwnText(p: Program, disk: Disk, h: R.Held)
    requires Inputs(p, disk) && h.num < |p.files| && h.files == [Input(h.num)]
    ensures HasTexts(disk, h.files) && Texts(disk, h.files) == [p.files[h.num]]
  {
  }

  lemma InputsStay(p: Program, disk: Disk, m: nat, written: map<nat, seq<KeyValue>>)
    requires Inputs(p, disk)
    ensures Inputs(p, disk + Stored(m, written))
  {
  }

  /** What was stored is what is read back. */
  lemma ReadBack(x: Work, x': Work, m: nat, written: map<nat, seq<KeyValue>>, parts: seq<nat>)
    requires x'.disk == x.disk + Stored(m, written) && m in x'.sys.parts && x'.sys.parts[m] == parts
    requires forall r: nat :: r in parts <==> r in written
    ensures WrittenBy(x', m) == written && forall r :: r in parts ==> Mid(m, r) in x'.disk && x'.disk[Mid(m, r)].Pairs?
  {
  }

  lemma MapsToOutputs(p: Program, m: nat, n: nat, written: map<nat, seq<KeyValue>>, parts: seq<nat>)
    requires m < |p.files| && MapsTo(p, [p.files[m]], n, written, parts)
    ensures n > 0 && J.Outputs(p.mapf, p.hash, p.files[m], n, written) && forall r: nat :: r in parts <==> r in written
  {
    hide Part, MapAll;
  }

  lemma NewOnDisk(p: Program, n: nat, x: Work, x': Work, m: nat, written: map<nat, seq<KeyValue>>, parts: seq<nat>)
    requires m < |p.files| && MapsTo(p, [p.files[m]], n, written, parts) && x'.disk == x.disk + Stored(m, written)
    requires m in x'.sys.parts && x'.sys.parts[m] == parts
    ensures OnDisk(p, n, x', m)
  {
    hide J.Outputs, MapsTo, Stored, WrittenBy;
    MapsToOutputs(p, m, n, written, parts);
    ReadBack(x, x', m, written, parts);
  }

  lemma OldOnDisk(p: Program, n: nat, x: Work, x': Work, m: nat, k: nat, written: map<nat, seq<KeyValue>>)
    requires OnDisk(p, n, x, k) && k != m && x'.disk == x.disk + Stored(m, written)
    requires k in x'.sys.parts && x'.sys.parts[k] == x.sys.parts[k]
    ensures OnDisk(p, n, x', k)
  {
    hide J.Outputs;
    assert WrittenBy(x', k) == WrittenBy(x, k);
  }

  lemma FinishMapFine(p: Program, n: nat, x: Work, x': Work, w: int, parts: seq<nat>)
    requires Fine(p, n, x) && Works(p, x, x', R.Finish(w, parts)) && x.sys.held[w].kind == MapTask
    ensures Fine(p, n, x')
  {
    hide R.Inv, Current, OnDisk, Printed, MapsTo, Stored, ListFiles, Inputs;
    var h := x.sys.held[w];
    var written :| Maps(p, x, x', h, parts, written);
    R.TakeKeeps(x.sys, n, R.Finish(w, parts));
    FinishMapCurrent(x.sys, n, w, parts);
    OwnText(p, x.disk, h);
    InputsStay(p, x.disk, h.num, written);
    assert R.Inv(x.sys, n);
    R.FinishMapFiles(x.sys, n, w, parts);
    forall m | m in x'.sys.order ensures OnDisk(p, n, x', m) {
      if m == h.num {
        NewOnDisk(p, n, x, x', m, written, parts);
      } else {
        OnDiskHas(p, n, x, m);
        OldOnDisk(p, n, x, x', h.num, m, written);
      }
    }
    forall r: nat | r < |x'.sys.job.reduces| && x'.sys.job.reduces[r].state == Completed ensures Printed(p, n, x', r) {
      SamePrinted(p, n, x, x', r);
    }
  }

  lemma SamePrinted(p: Program, n: nat, x: Work, x': Work, r: nat)
    requires Printed(p, n, x, r) && x'.printed == x.printed
    ensures Printed(p, n, x', r)
  {
  }

  // ---- finishing a reduce task ----

  ghost function AllWritten(x: Work, k: nat): seq<map<nat, seq<KeyValue>>> {
    seq(k, m requires 0 <= m < k => WrittenBy(x, m))
  }

  /** What is behind the names a reduce task is given. */
  lemma {:induction false} NamesListed(p: Program, n: nat, x: Work, k: nat, order: seq<nat>, r: nat)
    requires forall i :: 0 <= i < |order| ==> order[i] < k && OnDisk(p, n, x, order[i])
    ensures Readable(x.disk, R.Names(x.sys.parts, order, r))
    ensures Contents(x.disk, R.Names(x.sys.parts, order, r)) == J.Listed(AllWritten(x, k), order, r)
  {
    hide OnDisk, WrittenBy, Contents, Readable;
    if order == [] {
      NothingRead(x.disk);
    } else {
      var e := |order| - 1;
      NamesListed(p, n, x, k, order[..e], r);
      WrittenAt(p, n, x, order[e], r);
      ReadOn(x.disk, R.Names(x.sys.parts, order[..e], r), Mid(order[e], r));
    }
  }

  lemma NothingRead(disk: Disk)
    ensures Readable(disk, []) && Contents(disk, []) == []
  {
  }

  lemma ReadOn(disk: Disk, names: seq<Name>, name: Name)
    requires Readable(disk, names)
    ensures names + [] == names
    ensures name in disk && disk[name].Pairs? ==>
      Readable(disk, names + [name]) && Contents(disk, names + [name]) == Contents(disk, names) + [disk[name].kvs]
  {
  }

  lemma WrittenAt(p: Program, n: nat, x: Work, m: nat, r: nat)
    requires OnDisk(p, n, x, m)
    ensures m in x.sys.parts && (r in x.sys.parts[m] <==> r in WrittenBy(x, m))
    ensures r in x.sys.parts[m] ==> Mid(m, r) in x.disk && x.disk[Mid(m, r)] == Pairs(WrittenBy(x, m)[r])
  {
    hide J.Outputs;
  }

  /** Every file a reduce task is told of is there, and together they hold its partition of all pairs. */
  lemma ReadsPart(p: Program, n: nat, x: Work, w: int)
    requires Fine(p, n, x) && n > 0 && w in x.sys.held && x.sys.held[w].kind == ReduceTask
    ensures var h := x.sys.held[w];
      && h.num < n && Readable(x.disk, h.files)
      && multiset(Flatten(Contents(x.disk, h.files))) == multiset(Part(p.hash, MapAll(p.mapf, p.files), n, h.num))
  {
    hide Part, MapAll, OnDisk, Printed, R.Names, J.Listed, R.DoneSet, Contents, Readable;
    var s, h := x.sys, x.sys.held[w];
    assert s.job.reduces[h.num].state == InProc;
    assert R.AllDone(s.job.maps);
    R.OrderComplete(s);
    forall i | 0 <= i < |s.order| ensures s.order[i] < |p.files| && OnDisk(p, n, x, s.order[i]) {
      assert s.order[i] in s.order;
    }
    NamesListed(p, n, x, |p.files|, s.order, h.num);
    forall m: nat | m < |p.files| ensures J.Outputs(p.mapf, p.hash, p.files[m], n, AllWritten(x, |p.files|)[m]) {
      assert m in s.order;
      OnDiskOutputs(p, n, x, m);
    }
    J.ListedIsPart(p.mapf, p.hash, p.files, n, h.num, AllWritten(x, |p.files|), s.order);
  }

  lemma OnDiskOutputs(p: Program, n: nat, x: Work, m: nat)
    requires OnDisk(p, n, x, m)
    ensures J.Outputs(p.mapf, p.hash, p.files[m], n, WrittenBy(x, m))
  {
  }

  lemma FinishReduceSystem(s: R.System, w: int, parts: seq<nat>)
    requires Current(s) && R.Can(s, R.Finish(w, parts)) && R.InRange(s, R.Finish(w, parts)) && s.held[w].kind == ReduceTask
    ensures var s', r := R.Take(s, R.Finish(w, parts)), s.held[w].num;
      && Current(s') && s'.order == s.order && s'.parts == s.parts && s'.job.nfile == s.job.nfile && |s'.job.reduces| == |s.job.reduces|
      && forall k: nat :: k < |s.job.reduces| && k != r ==> s'.job.reduces[k].state == s.job.reduces[k].state
  {
  }

  lemma FinishReduceFine(p: Program, n: nat, x: Work, x': Work, w: int, parts: seq<nat>)
    requires Fine(p, n, x) && n > 0 && Works(p, x, x', R.Finish(w, parts)) && x.sys.held[w].kind == ReduceTask
    ensures Fine(p, n, x')
  {
    hide R.Inv, Current, OnDisk, Reduces, Part, MapAll, R.Take, Contents, Readable;
    var h := x.sys.held[w];
    var lines :| Prints(p, x, x', h, lines);
    ReadsPart(p, n, x, w);
    ReducesPermuted(p.reducef, Flatten(Contents(x.disk, h.files)), Part(p.hash, MapAll(p.mapf, p.files), n, h.num), lines);
    R.TakeKeeps(x.sys, n, R.Finish(w, parts));
    FinishReduceSystem(x.sys, w, parts);
    forall m | m in x'.sys.order ensures OnDisk(p, n, x', m) {
      OnDiskHas(p, n, x, m);
      SameDisk(p, n, x, x', m);
    }
  }

  // ---- every run ----

  lemma WorksFine(p: Program, n: nat, x: Work, x': Work, a: R.Step)
    requires Fine(p, n, x) && n > 0 && Works(p, x, x', a)
    ensures Fine(p, n, x')
  {
    hide Fine;
    match a
    case Ask(w) => AskFine(p, n, x, x', w);
    case Finish(w, parts) =>
      if x.sys.held[w].kind == MapTask {
        FinishMapFine(p, n, x, x', w, parts);
      } else {
        FinishReduceFine(p, n, x, x', w, parts);
      }
  }

  lemma StartFine(p: Program, n: nat, x: Work)
    requires R.Start(x.sys, n) && x.sys.job.nfile == |p.files| && InputsOnly(p, x.disk)
    ensures Fine(p, n, x)
  {
    R.StartKeeps(x.sys, n);
  }

  lemma {:induction false} RunFine(p: Program, n: nat, run: seq<Work>, steps: seq<R.Step>, k: nat)
    requires JobRun(p, n, run, steps) && n > 0 && k < |run|
    ensures Fine(p, n, run[k])
  {
    hide Fine, Works, R.Start;
    if k == 0 {
      StartFine(p, n, run[0]);
    } else {
      RunFine(p, n, run, steps, k - 1);
      WorksFine(p, n, run[k - 1], run[k], steps[k - 1]);
    }
  }

  /** No worker ever finds a file missing: a map worker has been told its task's own file, which is there, and the files
      a reduce worker has been told are all there. */
  lemma NeverMissing(p: Program, n: nat, run: seq<Work>, steps: seq<R.Step>, k: nat, w: int)
    requires JobRun(p, n, run, steps) && n > 0 && k < |run| && w in run[k].sys.held
    ensures var h, disk := run[k].sys.held[w], run[k].disk;
      if h.kind == MapTask then h.num < |p.files| && HasTexts(disk, h.files) && Texts(disk, h.files) == [p.files[h.num]]
      else Readable(disk, h.files)
  {
    hide JobRun, Readable, OnDisk, Printed, R.DoneSet, R.Names, Inputs;
    RunFine(p, n, run, steps, k);
    if run[k].sys.held[w].kind == MapTask {
      OwnText(p, run[k].disk, run[k].sys.held[w]);
    } else {
      ReadsPart(p, n, run[k], w);
    }
  }

  // ---- the output ----

  /** What the first k reduce tasks printed. */
  ghost function Output(x: Work, k: nat): seq<Line> {
    if k == 0 then [] else Output(x, k - 1) + if k - 1 in x.printed then x.printed[k - 1] else []
  }

  lemma {:induction false} OutputBelow(p: Program, n: nat, x: Work, k: nat)
    requires n > 0 && k <= n && forall r: nat :: r < k ==> Printed(p, n, x, r)
    ensures J.ReducesBelow(p.reducef, p.hash, MapAll(p.mapf, p.files), n, k, Output(x, k))
  {
    hide J.ReducesBelow, Reduces, Part, MapAll;
    var kvs := MapAll(p.mapf, p.files);
    if k == 0 {
      J.NothingBelow(p.reducef, p.hash, kvs, n);
    } else {
      OutputBelow(p, n, x, k - 1);
      assert Printed(p, n, x, k - 1);
      J.AddPart(p.reducef, p.hash, kvs, n, k - 1, Output(x, k - 1), x.printed[k - 1]);
    }
  }

  /** When the coordinator says the job is done, one line has been printed for every key, from exactly its values. */
  lemma DoneIsReduced(p: Program, n: nat, run: seq<Work>, steps: seq<R.Step>, k: nat)
    requires JobRun(p, n, run, steps) && n > 0 && k < |run| && Finished(run[k].sys.job)
    ensures Reduces(p.reducef, MapAll(p.mapf, p.files), Output(run[k], n))
  {
    hide JobRun, Reduces, MapAll, Printed, Finished, J.ReducesBelow, R.Phased, R.Owned, R.Listed, OnDisk, R.DoneSet;
    RunFine(p, n, run, steps, k);
    R.FinishedIffAllDone(run[k].sys, n);
    OutputBelow(p, n, run[k], n);
    J.AllBelow(p.reducef, p.hash, MapAll(p.mapf, p.files), n, Output(run[k], n));
  }

  /** The lines printed by a finished job are those of the sequential program, if reduce ignores the order of values. */
  lemma DoneIsSequential(p: Program, n: nat, run: seq<Work>, steps: seq<R.Step>, k: nat, sequential: seq<Line>)
    requires JobRun(p, n, run, steps) && n > 0 && k < |run| && Finished(run[k].sys.job)
    requires OrderInsensitive(p.reducef) && Reduces(p.reducef, MapAll(p.mapf, p.files), sequential)
    ensures multiset(Output(run[k], n)) == multiset(sequential)
  {
    hide JobRun, Reduces, MapAll, Finished, Output, OrderInsensitive;
    DoneIsReduced(p, n, run, steps, k);
    OutputDetermined(p.reducef, MapAll(p.mapf, p.files), Output(run[k], n), sequential);
  }
}
