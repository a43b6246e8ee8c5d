/** Runs of the coordinator and its workers: what the counters count, who owns which task, which files a reduce
    task is given, and when workers are told that the job is done. */
module CoordinatorRuns {
  import opened Permutations
  import opened Coordinator

  /** A task a worker is busy with, and the number of partitions and the files it was told. */
  datatype Held = Held(kind: Kind, num: nat, nReduce: int, files: seq<Name>)

  /** `order` and `parts` are history: the map tasks in the order they were committed, and what each wrote. */
  datatype System = System(job: Job, held: map<int, Held>, order: seq<nat>, parts: map<nat, seq<nat>>)

  datatype Step = Ask(worker: int) | Finish(worker: int, parts: seq<nat>)

  /** What a map task for one file reports: partitions in increasing order. */
  ghost predicate Reports(parts: seq<nat>, n: int) {
    (forall i :: 0 <= i < |parts| ==> parts[i] < n) && (forall i, j :: 0 <= i < j < |parts| ==> parts[i] < parts[j])
  }

  ghost predicate Can(s: System, a: Step) {
    match a
    case Ask(w) => w !in s.held
    case Finish(w, parts) => w in s.held && (s.held[w].kind == MapTask ==> Reports(parts, s.held[w].nReduce))
  }

  /** The commit a worker sends is one the coordinator can take without going out of range. */
  ghost predicate InRange(s: System, a: Step) {
    a.Finish? && a.worker in s.held ==>
      var h := s.held[a.worker];
      && h.num < (if h.kind == ReduceTask then |s.job.reduces| else |s.job.maps|)
      && (h.kind == MapTask ==> forall k :: 0 <= k < |a.parts| ==> a.parts[k] < |s.job.reduces|)
  }

  ghost function HeldOf(reply: Reply): Held
    requires reply.Assigned?
  {
    Held(reply.task.kind, reply.task.num, reply.nReduce, reply.task.files)
  }

  ghost function Take(s: System, a: Step): System
    requires Can(s, a) && InRange(s, a)
  {
    match a
    case Ask(w) =>
      var (job, reply) := Assign(s.job);
      s.(job := job, held := if reply.Assigned? then s.held[w := HeldOf(reply)] else s.held)
    case Finish(w, parts) =>
      var h := s.held[w];
      var t := s.(job := Commit(s.job, h.kind, h.num, parts), held := s.held - {w});
      if h.kind == MapTask then t.(order := s.order + [h.num], parts := s.parts[h.num := parts]) else t
  }

  ghost predicate Start(s: System, n: nat) {
    s.job == NewJob(s.job.nfile, n) && s.held == map[] && s.order == [] && s.parts == map[]
  }

  /** A run with n reduce tasks. */
  ghost predicate Run(run: seq<System>, n: nat) {
    && run != [] && Start(run[0], n)
    && forall k :: 0 <= k < |run| - 1 ==> exists a :: Can(run[k], a) && InRange(run[k], a) && run[k + 1] == Take(run[k], a)
  }

  // ---- the invariant ----

  ghost function DoneSet(tasks: seq<Meta>): set<nat> {
    set i | 0 <= i < |tasks| && tasks[i].state == Completed
  }

  ghost predicate Holds(s: System, w: int, kind: Kind, num: nat) {
    w in s.held && s.held[w].kind == kind && s.held[w].num == num
  }

  ghost predicate AllDone(tasks: seq<Meta>) {
    forall i :: 0 <= i < |tasks| ==> tasks[i].state == Completed
  }

  /** The counters count finished tasks. */
  ghost predicate Counted(s: System, n: nat) {
    && |s.job.maps| == s.job.nfile && |s.job.reduces| == n
    && s.job.nMapped == |DoneSet(s.job.maps)| && n - s.job.nReduce == |DoneSet(s.job.reduces)|
  }

  /** No reduce task has been touched before all maps are finished. */
  ghost predicate Phased(s: System) {
    AllDone(s.job.maps) || forall r :: 0 <= r < |s.job.reduces| ==> s.job.reduces[r].state == Idle
  }

  /** Busy tasks and workers belong together one to one, and a map task was told the true number of partitions. */
  ghost predicate Owned(s: System, n: nat) {
    && (forall w :: w in s.held ==>
          var h := s.held[w];
          if h.kind == MapTask then h.nReduce == n && h.num < |s.job.maps| && s.job.maps[h.num].state == InProc
          else h.num < |s.job.reduces| && s.job.reduces[h.num].state == InProc)
    && (forall v, w :: v in s.held && w in s.held && v != w ==> s.held[v].kind != s.held[w].kind || s.held[v].num != s.held[w].num)
    && (forall m: nat :: m < |s.job.maps| && s.job.maps[m].state == InProc ==> exists w :: Holds(s, w, MapTask, m))
    && (forall r: nat :: r < |s.job.reduces| && s.job.reduces[r].state == InProc ==> exists w :: Holds(s, w, ReduceTask, r))
  }

  /** The files for reduce task r, from the committed map tasks that wrote one. */
  ghost function Names(parts: map<nat, seq<nat>>, order: seq<nat>, r: nat): seq<Name> {
    if order == [] then []
    else
      var k := |order| - 1;
      Names(parts, order[..k], r) + if order[k] in parts && r in parts[order[k]] then [Mid(order[k], r)] else []
  }

  ghost predicate Listed(s: System) {
    && (forall i, j :: 0 <= i < j < |s.order| ==> s.order[i] != s.order[j])
    && (forall m: nat :: m in s.order <==> m < |s.job.maps| && s.job.maps[m].state == Completed)
    && (forall m: nat :: m in s.parts <==> m in s.order)
    && (forall r :: 0 <= r < |s.job.reduces| ==> s.job.reduces[r].files == Names(s.parts, s.order, r))
  }

  /** Every map task names its own input file, to the coordinator and to the worker that is busy with it. */
  ghost predicate Named(s: System) {
    && (forall m: nat :: m < |s.job.maps| ==> s.job.maps[m].files == [Input(m)])
    && (forall w :: w in s.held && s.held[w].kind == MapTask ==> s.held[w].files == [Input(s.held[w].num)])
  }

  ghost predicate Inv(s: System, n: nat) {
    Counted(s, n) && Phased(s) && Owned(s, n) && Listed(s) && Named(s)
  }

  // ---- counting ----

  lemma AllCounted(tasks: seq<Meta>)
    ensures |DoneSet(tasks)| <= |tasks| && (|DoneSet(tasks)| == |tasks| <==> AllDone(tasks))
  {
    BelowCardinality(|tasks|);
    assert DoneSet(tasks) <= Below(|tasks|);
    SubsetCardinality(DoneSet(tasks), Below(|tasks|));
    if AllDone(tasks) {
      assert DoneSet(tasks) == Below(|tasks|);
    } else {
      var i :| 0 <= i < |tasks| && tasks[i].state != Completed;
      assert i in Below(|tasks|) && i !in DoneSet(tasks);
    }
  }

  lemma CountOne(tasks: seq<Meta>, i: nat)
    requires i < |tasks| && tasks[i].state != Completed
    ensures |DoneSet(tasks[i := tasks[i].(state := Completed)])| == |DoneSet(tasks)| + 1
  {
    assert DoneSet(tasks[i := tasks[i].(state := Completed)]) == DoneSet(tasks) + {i};
  }

  lemma CountSame(a: seq<Meta>, b: seq<Meta>)
    requires |a| == |b| && forall i :: 0 <= i < |a| ==> (a[i].state == Completed <==> b[i].state == Completed)
    ensures |DoneSet(a)| == |DoneSet(b)|
  {
    assert DoneSet(a) == DoneSet(b);
  }

  /** The job is finished exactly when all its tasks are. */
  lemma FinishedIffAllDone(s: System, n: nat)
    requires Counted(s, n)
    ensures Finished(s.job) <==> AllDone(s.job.maps) && AllDone(s.job.reduces)
    ensures s.job.nMapped == s.job.nfile <==> AllDone(s.job.maps)
  {
    hide DoneSet, AllDone;
    AllCounted(s.job.maps);
    AllCounted(s.job.reduces);
  }

  // ---- a worker asks ----

  /** Before all maps are finished the count of reduce tasks is the original one. */
  lemma StillOriginal(s: System, n: nat)
    requires Counted(s, n) && Phased(s) && !AllDone(s.job.maps)
    ensures s.job.nReduce == n
  {
    assert DoneSet(s.job.reduces) == {};
  }

  /** A worker that takes on an idle task becomes its only owner. */
  lemma AskOwned(s: System, s': System, n: nat, w: int, kind: Kind, i: nat)
    requires Owned(s, n) && w !in s.held && w in s'.held && s'.held == s.held[w := s'.held[w]]
    requires s'.held[w].kind == kind && s'.held[w].num == i && (kind == MapTask ==> s'.held[w].nReduce == n)
    requires |s'.job.maps| == |s.job.maps| && |s'.job.reduces| == |s.job.reduces|
    requires if kind == MapTask then i < |s.job.maps| && s.job.maps[i].state == Idle
             else i < |s.job.reduces| && s.job.reduces[i].state == Idle
    requires forall m: nat :: m < |s.job.maps| ==>
      s'.job.maps[m].state == if kind == MapTask && m == i then InProc else s.job.maps[m].state
    requires forall r: nat :: r < |s.job.reduces| ==>
      s'.job.reduces[r].state == if kind == ReduceTask && r == i then InProc else s.job.reduces[r].state
    ensures Owned(s', n)
  {
    assert Holds(s', w, kind, i);
    forall m: nat | m < |s'.job.maps| && s'.job.maps[m].state == InProc ensures exists v :: Holds(s', v, MapTask, m) {
      if kind == ReduceTask || m != i {
        var v :| Holds(s, v, MapTask, m);
        assert Holds(s', v, MapTask, m);
      }
    }
    forall r: nat | r < |s'.job.reduces| && s'.job.reduces[r].state == InProc ensures exists v :: Holds(s', v, ReduceTask, r) {
      if kind == MapTask || r != i {
        var v :| Holds(s, v, ReduceTask, r);
        assert Holds(s', v, ReduceTask, r);
      }
    }
  }

  lemma AskMap(s: System, n: nat, w: int)
    requires Inv(s, n) && w !in s.held && s.job.nMapped != s.job.nfile && FirstIdle(s.job.maps, 0) < |s.job.maps|
    ensures Inv(Take(s, Ask(w)), n)
  {
    hide DoneSet, Names, Owned;
    var s', i := Take(s, Ask(w)), FirstIdle(s.job.maps, 0);
    FinishedIffAllDone(s, n);
    StillOriginal(s, n);
    CountSame(s.job.maps, s'.job.maps);
    AskOwned(s, s', n, w, MapTask, i);
  }

  lemma AskReduce(s: System, n: nat, w: int)
    requires Inv(s, n) && w !in s.held && s.job.nMapped == s.job.nfile && FirstIdle(s.job.reduces, 0) < |s.job.reduces|
    ensures Inv(Take(s, Ask(w)), n)
  {
    hide DoneSet, Names, Owned;
    var s', i := Take(s, Ask(w)), FirstIdle(s.job.reduces, 0);
    FinishedIffAllDone(s, n);
    CountSame(s.job.reduces, s'.job.reduces);
    AskOwned(s, s', n, w, ReduceTask, i);
  }

  // ---- a worker commits ----

  /** Every listed partition gets the file once. */
  lemma {:induction false} ListedAt(reduces: seq<Meta>, m: nat, parts: seq<nat>, r: nat)
    requires r < |reduces| && Reports(parts, |reduces|)
    ensures var x := ListFiles(reduces, m, parts)[r];
      x == reduces[r].(files := reduces[r].files + if r in parts then [Mid(m, r)] else [])
  {
    if parts == [] {
      assert reduces[r].files + [] == reduces[r].files;
    } else {
      var n := |parts| - 1;
      ListedAt(reduces, m, parts[..n], r);
      assert parts == parts[..n] + [parts[n]];
      if r == parts[n] {
        assert r !in parts[..n];
        assert reduces[r].files + [] == reduces[r].files;
      }
    }
  }

  lemma {:induction false} NamesSame(parts: map<nat, seq<nat>>, m: nat, new_: seq<nat>, order: seq<nat>, r: nat)
    requires m !in order
    ensures Names(parts[m := new_], order, r) == Names(parts, order, r)
  {
    if order != [] {
      assert order[|order| - 1] != m;
      NamesSame(parts, m, new_, order[..|order| - 1], r);
    }
  }

  lemma NamesSnoc(parts: map<nat, seq<nat>>, m: nat, new_: seq<nat>, order: seq<nat>, r: nat)
    requires m !in order
    ensures Names(parts[m := new_], order + [m], r) == Names(parts, order, r) + if r in new_ then [Mid(m, r)] else []
  {
    assert (order + [m])[..|order|] == order;
    NamesSame(parts, m, new_, order, r);
  }

  lemma FinishMapFiles(s: System, n: nat, w: int, parts: seq<nat>)
    requires Inv(s, n) && Can(s, Finish(w, parts)) && InRange(s, Finish(w, parts)) && s.held[w].kind == MapTask
    ensures Listed(Take(s, Finish(w, parts)))
    ensures forall r :: 0 <= r < |s.job.reduces| ==> Take(s, Finish(w, parts)).job.reduces[r].state == s.job.reduces[r].state
  {
    hide DoneSet, Names, ListFiles;
    var s', m := Take(s, Finish(w, parts)), s.held[w].num;
    forall r | 0 <= r < |s.job.reduces|
      ensures s'.job.reduces[r].state == s.job.reduces[r].state && s'.job.reduces[r].files == Names(s'.parts, s'.order, r)
    {
      ListedAt(s.job.reduces, m, parts, r);
      NamesSnoc(s.parts, m, parts, s.order, r);
    }
  }

  lemma FinishMap(s: System, n: nat, w: int, parts: seq<nat>)
    requires Inv(s, n) && Can(s, Finish(w, parts)) && InRange(s, Finish(w, parts)) && s.held[w].kind == MapTask
    ensures Inv(Take(s, Finish(w, parts)), n)
  {
    hide DoneSet, Names, ListFiles, Listed, Reports, Owned;
    var s', m := Take(s, Finish(w, parts)), s.held[w].num;
    HolderOf(s, n, w);
    FinishMapFiles(s, n, w, parts);
    CountOne(s.job.maps, m);
    CountSame(s.job.reduces, s'.job.reduces);
    FinishOwned(s, s', n, w);
  }

  lemma HolderOf(s: System, n: nat, w: int)
    requires Owned(s, n) && w in s.held && s.held[w].kind == MapTask
    ensures s.held[w].num < |s.job.maps| && s.job.maps[s.held[w].num].state == InProc
  {
  }

  /** Giving back a task leaves every other busy task with its worker. */
  lemma FinishOwned(s: System, s': System, n: nat, w: int)
    requires Owned(s, n) && w in s.held && s'.held == s.held - {w}
    requires |s'.job.maps| == |s.job.maps| && |s'.job.reduces| == |s.job.reduces|
    requires forall m: nat :: m < |s.job.maps| ==>
      s'.job.maps[m].state == if Holds(s, w, MapTask, m) then Completed else s.job.maps[m].state
    requires forall r: nat :: r < |s.job.reduces| ==>
      s'.job.reduces[r].state == if Holds(s, w, ReduceTask, r) then Completed else s.job.reduces[r].state
    ensures Owned(s', n)
  {
    forall m: nat | m < |s'.job.maps| && s'.job.maps[m].state == InProc ensures exists v :: Holds(s', v, MapTask, m) {
      var v :| Holds(s, v, MapTask, m);
      assert Holds(s', v, MapTask, m);
    }
    forall r: nat | r < |s'.job.reduces| && s'.job.reduces[r].state == InProc ensures exists v :: Holds(s', v, ReduceTask, r) {
      var v :| Holds(s, v, ReduceTask, r);
      assert Holds(s', v, ReduceTask, r);
    }
  }

  lemma FinishReduce(s: System, n: nat, w: int, parts: seq<nat>)
    requires Inv(s, n) && Can(s, Finish(w, parts)) && InRange(s, Finish(w, parts)) && s.held[w].kind == ReduceTask
    ensures Inv(Take(s, Finish(w, parts)), n)
  {
    hide Names, ListFiles;
    var s', r := Take(s, Finish(w, parts)), s.held[w].num;
    CountOne(s.job.reduces, r);
    FinishOwned(s, s', n, w);
  }

  // ---- every run ----

  lemma AlwaysInRange(s: System, n: nat, a: Step)
    requires Inv(s, n) && Can(s, a)
    ensures InRange(s, a)
  {
    hide DoneSet, Names;
  }

  lemma TakeKeeps(s: System, n: nat, a: Step)
    requires Inv(s, n) && Can(s, a) && InRange(s, a)
    ensures Inv(Take(s, a), n)
  {
    hide Counted, Phased, Owned, Listed, Commit;
    match a
    case Ask(w) =>
      if s.job.nMapped != s.job.nfile && FirstIdle(s.job.maps, 0) < |s.job.maps| {
        AskMap(s, n, w);
      } else if s.job.nMapped == s.job.nfile && FirstIdle(s.job.reduces, 0) < |s.job.reduces| {
        AskReduce(s, n, w);
      } else {
        assert Take(s, a) == s;
      }
    case Finish(w, parts) =>
      if s.held[w].kind == MapTask {
        FinishMap(s, n, w, parts);
      } else {
        FinishReduce(s, n, w, parts);
      }
  }

  lemma StartKeeps(s: System, n: nat)
    requires Start(s, n)
    ensures Inv(s, n)
  {
    assert DoneSet(s.job.maps) == {} && DoneSet(s.job.reduces) == {};
    assert forall r: nat :: r < n ==> s.job.reduces[r].files == [] == Names(s.parts, s.order, r);
  }

  lemma {:induction false} RunKeeps(run: seq<System>, n: nat, k: nat)
    requires Run(run, n) && k < |run|
    ensures Inv(run[k], n)
  {
    hide Take, Can, InRange, Inv, Start;
    if k == 0 {
      StartKeeps(run[0], n);
    } else {
      RunKeeps(run, n, k - 1);
      var a :| Can(run[k - 1], a) && InRange(run[k - 1], a) && run[k - 1 + 1] == Take(run[k - 1], a);
      TakeKeeps(run[k - 1], n, a);
    }
  }

  /** What an answer tells a worker: a map task comes with its own input file and the original number of partitions; a reduce task comes
      after all maps, with one file from each map task that wrote one for it, in commit order; the end of the job
      comes when every task is finished; and a worker is sent away only while another is busy. */
  lemma AnswersAreRight(run: seq<System>, n: nat, k: nat)
    requires Run(run, n) && k < |run|
    ensures var s := run[k]; var reply := Assign(s.job).1;
      match reply
      case Assigned(task, nReduce) =>
        if task.kind == MapTask
        then && nReduce == n && task.num < |s.job.maps| && s.job.maps[task.num].state == Idle
             && task.files == [Input(task.num)]
        else && AllDone(s.job.maps) && Permutation(s.order, s.job.nfile) && task.num < n
             && s.job.reduces[task.num].state == Idle && task.files == Names(s.parts, s.order, task.num)
             && nReduce == n - |DoneSet(s.job.reduces)|
      case JobDone => AllDone(s.job.maps) && AllDone(s.job.reduces) && Finished(s.job)
      case AskAgain => s.held != map[] && !Finished(s.job)
  {
    hide Run;
    RunKeeps(run, n, k);
    var s := run[k];
    FinishedIffAllDone(s, n);
    if s.job.nMapped != s.job.nfile {
      StillOriginal(s, n);
      hide DoneSet, Names;
      if FirstIdle(s.job.maps, 0) == |s.job.maps| {
        SomeoneBusy(s, n, s.job.maps);
      }
    } else {
      OrderComplete(s);
      hide DoneSet, Names;
      if FirstIdle(s.job.reduces, 0) == |s.job.reduces| && s.job.nReduce != 0 {
        SomeoneBusy(s, n, s.job.reduces);
      }
    }
  }

  lemma SomeoneBusy(s: System, n: nat, tasks: seq<Meta>)
    requires Owned(s, n) && (tasks == s.job.maps || tasks == s.job.reduces) && !AllDone(tasks)
    requires forall i :: 0 <= i < |tasks| ==> tasks[i].state != Idle
    ensures s.held != map[]
  {
    var i :| 0 <= i < |tasks| && tasks[i].state != Completed;
    assert tasks[i].state == InProc;
    if tasks == s.job.maps {
      var w :| Holds(s, w, MapTask, i);
    } else {
      var w :| Holds(s, w, ReduceTask, i);
    }
  }

  lemma OrderComplete(s: System)
    requires Listed(s) && AllDone(s.job.maps) && |s.job.maps| == s.job.nfile
    ensures Permutation(s.order, s.job.nfile)
  {
    hide Names;
    forall i | 0 <= i < |s.order| ensures s.order[i] < s.job.nfile {
      assert s.order[i] in s.order;
    }
    assert Elements(s.order) == Below(s.job.nfile);
    SelectionLength(s.order, s.job.nfile);
  }

  /** No task ever has two owners. */
  lemma OneOwner(run: seq<System>, n: nat, k: nat, v: int, w: int)
    requires Run(run, n) && k < |run| && v in run[k].held && w in run[k].held
    requires run[k].held[v].kind == run[k].held[w].kind && run[k].held[v].num == run[k].held[w].num
    ensures v == w
  {
    hide Run, DoneSet, Names;
    RunKeeps(run, n, k);
  }

  /** The counters, at every moment. */
  lemma CountersCount(run: seq<System>, n: nat, k: nat)
    requires Run(run, n) && k < |run|
    ensures var s := run[k];
      && s.job.nMapped == |DoneSet(s.job.maps)| && n - s.job.nReduce == |DoneSet(s.job.reduces)|
      && (Finished(s.job) <==> AllDone(s.job.maps) && AllDone(s.job.reduces))
  {
    hide Run, DoneSet, Names;
    RunKeeps(run, n, k);
    FinishedIffAllDone(run[k], n);
  }
}
