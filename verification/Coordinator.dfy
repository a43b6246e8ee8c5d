/** The coordinator that hands out map and reduce tasks, as an object and as a transition system together with
    its workers. Workers neither crash nor time out. */
module Coordinator {
  datatype Kind = MapTask | ReduceTask
  datatype TaskState = Idle | InProc | Completed

  /** An input file, or the file that map task `m` wrote for reduce task `r`. */
  datatype Name = Input(i: nat) | Mid(m: nat, r: nat)

  datatype Meta = Meta(kind: Kind, num: nat, state: TaskState, files: seq<Name>)

  /** A task with the number of partitions, the end of the job, or a request to ask again later. */
  datatype Reply = Assigned(task: Meta, nReduce: int) | JobDone | AskAgain

  /** `nReduce` counts down the reduce tasks that are not finished; `nMapped` counts finished map tasks. */
  datatype Job = Job(maps: seq<Meta>, reduces: seq<Meta>, nReduce: int, nMapped: int, nfile: nat)

  function NewJob(nfile: nat, nReduce: nat): Job {
    Job(seq(nfile, i requires i >= 0 => Meta(MapTask, i, Idle, [Input(i)])),
        seq(nReduce, i requires i >= 0 => Meta(ReduceTask, i, Idle, [])), nReduce, 0, nfile)
  }

  predicate Finished(j: Job) {
    j.nMapped == j.nfile && j.nReduce == 0
  }

  /** The first idle task, or the number of tasks. */
  function FirstIdle(tasks: seq<Meta>, i: nat): (r: nat)
    requires i <= |tasks|
    ensures i <= r <= |tasks|
    ensures r < |tasks| ==> tasks[r].state == Idle
    ensures forall k :: i <= k < r ==> tasks[k].state != Idle
    decreases |tasks| - i
  {
    if i == |tasks| || tasks[i].state == Idle then i else FirstIdle(tasks, i + 1)
  }

  /** A worker asks: an idle map task until all maps are finished, an idle reduce task after that. */
  function Assign(j: Job): (Job, Reply) {
    if j.nMapped != j.nfile then
      var i := FirstIdle(j.maps, 0);
      if i < |j.maps| then
        var task := j.maps[i].(kind := MapTask, num := i, state := InProc);
        (j.(maps := j.maps[i := task]), Assigned(task, j.nReduce))
      else (j, AskAgain)
    else
      var i := FirstIdle(j.reduces, 0);
      if i < |j.reduces| then
        var task := j.reduces[i].(kind := ReduceTask, num := i, state := InProc);
        (j.(reduces := j.reduces[i := task]), Assigned(task, j.nReduce))
      else (j, if j.nReduce != 0 then AskAgain else JobDone)
  }

  /** List map task m's files with the reduce tasks that will read them. */
  function ListFiles(reduces: seq<Meta>, m: nat, parts: seq<nat>): (r: seq<Meta>)
    requires forall k :: 0 <= k < |parts| ==> parts[k] < |reduces|
    ensures |r| == |reduces|
  {
    if parts == [] then reduces
    else
      var n := |parts| - 1;
      var before := ListFiles(reduces, m, parts[..n]);
      before[parts[n] := before[parts[n]].(files := before[parts[n]].files + [Mid(m, parts[n])])]
  }

  function Commit(j: Job, kind: Kind, num: nat, parts: seq<nat>): Job
    requires num < if kind == ReduceTask then |j.reduces| else |j.maps|
    requires kind == MapTask ==> forall k :: 0 <= k < |parts| ==> parts[k] < |j.reduces|
  {
    if kind == ReduceTask then
      j.(nReduce := j.nReduce - 1, reduces := j.reduces[num := j.reduces[num].(state := Completed)])
    else
      j.(nMapped := j.nMapped + 1, maps := j.maps[num := j.maps[num].(state := Completed)],
         reduces := ListFiles(j.reduces, num, parts))
  }

  // ---- the object ----

  class Master {
    var mapTasks: seq<Meta>
    var reduceTasks: seq<Meta>
    var nReduce: int
    var nMapped: int
    var nfile: nat

    ghost function View(): Job
      reads this
    {
      Job(mapTasks, reduceTasks, nReduce, nMapped, nfile)
    }

    constructor (nfile: nat, nReduce: nat)
      ensures View() == NewJob(nfile, nReduce)
    {
      mapTasks, reduceTasks := [], [];
      this.nReduce, nMapped, this.nfile := nReduce, 0, nfile;
      new;
      for i := 0 to nfile
        invariant |mapTasks| == i && forall k: nat :: k < i ==> mapTasks[k] == Meta(MapTask, k, Idle, [Input(k)])
        invariant View() == Job(mapTasks, [], nReduce, 0, nfile)
      {
        mapTasks := mapTasks + [Meta(MapTask, i, Idle, [Input(i)])];
      }
      for i := 0 to nReduce
        invariant |reduceTasks| == i && forall k: nat :: k < i ==> reduceTasks[k] == Meta(ReduceTask, k, Idle, [])
        invariant View() == Job(NewJob(nfile, nReduce).maps, reduceTasks, nReduce, 0, nfile)
      {
        reduceTasks := reduceTasks + [Meta(ReduceTask, i, Idle, [])];
      }
    }

    method FindIdle(tasks: seq<Meta>) returns (i: nat)
      ensures i == FirstIdle(tasks, 0)
    {
      i := 0;
      while i < |tasks|
        invariant i <= |tasks| && FirstIdle(tasks, 0) == FirstIdle(tasks, i)
      {
        if tasks[i].state == Idle {
          return;
        }
        i := i + 1;
      }
    }

    method Task() returns (reply: Reply)
      modifies this`mapTasks, this`reduceTasks
      ensures (View(), reply) == Assign(old(View()))
    {
      var tasks, kind := mapTasks, MapTask;
      if nMapped == nfile {
        tasks, kind := reduceTasks, ReduceTask;
      }
      var i := FindIdle(tasks);
      if i == |tasks| {
        reply := if nMapped != nfile || nReduce != 0 then AskAgain else JobDone;
        return;
      }
      var task := tasks[i].(kind := kind, num := i, state := InProc);
      if kind == MapTask {
        mapTasks := mapTasks[i := task];
      } else {
        reduceTasks := reduceTasks[i := task];
      }
      reply := Assigned(task, nReduce);
    }

    method CommitOK(kind: Kind, num: nat, parts: seq<nat>)
      requires num < if kind == ReduceTask then |reduceTasks| else |mapTasks|
      requires kind == MapTask ==> forall k :: 0 <= k < |parts| ==> parts[k] < |reduceTasks|
      modifies this
      ensures View() == Commit(old(View()), kind, num, parts)
    {
      if kind == ReduceTask {
        nReduce := nReduce - 1;
        reduceTasks := reduceTasks[num := reduceTasks[num].(state := Completed)];
      } else {
        for k := 0 to |parts|
          invariant reduceTasks == ListFiles(old(reduceTasks), num, parts[..k]) && |reduceTasks| == old(|reduceTasks|)
          invariant View() == old(View()).(reduces := reduceTasks)
        {
          assert parts[..k + 1][..k] == parts[..k];
          var x := parts[k];
          reduceTasks := reduceTasks[x := reduceTasks[x].(files := reduceTasks[x].files + [Mid(num, x)])];
        }
        assert parts[..|parts|] == parts;
        nMapped := nMapped + 1;
        mapTasks := mapTasks[num := mapTasks[num].(state := Completed)];
      }
    }

    method Done() returns (done: bool)
      ensures done == Finished(View())
    {
      done := !(nMapped != nfile || nReduce != 0);
    }
  }
}
