/** A peer that takes, sends and installs snapshots between any of its other steps, and restarts from them, beside a peer
    that never cut its log: exactly how long the two stay in step, and that until then nobody can tell them apart. */
module RaftCompactionRuns {
  import opened RaftPeer
  import opened RaftCompaction

  /** One step of a peer. `prefix` is the log an arriving snapshot stands for: to a peer that keeps everything it is sent
      in the snapshot's place. Likewise such a peer sends its log up to `upTo` in place of a snapshot. */
  datatype Op =
    | DoElect
    | OnVote(vote: VoteArgs)
    | OnVoteReply(vote: VoteArgs, answer: VoteReply)
    | OnRefusal(answer: VoteReply)
    | DoSend(to: nat)
    | OnAppend(args: AppendArgs)
    | OnReply(to: nat, args: AppendArgs, reply: AppendReply)
    | OnCommand(command: Command)
    | DoApply
    | DoSnapshot(index: int, snapshot: int)
    | SendSnapshot(to: nat, upTo: nat)
    | OnInstall(snap: SnapshotArgs, prefix: Log)
    | OnSnapshotReply(to: nat, snap: SnapshotArgs, current: nat)
    | DoRestart

  /** What the rest of the system sees of a step. */
  datatype Answer =
    | Asks(args: VoteArgs)
    | Votes(reply: VoteReply)
    | Sends(append: AppendArgs)
    | Appends(term: nat, success: bool, xTerm: int, xLen: int)
    | Started(start: StartReply)
    | Applies(index: int, command: Command)
    | SendsSnapshot(term: nat, leader: nat, last: nat, lastTerm: nat)
    | Installed(current: nat)
    | Silent

  /** The step can be taken: every index is in range, a service snapshots what it has applied, and a snapshot is sent to a
      peer that needs what it covers. */
  ghost predicate Can(p: Peer, op: Op)
    requires Shaped(p)
  {
    match op
    case DoSend(to) => to < |p.nextIndex| && p.lastIncludedIndex < p.nextIndex[to] <= p.logLength
    case OnAppend(args) => Reaches(p, args)
    case OnReply(to, args, reply) => to < |p.nextIndex| && to < |p.matchIndex| && !ReplyStops(p, to, args, reply)
    case DoApply => p.lastApplied < p.commitIndex && p.lastApplied + 1 < p.logLength
    case DoSnapshot(index, _) => p.lastIncludedIndex <= index <= p.lastApplied && index < p.logLength
    case SendSnapshot(to, upTo) => to < |p.nextIndex| && p.nextIndex[to] <= p.lastIncludedIndex == upTo
    case OnInstall(snap, prefix) => StandsFor(snap, prefix)
    case OnSnapshotReply(to, _, _) => to < |p.nextIndex|
    case _ => true
  }

  /** What the snapshot covers has been applied, or nothing is committed that has not been. */
  ghost predicate Ready(p: Peer) {
    Whole(p) && (p.lastIncludedIndex <= p.lastApplied || p.commitIndex <= p.lastApplied)
  }

  ghost function Do(p: Peer, op: Op): (Peer, Answer)
    requires Ready(p) && Can(p, op)
  {
    match op
    case DoElect => (Elect(p).0, Asks(Elect(p).1))
    case OnVote(vote) => (HandleVote(p, vote).0, Votes(HandleVote(p, vote).1))
    case OnVoteReply(vote, answer) => (HandleVoteReply(p, vote, answer), Silent)
    case OnRefusal(answer) => (HandleRefusal(p, answer), Silent)
    case DoSend(to) => (p, Sends(MakeAppend(p, to)))
    case OnAppend(args) =>
      var (q, r) := HandleAppend(p, args);
      (q, Appends(r.term, r.success, r.xTerm, r.xLen))
    case OnReply(to, args, reply) => (HandleAppendReply(p, to, args, reply), Silent)
    case OnCommand(command) => (Start(p, command).0, Started(Start(p, command).1))
    case DoApply => (Apply(p).0, Applies(Apply(p).1, p.log[Apply(p).1 - p.lastIncludedIndex].command))
    case DoSnapshot(index, snapshot) => (TakeSnapshot(p, index, snapshot), Silent)
    case SendSnapshot(_, _) => (p, SendsSnapshot(p.currentTerm, p.me, p.lastIncludedIndex, p.lastIncludedTerm))
    case OnInstall(snap, _) => (InstallSnapshot(p, snap).0, Installed(InstallSnapshot(p, snap).1))
    case OnSnapshotReply(to, snap, current) => (HandleSnapshotReply(p, to, snap, current), Silent)
    case DoRestart => (Restart(p), Silent)
  }

  /** The step can be taken by a peer that keeps everything. */
  ghost predicate CanFull(P: Peer, op: Op) {
    && Whole(P) && P.lastIncludedIndex == 0
    && match op
       case DoSend(to) => to < |P.nextIndex| && 0 < P.nextIndex[to] <= P.logLength
       case OnAppend(args) => Reaches(P, args)
       case OnReply(to, _, _) => to < |P.nextIndex| && to < |P.matchIndex|
       case DoApply => 0 <= P.lastApplied < P.commitIndex && P.lastApplied + 1 < P.logLength
       case SendSnapshot(_, upTo) => upTo < |P.log|
       case OnInstall(_, prefix) => prefix != []
       case OnSnapshotReply(to, _, _) => to < |P.nextIndex|
       case _ => true
  }

  /** The same step of the peer that keeps everything, by its own lights. */
  ghost function DoFull(P: Peer, op: Op): (Peer, Answer)
    requires CanFull(P, op)
  {
    match op
    case DoElect => (Elect(P).0, Asks(Elect(P).1))
    case OnVote(vote) => (HandleVote(P, vote).0, Votes(HandleVote(P, vote).1))
    case OnVoteReply(vote, answer) => (HandleVoteReply(P, vote, answer), Silent)
    case OnRefusal(answer) => (HandleRefusal(P, answer), Silent)
    case DoSend(to) => (P, Sends(MakeAppend(P, to)))
    case OnAppend(args) =>
      var (Q, r) := HandleAppend(P, args);
      (Q, Appends(r.term, r.success, r.xTerm, r.xLen))
    case OnReply(to, args, reply) => (HandleAppendReply(P, to, args, reply), Silent)
    case OnCommand(command) => (Start(P, command).0, Started(Start(P, command).1))
    case DoApply => (Apply(P).0, Applies(Apply(P).1, P.log[Apply(P).1].command))
    case DoSnapshot(_, _) => (Persist(P), Silent)
    case SendSnapshot(_, upTo) => (P, SendsSnapshot(P.currentTerm, P.me, upTo, P.log[upTo].term))
    case OnInstall(snap, prefix) => (InstallFull(P, snap, prefix).0, Installed(InstallFull(P, snap, prefix).1))
    case OnSnapshotReply(to, snap, current) => (SnapshotReplyFull(P, to, snap, current), Silent)
    case DoRestart => (Restart(P), Silent)
  }

  // ---- the compacting peer by itself ----

  lemma ElectionReady(p: Peer, vote: VoteArgs, answer: VoteReply)
    requires Ready(p)
    ensures Ready(Elect(p).0) && Ready(HandleVote(p, vote).0) && Ready(HandleVoteReply(p, vote, answer)) && Ready(HandleRefusal(p, answer))
  {
    ElectionsKeepWhole(p, vote, answer);
  }

  lemma AppendReady(p: Peer, args: AppendArgs)
    requires Ready(p) && Reaches(p, args)
    ensures Ready(HandleAppend(p, args).0)
  {
    hide FirstWithTerm;
  }

  lemma ReplyReady(p: Peer, to: nat, args: AppendArgs, reply: AppendReply)
    requires Ready(p) && to < |p.nextIndex| && to < |p.matchIndex|
    ensures Ready(HandleAppendReply(p, to, args, reply))
  {
    hide CommitScan, BackUp;
  }

  lemma CommandReady(p: Peer, command: Command)
    requires Ready(p)
    ensures Ready(Start(p, command).0) && Ready(Apply(p).0)
  {
  }

  lemma SnapshotReady(p: Peer, to: nat, snap: SnapshotArgs, current: nat)
    requires Ready(p)
    ensures Ready(InstallSnapshot(p, snap).0) && (to < |p.nextIndex| ==> Ready(HandleSnapshotReply(p, to, snap, current)))
  {
    SnapshotsKeepWhole(p, to, -1, 0, snap, current);
  }

  /** Every step, restarts included, keeps it: so an apply is never behind the snapshot. */
  lemma ReadyKept(p: Peer, op: Op)
    requires Ready(p) && Can(p, op)
    ensures Ready(Do(p, op).0)
    ensures op == DoApply ==> p.lastIncludedIndex <= p.lastApplied
  {
    hide HandleAppend, HandleAppendReply, HandleVote, InstallSnapshot, Elect, HandleVoteReply, HandleRefusal, MakeAppend, Start, Apply,
         HandleSnapshotReply, ReplyStops;
    match op
    case DoElect => ElectionReady(p, VoteArgs(0, 0, 0, 0), VoteReply(0, false));
    case OnVote(vote) => ElectionReady(p, vote, VoteReply(0, false));
    case OnVoteReply(vote, answer) => ElectionReady(p, vote, answer);
    case OnRefusal(answer) => ElectionReady(p, VoteArgs(0, 0, 0, 0), answer);
    case DoSend(_) =>
    case OnAppend(args) => AppendReady(p, args);
    case OnReply(to, args, reply) => ReplyReady(p, to, args, reply);
    case OnCommand(command) => CommandReady(p, command);
    case DoApply => CommandReady(p, 0);
    case DoSnapshot(_, _) =>
    case SendSnapshot(_, _) =>
    case OnInstall(snap, _) => SnapshotReady(p, 0, snap, 0);
    case OnSnapshotReply(to, snap, current) => SnapshotReady(p, to, snap, current);
    case DoRestart => FreshWhole(p.me, p.peers, p);
  }

  // ---- the two side by side ----

  /** What the compacting peer can do, the other can. */
  lemma CanBoth(p: Peer, P: Peer, op: Op)
    requires Ready(p) && Refines(p, P) && Can(p, op)
    ensures CanFull(P, op)
  {
    hide ReplyStops;
  }

  lemma RepliesAlike(p: Peer, P: Peer, vote: VoteArgs, answer: VoteReply)
    requires Refines(p, P)
    ensures Refines(HandleVoteReply(p, vote, answer), HandleVoteReply(P, vote, answer))
    ensures Refines(HandleRefusal(p, answer), HandleRefusal(P, answer))
  {
    hide Compacts;
  }

  /** The step does not part the two: an append does not conflict with the snapshot's own last entry; a commit does not
      find the compacting peer behind its snapshot; a search for a term does not have to look behind it; an install is
      not of an older snapshot that the full log agrees with; a reply to a snapshot is not to an earlier one. */
  ghost predicate InStep(p: Peer, P: Peer, op: Op)
    requires Shaped(p) && Can(p, op)
  {
    match op
    case OnAppend(args) => !ConflictsAtBase(p, args) && !SkipsOn(p, args)
    case OnReply(to, args, reply) =>
      if reply.success then HandleAppendReply(p, to, args, reply).commitIndex == p.commitIndex || !Behind(p)
      else p.currentTerm != args.term || args.term < reply.term || SearchesAlike(p, P, reply)
    case OnInstall(snap, _) => snap.term < p.currentTerm || p.lastIncludedIndex <= snap.lastIncludedIndex || !Agrees(P, snap)
    case OnSnapshotReply(_, snap, _) => p.currentTerm != snap.term || snap.lastIncludedIndex == p.lastIncludedIndex
    case _ => true
  }

  /** Any step gets one answer from both, and leaves the two in step exactly if it does not part them. */
  lemma StepAlikeIff(p: Peer, P: Peer, op: Op)
    requires Ready(p) && Refines(p, P) && Can(p, op)
    ensures CanFull(P, op) && Do(p, op).1 == DoFull(P, op).1
    ensures Refines(Do(p, op).0, DoFull(P, op).0) <==> InStep(p, P, op)
  {
    hide Refines, HandleAppend, HandleAppendReply, HandleVote, InstallSnapshot, TakeSnapshot, Elect, HandleVoteReply, HandleRefusal,
         MakeAppend, InstallFull, HandleSnapshotReply, SnapshotReplyFull, ReplyStops, SearchesAlike, ConflictsAtBase, SkipsOn, Behind,
         Agrees, Restart, Start;
    CanBoth(p, P, op);
    match op
    case DoElect => VotesAlike(p, P, VoteArgs(0, 0, 0, 0));
    case OnVote(vote) => VotesAlike(p, P, vote);
    case OnVoteReply(vote, answer) => RepliesAlike(p, P, vote, answer);
    case OnRefusal(answer) => RepliesAlike(p, P, VoteArgs(0, 0, 0, 0), answer);
    case DoSend(to) => SendsAlike(p, P, to);
    case OnAppend(args) =>
      AcceptsAlike(p, P, args);
      AppendsAlikeIff(p, P, args);
    case OnReply(to, args, reply) =>
      if reply.success {
        CommitsAlikeIff(p, P, to, args, reply);
      } else {
        RefusedAlikeIff(p, P, to, args, reply);
      }
    case OnCommand(command) => StartsAlike(p, P, command);
    case DoApply => AppliesAlike(p, P);
    case DoSnapshot(index, snapshot) => SnapshotInvisible(p, P, index, snapshot);
    case SendSnapshot(_, _) => SendsSame(p, P);
    case OnInstall(snap, prefix) => InstallsAlikeIff(p, P, snap, prefix);
    case OnSnapshotReply(to, snap, current) => SnapshotRepliesAlikeIff(p, P, to, snap, current);
    case DoRestart => RestartsAlike(p, P);
  }

  lemma SendsSame(p: Peer, P: Peer)
    requires Refines(p, P)
    ensures P.currentTerm == p.currentTerm && P.me == p.me && p.lastIncludedIndex < |P.log| &&
            P.log[p.lastIncludedIndex].term == p.lastIncludedTerm
  {
    SnapshotStands(p, P);
  }

  // ---- runs ----

  /** Every step of the run can be taken by the compacting peer. */
  ghost predicate CanAll(p: Peer, ops: seq<Op>)
    requires Ready(p)
    decreases |ops|
  {
    ops == [] || (Can(p, ops[0]) && (ReadyKept(p, ops[0]); CanAll(Do(p, ops[0]).0, ops[1..])))
  }

  ghost function Answers(p: Peer, ops: seq<Op>): seq<Answer>
    requires Ready(p) && CanAll(p, ops)
    decreases |ops|
  {
    if ops == [] then []
    else
      ReadyKept(p, ops[0]);
      [Do(p, ops[0]).1] + Answers(Do(p, ops[0]).0, ops[1..])
  }

  ghost predicate CanAllFull(P: Peer, ops: seq<Op>)
    decreases |ops|
  {
    ops == [] || (CanFull(P, ops[0]) && CanAllFull(DoFull(P, ops[0]).0, ops[1..]))
  }

  ghost function FullAnswers(P: Peer, ops: seq<Op>): seq<Answer>
    requires CanAllFull(P, ops)
    decreases |ops|
  {
    if ops == [] then [] else [DoFull(P, ops[0]).1] + FullAnswers(DoFull(P, ops[0]).0, ops[1..])
  }

  /** The two are in step before and after every step of the run. */
  ghost predicate Together(p: Peer, P: Peer, ops: seq<Op>)
    requires Ready(p) && CanAll(p, ops)
    decreases |ops|
  {
    Refines(p, P) && (ops == [] || (CanFull(P, ops[0]) && (ReadyKept(p, ops[0]); Together(Do(p, ops[0]).0, DoFull(P, ops[0]).0, ops[1..]))))
  }

  /** No step of the run parts them. */
  ghost predicate AllInStep(p: Peer, P: Peer, ops: seq<Op>)
    requires Ready(p) && CanAll(p, ops)
    decreases |ops|
  {
    ops == [] || (InStep(p, P, ops[0]) && CanFull(P, ops[0]) && (ReadyKept(p, ops[0]); AllInStep(Do(p, ops[0]).0, DoFull(P, ops[0]).0, ops[1..])))
  }

  /** Over any run: the two are in step at every moment exactly if no step parts them. */
  lemma {:induction false} TogetherIff(p: Peer, P: Peer, ops: seq<Op>)
    requires Ready(p) && CanAll(p, ops) && Refines(p, P)
    ensures Together(p, P, ops) <==> AllInStep(p, P, ops)
    decreases |ops|
  {
    hide Ready, Can, CanFull, Refines, Do, DoFull, InStep;
    if ops != [] {
      ReadyKept(p, ops[0]);
      StepAlikeIff(p, P, ops[0]);
      var q, Q := Do(p, ops[0]).0, DoFull(P, ops[0]).0;
      if Refines(q, Q) {
        TogetherIff(q, Q, ops[1..]);
      } else {
        Apart(q, Q, ops[1..]);
      }
    }
  }

  lemma Apart(p: Peer, P: Peer, ops: seq<Op>)
    requires Ready(p) && CanAll(p, ops) && !Refines(p, P)
    ensures !Together(p, P, ops)
  {
  }

  /** As long as no step parts them, the two give the same answers: snapshots cannot be told from the outside. */
  lemma {:induction false} RunsAlike(p: Peer, P: Peer, ops: seq<Op>)
    requires Ready(p) && CanAll(p, ops) && Refines(p, P) && AllInStep(p, P, ops)
    ensures CanAllFull(P, ops) && Answers(p, ops) == FullAnswers(P, ops)
    decreases |ops|
  {
    hide Ready, Can, CanFull, Refines, Do, DoFull, InStep;
    if ops != [] {
      ReadyKept(p, ops[0]);
      StepAlikeIff(p, P, ops[0]);
      RunsAlike(Do(p, ops[0]).0, DoFull(P, ops[0]).0, ops[1..]);
    }
  }

  lemma FreshInStep(me: nat, peers: nat)
    ensures Ready(Fresh(me, peers)) && Refines(Fresh(me, peers), Fresh(me, peers))
  {
  }

  /** From the start: a new peer that cuts its log and a new peer that does not. */
  lemma FromTheStart(me: nat, peers: nat, ops: seq<Op>)
    requires Ready(Fresh(me, peers)) && CanAll(Fresh(me, peers), ops)
    ensures var p := Fresh(me, peers);
      (Together(p, p, ops) <==> AllInStep(p, p, ops)) &&
      (AllInStep(p, p, ops) ==> CanAllFull(p, ops) && Answers(p, ops) == FullAnswers(p, ops))
  {
    hide Ready, CanAll, Refines, Together, AllInStep, Answers, CanAllFull, FullAnswers;
    var p := Fresh(me, peers);
    FreshInStep(me, peers);
    TogetherIff(p, p, ops);
    if AllInStep(p, p, ops) {
      RunsAlike(p, p, ops);
    }
  }
}
