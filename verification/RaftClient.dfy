/** What the answer to a client's command is worth: the index and term it names are where the command is, in every log
    that has an entry of that term there, and what is applied of that term at that index is the command, in every run. */
module RaftClient {
  import opened RaftPeer
  import opened RaftCluster
  import opened RaftElection
  import opened RaftCompaction
  import opened RaftLogs
  import opened RaftTraces
  import opened RaftRuns

  /** Only a leader takes a command, and anyone else changes nothing. The answer names the place of the new last entry. */
  lemma StartAnswers(p: Peer, command: Command)
    requires Shaped(p)
    ensures var (q, r) := Start(p, command);
      && (r.isLeader <==> p.role == Leader)
      && (!r.isLeader ==> q == p && !Holds(p, r.index) && r.index == r.term == -1)
      && (r.isLeader ==>
            && Shaped(q) && Holds(q, r.index) && !Holds(q, r.index + 1) && !Holds(p, r.index)
            && EntryAt(q, r.index) == LogEntry(r.term as nat, command) && r.term == p.currentTerm
            && p.log <= q.log && q == Persist(p.(log := q.log, logLength := q.logLength)))
  {
  }

  /** A turn of the apply loop takes the next entry exactly if it is committed, and never passes the commit index. */
  lemma AppliesNext(p: Peer)
    requires 0 <= p.lastApplied
    ensures var (q, index) := Apply(p);
      && (index == -1 <==> p.commitIndex <= p.lastApplied)
      && (index == -1 ==> q == p)
      && (index != -1 ==> index == q.lastApplied == p.lastApplied + 1 <= q.commitIndex && q == p.(lastApplied := index))
  {
  }

  // ---- what is applied is what the full log holds ----

  /** The peer has applied what its snapshot covers, or has nothing to apply, or still has the snapshot's last entry. */
  ghost predicate Grounded(p: Peer, full: Log) {
    && 0 <= p.lastIncludedIndex < |full| && p.log != []
    && (p.log[0] == full[p.lastIncludedIndex] || p.lastIncludedIndex <= p.lastApplied || p.commitIndex <= p.lastApplied)
  }

  ghost predicate AllGrounded(s: Cluster) {
    forall i :: 0 <= i < |s.peers| ==> Grounded(s.peers[i], FullLog(s, i))
  }

  lemma VoteGrounded(p: Peer, full: Log, args: VoteArgs, reply: VoteReply)
    requires Shaped(p) && Grounded(p, full)
    ensures Grounded(Elect(p).0, full) && Grounded(HandleVote(p, args).0, full)
    ensures Grounded(HandleVoteReply(p, args, reply), full) && Grounded(HandleRefusal(p, reply), full)
  {
    hide UpToDate;
  }

  lemma AppendGrounded(p: Peer, full: Log, args: AppendArgs)
    requires Shaped(p) && Reaches(p, args) && Grounded(p, full) && |full| == p.logLength
    ensures Grounded(HandleAppend(p, args).0, FullAfter(p, args, full))
  {
    hide FirstWithTerm;
  }

  lemma ReplyGrounded(p: Peer, full: Log, j: nat, args: AppendArgs, reply: AppendReply)
    requires Shaped(p) && Grounded(p, full) && j < |p.nextIndex| && j < |p.matchIndex|
    ensures Grounded(HandleAppendReply(p, j, args, reply), full)
  {
    hide CommitScan, BackUp;
  }

  lemma SnapshotGrounded(p: Peer, full: Log, index: int, data: int)
    requires Shaped(p) && Grounded(p, full) && Compacts(p.log, p.lastIncludedIndex, full) && p.lastIncludedIndex <= index < p.logLength
    ensures Grounded(TakeSnapshot(p, index, data), full)
  {
    if index > p.lastIncludedIndex {
      var k := index - p.lastIncludedIndex;
      assert p.log[k] == full[p.lastIncludedIndex + k];
    }
  }

  lemma InstallGrounded(p: Peer, full: Log, args: SnapshotArgs, prefix: Log)
    requires Shaped(p) && Grounded(p, full) && StandsFor(args, prefix) && |full| == p.logLength
    ensures Grounded(InstallSnapshot(p, args).0, if args.term < p.currentTerm || KeepsSuffix(p, args) then full else prefix)
  {
  }

  lemma ActorGrounded(s: Cluster, a: Action)
    requires Firm(s) && Enabled(s, a) && Actor(s, a) < |s.peers| && Grounded(s.peers[Actor(s, a)], FullLog(s, Actor(s, a)))
    ensures var i := Actor(s, a); i < |Do(s, a).peers| && Grounded(Do(s, a).peers[i], FullLog(Do(s, a), i))
  {
    hide Firm, Do, Enabled, Grounded, FullLog;
    if a.DeliverAppend? || a.DeliverSnap? || a.ClientStart? {
      ChangedGrounded(s, a);
    } else {
      FullKept(s, a);
      KeptGrounded(s, a);
      SameFull(s, Do(s, a), Actor(s, a));
    }
  }

  lemma SameFull(s: Cluster, s': Cluster, i: nat)
    requires s'.hist.full == s.hist.full
    ensures FullLog(s', i) == FullLog(s, i)
  {
  }

  /** The steps that change a full log. */
  lemma ChangedGrounded(s: Cluster, a: Action)
    requires Firm(s) && Enabled(s, a) && Actor(s, a) < |s.peers| && Grounded(s.peers[Actor(s, a)], FullLog(s, Actor(s, a)))
    requires a.DeliverAppend? || a.DeliverSnap? || a.ClientStart?
    ensures var i := Actor(s, a); i < |Do(s, a).peers| && Grounded(Do(s, a).peers[i], FullLog(Do(s, a), i))
  {
    hide HandleAppend, FullAfter, InstallSnapshot, KeepsSuffix, AllSound, Voting, PeerLogs, ReignLogs, CandidateLogs, VoterLogs, Messages,
         Grounded, StandsFor;
    var i := Actor(s, a);
    var p, full := s.peers[i], FullLog(s, i);
    FullLength(s);
    KeepsFull(s, i);
    CompactLength(p.log, p.lastIncludedIndex, full);
    match a
    case DeliverAppend(idx) => AppendGrounded(p, full, s.sent[idx].args);
    case ClientStart(_, command) => StartGrounded(p, full, command);
    case DeliverSnap(idx) =>
      SnapStands(s, idx);
      InstallGrounded(p, full, s.snaps[idx].args, s.snaps[idx].prefix);
  }

  lemma KeptGrounded(s: Cluster, a: Action)
    requires Firm(s) && Enabled(s, a) && Actor(s, a) < |s.peers| && Grounded(s.peers[Actor(s, a)], FullLog(s, Actor(s, a)))
    requires !a.DeliverAppend? && !a.DeliverSnap? && !a.ClientStart?
    ensures var i := Actor(s, a); i < |Do(s, a).peers| && Grounded(Do(s, a).peers[i], FullLog(s, i))
  {
    hide HandleAppendReply, HandleVote, HandleVoteReply, HandleRefusal, Elect, MakeAppend, Tally, Asks, TakeSnapshot, MakeSnap,
         ReplyStops, AllSound, Voting, PeerLogs, ReignLogs, CandidateLogs, VoterLogs, Messages, Grounded, Apply, Restart,
         HandleSnapshotReply;
    var i := Actor(s, a);
    var p, full := s.peers[i], FullLog(s, i);
    match a
    case DoElect(_) => VoteGrounded(p, full, VoteArgs(0, 0, 0, 0), VoteReply(0, false));
    case DeliverVote(ask) => VoteGrounded(p, full, s.ballots[ask].args, VoteReply(0, false));
    case CountVote(ask) => VoteGrounded(p, full, s.ballots[ask].args, s.ballots[ask].reply);
    case AdoptRefusal(ask) => VoteGrounded(p, full, s.ballots[ask].args, s.ballots[ask].reply);
    case HandleReply(ack) => ReplyGrounded(p, full, ack.msg.to, ack.msg.args, ack.reply);
    case Crash(_) => CrashGrounded(s, i);
    case DoSnapshot(_, index, data) =>
      KeepsFull(s, i);
      SnapshotGrounded(p, full, index, data);
    case HandleSnapReply(ack) => SnapReplyGrounded(p, full, ack.msg.to, ack.msg.args, ack.term);
    case DoApply(_) => ApplyGrounded(p, full);
    case DoSend(_, _) =>
    case SendSnap(_, _) =>
  }

  lemma StartGrounded(p: Peer, full: Log, command: Command)
    requires Shaped(p) && Grounded(p, full)
    ensures Grounded(Start(p, command).0, full + [LogEntry(p.currentTerm, command)])
  {
  }

  lemma ApplyGrounded(p: Peer, full: Log)
    requires Grounded(p, full)
    ensures Grounded(Apply(p).0, full)
  {
  }

  lemma SnapReplyGrounded(p: Peer, full: Log, j: nat, args: SnapshotArgs, term: nat)
    requires Grounded(p, full) && j < |p.nextIndex|
    ensures Grounded(HandleSnapshotReply(p, j, args, term), full)
  {
  }

  lemma CrashGrounded(s: Cluster, i: nat)
    requires AllSound(s) && i < |s.peers| && Grounded(s.peers[i], FullLog(s, i))
    ensures Grounded(Restart(s.peers[i]), FullLog(s, i))
  {
    SoundAt(s, i);
  }

  lemma SnapStands(s: Cluster, idx: nat)
    requires Messages(s) && idx < |s.snaps|
    ensures StandsFor(s.snaps[idx].args, s.snaps[idx].prefix)
  {
    assert SnapOk(s, s.snaps[idx]);
  }

  /** A step changes at most the full log of the peer that takes it. */
  lemma OneFull(s: Cluster, a: Action, j: nat)
    requires Enabled(s, a) && j != Actor(s, a)
    ensures FullLog(Do(s, a), j) == FullLog(s, j)
  {
    hide HandleAppend, FullAfter, Start, InstallSnapshot, KeepsSuffix;
    match a
    case DeliverAppend(_) =>
    case DeliverSnap(_) =>
    case ClientStart(_, _) =>
    case _ =>
      hide Do, Enabled;
      FullKept(s, a);
  }

  lemma FullKept(s: Cluster, a: Action)
    requires Enabled(s, a) && !a.DeliverAppend? && !a.DeliverSnap? && !a.ClientStart?
    ensures Do(s, a).hist.full == s.hist.full
  {
    hide HandleAppendReply, HandleVote, HandleVoteReply, HandleRefusal, Elect, MakeAppend, Tally, Asks, Restart, Apply, TakeSnapshot,
         HandleSnapshotReply, MakeSnap, ReplyStops;
  }

  lemma DoGrounded(s: Cluster, a: Action)
    requires Firm(s) && AllGrounded(s) && Enabled(s, a)
    ensures AllGrounded(Do(s, a))
  {
    hide Firm, Do, Enabled, Grounded, FullLog;
    OneActor(s, a);
    ActorGrounded(s, a);
    forall j | 0 <= j < |s.peers| && j != Actor(s, a) ensures Grounded(Do(s, a).peers[j], FullLog(Do(s, a), j)) {
      OneFull(s, a, j);
    }
  }

  lemma InitGrounded(s: Cluster)
    requires Init(s)
    ensures AllGrounded(s)
  {
  }

  lemma {:induction false} RunGrounded(run: seq<Cluster>, k: nat)
    requires Run(run) && k < |run|
    ensures AllGrounded(run[k])
  {
    hide AllGrounded, Firm, Enabled, Do, Init;
    if k == 0 {
      InitGrounded(run[0]);
    } else {
      RunGrounded(run, k - 1);
      RunFirm(run, k - 1);
      assert Next(run[k - 1], run[k - 1 + 1]);
      var a :| Enabled(run[k - 1], a) && run[k] == Do(run[k - 1], a);
      DoGrounded(run[k - 1], a);
    }
  }

  /** In every run, what a peer applies is the entry of its full log, although its own log has been cut. */
  lemma AppliesFull(run: seq<Cluster>, b: nat, j: nat)
    requires Run(run) && b < |run| && Enabled(run[b], DoApply(j))
    ensures var p, full := run[b].peers[j], FullLog(run[b], j); var n := p.lastApplied + 1;
      && 0 <= n < |full| && Do(run[b], DoApply(j)).hist.applied == run[b].hist.applied + {Application(j, n, full[n].command)}
      && Holds(p, n) && EntryAt(p, n) == full[n]
  {
    hide Run, AllSound, Voting, PeerLogs, ReignLogs, CandidateLogs, VoterLogs, Messages;
    RunFirm(run, b);
    RunGrounded(run, b);
    var s := run[b];
    KeepsFull(s, j);
    var p, full := s.peers[j], FullLog(s, j);
    assert Grounded(p, full);
    EntryOfFull(p, full, p.lastApplied + 1);
  }

  // ---- the command that was submitted ----

  /** Peer i takes a command at moment a. */
  ghost predicate Submits(run: seq<Cluster>, a: nat, i: nat, command: Command) {
    a + 1 < |run| && Enabled(run[a], ClientStart(i, command)) && run[a + 1] == Do(run[a], ClientStart(i, command))
  }

  /** What the client was told. */
  function AnswerTo(run: seq<Cluster>, a: nat, i: nat, command: Command): StartReply
    requires a < |run| && i < |run[a].peers|
  {
    Start(run[a].peers[i], command).1
  }

  lemma SubmittedAt(run: seq<Cluster>, a: nat, i: nat, command: Command)
    requires Run(run) && Submits(run, a, i, command)
    ensures var r, full := AnswerTo(run, a, i, command), FullLog(run[a + 1], i);
      r.isLeader && 0 <= r.index == |full| - 1 && 0 <= r.term && full[r.index] == LogEntry(r.term, command)
    ensures i < |run[a + 1].peers|
  {
    hide Run, AllSound, Voting, PeerLogs, ReignLogs, CandidateLogs, VoterLogs, Messages, Compacts;
    RunFirm(run, a);
    var s := run[a];
    FullLength(s);
    KeepsFull(s, i);
    CompactLength(s.peers[i].log, s.peers[i].lastIncludedIndex, FullLog(s, i));
  }

  /** In every run: a log, of any peer at any moment, that has an entry of the term in the answer at the index in the
      answer has the command that was submitted there. */
  lemma SubmittedFound(run: seq<Cluster>, a: nat, i: nat, command: Command, b: nat, j: nat)
    requires Run(run) && Submits(run, a, i, command) && b < |run| && j < |run[b].peers|
    requires var r := AnswerTo(run, a, i, command);
      0 <= r.index < |FullLog(run[b], j)| && FullLog(run[b], j)[r.index].term == r.term
    ensures FullLog(run[b], j)[AnswerTo(run, a, i, command).index].command == command
  {
    hide Run, Start, Submits;
    Submitted(run, a, i, command);
    SubmittedAt(run, a, i, command);
    var n := AnswerTo(run, a, i, command).index;
    LogMatching(run, a + 1, b, i, j, n);
    assert FullLog(run[a + 1], i)[..n + 1][n] == FullLog(run[b], j)[..n + 1][n];
  }

  lemma Submitted(run: seq<Cluster>, a: nat, i: nat, command: Command)
    requires Submits(run, a, i, command)
    ensures a + 1 < |run| && i < |run[a].peers|
  {
  }

  /** In every run: if a peer ever applies an entry of the term in the answer at the index in the answer, what it applies
      is the command that was submitted. */
  lemma SubmittedApplied(run: seq<Cluster>, a: nat, i: nat, command: Command, b: nat, j: nat)
    requires Run(run) && Submits(run, a, i, command) && b < |run| && Enabled(run[b], DoApply(j))
    requires var r, p := AnswerTo(run, a, i, command), run[b].peers[j];
      p.lastApplied + 1 == r.index && Holds(p, r.index) && EntryAt(p, r.index).term == r.term
    ensures Application(j, AnswerTo(run, a, i, command).index, command) in Do(run[b], DoApply(j)).hist.applied
  {
    hide Run, Start, Submits, Do, EntryAt;
    AppliesFull(run, b, j);
    SubmittedFound(run, a, i, command, b, j);
  }
}
