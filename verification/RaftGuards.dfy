/** What the guards of the cluster's actions exclude: in any run only steps at which the program would stop because it
    looks outside a log, and in runs without snapshots and overtaking nothing at all. */
module RaftGuards {
  import opened RaftPeer
  import opened RaftCluster
  import opened RaftElection
  import opened RaftLogs
  import opened RaftCommit
  import opened RaftApplied
  import opened RaftRuns
  import opened RaftTraces
  import opened Permutations

  // ---- tables ----

  /** The leader's tables cover every peer. */
  predicate Covers(p: Peer) {
    |p.nextIndex| == |p.matchIndex| == p.peers
  }

  /** A leader has tables, and once a peer has them it keeps them for the rest of its life. */
  predicate KeepsTables(p: Peer, q: Peer) {
    && q.peers == p.peers && (Covers(p) ==> Covers(q))
    && (q.role == Leader ==> p.role == Leader || Covers(q))
  }

  lemma VoteTables(p: Peer, args: VoteArgs, reply: VoteReply)
    requires Shaped(p)
    ensures KeepsTables(p, Elect(p).0) && KeepsTables(p, HandleVote(p, args).0)
    ensures KeepsTables(p, HandleRefusal(p, reply)) && KeepsTables(p, HandleVoteReply(p, args, reply))
  {
    hide UpToDate;
  }

  lemma AppendTables(p: Peer, args: AppendArgs)
    requires Shaped(p) && Reaches(p, args)
    ensures KeepsTables(p, HandleAppend(p, args).0)
  {
    hide FirstWithTerm;
  }

  lemma ReplyTables(p: Peer, j: nat, args: AppendArgs, reply: AppendReply)
    requires Shaped(p) && j < |p.nextIndex| && j < |p.matchIndex|
    ensures KeepsTables(p, HandleAppendReply(p, j, args, reply))
  {
    hide CommitScan, BackUp;
  }

  lemma SnapTables(p: Peer, args: SnapshotArgs, index: int, snapshot: int)
    requires Shaped(p)
    ensures KeepsTables(p, InstallSnapshot(p, args).0)
    ensures p.lastIncludedIndex <= index < p.logLength ==> KeepsTables(p, TakeSnapshot(p, index, snapshot))
  {
  }

  lemma SnapReplyTables(p: Peer, j: nat, args: SnapshotArgs, term: nat)
    requires Shaped(p) && j < |p.nextIndex|
    ensures KeepsTables(p, HandleSnapshotReply(p, j, args, term))
  {
  }

  lemma ActorTables(s: Cluster, a: Action)
    requires Enabled(s, a) && !a.Crash?
    ensures var i := Actor(s, a); i < |s.peers| && i < |Do(s, a).peers| && KeepsTables(s.peers[i], Do(s, a).peers[i])
  {
    hide HandleAppend, HandleAppendReply, HandleVote, HandleVoteReply, HandleRefusal, Elect, MakeAppend, Tally, Asks, FullAfter,
         InstallSnapshot, TakeSnapshot, HandleSnapshotReply, MakeSnap, KeepsSuffix, ReplyStops;
    var p := s.peers[Actor(s, a)];
    match a
    case DoElect(_) => VoteTables(p, VoteArgs(0, 0, 0, 0), VoteReply(0, false));
    case DeliverVote(ask) => VoteTables(p, s.ballots[ask].args, VoteReply(0, false));
    case CountVote(ask) => VoteTables(p, s.ballots[ask].args, s.ballots[ask].reply);
    case AdoptRefusal(ask) => VoteTables(p, s.ballots[ask].args, s.ballots[ask].reply);
    case DeliverAppend(idx) => AppendTables(p, s.sent[idx].args);
    case HandleReply(ack) => ReplyTables(p, ack.msg.to, ack.msg.args, ack.reply);
    case DoSnapshot(_, index, snapshot) => SnapTables(p, SnapshotArgs(0, 0, 0, 0, 0), index, snapshot);
    case DeliverSnap(idx) => SnapTables(p, s.snaps[idx].args, -1, 0);
    case HandleSnapReply(ack) => SnapReplyTables(p, ack.msg.to, ack.msg.args, ack.term);
    case _ =>
  }

  ghost predicate Tabled(s: Cluster) {
    forall i :: 0 <= i < |s.peers| && s.peers[i].role == Leader ==> Covers(s.peers[i])
  }

  lemma CrashTables(s: Cluster, i: nat)
    requires Enabled(s, Crash(i))
    ensures Do(s, Crash(i)).peers[i].role == Follower
  {
  }

  lemma DoTabled(s: Cluster, a: Action)
    requires Tabled(s) && Enabled(s, a)
    ensures Tabled(Do(s, a))
  {
    hide Do, Enabled, Covers;
    OneActor(s, a);
    if a.Crash? {
      CrashTables(s, a.i);
    } else {
      ActorTables(s, a);
    }
  }

  // ---- lives ----

  /** A call of the sender's present life was made by a peer that has led in it, so its tables cover every peer. */
  ghost predicate LifeOk(s: Cluster, from: nat, to: nat, boot: nat) {
    && from < |s.peers| && to < |s.peers| && from < |s.boots| && boot <= s.boots[from]
    && (boot == s.boots[from] ==> Covers(s.peers[from]))
  }

  ghost predicate Lives(s: Cluster) {
    && (forall k :: 0 <= k < |s.sent| ==> LifeOk(s, s.sent[k].from, s.sent[k].to, s.sent[k].boot))
    && (forall ack :: ack in s.replies ==> LifeOk(s, ack.msg.from, ack.msg.to, ack.msg.boot))
    && (forall k :: 0 <= k < |s.snaps| ==> LifeOk(s, s.snaps[k].from, s.snaps[k].to, s.snaps[k].boot))
    && (forall ack :: ack in s.snapReplies ==> LifeOk(s, ack.msg.from, ack.msg.to, ack.msg.boot))
  }

  lemma LifeGoesOn(s: Cluster, a: Action, from: nat, to: nat, boot: nat)
    requires LifeOk(s, from, to, boot) && Enabled(s, a)
    ensures LifeOk(Do(s, a), from, to, boot)
  {
    hide Do, Enabled, Covers;
    OneActor(s, a);
    if !a.Crash? {
      ActorTables(s, a);
    }
  }

  ghost predicate NewCall(s: Cluster, i: nat, msg: AppendMsg) {
    i < |s.peers| && i < |s.boots| && msg.from == i && msg.to < |s.peers| && msg.boot == s.boots[i] && s.peers[i].role == Leader
  }

  /** New calls are made by the peer that acts, in its present life; new replies answer earlier calls. */
  ghost predicate Sends(s: Cluster, s': Cluster, i: nat) {
    && (forall k :: 0 <= k < |s'.sent| ==> s'.sent[k] in s.sent || NewCall(s, i, s'.sent[k]))
    && (forall ack :: ack in s'.replies ==> ack in s.replies || ack.msg in s.sent)
    && (forall ack :: ack in s'.snapReplies ==> ack in s.snapReplies || ack.msg in s.snaps)
  }

  lemma DoSends(s: Cluster, a: Action)
    requires Enabled(s, a)
    ensures Sends(s, Do(s, a), Actor(s, a))
  {
    hide HandleAppend, HandleAppendReply, HandleVote, HandleVoteReply, HandleRefusal, Elect, MakeAppend, Tally, Asks, Start,
         InstallSnapshot, TakeSnapshot, HandleSnapshotReply, FullAfter, MakeSnap, Restart, ReplyStops, KeepsSuffix;
  }

  /** A snapshot is sent by a leader, or at once by a peer that handles a refusal. */
  ghost predicate NewSnap(s: Cluster, a: Action, msg: SnapMsg)
    requires Enabled(s, a)
  {
    var i := Actor(s, a);
    && i < |s.peers| && i < |s.boots| && msg.from == i && msg.boot == s.boots[i]
    && ((a.SendSnap? && msg.to == a.j < |s.peers| && s.peers[i].role == Leader) || (a.HandleReply? && msg.to == a.ack.msg.to))
  }

  lemma DoSendsSnaps(s: Cluster, a: Action)
    requires Enabled(s, a)
    ensures var s' := Do(s, a); forall k :: 0 <= k < |s'.snaps| ==> s'.snaps[k] in s.snaps || NewSnap(s, a, s'.snaps[k])
  {
    hide HandleAppend, HandleAppendReply, HandleVote, HandleVoteReply, HandleRefusal, Elect, MakeAppend, Tally, Asks, Start,
         InstallSnapshot, TakeSnapshot, HandleSnapshotReply, FullAfter, Restart, ReplyStops, KeepsSuffix;
  }

  lemma NewLife(s: Cluster, i: nat, to: nat, boot: nat)
    requires i < |s.peers| && i < |s.boots| && to < |s.peers| && boot == s.boots[i] && Covers(s.peers[i])
    ensures LifeOk(s, i, to, boot)
  {
  }

  lemma DoLives(s: Cluster, a: Action)
    requires Tabled(s) && Lives(s) && Enabled(s, a)
    ensures Lives(Do(s, a))
  {
    hide Do, Enabled, LifeOk, Covers;
    var s', i := Do(s, a), Actor(s, a);
    OneActor(s, a);
    DoSends(s, a);
    DoSendsSnaps(s, a);
    forall k | 0 <= k < |s'.sent| ensures LifeOk(s', s'.sent[k].from, s'.sent[k].to, s'.sent[k].boot) {
      if s'.sent[k] !in s.sent {
        NewLife(s, i, s'.sent[k].to, s'.sent[k].boot);
      }
      LifeGoesOn(s, a, s'.sent[k].from, s'.sent[k].to, s'.sent[k].boot);
    }
    forall ack | ack in s'.replies ensures LifeOk(s', ack.msg.from, ack.msg.to, ack.msg.boot) {
      LifeGoesOn(s, a, ack.msg.from, ack.msg.to, ack.msg.boot);
    }
    forall k | 0 <= k < |s'.snaps| ensures LifeOk(s', s'.snaps[k].from, s'.snaps[k].to, s'.snaps[k].boot) {
      if s'.snaps[k] !in s.snaps {
        SnapLife(s, a, s'.snaps[k]);
      }
      LifeGoesOn(s, a, s'.snaps[k].from, s'.snaps[k].to, s'.snaps[k].boot);
    }
    forall ack | ack in s'.snapReplies ensures LifeOk(s', ack.msg.from, ack.msg.to, ack.msg.boot) {
      LifeGoesOn(s, a, ack.msg.from, ack.msg.to, ack.msg.boot);
    }
  }

  lemma SnapLife(s: Cluster, a: Action, msg: SnapMsg)
    requires Tabled(s) && Lives(s) && Enabled(s, a) && NewSnap(s, a, msg)
    ensures LifeOk(s, msg.from, msg.to, msg.boot)
  {
    hide ReplyStops;
  }

  /** In every run. */
  lemma {:induction false} RunLives(run: seq<Cluster>, k: nat)
    requires Run(run) && k < |run|
    ensures Tabled(run[k]) && Lives(run[k])
  {
    hide Enabled, Do;
    if k > 0 {
      RunLives(run, k - 1);
      assert Next(run[k - 1], run[k - 1 + 1]);
      var a :| Enabled(run[k - 1], a) && run[k] == Do(run[k - 1], a);
      DoTabled(run[k - 1], a);
      DoLives(run[k - 1], a);
    }
  }

  // ---- every run ----

  /** A reply to a call of the present life. */
  ghost predicate Awaits(s: Cluster, ack: AppendAck) {
    ack in s.replies && ack.msg.from < |s.boots| && s.boots[ack.msg.from] == ack.msg.boot
  }

  ghost predicate AwaitsSnap(s: Cluster, ack: SnapAck) {
    ack in s.snapReplies && ack.msg.from < |s.boots| && s.boots[ack.msg.from] == ack.msg.boot
  }

  lemma ReplyInRange(s: Cluster, ack: AppendAck)
    requires AllSound(s) && Lives(s) && Awaits(s, ack)
    ensures Up(s, ack.msg.from) && ack.msg.to < |s.peers[ack.msg.from].nextIndex| && ack.msg.to < |s.peers[ack.msg.from].matchIndex|
  {
    hide AllSound;
    assert LifeOk(s, ack.msg.from, ack.msg.to, ack.msg.boot);
    SoundAt(s, ack.msg.from);
  }

  /** In every run, snapshots and restarts included, a reply to an append of the present life can be handled exactly
      unless its scan makes the program stop. */
  lemma ReplyHandledIff(run: seq<Cluster>, a: nat, ack: AppendAck)
    requires Run(run) && a < |run| && Awaits(run[a], ack)
    ensures Up(run[a], ack.msg.from)
    ensures ack.msg.to < |run[a].peers[ack.msg.from].nextIndex| && ack.msg.to < |run[a].peers[ack.msg.from].matchIndex|
    ensures Enabled(run[a], HandleReply(ack)) <==> !ReplyStops(run[a].peers[ack.msg.from], ack.msg.to, ack.msg.args, ack.reply)
  {
    hide Run, AllSound, Voting, Logs, Lives, Tabled, ReplyStops;
    RunFirm(run, a);
    RunLives(run, a);
    ReplyInRange(run[a], ack);
  }

  /** That happens: a leader of four peers or more that was restarted from a snapshot and has not heard of anyone stops at
      the first append that is accepted, unless its commit index is next to the snapshot. */
  lemma FirstReplyStops(p: Peer, i: nat, args: AppendArgs, reply: AppendReply)
    requires Shaped(p) && Covers(p) && p.peers >= 4 && i < p.peers && i != p.me && p.commitIndex + 1 < p.lastIncludedIndex
    requires forall j :: 0 <= j < p.peers ==> p.matchIndex[j] == -1
    requires p.currentTerm == args.term && reply.term <= args.term && reply.success && args.entries != []
    requires -1 <= p.commitIndex < args.prevLogIndex + |args.entries|
    ensures ReplyStops(p, i, args, reply)
  {
    hide ScanStops;
    var q, n := Noted(p, i, args), p.logLength - 1;
    assert q.matchIndex[i] > q.commitIndex;
    forall k | q.lastIncludedIndex <= k <= n ensures |Backers(q, k)| <= q.peers / 2 {
      assert Backers(q, k) <= {p.me, i};
      SubsetCardinality(Backers(q, k), {p.me, i});
    }
    ScanStopsIff(q, n);
  }

  /** A reply to a snapshot always can. */
  lemma SnapReplyHandled(run: seq<Cluster>, a: nat, ack: SnapAck)
    requires Run(run) && a < |run| && AwaitsSnap(run[a], ack)
    ensures Enabled(run[a], HandleSnapReply(ack))
  {
    hide Run, AllSound, Voting, Logs, Tabled;
    RunFirm(run, a);
    RunLives(run, a);
    assert LifeOk(run[a], ack.msg.from, ack.msg.to, ack.msg.boot);
    SoundAt(run[a], ack.msg.from);
  }

  /** An append can be handled exactly unless it is of the present term and reaches behind the receiver's snapshot;
      a snapshot always can. */
  lemma MessageHandledIff(run: seq<Cluster>, a: nat, idx: nat)
    requires Run(run) && a < |run|
    ensures idx < |run[a].sent| ==> run[a].sent[idx].to < |run[a].peers|
    ensures idx < |run[a].sent| ==> (Enabled(run[a], DeliverAppend(idx)) <==> Reaches(run[a].peers[run[a].sent[idx].to], run[a].sent[idx].args))
    ensures idx < |run[a].snaps| ==> Enabled(run[a], DeliverSnap(idx))
  {
    hide Run, AllSound, Voting, Logs, Tabled, Reaches;
    var s := run[a];
    RunFirm(run, a);
    RunLives(run, a);
    if idx < |s.sent| {
      assert LifeOk(s, s.sent[idx].from, s.sent[idx].to, s.sent[idx].boot);
      SoundAt(s, s.sent[idx].to);
    }
    if idx < |s.snaps| {
      assert LifeOk(s, s.snaps[idx].from, s.snaps[idx].to, s.snaps[idx].boot);
      SoundAt(s, s.snaps[idx].to);
    }
  }

  // ---- runs without snapshots and overtaking ----

  lemma CanSend(s: Cluster, i: nat, j: nat)
    requires Safe(s) && i < |s.peers| && j < |s.peers| && i != j && s.peers[i].role == Leader
    ensures Enabled(s, DoSend(i, j))
  {
    hide AllSound, VotesKept, CandidaciesVoted, BallotsBacked, TallyCounts, ReignsElected, LeadersReign, Logs, Surviving,
         Committing, PeerCommit;
    SoundAt(s, i);
    PeerOkAt(s, i);
    LeaderReigns(s, i);
  }

  lemma CanDeliver(s: Cluster, idx: nat)
    requires Safe(s) && idx < |s.sent|
    ensures Enabled(s, DeliverAppend(idx))
  {
    hide AllSound, Voting, PeerLogs, ReignLogs, CandidateLogs, VoterLogs, Messages, Surviving, Committing;
    MessageAt(s, idx);
    SoundAt(s, s.sent[idx].to);
  }

  lemma CanHandle(s: Cluster, ack: AppendAck)
    requires Safe(s) && Tabled(s) && Lives(s) && Awaits(s, ack)
    ensures Enabled(s, HandleReply(ack))
  {
    hide AllSound, AllFlat, Voting, Logs, Surviving, Committing, Counting, Lives;
    var i := ack.msg.from;
    ReplyInRange(s, ack);
    FlatAt(s, i);
    PeerOkAt(s, i);
    ScanGoesOn(Noted(s.peers[i], ack.msg.to, ack.msg.args), s.peers[i].logLength - 1);
  }

  lemma CanApply(s: Cluster, i: nat)
    requires Safe(s) && i < |s.peers| && s.peers[i].commitIndex > s.peers[i].lastApplied
    ensures Enabled(s, DoApply(i))
  {
    hide AllSound, Voting, Logs, Surviving, Committing, Counting;
    SoundAt(s, i);
    PeerOkAt(s, i);
  }

  /** Every index a handler computes is in range: a leader can send to everyone, every message can be handled,
      every reply of the present life can be handled, and what is committed can be applied. */
  lemma NeverOutOfRange(run: seq<Cluster>, a: nat)
    requires AheadRun(run) && a < |run|
    ensures var s := run[a];
      && (forall i: nat, j: nat :: Leads(run, a, i) && j < |s.peers| && i != j ==> Enabled(s, DoSend(i, j)))
      && (forall idx: nat :: idx < |s.sent| ==> Enabled(s, DeliverAppend(idx)))
      && (forall ack :: Awaits(s, ack) ==> Enabled(s, HandleReply(ack)))
      && (forall i: nat :: i < |s.peers| && s.peers[i].commitIndex > s.peers[i].lastApplied ==> Enabled(s, DoApply(i)))
  {
    hide AheadRun, Safe, Enabled, Lives, Tabled, Awaits;
    RunSafe(run, a);
    AheadIsRun(run);
    RunLives(run, a);
    var s := run[a];
    forall i: nat, j: nat | Leads(run, a, i) && j < |s.peers| && i != j ensures Enabled(s, DoSend(i, j)) {
      CanSend(s, i, j);
    }
    forall idx: nat | idx < |s.sent| ensures Enabled(s, DeliverAppend(idx)) {
      CanDeliver(s, idx);
    }
    forall ack | Awaits(s, ack) ensures Enabled(s, HandleReply(ack)) {
      CanHandle(s, ack);
    }
    forall i: nat | i < |s.peers| && s.peers[i].commitIndex > s.peers[i].lastApplied ensures Enabled(s, DoApply(i)) {
      CanApply(s, i);
    }
  }
}
