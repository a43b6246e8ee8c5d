/** What holds over whole runs of a cluster. Election Safety and Log Matching hold in every run, snapshots included;
    Leader Completeness and State Machine Safety in every run without snapshots in which no overtaken append is
    delivered, in particular if messages of one term arrive in the order sent. */
module RaftRuns {
  import opened RaftPeer
  import opened RaftCluster
  import opened RaftElection
  import opened RaftLogs
  import opened RaftCommit
  import opened RaftApplied
  import opened RaftOrder
  import opened RaftTraces

  // ---- every run ----

  lemma {:induction false} RunFirm(run: seq<Cluster>, k: nat)
    requires Run(run) && k < |run|
    ensures Firm(run[k])
  {
    hide AllSound, Voting, Logs, Init, Enabled, Do;
    if k == 0 {
      InitVoting(run[0]);
      InitLogs(run[0]);
    } else {
      RunFirm(run, k - 1);
      assert Next(run[k - 1], run[k - 1 + 1]);
      var a :| Enabled(run[k - 1], a) && run[k] == Do(run[k - 1], a);
      DoSound(run[k - 1], a);
      DoVoting(run[k - 1], a);
      DoLogs(run[k - 1], a);
    }
  }

  /** Reigns are added, leaders only append, applied entries stay applied. */
  lemma DoExtends(s: Cluster, a: Action)
    requires Firm(s) && Enabled(s, a)
    ensures Extends(s.hist.reigns, Do(s, a).hist.reigns) && s.hist.applied <= Do(s, a).hist.applied
    ensures |Do(s, a).peers| == |s.peers|
  {
    hide Firm, HandleAppend, HandleVoteReply, Tally, FullAfter, AfterStart;
    match a
    case ClientStart(i, command) => StartExtends(s, i, command);
    case CountVote(_) =>
    case DeliverAppend(_) =>
    case _ =>
      hide Do, Enabled;
      SameAcks(s, a);
  }

  /** Elections, appends and commands aside, nothing is recorded but what is applied. */
  lemma SameAcks(s: Cluster, a: Action)
    requires Enabled(s, a) && !a.CountVote? && !a.ClientStart? && !a.DeliverAppend?
    ensures Do(s, a).hist.reigns == s.hist.reigns && Do(s, a).hist.acks == s.hist.acks && s.hist.applied <= Do(s, a).hist.applied
    ensures |Do(s, a).peers| == |s.peers|
  {
    hide HandleVote, Elect, Asks;
    match a
    case DoElect(_) =>
    case DeliverVote(_) =>
    case _ =>
      hide Do, Enabled;
      HistoryKept(s, a);
      OneActor(s, a);
  }

  lemma StartExtends(s: Cluster, i: nat, command: Command)
    requires Firm(s) && Enabled(s, ClientStart(i, command))
    ensures Extends(s.hist.reigns, AfterStart(s, i, command).hist.reigns)
    ensures AfterStart(s, i, command).hist.applied == s.hist.applied && |AfterStart(s, i, command).peers| == |s.peers|
  {
    hide AllSound, Voting, PeerLogs, ReignLogs, CandidateLogs, VoterLogs, Messages, AfterStart, Extends;
    StartStep(s, i, command);
    StartReigns(s, i, command);
  }

  lemma {:induction false} RunFollows(run: seq<Cluster>, a: nat, b: nat)
    requires Run(run) && a <= b < |run|
    ensures Follows(run[a], run[b])
  {
    hide Firm, Enabled, Do, Init, Extends, Follows;
    if a == b {
      FollowsItself(run[a]);
    } else {
      RunFollows(run, a, b - 1);
      RunFirm(run, b - 1);
      assert Next(run[b - 1], run[b - 1 + 1]);
      var act :| Enabled(run[b - 1], act) && run[b] == Do(run[b - 1], act);
      DoExtends(run[b - 1], act);
      FollowsOn(run[a], run[b - 1], run[b]);
    }
  }

  lemma FollowsItself(s: Cluster)
    ensures Follows(s, s) && Advances(s, s)
  {
    ExtendsSelf(s.hist.reigns);
  }

  lemma RunFirmly(run: seq<Cluster>)
    requires Run(run)
    ensures Firmly(run)
  {
    hide Run, Firm, Follows;
    forall k | 0 <= k < |run| ensures Firm(run[k]) {
      RunFirm(run, k);
    }
    forall a, b | 0 <= a <= b < |run| ensures Follows(run[a], run[b]) {
      RunFollows(run, a, b);
    }
  }

  /** At most one peer ever leads a term, in one life or several. */
  lemma ElectionSafety(run: seq<Cluster>, a: nat, b: nat, i: nat, j: nat)
    requires Run(run) && Leads(run, a, i) && Leads(run, b, j)
    requires run[a].peers[i].currentTerm == run[b].peers[j].currentTerm
    ensures i == j
  {
    hide Run, Firmly;
    RunFirmly(run);
    OneLeader(run, a, b, i, j);
  }

  /** What is saved is enough: whenever a peer crashes it comes back with its whole log, in a term no earlier than that of
      any vote it has ever given, and in the term of a vote it still knows whom it voted for. */
  lemma CrashLosesNothing(run: seq<Cluster>, a: nat, i: nat)
    requires Run(run) && a < |run| && i < |run[a].peers|
    ensures var p, q := run[a].peers[i], Restart(run[a].peers[i]);
      && q.log == p.log && q.logLength == p.logLength && q.lastIncludedIndex == p.lastIncludedIndex && q.lastIncludedTerm == p.lastIncludedTerm
      && forall t: nat :: At(t, i) in run[a].hist.votes ==>
           && t <= q.currentTerm
           && (t == q.currentTerm ==> q.votedFor == run[a].hist.votes[At(t, i)].cand)
  {
    hide AllSound, CandidaciesVoted, BallotsBacked, TallyCounts, ReignsElected, LeadersReign, Logs, Run;
    RunFirm(run, a);
    SoundAt(run[a], i);
  }

  /** Two full logs, of any two peers at any two moments, with the same term at an index agree up to it. */
  lemma LogMatching(run: seq<Cluster>, a: nat, b: nat, i: nat, j: nat, k: nat)
    requires Run(run) && a < |run| && b < |run| && i < |run[a].peers| && j < |run[b].peers|
    requires k < |FullLog(run[a], i)| && k < |FullLog(run[b], j)|
    requires FullLog(run[a], i)[k].term == FullLog(run[b], j)[k].term
    ensures FullLog(run[a], i)[..k + 1] == FullLog(run[b], j)[..k + 1]
  {
    hide Run, Firmly, FullLog;
    RunFirmly(run);
    FullMatching(run, a, b, i, j, k);
  }

  /** What two peers have kept: with the same term at an index they have the same entries up to it, from where both
      have kept any. */
  lemma KeptMatching(run: seq<Cluster>, a: nat, b: nat, i: nat, j: nat, n: nat, k: nat)
    requires Run(run) && a < |run| && b < |run| && i < |run[a].peers| && j < |run[b].peers|
    requires var p, q := run[a].peers[i], run[b].peers[j];
      && Holds(p, k) && Holds(q, k) && Holds(p, n) && Holds(q, n) && k <= n && EntryAt(p, n).term == EntryAt(q, n).term
    ensures SameAt(run[a].peers[i], run[b].peers[j], k)
  {
    hide Run, Firmly, EntryAt, Holds, SameAt;
    RunFirmly(run);
    EntriesMatching(run, a, b, i, j, n, k);
  }

  // ---- runs without snapshots and overtaking ----

  ghost predicate AheadNext(s: Cluster, s': Cluster) {
    exists a :: Enabled(s, a) && Uncut(a) && Ahead(s, a) && s' == Do(s, a)
  }

  /** No snapshots, and no overtaken append is delivered. */
  ghost predicate AheadRun(run: seq<Cluster>) {
    run != [] && Init(run[0]) && forall k :: 0 <= k < |run| - 1 ==> AheadNext(run[k], run[k + 1])
  }

  lemma AheadIsRun(run: seq<Cluster>)
    requires AheadRun(run)
    ensures Run(run)
  {
    hide Enabled, Do, Init;
    forall k | 0 <= k < |run| - 1 ensures Next(run[k], run[k + 1]) {
      assert AheadNext(run[k], run[k + 1]);
    }
  }

  ghost predicate OrderedNext(s: Cluster, s': Cluster) {
    exists a :: Enabled(s, a) && Uncut(a) && Ordered(s, a) && s' == Do(s, a)
  }

  /** No snapshots, and the appends of one term reach each receiver in the order sent. */
  ghost predicate OrderedRun(run: seq<Cluster>) {
    run != [] && Init(run[0]) && forall k :: 0 <= k < |run| - 1 ==> OrderedNext(run[k], run[k + 1])
  }

  lemma {:induction false} RunSafe(run: seq<Cluster>, k: nat)
    requires AheadRun(run) && k < |run|
    ensures Safe(run[k])
  {
    hide Solid, Surviving, Committing, Init;
    if k == 0 {
      InitSurviving(run[0]);
      InitCommitting(run[0]);
    } else {
      RunSafe(run, k - 1);
      assert AheadNext(run[k - 1], run[k - 1 + 1]);
      var a :| Enabled(run[k - 1], a) && Uncut(a) && Ahead(run[k - 1], a) && run[k] == Do(run[k - 1], a);
      DoSurviving(run[k - 1], a);
      DoCommitting(run[k - 1], a);
    }
  }

  /** Order of delivery is one way to meet the condition. */
  lemma {:induction false} OrderedIsAheadRun(run: seq<Cluster>)
    requires OrderedRun(run)
    ensures AheadRun(run) && Safe(run[|run| - 1]) && InOrder(run[|run| - 1])
    decreases |run|
  {
    hide Solid, Acks, Retention, Inheritance, VotesWise, AsksTrue, Committing, Init, InOrder, Enabled, Do, Uncut, Ahead, Ordered;
    var n := |run| - 1;
    if n == 0 {
      InitInOrder(run[0]);
    } else {
      var s, s' := run[n - 1], run[n];
      forall k | 0 <= k < n - 1 ensures OrderedNext(run[..n][k], run[..n][k + 1]) {
        assert OrderedNext(run[k], run[k + 1]);
      }
      OrderedIsAheadRun(run[..n]);
      assert OrderedNext(s, run[n - 1 + 1]);
      var a :| Enabled(s, a) && Uncut(a) && Ordered(s, a) && s' == Do(s, a);
      OrderedIsAhead(s, a);
      DoInOrder(s, a);
      assert AheadNext(s, s');
      ExtendAhead(run, n);
    }
    RunSafe(run, n);
  }

  lemma ExtendAhead(run: seq<Cluster>, n: nat)
    requires |run| == n + 1 > 1 && AheadRun(run[..n]) && AheadNext(run[n - 1], run[n])
    ensures AheadRun(run)
  {
    hide AheadNext, Init;
    forall k | 0 <= k < |run| - 1 ensures AheadNext(run[k], run[k + 1]) {
      if k < n - 1 {
        assert AheadNext(run[..n][k], run[..n][k + 1]);
      }
    }
    assert run[0] == run[..n][0];
  }

  /** What servers have acknowledged only grows. */
  lemma DoAdvances(s: Cluster, a: Action)
    requires Solid(s) && Acks(s) && Enabled(s, a)
    ensures Advances(s, Do(s, a))
  {
    hide Solid, Acks, HandleAppend, AfterCount, AfterStart, FullAfter, Advances;
    match a
    case CountVote(ask) => CountAdvances(s, ask);
    case ClientStart(i, command) => StartAdvances(s, i, command);
    case DeliverAppend(idx) => AppendAdvances(s, idx);
    case _ =>
      SameAcks(s, a);
      StillAdvances(s, Do(s, a));
  }

  lemma SuccessReaches(p: Peer, args: AppendArgs)
    requires Shaped(p) && Reaches(p, args)
    ensures HandleAppend(p, args).1.success ==> p.lastIncludedIndex <= args.prevLogIndex
  {
  }

  lemma AppendAdvances(s: Cluster, idx: nat)
    requires Enabled(s, DeliverAppend(idx))
    ensures Advances(s, AfterAppend(s, idx))
  {
    hide HandleAppend, FullAfter;
    SuccessReaches(s.peers[s.sent[idx].to], s.sent[idx].args);
  }

  lemma StartAdvances(s: Cluster, i: nat, command: Command)
    requires Solid(s) && Acks(s) && Enabled(s, ClientStart(i, command))
    ensures Advances(s, AfterStart(s, i, command))
  {
    hide Solid, Acks, AfterStart;
    StartStarting(s, i, command);
    AckShort(s, s.peers[i].currentTerm, i);
  }

  lemma StillAdvances(s: Cluster, s': Cluster)
    requires |s'.peers| == |s.peers| && s'.hist.reigns == s.hist.reigns && s'.hist.acks == s.hist.acks
    ensures Advances(s, s')
  {
  }

  lemma {:induction false} RunAdvances(run: seq<Cluster>, a: nat, b: nat)
    requires AheadRun(run) && a <= b < |run|
    ensures Advances(run[a], run[b])
  {
    hide Solid, Acks, Retention, Inheritance, VotesWise, AsksTrue, Committing, Enabled, Do, Init, Extends, Advances;
    if a == b {
      FollowsItself(run[a]);
    } else {
      RunAdvances(run, a, b - 1);
      RunSafe(run, b - 1);
      assert AheadNext(run[b - 1], run[b - 1 + 1]);
      var act :| Enabled(run[b - 1], act) && Uncut(act) && Ahead(run[b - 1], act) && run[b] == Do(run[b - 1], act);
      DoAdvances(run[b - 1], act);
      AdvancesOn(run[a], run[b - 1], run[b]);
    }
  }

  lemma RunSafely(run: seq<Cluster>)
    requires AheadRun(run)
    ensures Safely(run)
  {
    hide AheadRun, Run, Safe, Follows, Advances;
    AheadIsRun(run);
    forall k | 0 <= k < |run| ensures Safe(run[k]) {
      RunSafe(run, k);
    }
    forall a, b | 0 <= a <= b < |run| ensures Follows(run[a], run[b]) && Advances(run[a], run[b]) {
      RunFollows(run, a, b);
      RunAdvances(run, a, b);
    }
  }

  /** No two peers, in any of their lives, apply different commands at one index. */
  lemma StateMachineSafety(run: seq<Cluster>, a: nat, b: nat, x: Application, y: Application)
    requires AheadRun(run) && a < |run| && b < |run| && x in run[a].hist.applied && y in run[b].hist.applied
    requires x.index == y.index
    ensures x.command == y.command
  {
    hide AheadRun, Safely;
    RunSafely(run);
    AppliedAgree(run, a, b, x, y);
  }

  /** A commit index stays within the log. */
  lemma CommitInLog(run: seq<Cluster>, a: nat, i: nat)
    requires AheadRun(run) && a < |run| && i < |run[a].peers|
    ensures var p := run[a].peers[i];
      0 <= p.lastApplied <= p.commitIndex < |p.log| == p.logLength && p.log[0] == ROOT
  {
    hide AheadRun, Safe;
    RunSafe(run, a);
    CommitWithin(run[a], i);
  }

  /** What anyone has committed at any moment is in the log of every leader of a later term, at any moment. */
  lemma LeaderCompleteness(run: seq<Cluster>, a: nat, b: nat, i: nat, j: nat)
    requires AheadRun(run) && a < |run| && i < |run[a].peers| && Leads(run, b, j)
    requires run[a].peers[i].currentTerm < run[b].peers[j].currentTerm
    ensures var p := run[a].peers[i];
      0 <= p.commitIndex < |p.log| && p.log[..p.commitIndex + 1] <= run[b].peers[j].log
  {
    hide AheadRun, Safely;
    RunSafely(run);
    Completeness(run, a, b, i, j);
  }

  /** Any two peers, at any two moments, agree on what both have committed. */
  lemma CommittedAgree(run: seq<Cluster>, a: nat, b: nat, i: nat, j: nat, n: nat)
    requires AheadRun(run) && a < |run| && b < |run| && i < |run[a].peers| && j < |run[b].peers|
    requires n <= run[a].peers[i].commitIndex && n <= run[b].peers[j].commitIndex
    ensures n < |run[a].peers[i].log| && n < |run[b].peers[j].log| && run[a].peers[i].log[n] == run[b].peers[j].log[n]
  {
    hide AheadRun, Safely;
    RunSafely(run);
    BothCommitted(run, a, b, i, j, n);
  }

  // ---- what order is for ----

  /** Delivering a message with entries leaves the follower with all it has acknowledged of that term exactly
      when the message reaches beyond that. */
  lemma KeepsAckedIffNotOvertaken(s: Cluster, s': Cluster, idx: nat, msg: AppendMsg, q: Peer, ack: nat)
    requires ack == AckOf(s, msg.args.term, msg.to) && msg.args.term in s.hist.reigns && ack < |s.hist.reigns[msg.args.term].log|
    requires Delivery(s, s', idx, msg, q, true) && Solid(s) && msg.args.entries != []
    ensures UpTo(s, msg.args.term, ack) <= q.log <==> ack < EndOf(msg.args)
  {
    hide AllSound, Voting, PeerLogs, ReignLogs, CandidateLogs, VoterLogs, Messages, HandleAppend, Rooted;
    DeliveryEffect(s, s', idx, msg, q, true);
    RootedPeer(s, msg.to);
    AppendMatches(s, msg, s.peers[msg.to].log);
  }
}
