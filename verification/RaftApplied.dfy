/** State Machine Safety: what any peer commits a majority holds, so what any peer applies at an index
    every peer applies there, in runs without snapshots in which no overtaken append is delivered. */
module RaftApplied {
  import opened RaftPeer
  import opened RaftCluster
  import opened RaftElection
  import opened RaftLogs
  import opened RaftCommit
  import opened Permutations

  // ---- the invariant ----

  /** Entry k0 of the leader of t0 is committed, and `log` agrees with that leader up to c <= k0. */
  ghost predicate Witness(s: Cluster, t0: nat, k0: nat, log: Log, c: int) {
    && Chosen(s, t0, k0) && 0 <= c <= k0 && c < |log|
    && log[..c + 1] == s.hist.reigns[t0].log[..c + 1]
  }

  /** The commit index of peer i is backed by a committed entry of t0, which i led, has left behind, or has
      acknowledged that far. */
  ghost predicate CommitBacked(s: Cluster, i: nat, t0: nat, k0: nat)
    requires i < |s.peers|
  {
    var p := s.peers[i];
    && t0 <= p.currentTerm && Witness(s, t0, k0, p.log, p.commitIndex)
    && (t0 < p.currentTerm || Reigns(s, t0, i) || p.commitIndex <= AckOf(s, t0, i))
  }

  ghost predicate PeerCommit(s: Cluster, i: nat)
    requires i < |s.peers|
  {
    var p := s.peers[i];
    && 0 <= p.lastApplied <= p.commitIndex < |p.log|
    && (p.commitIndex == 0 || exists t0, k0 :: CommitBacked(s, i, t0, k0))
  }

  /** A leader's bookkeeping: it may send to everyone, and it overestimates nobody. */
  ghost predicate Counting(s: Cluster, i: nat)
    requires i < |s.peers|
  {
    var p := s.peers[i];
    && |p.nextIndex| == |p.matchIndex| && (p.matchIndex == [] || |p.matchIndex| == |s.peers|)
    && (p.role == Leader ==> |p.matchIndex| == |s.peers|)
    && (Reigns(s, p.currentTerm, i) ==> forall j :: 0 <= j < |p.matchIndex| ==>
          1 <= p.nextIndex[j] <= |p.log| && p.matchIndex[j] <= AckOf(s, p.currentTerm, j))
  }

  ghost predicate PeerOk(s: Cluster, i: nat)
    requires i < |s.peers|
  {
    PeerCommit(s, i) && Counting(s, i)
  }

  ghost predicate MessageBacked(s: Cluster, args: AppendArgs, t0: nat, k0: nat) {
    t0 <= args.term && args.term in s.hist.reigns && Witness(s, t0, k0, s.hist.reigns[args.term].log, args.leaderCommit)
  }

  /** A message's commit index is backed and lies within the log the message completes. */
  ghost predicate MessageCommit(s: Cluster, args: AppendArgs) {
    && 0 <= args.leaderCommit < EndOf(args)
    && (args.leaderCommit == 0 || exists t0, k0 :: MessageBacked(s, args, t0, k0))
  }

  /** A success was recorded; a refusal says where to go on. */
  ghost predicate ReplyOk(s: Cluster, ack: AppendAck) {
    var args, reply := ack.msg.args, ack.reply;
    && MessageOk(s, ack.msg)
    && (reply.success ==> EndOf(args) - 1 <= AckOf(s, args.term, ack.msg.to))
    && (!reply.success && reply.term <= args.term ==>
          if reply.xTerm == -1 then 1 <= reply.xLen <= args.prevLogIndex
          else 0 <= reply.xTerm && 0 <= reply.xIndex <= args.prevLogIndex && (reply.xTerm > 0 ==> reply.xIndex > 0))
  }

  ghost predicate AppliedFrom(s: Cluster, x: Application, t0: nat, k0: nat) {
    && Chosen(s, t0, k0) && 0 < x.index <= k0
    && s.hist.reigns[t0].log[x.index].command == x.command
  }

  ghost predicate PeersOk(s: Cluster) {
    forall i :: 0 <= i < |s.peers| ==> PeerOk(s, i)
  }

  ghost predicate MessagesOk(s: Cluster) {
    && (forall k :: 0 <= k < |s.sent| ==> MessageCommit(s, s.sent[k].args))
    && (forall ack :: ack in s.replies ==> ReplyOk(s, ack))
  }

  ghost predicate AppliedOk(s: Cluster) {
    forall x :: x in s.hist.applied ==> exists t0, k0 :: AppliedFrom(s, x, t0, k0)
  }

  ghost predicate Committing(s: Cluster) {
    PeersOk(s) && MessagesOk(s) && AppliedOk(s)
  }

  // ---- what is committed stays committed ----

  /** Reigns and acknowledgements only grow. */
  ghost predicate Advances(s: Cluster, s': Cluster) {
    && |s'.peers| == |s.peers| && Extends(s.hist.reigns, s'.hist.reigns)
    && forall t: nat, v: nat :: AckOf(s, t, v) <= AckOf(s', t, v)
  }

  lemma WitnessAdvances(s: Cluster, s': Cluster, t0: nat, k0: nat, log: Log, log': Log, c: int)
    requires Witness(s, t0, k0, log, c) && Advances(s, s') && log <= log'
    ensures Witness(s', t0, k0, log', c)
  {
    ChosenGrows(s, s', t0, k0);
  }

  lemma MessageAdvances(s: Cluster, s': Cluster, args: AppendArgs)
    requires MessageCommit(s, args) && Advances(s, s')
    ensures MessageCommit(s', args)
  {
    hide Witness;
    if args.leaderCommit != 0 {
      var t0, k0 :| MessageBacked(s, args, t0, k0);
      WitnessAdvances(s, s', t0, k0, s.hist.reigns[args.term].log, s'.hist.reigns[args.term].log, args.leaderCommit);
      assert MessageBacked(s', args, t0, k0);
    }
  }

  lemma MessagesAdvance(s: Cluster, s': Cluster)
    requires MessagesOk(s) && Advances(s, s')
    ensures forall k :: 0 <= k < |s.sent| ==> MessageCommit(s', s.sent[k].args)
    ensures forall ack :: ack in s.replies ==> ReplyOk(s', ack)
  {
    hide MessageCommit;
    forall k | 0 <= k < |s.sent| ensures MessageCommit(s', s.sent[k].args) {
      MessageAdvances(s, s', s.sent[k].args);
    }
    forall ack | ack in s.replies ensures ReplyOk(s', ack) {
      assert ReplyOk(s, ack);
      MessageExtends(s, s', ack.msg);
    }
  }

  lemma AppliedAdvances(s: Cluster, s': Cluster)
    requires AppliedOk(s) && Advances(s, s')
    ensures forall x :: x in s.hist.applied ==> exists t0, k0 :: AppliedFrom(s', x, t0, k0)
  {
    forall x | x in s.hist.applied ensures exists t0, k0 :: AppliedFrom(s', x, t0, k0) {
      var t0, k0 :| AppliedFrom(s, x, t0, k0);
      ChosenGrows(s, s', t0, k0);
      assert AppliedFrom(s', x, t0, k0);
    }
  }

  /** A peer whose commit index stands and whose log only grows. */
  lemma CommitKept(s: Cluster, s': Cluster, i: nat)
    requires Advances(s, s') && i < |s.peers| && PeerCommit(s, i)
    requires var p, q := s.peers[i], s'.peers[i];
      q.commitIndex == p.commitIndex && p.log <= q.log && p.currentTerm <= q.currentTerm && 0 <= q.lastApplied <= q.commitIndex
    ensures PeerCommit(s', i)
  {
    hide Witness;
    var p, q := s.peers[i], s'.peers[i];
    if p.commitIndex != 0 {
      var t0, k0 :| CommitBacked(s, i, t0, k0);
      WitnessAdvances(s, s', t0, k0, p.log, q.log, p.commitIndex);
      assert CommitBacked(s', i, t0, k0);
    }
  }

  lemma CountingKept(s: Cluster, s': Cluster, i: nat)
    requires Advances(s, s') && i < |s.peers| && Counting(s, i)
    requires var p, q := s.peers[i], s'.peers[i];
      && q.nextIndex == p.nextIndex && q.matchIndex == p.matchIndex && p.log <= q.log && (q.role == Leader ==> p.role == Leader)
      && (Reigns(s', q.currentTerm, i) ==> Reigns(s, p.currentTerm, i) && q.currentTerm == p.currentTerm)
    ensures Counting(s', i)
  {
  }

  lemma PeerKept(s: Cluster, s': Cluster, i: nat)
    requires Advances(s, s') && i < |s.peers| && PeerOk(s, i) && s'.peers[i] == s.peers[i]
    requires Reigns(s', s.peers[i].currentTerm, i) ==> Reigns(s, s.peers[i].currentTerm, i)
    ensures PeerOk(s', i)
  {
    hide CommitBacked, Counting;
    CommitKept(s, s', i);
    CountingKept(s, s', i);
  }

  /** A step of one peer. */
  lemma OnePeer(s: Cluster, s': Cluster, i: nat)
    requires Committing(s) && Advances(s, s') && i < |s.peers| && s'.peers == s.peers[i := s'.peers[i]] && PeerOk(s', i)
    requires forall t, j :: Reigns(s', t, j) && j != i ==> Reigns(s, t, j)
    requires s'.sent == s.sent && (forall ack :: ack in s'.replies ==> ack in s.replies || ReplyOk(s', ack))
    requires forall x :: x in s'.hist.applied ==> x in s.hist.applied || exists t0, k0 :: AppliedFrom(s', x, t0, k0)
    ensures Committing(s')
  {
    hide PeerOk, MessageCommit, ReplyOk, AppliedFrom, Advances;
    MessagesAdvance(s, s');
    AppliedAdvances(s, s');
    forall j | 0 <= j < |s'.peers| ensures PeerOk(s', j) {
      if j != i {
        PeerKept(s, s', j);
      }
    }
  }

  // ---- elections, refusals, restarts ----

  /** The peer's term may have risen; what it holds and knows is as before. */
  lemma TermRaised(s: Cluster, s': Cluster, i: nat)
    requires Solid(s) && Committing(s) && i < |s.peers| == |s'.peers|
    requires s'.hist.reigns == s.hist.reigns && s'.hist.acks == s.hist.acks
    requires var p, q := s.peers[i], s'.peers[i];
      && q.commitIndex == p.commitIndex && q.lastApplied == p.lastApplied && q.log == p.log && p.currentTerm <= q.currentTerm
      && q.nextIndex == p.nextIndex && q.matchIndex == p.matchIndex && (q.role == Leader ==> p.role == Leader)
    ensures PeerOk(s', i) && Advances(s, s')
  {
    hide AllSound, AllFlat, BallotsBacked, TallyCounts, LeadersReign, VotesKept, CandidaciesVoted, ReignsElected, Logs, MessagesOk,
         AppliedOk, CommitBacked;
    assert PeerOk(s, i);
    var q := s'.peers[i];
    if q.currentTerm > s.peers[i].currentTerm {
      NewCandidacy(s, i);
      NoReign(s, q.currentTerm, i);
    }
    CommitKept(s, s', i);
    CountingKept(s, s', i);
  }

  lemma ElectOk(s: Cluster, i: nat)
    requires Solid(s) && Committing(s) && Enabled(s, DoElect(i))
    ensures Committing(AfterElect(s, i))
  {
    hide Solid, Committing, Asks, PeerOk, Advances;
    TermRaised(s, AfterElect(s, i), i);
    OnePeer(s, AfterElect(s, i), i);
  }

  lemma VoteOk(s: Cluster, ask: Ask)
    requires Solid(s) && Committing(s) && Enabled(s, DeliverVote(ask))
    ensures Committing(AfterVote(s, ask))
  {
    hide Solid, Committing, PeerOk, Advances, UpToDate;
    TermRaised(s, AfterVote(s, ask), ask.voter);
    OnePeer(s, AfterVote(s, ask), ask.voter);
  }

  lemma RefusalOk(s: Cluster, ask: Ask)
    requires Solid(s) && Committing(s) && Enabled(s, AdoptRefusal(ask))
    ensures Committing(Do(s, AdoptRefusal(ask)))
  {
    hide Solid, Committing, PeerOk, Advances, AfterAppend, AfterCount, AfterElect, AfterSend, AfterStart, AfterVote, AfterApply;
    TermRaised(s, Do(s, AdoptRefusal(ask)), ask.cand);
    OnePeer(s, Do(s, AdoptRefusal(ask)), ask.cand);
  }

  lemma CrashOk(s: Cluster, i: nat)
    requires Solid(s) && Committing(s) && Enabled(s, Crash(i))
    ensures Committing(Do(s, Crash(i)))
  {
    hide AllSound, AllFlat, Voting, Logs, Committing, AfterAppend, AfterCount, AfterElect, AfterSend, AfterStart, AfterVote, AfterApply;
    FlatAt(s, i);
    OnePeer(s, Do(s, Crash(i)), i);
  }

  lemma CountAdvances(s: Cluster, ask: Ask)
    requires Solid(s) && Acks(s) && Enabled(s, CountVote(ask))
    ensures Advances(s, AfterCount(s, ask))
  {
    hide AllSound, AllFlat, VotesKept, CandidaciesVoted, TallyCounts, LeadersReign, ReignsElected, Logs, Tally, HandleVoteReply;
    var x := At(s.ballots[ask].args.term, ask.cand);
    if AfterCount(s, ask).hist != s.hist {
      assert x in s.hist.acks ==> AckOk(s, x);
    }
  }

  lemma AckFloor(s: Cluster, t: nat, v: nat)
    requires Acks(s)
    ensures AckOf(s, t, v) >= -1
  {
    assert At(t, v) in s.hist.acks ==> AckOk(s, At(t, v));
  }

  /** A new leader knows nothing about anyone and tries its own end first. */
  lemma CountPeer(s: Cluster, ask: Ask)
    requires Solid(s) && Acks(s) && Committing(s) && Enabled(s, CountVote(ask))
    ensures PeerOk(AfterCount(s, ask), ask.cand) && Advances(s, AfterCount(s, ask))
  {
    hide AllSound, AllFlat, Voting, Logs, Committing, Tally, CommitBacked, Acks, Advances;
    var s', i := AfterCount(s, ask), ask.cand;
    FlatAt(s, i);
    PeerOkAt(s, i);
    CountAdvances(s, ask);
    CommitKept(s, s', i);
    var p, q := s.peers[i], s'.peers[i];
    if q.nextIndex == p.nextIndex && q.matchIndex == p.matchIndex && s'.hist == s.hist && (q.role == Leader ==> p.role == Leader) {
      CountingKept(s, s', i);
    } else {
      forall t: nat, v: nat ensures AckOf(s', t, v) >= -1 {
        AckFloor(s, t, v);
        AckAdvances(s, s', t, v);
      }
    }
  }

  lemma AckAdvances(s: Cluster, s': Cluster, t: nat, v: nat)
    requires Advances(s, s')
    ensures AckOf(s, t, v) <= AckOf(s', t, v)
  {
  }

  lemma PeerOkAt(s: Cluster, i: nat)
    requires Committing(s) && i < |s.peers|
    ensures PeerOk(s, i)
  {
  }

  lemma CountOk(s: Cluster, ask: Ask)
    requires Solid(s) && Acks(s) && Committing(s) && Enabled(s, CountVote(ask))
    ensures Committing(AfterCount(s, ask))
  {
    hide Solid, Committing, PeerOk, Advances, Tally, Acks;
    CountPeer(s, ask);
    OnePeer(s, AfterCount(s, ask), ask.cand);
  }

  // ---- a client's command, sending, applying ----

  lemma StartOk(s: Cluster, i: nat, command: Command)
    requires Solid(s) && Acks(s) && Committing(s) && Enabled(s, ClientStart(i, command))
    ensures Committing(AfterStart(s, i, command))
  {
    hide Solid, Committing, Acks, CommitBacked, Counting;
    var s', term := AfterStart(s, i, command), s.peers[i].currentTerm;
    StartStarting(s, i, command);
    AckShort(s, term, i);
    PeerOkAt(s, i);
    CommitKept(s, s', i);
    CountingKept(s, s', i);
    OnePeer(s, s', i);
  }

  lemma SendCommit(s: Cluster, i: nat, j: nat)
    requires Solid(s) && Committing(s) && Enabled(s, DoSend(i, j))
    ensures MessageCommit(s, MakeAppend(s.peers[i], j))
  {
    hide AllSound, AllFlat, VotesKept, CandidaciesVoted, BallotsBacked, TallyCounts, ReignsElected, LeadersReign, Logs, Committing,
         Witness;
    var args := MakeAppend(s.peers[i], j);
    SendMessage(s, i, j);
    SolidParts(s);
    LeaderReigns(s, i);
    LeaderLog(s, i);
    FlatAt(s, i);
    PeerOkAt(s, i);
    if args.leaderCommit != 0 {
      var t0, k0 :| CommitBacked(s, i, t0, k0);
      assert MessageBacked(s, args, t0, k0);
    }
  }

  lemma SendOk(s: Cluster, i: nat, j: nat)
    requires Solid(s) && Committing(s) && Enabled(s, DoSend(i, j))
    ensures Committing(AfterSend(s, i, j))
  {
    hide Solid, MessageCommit, ReplyOk, AppliedFrom, PeerOk, MakeAppend, Advances;
    var s' := AfterSend(s, i, j);
    SendCommit(s, i, j);
    SameAdvances(s, s');
    MessageAdvances(s, s', MakeAppend(s.peers[i], j));
    MessagesAdvance(s, s');
    AppliedAdvances(s, s');
    forall k | 0 <= k < |s'.peers| ensures PeerOk(s', k) {
      PeerKept(s, s', k);
    }
  }

  lemma SameAdvances(s: Cluster, s': Cluster)
    requires |s'.peers| == |s.peers| && s'.hist.reigns == s.hist.reigns && s'.hist.acks == s.hist.acks
    ensures Advances(s, s')
  {
  }

  /** What a peer applies, a majority holds. */
  lemma ApplyBacked(s: Cluster, i: nat) returns (t0: nat, k0: nat)
    requires AllFlat(s) && Committing(s) && Enabled(s, DoApply(i))
    ensures var p := s.peers[i];
      AppliedFrom(s, Application(i, p.lastApplied + 1, p.log[p.lastApplied + 1].command), t0, k0)
  {
    hide Chosen;
    PeerOkAt(s, i);
    var p := s.peers[i];
    FlatAt(s, i);
    t0, k0 :| CommitBacked(s, i, t0, k0);
    var n := p.lastApplied + 1;
    ChosenOwn(s, t0, k0);
    assert p.log[..p.commitIndex + 1][n] == s.hist.reigns[t0].log[..p.commitIndex + 1][n];
  }

  lemma ChosenOwn(s: Cluster, t0: nat, k0: nat)
    requires Chosen(s, t0, k0)
    ensures t0 in s.hist.reigns && k0 < |s.hist.reigns[t0].log|
  {
  }

  lemma ApplyOk(s: Cluster, i: nat)
    requires Solid(s) && Committing(s) && Enabled(s, DoApply(i))
    ensures Committing(AfterApply(s, i))
  {
    hide AllSound, AllFlat, Voting, Logs, Committing, CommitBacked, Counting, AppliedFrom, Advances, ReplyOk;
    var s', p := AfterApply(s, i), s.peers[i];
    FlatAt(s, i);
    PeerOkAt(s, i);
    var t0, k0 := ApplyBacked(s, i);
    SameAdvances(s, s');
    AppliedSame(s, s', Application(i, p.lastApplied + 1, p.log[p.lastApplied + 1].command), t0, k0);
    CommitKept(s, s', i);
    CountingKept(s, s', i);
    OnePeer(s, s', i);
  }

  lemma AppliedSame(s: Cluster, s': Cluster, x: Application, t0: nat, k0: nat)
    requires Advances(s, s') && AppliedFrom(s, x, t0, k0)
    ensures AppliedFrom(s', x, t0, k0)
  {
    ChosenGrows(s, s', t0, k0);
  }

  // ---- a leader commits ----

  lemma {:induction false} ScanFinds(p: Peer, n: int)
    requires Shaped(p) && n < p.logLength
    ensures var r := CommitScan(p, n);
      && (r == p.commitIndex || (p.commitIndex < r <= n && |Backers(p, r)| > p.peers / 2))
      && (forall k :: r < k <= n ==> |Backers(p, k)| <= p.peers / 2)
    decreases n - p.commitIndex
  {
    if n > p.commitIndex && |Backers(p, n)| <= p.peers / 2 {
      ScanFinds(p, n - 1);
    }
  }

  /** A majority by the leader's count, itself included, is a majority that holds an entry of the leader's own. */
  lemma MajorityChosen(s: Cluster, i: nat, q: Peer, n: nat)
    requires Acks(s) && 2 <= |s.peers| && Flat(q, i, |s.peers|) && Reigns(s, q.currentTerm, i)
    requires q.log == s.hist.reigns[q.currentTerm].log && n < |q.log| && |q.matchIndex| <= |s.peers|
    requires i < |s.peers| && forall j :: 0 <= j < |q.matchIndex| ==> q.matchIndex[j] <= AckOf(s, q.currentTerm, j)
    requires |Backers(q, n)| > q.peers / 2
    ensures Chosen(s, q.currentTerm, n)
  {
    hide Acks;
    var b, h := Backers(q, n), Holders(s, q.currentTerm, n);
    LeaderAck(s, i, q.currentTerm);
    assert b <= h;
    SubsetCardinality(b, h);
    if b <= {i} {
      SubsetCardinality(b, {i});
    }
    var j :| j in b && j != i;
  }

  lemma LeaderAck(s: Cluster, i: nat, term: nat)
    requires Acks(s) && Reigns(s, term, i)
    ensures AckOf(s, term, i) == |s.hist.reigns[term].log| - 1
  {
    assert AckOk(s, At(term, i));
  }

  /** What a leader makes of a reply to a message of its present term. */
  lemma ReplyCounting(s: Cluster, i: nat, j: nat, args: AppendArgs, reply: AppendReply)
    requires AllFlat(s) && i < |s.peers| && Counting(s, i) && Enabled(s, HandleReply(AppendAck(AppendMsg(i, j, s.boots[i], args), reply)))
    requires ReplyOk(s, AppendAck(AppendMsg(i, j, s.boots[i], args), reply)) && args.term == s.peers[i].currentTerm
    requires s.peers[i].log == s.hist.reigns[args.term].log && reply.term <= args.term
    ensures var p, q := s.peers[i], HandleAppendReply(s.peers[i], j, args, reply);
      && |q.nextIndex| == |q.matchIndex| == |p.matchIndex| && q.log == p.log && q.currentTerm == p.currentTerm && q.role == p.role
      && (forall x :: 0 <= x < |q.matchIndex| ==> 1 <= q.nextIndex[x] <= |q.log| && q.matchIndex[x] <= AckOf(s, args.term, x))
  {
    hide AllSound, AllFlat, CommitScan;
    FlatAt(s, i);
  }

  /** The commit index a reply leaves: as it was, or one a majority holds by the leader's count. */
  lemma ReplyCommit(p: Peer, j: nat, args: AppendArgs, reply: AppendReply)
    requires Shaped(p) && j < |p.nextIndex| && j < |p.matchIndex|
    requires p.lastIncludedIndex == 0 <= p.lastApplied <= p.commitIndex
    ensures var q := HandleAppendReply(p, j, args, reply);
      && Shaped(q) && q.lastIncludedIndex == 0
      && (|| (q.commitIndex == p.commitIndex && q.lastApplied == p.lastApplied)
          || (p.currentTerm == args.term && reply.term <= args.term && p.commitIndex < q.commitIndex < q.logLength
              && q.lastApplied == p.lastApplied && |Backers(q, q.commitIndex)| > q.peers / 2))
  {
    hide CommitScan, BackUp;
    if reply.success && args.entries != [] && p.currentTerm == args.term && args.term >= reply.term {
      var m := args.prevLogIndex + |args.entries|;
      var q := p.(matchIndex := p.matchIndex[j := m], nextIndex := p.nextIndex[j := m + 1]);
      ScanFinds(q, q.logLength - 1);
      var n := CommitScan(q, q.logLength - 1);
      if n > q.commitIndex {
        var q' := q.(commitIndex := n, lastApplied := Max(q.lastApplied, 0));
        assert Backers(q', n) == Backers(q, n);
      }
    }
  }

  /** An accepted append of the present term commits the highest entry that a majority holds by the leader's count,
      and nothing less. */
  lemma CommitsHighest(p: Peer, j: nat, args: AppendArgs, reply: AppendReply)
    requires Shaped(p) && j < |p.nextIndex| && j < |p.matchIndex|
    requires reply.success && args.entries != [] && p.currentTerm == args.term && reply.term <= args.term
    ensures var q := HandleAppendReply(p, j, args, reply);
      && Shaped(q) && q.logLength == p.logLength && q.lastIncludedIndex == p.lastIncludedIndex && p.commitIndex <= q.commitIndex
      && (q.commitIndex > p.commitIndex ==> q.commitIndex < q.logLength && |Backers(q, q.commitIndex)| > q.peers / 2)
      && (forall k :: q.commitIndex < k < q.logLength ==> |Backers(q, k)| <= q.peers / 2)
  {
    hide CommitScan, BackUp;
    var r := Noted(p, j, args);
    ScanFinds(r, r.logLength - 1);
    var q := HandleAppendReply(p, j, args, reply);
    forall k | p.commitIndex < k < r.logLength ensures Backers(q, k) == Backers(r, k) {
      SameBackers(q, r, k);
    }
  }

  lemma SameBackers(p: Peer, q: Peer, n: int)
    requires Shaped(p) && Shaped(q) && n < p.logLength
    requires q == p.(commitIndex := q.commitIndex, lastApplied := q.lastApplied)
    ensures Backers(p, n) == Backers(q, n)
  {
  }

  /** A reply of the present term. */
  lemma ReplyPeer(s: Cluster, s': Cluster, ack: AppendAck, i: nat)
    requires Enabled(s, HandleReply(ack)) && i == ack.msg.from < |s'.peers|
    requires ack.msg.args.term == s.peers[i].currentTerm && ack.reply.term <= ack.msg.args.term
    requires s' == Set(s, i, HandleAppendReply(s.peers[i], ack.msg.to, ack.msg.args, ack.reply)).(snaps := s'.snaps)
    requires Solid(s) && Acks(s) && Committing(s)
    ensures PeerOk(s', i)
  {
    hide AllSound, AllFlat, Voting, Logs, PeersOk, AppliedOk, HandleAppendReply, Acks, CommitBacked, Backers;
    var j, args := ack.msg.to, ack.msg.args;
    var p, q := s.peers[i], s'.peers[i];
    FlatAt(s, i);
    PeerOkAt(s, i);
    assert ReplyOk(s, ack);
    SolidParts(s);
    LeaderLog(s, i);
    ReplyCounting(s, i, j, args, ack.reply);
    ReplySound(p, i, |s.peers|, j, args, ack.reply);
    ReplyCommit(p, j, args, ack.reply);
    SameAdvances(s, s');
    if q.commitIndex == p.commitIndex {
      CommitKept(s, s', i);
    } else {
      MajorityChosen(s, i, q, q.commitIndex);
      NewCommit(s, s', i, q.commitIndex);
    }
  }

  lemma NewCommit(s: Cluster, s': Cluster, i: nat, n: nat)
    requires i < |s.peers| == |s'.peers| && Advances(s, s') && Reigns(s', s'.peers[i].currentTerm, i)
    requires Chosen(s, s'.peers[i].currentTerm, n) && n == s'.peers[i].commitIndex < |s'.peers[i].log|
    requires s'.peers[i].log == s'.hist.reigns[s'.peers[i].currentTerm].log && 0 <= s'.peers[i].lastApplied <= n
    ensures PeerCommit(s', i)
  {
    ChosenGrows(s, s', s'.peers[i].currentTerm, n);
    assert CommitBacked(s', i, s'.peers[i].currentTerm, n);
  }

  lemma ReplyHandled(s: Cluster, ack: AppendAck)
    requires Solid(s) && Acks(s) && Committing(s) && Enabled(s, HandleReply(ack))
    ensures Committing(Do(s, HandleReply(ack)))
  {
    hide Solid, Acks, Committing, AfterAppend, AfterCount, AfterElect, AfterSend, AfterStart, AfterVote, AfterApply,
         PeerOk, Advances, AdvanceCommit, BackUp;
    var i := ack.msg.from;
    var s' := Do(s, HandleReply(ack));
    SameAdvances(s, s');
    if ack.msg.args.term == s.peers[i].currentTerm && ack.reply.term <= ack.msg.args.term {
      ReplyPeer(s, s', ack, i);
    } else {
      TermRaised(s, s', i);
    }
    OnePeer(s, s', i);
  }

  // ---- a follower commits ----

  /** The commit index an append leaves. */
  lemma AppendCommit(p: Peer, i: nat, n: nat, args: AppendArgs)
    requires Flat(p, i, n) && 0 <= args.prevLogIndex && 0 <= args.leaderCommit < EndOf(args) && 0 <= p.lastApplied
    ensures var (q, reply) := HandleAppend(p, args);
      && q.lastApplied == p.lastApplied && p.currentTerm <= q.currentTerm && q.log != []
      && q.nextIndex == p.nextIndex && q.matchIndex == p.matchIndex && (q.role == Leader ==> p.role == Leader)
      && (q.currentTerm != p.currentTerm ==> q.currentTerm == args.term)
      && (reply.success || q.log != p.log ==> q.currentTerm == args.term)
      && q.commitIndex == if reply.success && args.leaderCommit > p.commitIndex then args.leaderCommit else p.commitIndex
  {
  }

  /** Whatever a message does to a follower's log, it keeps what the follower has committed. */
  lemma CommittedStays(s: Cluster, msg: AppendMsg, q: Peer, success: bool, t0: nat, k0: nat)
    requires Solid(s) && Surviving(s) && MessageOk(s, msg) && Flat(s.peers[msg.to], msg.to, |s.peers|)
    requires Effect(s.peers[msg.to], msg.args, q, success)
    requires !Overtaken(s, msg)
    requires CommitBacked(s, msg.to, t0, k0) && q.log != s.peers[msg.to].log
    ensures var c := s.peers[msg.to].commitIndex;
      c < |q.log| && q.log[..c + 1] == s.hist.reigns[t0].log[..c + 1]
  {
    hide AllSound, AllFlat, Voting, PeerLogs, ReignLogs, CandidateLogs, VoterLogs, Messages, Acks, Retention, Inheritance,
         VotesWise, AsksTrue, Chosen, Rooted;
    var v, a, p := msg.to, msg.args, s.peers[msg.to];
    RootedPeer(s, v);
    CommittedInLater(s, t0, k0, a.term);
    if success {
      AppendMatches(s, msg, p.log);
    } else {
      RootTerm(s, msg);
      assert p.commitIndex < a.prevLogIndex;
    }
  }

  lemma CommittedInLater(s: Cluster, t0: nat, k0: nat, term: nat)
    requires Inheritance(s) && ReignLogs(s) && Chosen(s, t0, k0) && t0 <= term && term in s.hist.reigns
    ensures t0 in s.hist.reigns && k0 < |s.hist.reigns[t0].log| && UpTo(s, t0, k0) <= s.hist.reigns[term].log
    ensures t0 < term ==> k0 < |s.hist.reigns[term].init|
  {
    hide Rooted;
    ChosenIsChoosable(s, t0, k0);
    assert Inherits(s, t0, term);
    ReignAt(s, term);
  }

  /** A message's commit index carries over to the follower's log. */
  lemma CommitCarried(s: Cluster, msg: AppendMsg, q: Peer, t0: nat, k0: nat)
    requires AllFlat(s) && PeerLogs(s) && ReignLogs(s) && MessageOk(s, msg) && Effect(s.peers[msg.to], msg.args, q, true)
    requires 0 <= msg.args.leaderCommit < EndOf(msg.args) && MessageBacked(s, msg.args, t0, k0)
    ensures Witness(s, t0, k0, q.log, msg.args.leaderCommit)
  {
    hide PeerLogs, ReignLogs, Rooted, Chosen;
    RootedPeer(s, msg.to);
    AppendMatches(s, msg, s.peers[msg.to].log);
    ChosenOwn(s, t0, k0);
  }

  /** A message is accepted only in its leader's term, and a success is recorded. */
  lemma DeliveryCommit(s: Cluster, s': Cluster, idx: nat, msg: AppendMsg, q: Peer, success: bool)
    requires Delivery(s, s', idx, msg, q, success) && Solid(s) && Acks(s) && Committing(s)
    ensures Advances(s, s') && s'.hist.reigns == s.hist.reigns && msg.to < |s.peers|
    ensures success ==> EndOf(msg.args) - 1 <= AckOf(s', msg.args.term, msg.to)
    ensures MessageOk(s, msg) && MessageCommit(s, msg.args) && s'.peers == s.peers[msg.to := q]
    ensures var p := s.peers[msg.to];
      && q.lastApplied == p.lastApplied && p.currentTerm <= q.currentTerm && q.log != []
      && q.nextIndex == p.nextIndex && q.matchIndex == p.matchIndex && (q.role == Leader ==> p.role == Leader)
      && (q.currentTerm != p.currentTerm || success || q.log != p.log ==> q.currentTerm == msg.args.term)
      && q.commitIndex == if success && msg.args.leaderCommit > p.commitIndex then msg.args.leaderCommit else p.commitIndex
  {
    hide HandleAppend, AllSound, AllFlat, Voting, PeerLogs, ReignLogs, CandidateLogs, VoterLogs, Messages, PeersOk, AppliedOk, Acks;
    DeliveryEffect(s, s', idx, msg, q, success);
    AppendAppending(s, s', idx, msg, q, success);
    PeerOkAt(s, msg.to);
    AppendCommit(s.peers[msg.to], msg.to, |s.peers|, msg.args);
  }

  lemma AheadOf(s: Cluster, s': Cluster, idx: nat, msg: AppendMsg, q: Peer, success: bool)
    requires Delivery(s, s', idx, msg, q, success) && Ahead(s, DeliverAppend(idx))
    ensures !Overtaken(s, msg)
  {
  }

  lemma AppendPeer(s: Cluster, s': Cluster, idx: nat, msg: AppendMsg, q: Peer, success: bool)
    requires Delivery(s, s', idx, msg, q, success) && Solid(s) && Surviving(s) && Committing(s) && Ahead(s, DeliverAppend(idx))
    requires msg.to < |s'.peers|
    ensures PeerCommit(s', msg.to)
  {
    hide AllSound, AllFlat, Voting, PeerLogs, ReignLogs, CandidateLogs, VoterLogs, Messages, Acks, Retention, Inheritance,
         VotesWise, AsksTrue, Witness, Delivery, Committing, Effect, MessageOk, Advances, Ahead, Sound;
    DeliveryCommit(s, s', idx, msg, q, success);
    var v, p := msg.to, s.peers[msg.to];
    DeliveryEffect(s, s', idx, msg, q, success);
    AheadOf(s, s', idx, msg, q, success);
    PeerOkAt(s, v);
    if success && msg.args.leaderCommit > p.commitIndex {
      var t0, k0 :| MessageBacked(s, msg.args, t0, k0);
      CommitCarried(s, msg, q, t0, k0);
      WitnessAdvances(s, s', t0, k0, q.log, q.log, q.commitIndex);
      assert CommitBacked(s', v, t0, k0);
    } else if q.log == p.log {
      CommitKept(s, s', v);
    } else if p.commitIndex != 0 {
      var t0, k0 :| CommitBacked(s, v, t0, k0);
      CommittedStays(s, msg, q, success, t0, k0);
      WitnessMoves(s, s', t0, k0, p.log, q.log, p.commitIndex);
      AckAdvances(s, s', t0, v);
      assert CommitBacked(s', v, t0, k0);
    }
  }

  lemma WitnessMoves(s: Cluster, s': Cluster, t0: nat, k0: nat, log: Log, log': Log, c: int)
    requires Witness(s, t0, k0, log, c) && Advances(s, s') && s'.hist.reigns == s.hist.reigns
    requires c < |log'| && log'[..c + 1] == s.hist.reigns[t0].log[..c + 1]
    ensures Witness(s', t0, k0, log', c)
  {
    ChosenGrows(s, s', t0, k0);
  }

  lemma AppendCounting(s: Cluster, s': Cluster, idx: nat, msg: AppendMsg, q: Peer, success: bool)
    requires Delivery(s, s', idx, msg, q, success) && Solid(s) && Acks(s) && Committing(s) && msg.to < |s'.peers|
    ensures Counting(s', msg.to)
  {
    hide Solid, Acks, Delivery, PeerCommit, AppliedOk, MessagesOk, Advances;
    DeliveryCommit(s, s', idx, msg, q, success);
    assert PeerOk(s, msg.to);
    if q.log == s.peers[msg.to].log {
      CountingKept(s, s', msg.to);
    }
  }

  /** What a refusal reports lies before the entry the leader asked about. */
  lemma RefusalReports(p: Peer, i: nat, n: nat, args: AppendArgs)
    requires Flat(p, i, n) && 0 <= args.prevLogIndex
    ensures var reply := HandleAppend(p, args).1;
      !reply.success && reply.term <= args.term ==>
        if reply.xTerm == -1 then 1 <= reply.xLen <= args.prevLogIndex
        else 0 <= reply.xTerm && 0 <= reply.xIndex <= args.prevLogIndex && (reply.xTerm > 0 ==> reply.xIndex > 0)
  {
  }

  lemma AppendReplyOk(s: Cluster, s': Cluster, idx: nat, msg: AppendMsg, q: Peer, success: bool)
    requires Delivery(s, s', idx, msg, q, success) && Solid(s) && Acks(s) && Committing(s)
    ensures forall ack :: ack in s'.replies ==> ack in s.replies || ReplyOk(s', ack)
    ensures s'.sent == s.sent && s'.hist.applied == s.hist.applied
  {
    hide AllSound, AllFlat, Voting, Logs, Acks, Committing, HandleAppend, MessageOk, Advances, MessageCommit, Effect;
    SolidParts(s);
    DeliveryCommit(s, s', idx, msg, q, success);
    DeliveryEffect(s, s', idx, msg, q, success);
    MessageKept(s, s', msg);
    RefusalReports(s.peers[msg.to], msg.to, |s.peers|, msg.args);
  }

  lemma MessageKept(s: Cluster, s': Cluster, msg: AppendMsg)
    requires MessageOk(s, msg) && Advances(s, s')
    ensures MessageOk(s', msg) && 0 <= msg.args.prevLogIndex
  {
    MessageExtends(s, s', msg);
  }

  lemma AppendCommits(s: Cluster, s': Cluster, idx: nat, msg: AppendMsg, q: Peer, success: bool)
    requires Delivery(s, s', idx, msg, q, success) && Solid(s) && Surviving(s) && Committing(s) && Ahead(s, DeliverAppend(idx))
    ensures Committing(s')
  {
    hide Solid, Acks, Retention, Inheritance, VotesWise, AsksTrue, Delivery, Committing, PeerCommit, Counting, Advances,
         MessageCommit, ReplyOk, AppliedFrom, Ahead, MessageOk;
    DeliveryCommit(s, s', idx, msg, q, success);
    AppendPeer(s, s', idx, msg, q, success);
    AppendCounting(s, s', idx, msg, q, success);
    AppendReplyOk(s, s', idx, msg, q, success);
    OnePeer(s, s', msg.to);
  }

  lemma AppendOk(s: Cluster, idx: nat)
    requires Solid(s) && Surviving(s) && Committing(s) && Enabled(s, DeliverAppend(idx)) && Ahead(s, DeliverAppend(idx))
    ensures Committing(AfterAppend(s, idx))
  {
    hide Solid, Surviving, Committing;
    var msg := s.sent[idx];
    var (q, reply) := HandleAppend(s.peers[msg.to], msg.args);
    AppendCommits(s, AfterAppend(s, idx), idx, msg, q, reply.success);
  }

  // ---- every action ----

  lemma DoCommitting(s: Cluster, a: Action)
    requires Solid(s) && Surviving(s) && Committing(s) && Enabled(s, a) && Uncut(a) && Ahead(s, a)
    ensures Committing(Do(s, a))
  {
    hide Solid, Acks, Retention, Inheritance, VotesWise, AsksTrue, Committing, AfterAppend, AfterCount, AfterElect,
         AfterSend, AfterStart, AfterVote, AfterApply, Set;
    match a
    case DoElect(i) => ElectOk(s, i);
    case DeliverVote(ask) => VoteOk(s, ask);
    case CountVote(ask) => CountOk(s, ask);
    case AdoptRefusal(ask) => RefusalOk(s, ask);
    case DoSend(i, j) => SendOk(s, i, j);
    case DeliverAppend(idx) => AppendOk(s, idx);
    case HandleReply(ack) => ReplyHandled(s, ack);
    case ClientStart(i, command) => StartOk(s, i, command);
    case DoApply(i) => ApplyOk(s, i);
    case Crash(i) => CrashOk(s, i);
  }

  lemma InitCommitting(s: Cluster)
    requires Init(s)
    ensures Committing(s)
  {
  }
}
