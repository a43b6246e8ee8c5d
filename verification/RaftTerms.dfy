/** Terms: what a peer learns from replies and calls that name a later term, and what it makes of those that name an
    earlier one. */
module RaftTerms {
  import opened RaftPeer
  import opened RaftCluster
  import opened RaftElection
  import opened RaftLogs
  import opened RaftTraces
  import opened RaftRuns

  /** The step handles a reply that names term t to a call the peer made in term `asked`. */
  ghost predicate Carries(s: Cluster, a: Action, asked: nat, t: nat) {
    match a
    case HandleReply(ack) => asked == ack.msg.args.term && t == ack.reply.term
    case HandleSnapReply(ack) => asked == ack.msg.args.term && t == ack.term
    case AdoptRefusal(ask) =>
      ask in s.ballots && s.ballots[ask].Answered? && !s.ballots[ask].reply.voteGranted &&
      asked == s.ballots[ask].args.term && t == s.ballots[ask].reply.term
    case _ => false
  }

  /** The peer is in the later of the two terms; if that is a new one it is a follower, has saved the term, and has done
      nothing else. */
  ghost predicate Learned(p: Peer, q: Peer, t: nat) {
    && q.currentTerm == Max(p.currentTerm, t)
    && (q.currentTerm > p.currentTerm ==>
          && q.role == Follower && q.saved.currentTerm == t
          && q.log == p.log && q.lastIncludedIndex == p.lastIncludedIndex && q.logLength == p.logLength
          && q.commitIndex == p.commitIndex && q.lastApplied == p.lastApplied && q.votedFor == p.votedFor)
    && (q.currentTerm == p.currentTerm ==> q.saved == p.saved && q.role == p.role)
  }

  lemma ReplyLearned(p: Peer, j: nat, args: AppendArgs, reply: AppendReply)
    requires Shaped(p) && j < |p.nextIndex| && j < |p.matchIndex| && p.currentTerm == args.term
    ensures Learned(p, HandleAppendReply(p, j, args, reply), reply.term)
  {
    hide CommitScan, BackUp;
  }

  lemma SnapReplyLearned(p: Peer, j: nat, args: SnapshotArgs, term: nat)
    requires j < |p.nextIndex| && p.currentTerm == args.term
    ensures Learned(p, HandleSnapshotReply(p, j, args, term), term)
  {
  }

  lemma RefusalLearned(p: Peer, reply: VoteReply)
    requires !reply.voteGranted
    ensures Learned(p, HandleRefusal(p, reply), reply.term)
  {
  }

  lemma ActorLearned(s: Cluster, a: Action, asked: nat, t: nat)
    requires Enabled(s, a) && Carries(s, a, asked, t) && Actor(s, a) < |s.peers|
    requires s.peers[Actor(s, a)].currentTerm == asked || a.AdoptRefusal?
    ensures Actor(s, a) < |Do(s, a).peers| && Learned(s.peers[Actor(s, a)], Do(s, a).peers[Actor(s, a)], t)
  {
    hide HandleAppendReply, HandleSnapshotReply, HandleRefusal, MakeSnap, ReplyStops, Learned;
    var p := s.peers[Actor(s, a)];
    match a
    case HandleReply(ack) => ReplyLearned(p, ack.msg.to, ack.msg.args, ack.reply);
    case HandleSnapReply(ack) => SnapReplyLearned(p, ack.msg.to, ack.msg.args, ack.term);
    case AdoptRefusal(ask) => RefusalLearned(p, s.ballots[ask].reply);
  }

  // ---- a call was made in a term that its maker stood for ----

  ghost predicate SnapRepliesKnown(s: Cluster) {
    forall ack :: ack in s.snapReplies ==> ack.msg in s.snaps
  }

  lemma DoSnapReplies(s: Cluster, a: Action)
    requires SnapRepliesKnown(s) && Enabled(s, a)
    ensures SnapRepliesKnown(Do(s, a))
  {
    hide HandleAppend, HandleAppendReply, HandleVote, HandleVoteReply, HandleRefusal, Elect, MakeAppend, Tally, Asks, Start,
         InstallSnapshot, TakeSnapshot, HandleSnapshotReply, FullAfter, MakeSnap, Restart, ReplyStops, KeepsSuffix;
  }

  lemma {:induction false} RunSnapReplies(run: seq<Cluster>, k: nat)
    requires Run(run) && k < |run|
    ensures SnapRepliesKnown(run[k])
  {
    hide Enabled, Do;
    if k > 0 {
      RunSnapReplies(run, k - 1);
      assert Next(run[k - 1], run[k - 1 + 1]);
      var a :| Enabled(run[k - 1], a) && run[k] == Do(run[k - 1], a);
      DoSnapReplies(run[k - 1], a);
    }
  }

  lemma StoodFor(s: Cluster, a: Action, asked: nat, t: nat)
    requires Firm(s) && SnapRepliesKnown(s) && Enabled(s, a) && Carries(s, a, asked, t)
    ensures At(asked, Actor(s, a)) in s.hist.candidacies
  {
    hide AllSound, VotesKept, CandidaciesVoted, TallyCounts, LeadersReign, PeerLogs, ReignLogs, CandidateLogs, VoterLogs, ReplyStops;
    match a
    case HandleReply(ack) =>
      assert MessageOk(s, ack.msg);
      assert Elected(s, asked, s.hist.reigns[asked]);
    case HandleSnapReply(ack) =>
      var k :| 0 <= k < |s.snaps| && s.snaps[k] == ack.msg;
      assert SnapOk(s, s.snaps[k]);
      assert Elected(s, asked, s.hist.reigns[asked]);
    case AdoptRefusal(ask) => BallotAt(s, ask);
  }

  lemma StoodIsSaved(s: Cluster, i: nat, term: nat)
    requires AllSound(s) && VotesKept(s) && CandidaciesVoted(s) && At(term, i) in s.hist.candidacies
    ensures i < |s.peers| && term <= s.peers[i].saved.currentTerm <= s.peers[i].currentTerm
  {
    assert At(term, i) in s.hist.votes;
    SoundAt(s, i);
  }

  /** In every run, after a peer has handled a reply, to an append, to a snapshot or refusing a vote, of the term it is in,
      it is in the later of its term and the reply's, and that is the term it has saved. If that is a new term, it is a
      follower with the log it had. */
  lemma ReplyRaisesTerm(run: seq<Cluster>, k: nat, a: Action, asked: nat, t: nat)
    requires Run(run) && k < |run| && Enabled(run[k], a) && Carries(run[k], a, asked, t)
    requires Actor(run[k], a) < |run[k].peers| && run[k].peers[Actor(run[k], a)].currentTerm == asked
    ensures Actor(run[k], a) < |Do(run[k], a).peers|
    ensures var p, q := run[k].peers[Actor(run[k], a)], Do(run[k], a).peers[Actor(run[k], a)];
      Learned(p, q, t) && q.saved.currentTerm == q.currentTerm >= t
  {
    hide Run, AllSound, VotesKept, CandidaciesVoted, BallotsBacked, TallyCounts, ReignsElected, LeadersReign, Logs, Enabled, Do, Carries,
         SnapRepliesKnown;
    var s, i := run[k], Actor(run[k], a);
    RunFirm(run, k);
    RunSnapReplies(run, k);
    StoodFor(s, a, asked, t);
    StoodIsSaved(s, i, asked);
    ActorLearned(s, a, asked, t);
  }

  /** A refusal raises the term even if the peer has left the term it asked in. */
  lemma RefusalRaisesTerm(run: seq<Cluster>, k: nat, ask: Ask, asked: nat, t: nat)
    requires Run(run) && k < |run| && Enabled(run[k], AdoptRefusal(ask)) && Carries(run[k], AdoptRefusal(ask), asked, t)
    ensures ask.cand < |run[k].peers| && ask.cand < |Do(run[k], AdoptRefusal(ask)).peers|
    ensures Learned(run[k].peers[ask.cand], Do(run[k], AdoptRefusal(ask)).peers[ask.cand], t)
  {
    hide Run, Do, Learned;
    ActorLearned(run[k], AdoptRefusal(ask), asked, t);
  }

  /** A reply to an append or a snapshot of a term the peer has left changes nothing, in any run. */
  lemma StaleReplyIgnored(run: seq<Cluster>, k: nat, a: Action, asked: nat, t: nat)
    requires Run(run) && k < |run| && Enabled(run[k], a) && Carries(run[k], a, asked, t) && !a.AdoptRefusal?
    requires Actor(run[k], a) < |run[k].peers| && run[k].peers[Actor(run[k], a)].currentTerm != asked
    ensures Do(run[k], a) == run[k]
  {
    hide ReplyStops;
  }

  // ---- what term a reply names, and what a call leaves ----

  /** Every reply names the term its sender was in when the call arrived. The call leaves the sender in the later of that
      and its own term. A later term is saved at once and makes a follower of anyone, except that a refused vote does
      not save it; a call of an earlier term changes nothing. */
  lemma CallsRaiseTerm(p: Peer, vote: VoteArgs, args: AppendArgs, snap: SnapshotArgs)
    requires Shaped(p)
    ensures var (q, r) := HandleVote(p, vote);
      && r.term == p.currentTerm && q.currentTerm == Max(p.currentTerm, vote.term)
      && (q.currentTerm > p.currentTerm ==> q.role == Follower)
      && (if r.voteGranted then q.saved.currentTerm == q.currentTerm else q.saved == p.saved)
      && (vote.term < p.currentTerm ==> q == p)
    ensures Reaches(p, args) ==>
      var (q, r) := HandleAppend(p, args);
      && r.term == p.currentTerm && q.currentTerm == Max(p.currentTerm, args.term)
      && (q.currentTerm > p.currentTerm ==> q.role == Follower && q.saved.currentTerm == q.currentTerm)
      && (args.term < p.currentTerm ==> q == p && !r.success)
    ensures
      var (q, term) := InstallSnapshot(p, snap);
      && term == p.currentTerm && q.currentTerm == Max(p.currentTerm, snap.term)
      && (q.currentTerm > p.currentTerm ==> q.role == Follower && q.saved.currentTerm == q.currentTerm)
      && (snap.term < p.currentTerm ==> q == p)
  {
    hide FirstWithTerm, UpToDate;
  }
}
