/** Log Matching: every entry of every log lies on its term leader's log, so two logs that agree on the
    term of an entry agree on everything up to it, in every run with loss, reordering, crashes and snapshots.
    The logs spoken of are the full ones; what a peer has kept is the end of its full log. */
module RaftLogs {
  import opened RaftPeer
  import opened RaftCluster
  import opened RaftElection
  import opened RaftCompaction

  // ---- logs that grew under leaders ----

  /** Entry k came from the leader of its term, together with everything before it. */
  ghost predicate RootedAt(reigns: map<nat, Reign>, log: Log, k: nat)
    requires k < |log|
  {
    if k == 0 then log[0] == ROOT else log[k].term in reigns && log[..k + 1] <= reigns[log[k].term].log
  }

  ghost predicate Rooted(reigns: map<nat, Reign>, log: Log) {
    log != [] && forall k :: 0 <= k < |log| ==> RootedAt(reigns, log, k)
  }

  /** Reigns are added, and a leader only appends to its log. */
  ghost predicate Extends(r: map<nat, Reign>, r': map<nat, Reign>) {
    forall t :: t in r ==> t in r' && r'[t].leader == r[t].leader && r'[t].init == r[t].init && r[t].log <= r'[t].log
  }

  lemma RootedExtends(r: map<nat, Reign>, r': map<nat, Reign>, log: Log)
    requires Rooted(r, log) && Extends(r, r')
    ensures Rooted(r', log)
  {
    forall k | 0 <= k < |log| ensures RootedAt(r', log, k) {
      assert RootedAt(r, log, k);
    }
  }

  lemma RootedPrefix(r: map<nat, Reign>, log: Log, m: nat)
    requires Rooted(r, log) && 0 < m <= |log|
    ensures Rooted(r, log[..m])
  {
    forall k | 0 <= k < m ensures RootedAt(r, log[..m], k) {
      assert RootedAt(r, log, k);
      assert log[..m][..k + 1] == log[..k + 1];
    }
  }

  /** Two rooted logs with the same term at the same place agree up to that place. */
  lemma Matching(r: map<nat, Reign>, a: Log, b: Log, k: nat)
    requires Rooted(r, a) && Rooted(r, b) && k < |a| && k < |b| && a[k].term == b[k].term
    ensures a[..k + 1] == b[..k + 1]
  {
    assert RootedAt(r, a, k) && RootedAt(r, b, k);
    if k == 0 {
      assert a[..1] == [ROOT] == b[..1];
    } else {
      var l := r[a[k].term].log;
      assert a[..k + 1] == l[..k + 1] == b[..k + 1];
    }
  }

  /** A leader starts from a log of earlier terms and appends entries of its own. */
  ghost predicate ValidReign(reigns: map<nat, Reign>, term: nat, r: Reign) {
    && r.init != [] && r.init <= r.log
    && (forall k :: 0 <= k < |r.init| ==> r.init[k].term < term)
    && (forall k :: |r.init| <= k < |r.log| ==> r.log[k].term == term)
    && Rooted(reigns, r.log)
  }

  ghost predicate TermsUpTo(log: Log, term: int) {
    forall k :: 0 <= k < |log| ==> log[k].term <= term
  }

  // ---- the invariant ----

  ghost predicate PeerLog(s: Cluster, i: nat)
    requires i < |s.peers|
  {
    var p, l := s.peers[i], FullLog(s, i);
    && Compacts(p.log, p.lastIncludedIndex, l)
    && Rooted(s.hist.reigns, l) && TermsUpTo(l, p.saved.currentTerm)
    && (Reigns(s, p.saved.currentTerm, i) ==> l == s.hist.reigns[p.saved.currentTerm].log)
    && (At(p.saved.currentTerm, i) in s.hist.candidacies && p.saved.currentTerm !in s.hist.reigns ==>
          l == s.hist.candidacies[At(p.saved.currentTerm, i)])
  }

  ghost predicate PeerLogs(s: Cluster) {
    |s.hist.full| == |s.peers| && forall i :: 0 <= i < |s.peers| ==> PeerLog(s, i)
  }

  ghost predicate ReignLogs(s: Cluster) {
    forall t :: t in s.hist.reigns ==> ValidReign(s.hist.reigns, t, s.hist.reigns[t])
  }

  ghost predicate CandidateLogs(s: Cluster) {
    forall x :: x in s.hist.candidacies ==>
      Rooted(s.hist.reigns, s.hist.candidacies[x]) && TermsUpTo(s.hist.candidacies[x], x.term - 1)
  }

  ghost predicate VoterLogs(s: Cluster) {
    forall x :: x in s.hist.votes ==> Rooted(s.hist.reigns, s.hist.votes[x].log)
  }

  /** A message carries a stretch of its leader's log that ends where the log then ended. */
  ghost predicate MessageOk(s: Cluster, msg: AppendMsg) {
    var a := msg.args;
    && msg.from < |s.peers| && msg.to < |s.peers| && msg.from != msg.to
    && Reigns(s, a.term, msg.from)
    && var r := s.hist.reigns[a.term];
       var m := a.prevLogIndex + 1 + |a.entries|;
       && 0 <= a.prevLogIndex && |r.init| <= m <= |r.log|
       && a.prevLogTerm == r.log[a.prevLogIndex].term
       && a.entries == r.log[a.prevLogIndex + 1..m]
  }

  /** A snapshot stands for a prefix of its leader's log. */
  ghost predicate SnapOk(s: Cluster, msg: SnapMsg) {
    && msg.from < |s.peers| && msg.to < |s.peers| && msg.from != msg.to && Reigns(s, msg.args.term, msg.from)
    && StandsFor(msg.args, msg.prefix) && msg.prefix <= s.hist.reigns[msg.args.term].log
  }

  ghost predicate Messages(s: Cluster) {
    && (forall k :: 0 <= k < |s.sent| ==> MessageOk(s, s.sent[k]))
    && (forall ack :: ack in s.replies ==> MessageOk(s, ack.msg))
    && (forall k :: 0 <= k < |s.snaps| ==> SnapOk(s, s.snaps[k]))
  }

  ghost predicate Logs(s: Cluster) {
    PeerLogs(s) && ReignLogs(s) && CandidateLogs(s) && VoterLogs(s) && Messages(s)
  }

  lemma PeerLogAt(s: Cluster, i: nat)
    requires PeerLogs(s) && i < |s.peers|
    ensures PeerLog(s, i) && |s.hist.full| == |s.peers|
  {
  }

  lemma ReignAt(s: Cluster, term: nat)
    requires ReignLogs(s) && term in s.hist.reigns
    ensures ValidReign(s.hist.reigns, term, s.hist.reigns[term])
  {
  }

  lemma MessageAt(s: Cluster, k: nat)
    requires Messages(s) && k < |s.sent|
    ensures MessageOk(s, s.sent[k])
  {
  }

  // ---- extending the history ----

  lemma MessageExtends(s: Cluster, s': Cluster, msg: AppendMsg)
    requires MessageOk(s, msg) && Extends(s.hist.reigns, s'.hist.reigns) && |s'.peers| == |s.peers|
    ensures MessageOk(s', msg)
  {
  }

  lemma SnapExtends(s: Cluster, s': Cluster, msg: SnapMsg)
    requires SnapOk(s, msg) && Extends(s.hist.reigns, s'.hist.reigns) && |s'.peers| == |s.peers|
    ensures SnapOk(s', msg)
  {
  }

  /** Messages under way stay good as reigns grow. */
  lemma MessagesExtend(s: Cluster, s': Cluster)
    requires Messages(s) && Extends(s.hist.reigns, s'.hist.reigns) && |s'.peers| == |s.peers|
    requires s'.sent == s.sent && s'.replies == s.replies && s'.snaps == s.snaps
    ensures Messages(s')
  {
    hide Extends, MessageOk, SnapOk;
    forall k | 0 <= k < |s'.sent| ensures MessageOk(s', s'.sent[k]) {
      MessageExtends(s, s', s.sent[k]);
    }
    forall ack | ack in s'.replies ensures MessageOk(s', ack.msg) {
      MessageExtends(s, s', ack.msg);
    }
    forall k | 0 <= k < |s'.snaps| ensures SnapOk(s', s'.snaps[k]) {
      SnapExtends(s, s', s.snaps[k]);
    }
  }

  lemma ReignExtends(r: map<nat, Reign>, r': map<nat, Reign>, t: nat, x: Reign)
    requires ValidReign(r, t, x) && Extends(r, r')
    ensures ValidReign(r', t, x)
  {
    RootedExtends(r, r', x.log);
  }

  /** Everything recorded stays rooted as reigns grow. */
  lemma HistoryExtends(s: Cluster, s': Cluster)
    requires CandidateLogs(s) && VoterLogs(s) && Messages(s) && Extends(s.hist.reigns, s'.hist.reigns)
    requires |s'.peers| == |s.peers| && s'.sent == s.sent && s'.replies == s.replies && s'.snaps == s.snaps
    requires s'.hist.candidacies == s.hist.candidacies && s'.hist.votes == s.hist.votes
    ensures CandidateLogs(s') && VoterLogs(s') && Messages(s')
  {
    hide Rooted, Extends, Messages;
    MessagesExtend(s, s');
    forall x | x in s.hist.candidacies ensures Rooted(s'.hist.reigns, s.hist.candidacies[x]) {
      RootedExtends(s.hist.reigns, s'.hist.reigns, s.hist.candidacies[x]);
    }
    forall x | x in s.hist.votes ensures Rooted(s'.hist.reigns, s.hist.votes[x].log) {
      RootedExtends(s.hist.reigns, s'.hist.reigns, s.hist.votes[x].log);
    }
  }

  /** A peer whose full log and saved term are untouched. */
  lemma PeerLogKept(s: Cluster, s': Cluster, i: nat)
    requires i < |s.peers| == |s'.peers| && PeerLog(s, i) && Extends(s.hist.reigns, s'.hist.reigns)
    requires FullLog(s', i) == FullLog(s, i) && s'.peers[i].saved.currentTerm == s.peers[i].saved.currentTerm
    requires Compacts(s'.peers[i].log, s'.peers[i].lastIncludedIndex, FullLog(s, i))
    requires At(s.peers[i].saved.currentTerm, i) in s'.hist.candidacies ==>
      At(s.peers[i].saved.currentTerm, i) in s.hist.candidacies &&
      s'.hist.candidacies[At(s.peers[i].saved.currentTerm, i)] == s.hist.candidacies[At(s.peers[i].saved.currentTerm, i)]
    requires Reigns(s', s.peers[i].saved.currentTerm, i) ==>
      s'.hist.reigns[s.peers[i].saved.currentTerm].log == FullLog(s, i)
    ensures PeerLog(s', i)
  {
    hide Compacts;
    RootedExtends(s.hist.reigns, s'.hist.reigns, FullLog(s, i));
  }

  // ---- actions that leave all full logs alone ----

  /** The peer still keeps the end of the same full log; its saved term is as before, or one it never stood for. */
  ghost predicate LogKept(s: Cluster, i: nat, q: Peer)
    requires i < |s.peers|
  {
    var p := s.peers[i];
    && Compacts(q.log, q.lastIncludedIndex, FullLog(s, i)) && p.saved.currentTerm <= q.saved.currentTerm
    && (q.saved.currentTerm == p.saved.currentTerm || At(q.saved.currentTerm, i) !in s.hist.candidacies)
  }

  /** A term that a peer never stood for is not one it reigns in. */
  lemma NoReign(s: Cluster, term: nat, i: nat)
    requires ReignsElected(s) && At(term, i) !in s.hist.candidacies
    ensures !Reigns(s, term, i)
  {
    if term in s.hist.reigns {
      assert Elected(s, term, s.hist.reigns[term]);
    }
  }

  lemma KeptPeerLogs(s: Cluster, s': Cluster, i: nat)
    requires PeerLogs(s) && ReignsElected(s) && i < |s.peers| == |s'.peers|
    requires s'.peers == s.peers[i := s'.peers[i]] && LogKept(s, i, s'.peers[i])
    requires s'.hist.reigns == s.hist.reigns && s'.hist.candidacies == s.hist.candidacies && s'.hist.full == s.hist.full
    ensures PeerLogs(s')
  {
    hide Rooted, Compacts, ReignsElected;
    assert PeerLog(s, i);
    if s'.peers[i].saved.currentTerm != s.peers[i].saved.currentTerm {
      NoReign(s, s'.peers[i].saved.currentTerm, i);
    }
    forall j | 0 <= j < |s'.peers| ensures PeerLog(s', j) {
      assert PeerLog(s, j);
    }
  }

  lemma KeptLogs(s: Cluster, s': Cluster, i: nat)
    requires Logs(s) && ReignsElected(s) && i < |s.peers| == |s'.peers|
    requires s'.peers == s.peers[i := s'.peers[i]] && LogKept(s, i, s'.peers[i])
    requires s'.hist.reigns == s.hist.reigns && s'.hist.candidacies == s.hist.candidacies && s'.hist.full == s.hist.full
    requires s'.hist.votes == s.hist.votes && s'.sent == s.sent && s'.replies == s.replies && s'.snaps == s.snaps
    ensures Logs(s')
  {
    hide PeerLogs, ReignsElected, LogKept, ReignLogs, CandidateLogs, VoterLogs, Messages;
    KeptPeerLogs(s, s', i);
    SameHistory(s, s');
  }

  lemma SameHistory(s: Cluster, s': Cluster)
    requires ReignLogs(s) && CandidateLogs(s) && VoterLogs(s) && Messages(s) && |s'.peers| == |s.peers|
    requires s'.hist.reigns == s.hist.reigns && s'.hist.candidacies == s.hist.candidacies && s'.hist.votes == s.hist.votes
    requires s'.sent == s.sent && s'.replies == s.replies && s'.snaps == s.snaps
    ensures ReignLogs(s') && CandidateLogs(s') && VoterLogs(s') && Messages(s')
  {
    hide Rooted, ValidReign, Messages;
    MessagesExtend(s, s');
  }

  // ---- elections ----

  /** Nothing but one peer and what is recorded of elections changes. */
  lemma SameReigns(s: Cluster, s': Cluster)
    requires ReignLogs(s) && Messages(s) && |s'.peers| == |s.peers| && s'.hist.reigns == s.hist.reigns
    requires s'.sent == s.sent && s'.replies == s.replies && s'.snaps == s.snaps
    ensures ReignLogs(s') && Messages(s')
  {
    hide Rooted, ValidReign, Messages;
    MessagesExtend(s, s');
  }

  lemma ElectPeerLog(s: Cluster, i: nat, j: nat)
    requires AllSound(s) && ReignsElected(s) && PeerLogs(s) && Enabled(s, DoElect(i)) && j < |s.peers|
    requires At(s.peers[i].currentTerm + 1, i) !in s.hist.candidacies
    ensures PeerLog(AfterElect(s, i), j)
  {
    hide Rooted, Asks, AllSound, PeerLogs, ReignsElected;
    PeerLogAt(s, j);
    SoundAt(s, i);
    NoReign(s, s.peers[i].currentTerm + 1, i);
  }

  lemma ElectHistory(s: Cluster, i: nat)
    requires AllSound(s) && PeerLogs(s) && CandidateLogs(s) && VoterLogs(s) && Enabled(s, DoElect(i))
    ensures CandidateLogs(AfterElect(s, i)) && VoterLogs(AfterElect(s, i))
    ensures var s' := AfterElect(s, i);
      && s'.hist.reigns == s.hist.reigns && s'.sent == s.sent && s'.replies == s.replies && s'.snaps == s.snaps
      && s'.hist.full == s.hist.full
  {
    hide Rooted, Asks, AllSound, PeerLogs;
    PeerLogAt(s, i);
    SoundAt(s, i);
  }

  lemma ElectLogs(s: Cluster, i: nat)
    requires AllSound(s) && Voting(s) && Logs(s) && Enabled(s, DoElect(i))
    ensures Logs(AfterElect(s, i))
  {
    hide Rooted, AllSound, VotesKept, CandidaciesVoted, ReignsElected, ReignLogs, CandidateLogs, VoterLogs, Messages, PeerLog;
    var s' := AfterElect(s, i);
    NewCandidacy(s, i);
    ElectHistory(s, i);
    SameReigns(s, s');
    forall j | 0 <= j < |s'.peers| ensures PeerLog(s', j) {
      ElectPeerLog(s, i, j);
    }
  }

  lemma VoteKeepsLog(p: Peer, args: VoteArgs)
    requires Shaped(p)
    ensures HandleVote(p, args).0.log == p.log && HandleVote(p, args).0.lastIncludedIndex == p.lastIncludedIndex
  {
  }

  /** A peer that grants a vote is not a candidate of that term itself. */
  lemma VoteKept(s: Cluster, ask: Ask)
    requires AllSound(s) && Voting(s) && PeerLogs(s) && Enabled(s, DeliverVote(ask))
    ensures LogKept(s, ask.voter, AfterVote(s, ask).peers[ask.voter])
  {
    hide TallyCounts, ReignsElected, LeadersReign, HandleVote, Compacts, Rooted, PeerLogs;
    assert BallotOk(s, ask, s.ballots[ask]);
    var p := s.peers[ask.voter];
    assert Sound(p, ask.voter, |s.peers|);
    PeerLogAt(s, ask.voter);
    VoteSaves(p, ask.voter, |s.peers|, s.ballots[ask].args);
    VoteKeepsLog(p, s.ballots[ask].args);
    VoteGrew(s, ask);
  }

  lemma VoteHistory(s: Cluster, ask: Ask)
    requires PeerLogs(s) && CandidateLogs(s) && VoterLogs(s) && Enabled(s, DeliverVote(ask))
    ensures CandidateLogs(AfterVote(s, ask)) && VoterLogs(AfterVote(s, ask))
    ensures var s' := AfterVote(s, ask);
      && s'.hist.reigns == s.hist.reigns && s'.sent == s.sent && s'.replies == s.replies && s'.snaps == s.snaps
      && s'.hist.full == s.hist.full
    ensures AfterVote(s, ask).hist.candidacies == s.hist.candidacies && |AfterVote(s, ask).peers| == |s.peers|
    ensures AfterVote(s, ask).peers == s.peers[ask.voter := AfterVote(s, ask).peers[ask.voter]]
  {
    hide Rooted, HandleVote, PeerLogs;
    PeerLogAt(s, ask.voter);
  }

  lemma VoteLogs(s: Cluster, ask: Ask)
    requires AllSound(s) && Voting(s) && Logs(s) && Enabled(s, DeliverVote(ask))
    ensures Logs(AfterVote(s, ask))
  {
    hide AfterVote, AllSound, LogKept, VotesKept, CandidaciesVoted, ReignsElected, ReignLogs, CandidateLogs, VoterLogs,
         Messages, PeerLogs, BallotsBacked, TallyCounts, LeadersReign;
    VoteKept(s, ask);
    VoteHistory(s, ask);
    KeptPeerLogs(s, AfterVote(s, ask), ask.voter);
    SameReigns(s, AfterVote(s, ask));
  }

  // ---- a new leader ----

  /** A candidate that is about to be crowned still has the log it stood with. */
  lemma CandidateLog(s: Cluster, c: nat, term: nat)
    requires AllSound(s) && VotesKept(s) && CandidaciesVoted(s) && PeerLogs(s) && c < |s.peers|
    requires s.peers[c].currentTerm == term && At(term, c) in s.hist.candidacies
    ensures s.peers[c].saved.currentTerm == term
    ensures term !in s.hist.reigns ==> FullLog(s, c) == s.hist.candidacies[At(term, c)]
    ensures Reigns(s, term, c) ==> FullLog(s, c) == s.hist.reigns[term].log
  {
    hide Rooted, Compacts;
    assert Sound(s.peers[c], c, |s.peers|) && PeerLog(s, c);
  }

  lemma CrownReign(s: Cluster, c: nat, term: nat, q: set<nat>)
    requires ReignLogs(s) && CandidateLogs(s) && c < |s.peers| && term !in s.hist.reigns
    requires At(term, c) in s.hist.candidacies && FullLog(s, c) == s.hist.candidacies[At(term, c)]
    ensures var r := s.hist.reigns[term := Reign(c, FullLog(s, c), FullLog(s, c), q)];
      Extends(s.hist.reigns, r) && forall t :: t in r ==> ValidReign(r, t, r[t])
  {
    var log := FullLog(s, c);
    var r := s.hist.reigns[term := Reign(c, log, log, q)];
    RootedExtends(s.hist.reigns, r, log);
    forall t | t in r ensures ValidReign(r, t, r[t]) {
      if t != term {
        ReignExtends(s.hist.reigns, r, t, s.hist.reigns[t]);
      }
    }
  }

  /** Only c becomes leader, of a term nobody led; its log and everything else stay. */
  ghost predicate Crowns(s: Cluster, s': Cluster, c: nat, term: nat) {
    && c < |s.peers| == |s'.peers| && s.peers[c].currentTerm == term && At(term, c) in s.hist.candidacies && term !in s.hist.reigns
    && s'.peers == s.peers[c := s'.peers[c]] && s'.peers[c].log == s.peers[c].log && s'.peers[c].saved == s.peers[c].saved
    && s'.peers[c].lastIncludedIndex == s.peers[c].lastIncludedIndex
    && term in s'.hist.reigns
    && s'.hist.reigns == s.hist.reigns[term := Reign(c, FullLog(s, c), FullLog(s, c), s'.hist.reigns[term].quorum)]
    && s'.hist.candidacies == s.hist.candidacies && s'.hist.votes == s.hist.votes && s'.hist.full == s.hist.full
    && s'.sent == s.sent && s'.replies == s.replies && s'.snaps == s.snaps
  }

  lemma CrownLogs(s: Cluster, s': Cluster, c: nat, term: nat)
    requires AllSound(s) && Voting(s) && Logs(s) && Crowns(s, s', c, term)
    ensures Logs(s')
  {
    hide AllSound, VotesKept, CandidaciesVoted, BallotsBacked, TallyCounts, ReignsElected, LeadersReign, Rooted, Compacts, PeerLogs,
         ReignLogs, CandidateLogs, VoterLogs, Messages, ValidReign, Extends, PeerLog;
    CandidateLog(s, c, term);
    CrownReign(s, c, term, s'.hist.reigns[term].quorum);
    AllReigns(s');
    HistoryExtends(s, s');
    forall i | 0 <= i < |s'.peers| ensures PeerLog(s', i) {
      CrownPeer(s, s', c, term, i);
    }
    FullLength(s);
    AllPeerLogs(s');
  }

  lemma FullLength(s: Cluster)
    requires PeerLogs(s)
    ensures |s.hist.full| == |s.peers|
  {
  }

  lemma AllReigns(s: Cluster)
    requires forall t :: t in s.hist.reigns ==> ValidReign(s.hist.reigns, t, s.hist.reigns[t])
    ensures ReignLogs(s)
  {
  }

  lemma CrownPeer(s: Cluster, s': Cluster, c: nat, term: nat, i: nat)
    requires PeerLogs(s) && Crowns(s, s', c, term) && i < |s.peers| && Extends(s.hist.reigns, s'.hist.reigns)
    ensures PeerLog(s', i)
  {
    hide Rooted, Compacts, Extends, PeerLogs;
    PeerLogAt(s, i);
    PeerLogKept(s, s', i);
  }

  lemma CountLogs(s: Cluster, ask: Ask)
    requires AllSound(s) && Voting(s) && Logs(s) && Enabled(s, CountVote(ask))
    ensures Logs(AfterCount(s, ask))
  {
    hide Tally, PeerLogs, ReignLogs, CandidateLogs, VoterLogs, Messages, AllSound, ReignsElected, VotesKept, CandidaciesVoted,
         TallyCounts, LeadersReign, Compacts;
    var s', c := AfterCount(s, ask), ask.cand;
    assert BallotOk(s, ask, s.ballots[ask]);
    KeepsFull(s, c);
    if s'.hist == s.hist {
      KeptLogs(s, s', c);
    } else {
      assert s'.hist.reigns == s.hist.reigns[ask.term := Reign(c, FullLog(s, c), FullLog(s, c), s'.hist.reigns[ask.term].quorum)];
      CrownLogs(s, s', c, ask.term);
    }
  }

  lemma KeepsFull(s: Cluster, i: nat)
    requires PeerLogs(s) && i < |s.peers|
    ensures Compacts(s.peers[i].log, s.peers[i].lastIncludedIndex, FullLog(s, i))
  {
    PeerLogAt(s, i);
  }

  // ---- a leader's log and messages ----

  /** A leader's full log is its reign's log, and its term is saved. */
  lemma LeaderLog(s: Cluster, i: nat)
    requires AllSound(s) && Voting(s) && PeerLogs(s) && i < |s.peers| && Reigns(s, s.peers[i].currentTerm, i)
    ensures s.peers[i].saved.currentTerm == s.peers[i].currentTerm
    ensures FullLog(s, i) == s.hist.reigns[s.peers[i].currentTerm].log
  {
    hide TallyCounts, BallotsBacked, LeadersReign, PeerLogs, AllSound;
    assert Elected(s, s.peers[i].currentTerm, s.hist.reigns[s.peers[i].currentTerm]);
    CandidateLog(s, i, s.peers[i].currentTerm);
  }

  lemma LeaderReigns(s: Cluster, i: nat)
    requires LeadersReign(s) && i < |s.peers| && s.peers[i].role == Leader
    ensures Reigns(s, s.peers[i].currentTerm, i)
  {
  }

  /** What is read from the end of a full log is what is read from the log. */
  lemma SendsFull(p: Peer, full: Log, j: nat)
    requires Shaped(p) && Compacts(p.log, p.lastIncludedIndex, full)
    requires j < |p.nextIndex| && p.lastIncludedIndex < p.nextIndex[j] <= p.logLength
    ensures var args := MakeAppend(p, j);
      && 0 <= args.prevLogIndex < |full| && args.prevLogTerm == full[args.prevLogIndex].term
      && args.entries == full[args.prevLogIndex + 1..] && args.term == p.currentTerm && args.leaderCommit == p.commitIndex
  {
    hide Compacts;
    LengthOf(p.log, p.lastIncludedIndex, full);
    TermAt(p.log, p.lastIncludedIndex, full, p.nextIndex[j] - 1);
    EndOfLog(p.log, p.lastIncludedIndex, full, p.nextIndex[j]);
  }

  lemma EndOfLog(log: Log, base: nat, full: Log, n: nat)
    requires Compacts(log, base, full) && base < n <= |full|
    ensures log[n - base..] == full[n..]
  {
  }

  /** What a leader sends is a stretch of its reign's log up to its end. */
  lemma SendMessage(s: Cluster, i: nat, j: nat)
    requires AllSound(s) && Voting(s) && Logs(s) && Enabled(s, DoSend(i, j))
    ensures var args := MakeAppend(s.peers[i], j);
      && MessageOk(s, AppendMsg(i, j, s.boots[i], args)) && args.term == s.peers[i].currentTerm
      && args.prevLogIndex + 1 + |args.entries| == |FullLog(s, i)| == |s.hist.reigns[args.term].log|
  {
    hide AllSound, VotesKept, CandidaciesVoted, BallotsBacked, TallyCounts, ReignsElected, LeadersReign, Rooted, ReignLogs,
         CandidateLogs, VoterLogs, Messages, PeerLogs, Compacts, MakeAppend;
    LeaderReigns(s, i);
    ReignAt(s, s.peers[i].currentTerm);
    LeaderLog(s, i);
    KeepsFull(s, i);
    SendsFull(s.peers[i], FullLog(s, i), j);
  }

  lemma SendLogs(s: Cluster, i: nat, j: nat)
    requires AllSound(s) && Voting(s) && Logs(s) && Enabled(s, DoSend(i, j))
    ensures Logs(AfterSend(s, i, j))
  {
    hide AllSound, Voting, MakeAppend, PeerLogs, ReignLogs, CandidateLogs, VoterLogs, Messages, MessageOk;
    var s' := AfterSend(s, i, j);
    SendMessage(s, i, j);
    Unchanged(s, s');
    MoreMessages(s, s');
  }

  /** Nothing but messages changes. */
  lemma Unchanged(s: Cluster, s': Cluster)
    requires PeerLogs(s) && ReignLogs(s) && CandidateLogs(s) && VoterLogs(s) && s'.peers == s.peers && s'.hist == s.hist
    ensures PeerLogs(s') && ReignLogs(s') && CandidateLogs(s') && VoterLogs(s')
  {
    hide Rooted, Compacts, ValidReign;
    forall i | 0 <= i < |s'.peers| ensures PeerLog(s', i) {
      PeerLogAt(s, i);
    }
  }

  /** One more message, or one more snapshot. */
  lemma MoreMessages(s: Cluster, s': Cluster)
    requires Messages(s) && |s'.peers| == |s.peers| && s'.hist.reigns == s.hist.reigns
    requires forall ack :: ack in s'.replies ==> ack in s.replies || MessageOk(s, ack.msg)
    requires s'.sent == s.sent || (|s'.sent| == |s.sent| + 1 && s.sent <= s'.sent && MessageOk(s, s'.sent[|s.sent|]))
    requires s'.snaps == s.snaps || (|s'.snaps| == |s.snaps| + 1 && s.snaps <= s'.snaps && SnapOk(s, s'.snaps[|s.snaps|]))
    ensures Messages(s')
  {
    hide MessageOk, SnapOk, Extends;
    ExtendsItself(s.hist.reigns);
    forall k | 0 <= k < |s'.sent| ensures MessageOk(s', s'.sent[k]) {
      assert MessageOk(s, s'.sent[k]);
      MessageExtends(s, s', s'.sent[k]);
    }
    forall ack | ack in s'.replies ensures MessageOk(s', ack.msg) {
      MessageExtends(s, s', ack.msg);
    }
    forall k | 0 <= k < |s'.snaps| ensures SnapOk(s', s'.snaps[k]) {
      assert SnapOk(s, s'.snaps[k]);
      SnapExtends(s, s', s'.snaps[k]);
    }
  }

  lemma ExtendsItself(r: map<nat, Reign>)
    ensures Extends(r, r)
  {
  }

  lemma AllPeerLogs(s: Cluster)
    requires |s.hist.full| == |s.peers| && forall i :: 0 <= i < |s.peers| ==> PeerLog(s, i)
    ensures PeerLogs(s)
  {
  }

  lemma StartReigns(s: Cluster, i: nat, command: Command)
    requires ReignLogs(s) && i < |s.peers| && Reigns(s, s.peers[i].currentTerm, i)
    requires FullLog(s, i) == s.hist.reigns[s.peers[i].currentTerm].log
    ensures var term := s.peers[i].currentTerm;
      var r := s.hist.reigns[term := s.hist.reigns[term].(log := FullLog(s, i) + [LogEntry(term, command)])];
      && Extends(s.hist.reigns, r) && (forall t :: t in r ==> ValidReign(r, t, r[t]))
      && Rooted(r, FullLog(s, i) + [LogEntry(term, command)])
  {
    var term, old_ := s.peers[i].currentTerm, FullLog(s, i);
    var log := old_ + [LogEntry(term, command)];
    var r := s.hist.reigns[term := s.hist.reigns[term].(log := log)];
    assert ValidReign(s.hist.reigns, term, s.hist.reigns[term]);
    RootedExtends(s.hist.reigns, r, old_);
    forall k | 0 <= k < |log| ensures RootedAt(r, log, k) {
      if k < |old_| {
        assert RootedAt(r, old_, k);
        assert log[..k + 1] == old_[..k + 1];
      }
    }
    forall t | t in r ensures ValidReign(r, t, r[t]) {
      if t != term {
        ReignExtends(s.hist.reigns, r, t, s.hist.reigns[t]);
      }
    }
  }

  /** The step with the peer's new log named. */
  lemma StartStep(s: Cluster, i: nat, command: Command)
    requires AllSound(s) && Voting(s) && PeerLogs(s) && Enabled(s, ClientStart(i, command))
    ensures var s', term := AfterStart(s, i, command), s.peers[i].currentTerm;
      var full := FullLog(s, i) + [LogEntry(term, command)];
      && Reigns(s, term, i) && FullLog(s, i) == s.hist.reigns[term].log && s.peers[i].saved.currentTerm == term
      && |s.hist.full| == |s.peers| && s'.hist.full == s.hist.full[i := full] && s'.peers == s.peers[i := s'.peers[i]]
      && s'.hist.reigns == s.hist.reigns[term := s.hist.reigns[term].(log := full)]
      && s'.hist.acks == s.hist.acks[At(term, i) := |full| - 1]
      && s'.peers[i].saved.currentTerm == term && Compacts(s'.peers[i].log, s'.peers[i].lastIncludedIndex, full)
      && s'.hist.candidacies == s.hist.candidacies && s'.hist.votes == s.hist.votes && s'.hist.cursor == s.hist.cursor
      && s'.hist.applied == s.hist.applied && s'.ballots == s.ballots && s'.boots == s.boots
      && s'.sent == s.sent && s'.replies == s.replies && s'.snaps == s.snaps
  {
    hide AllSound, VotesKept, CandidaciesVoted, BallotsBacked, TallyCounts, ReignsElected, LeadersReign, PeerLogs, Compacts;
    var p := s.peers[i];
    LeaderReigns(s, i);
    LeaderLog(s, i);
    SoundAt(s, i);
    FullLength(s);
    KeepsFull(s, i);
    Extend(p.log, p.lastIncludedIndex, FullLog(s, i), [LogEntry(p.currentTerm, command)]);
  }

  lemma StartPeerLog(s: Cluster, s': Cluster, i: nat, term: nat, full: Log, j: nat)
    requires PeerLogs(s) && i < |s.peers| == |s'.peers| == |s.hist.full| && j < |s.peers| && Reigns(s, term, i)
    requires FullLog(s, i) == s.hist.reigns[term].log && s.peers[i].saved.currentTerm == term
    requires s'.hist.full == s.hist.full[i := full] && s'.peers == s.peers[i := s'.peers[i]]
    requires s'.hist.reigns == s.hist.reigns[term := s.hist.reigns[term].(log := full)] && s'.hist.candidacies == s.hist.candidacies
    requires s'.peers[i].saved.currentTerm == term && Compacts(s'.peers[i].log, s'.peers[i].lastIncludedIndex, full)
    requires Extends(s.hist.reigns, s'.hist.reigns) && Rooted(s'.hist.reigns, full) && |full| == |FullLog(s, i)| + 1
    requires FullLog(s, i) <= full && full[|FullLog(s, i)|].term == term
    ensures PeerLog(s', j)
  {
    hide Rooted, PeerLogs, Extends, Compacts;
    PeerLogAt(s, j);
    if j != i {
      PeerLogKept(s, s', j);
    }
  }

  lemma StartLogs(s: Cluster, i: nat, command: Command)
    requires AllSound(s) && Voting(s) && Logs(s) && Enabled(s, ClientStart(i, command))
    ensures Logs(AfterStart(s, i, command))
  {
    hide AllSound, Voting, Rooted, ValidReign, ReignLogs, CandidateLogs, VoterLogs, Messages, PeerLogs, Extends, PeerLog, AfterStart,
         Compacts;
    var s', term := AfterStart(s, i, command), s.peers[i].currentTerm;
    StartStep(s, i, command);
    StartReigns(s, i, command);
    AllReigns(s');
    HistoryExtends(s, s');
    forall j | 0 <= j < |s'.peers| ensures PeerLog(s', j) {
      StartPeerLog(s, s', i, term, FullLog(s, i) + [LogEntry(term, command)], j);
    }
    AllPeerLogs(s');
  }

  // ---- a follower's log ----

  /** What an append leaves: the full log and saved term as they were or raised, or a full log saved under the message's
      term; and what the peer keeps is the end of its full log. */
  lemma AppendFull(p: Peer, i: nat, n: nat, args: AppendArgs, full: Log)
    requires Sound(p, i, n) && Reaches(p, args) && Compacts(p.log, p.lastIncludedIndex, full)
    ensures var (q, reply) := HandleAppend(p, args); var full' := FullAfter(p, args, full);
      && Compacts(q.log, q.lastIncludedIndex, full')
      && (|| (full' == full && (q.saved.currentTerm == p.saved.currentTerm ||
                                (p.currentTerm < args.term && q.saved.currentTerm == args.term)))
          || (&& p.currentTerm <= args.term && q.saved.currentTerm == args.term && args.prevLogIndex < |full|
              && if reply.success
                 then full[args.prevLogIndex].term == args.prevLogTerm && full' == full[..args.prevLogIndex + 1] + args.entries
                 else full' == full[..if args.prevLogIndex == p.lastIncludedIndex then args.prevLogIndex + 1 else args.prevLogIndex]))
  {
    hide Compacts, FirstWithTerm;
    var b, m := p.lastIncludedIndex, args.prevLogIndex;
    if p.currentTerm <= args.term && m < |full| {
      LengthOf(p.log, b, full);
      TermAt(p.log, b, full, m);
      Cut(p.log, b, full, m + 1);
      Extend(p.log[..m + 1 - b], b, full[..m + 1], args.entries);
      if m > b {
        Cut(p.log, b, full, m);
      }
    }
    LengthOf(p.log, b, full);
    assert full[..|full|] == full;
  }

  lemma LengthOf(log: Log, base: nat, full: Log)
    requires Compacts(log, base, full)
    ensures |full| == |log| + base
  {
  }

  /** A matching append turns the follower's full log into the leader's, as far as the message goes. */
  lemma AppendMatches(s: Cluster, msg: AppendMsg, log: Log)
    requires ReignLogs(s) && MessageOk(s, msg) && Rooted(s.hist.reigns, log)
    requires msg.args.prevLogIndex < |log| && log[msg.args.prevLogIndex].term == msg.args.prevLogTerm
    ensures var a, r := msg.args, s.hist.reigns[msg.args.term];
      && log[..a.prevLogIndex + 1] == r.log[..a.prevLogIndex + 1]
      && log[..a.prevLogIndex + 1] + a.entries == r.log[..a.prevLogIndex + 1 + |a.entries|]
  {
    var a, r := msg.args, s.hist.reigns[msg.args.term];
    assert ValidReign(s.hist.reigns, a.term, r);
    Matching(s.hist.reigns, log, r.log, a.prevLogIndex);
  }

  /** The follower's log after a message, in the terms of the invariant. */
  lemma AppendedLog(s: Cluster, msg: AppendMsg, i: nat, q: Peer, full: Log)
    requires AllSound(s) && Voting(s) && PeerLogs(s) && ReignLogs(s) && MessageOk(s, msg) && i == msg.to < |s.peers|
    requires Reaches(s.peers[i], msg.args) && Shaped(s.peers[i])
    requires q == HandleAppend(s.peers[i], msg.args).0 && full == FullAfter(s.peers[i], msg.args, FullLog(s, i))
    ensures Compacts(q.log, q.lastIncludedIndex, full) && Rooted(s.hist.reigns, full) && TermsUpTo(full, q.saved.currentTerm)
    ensures Reigns(s, q.saved.currentTerm, i) ==> full == s.hist.reigns[q.saved.currentTerm].log
    ensures At(q.saved.currentTerm, i) in s.hist.candidacies && q.saved.currentTerm !in s.hist.reigns ==>
      full == s.hist.candidacies[At(q.saved.currentTerm, i)]
  {
    hide HandleAppend, FullAfter, AllSound, PeerLogs, VotesKept, CandidaciesVoted, BallotsBacked,
         TallyCounts, LeadersReign, Rooted, ReignsElected, ReignLogs, Compacts;
    var p, old_ := s.peers[i], FullLog(s, i);
    SoundAt(s, i);
    PeerLogAt(s, i);
    AppendFull(p, i, |s.peers|, msg.args, old_);
    NewCandidacy(s, i);
    if full == old_ && q.saved.currentTerm == p.saved.currentTerm {
    } else if full == old_ && p.currentTerm < msg.args.term {
      NoReign(s, q.saved.currentTerm, i);
    } else {
      NewLog(s, msg, old_, full);
    }
  }

  lemma AppendPeerLog(s: Cluster, s': Cluster, idx: nat, i: nat)
    requires Enabled(s, DeliverAppend(idx)) && s' == AfterAppend(s, idx) && i == s.sent[idx].to < |s'.peers|
    requires AllSound(s) && Voting(s) && Logs(s)
    ensures PeerLog(s', i)
  {
    hide HandleAppend, FullAfter, AllSound, Messages, PeerLogs, CandidateLogs, VoterLogs, Voting, Rooted, ReignLogs, Compacts, TermsUpTo;
    var msg := s.sent[idx];
    var p, full := s.peers[msg.to], FullLog(s, msg.to);
    MessageAt(s, idx);
    FullLength(s);
    AppendedLog(s, msg, msg.to, HandleAppend(p, msg.args).0, FullAfter(p, msg.args, full));
  }

  lemma NewLog(s: Cluster, msg: AppendMsg, old_: Log, log: Log)
    requires ReignLogs(s) && MessageOk(s, msg) && Rooted(s.hist.reigns, old_)
    requires TermsUpTo(old_, msg.args.term) && msg.args.prevLogIndex < |old_|
    requires var a := msg.args;
      (old_[a.prevLogIndex].term == a.prevLogTerm && log == old_[..a.prevLogIndex + 1] + a.entries) ||
      log == old_[..a.prevLogIndex + 1] || (a.prevLogIndex > 0 && log == old_[..a.prevLogIndex])
    ensures Rooted(s.hist.reigns, log) && TermsUpTo(log, msg.args.term) && log != []
  {
    hide Rooted, ReignLogs;
    var a, r := msg.args, s.hist.reigns[msg.args.term];
    ReignAt(s, a.term);
    if old_[a.prevLogIndex].term == a.prevLogTerm && log == old_[..a.prevLogIndex + 1] + a.entries {
      AppendMatches(s, msg, old_);
      RootedPrefix(s.hist.reigns, r.log, a.prevLogIndex + 1 + |a.entries|);
    } else {
      RootedPrefix(s.hist.reigns, old_, |log|);
      assert log == old_[..|log|];
    }
  }

  lemma OtherPeerLogs(s: Cluster, s': Cluster, i: nat, full: Log)
    requires PeerLogs(s) && i < |s.peers| == |s'.peers| && s'.peers == s.peers[i := s'.peers[i]] && PeerLog(s', i)
    requires s'.hist.full == SetFull(s.hist.full, i, full)
    requires s'.hist.reigns == s.hist.reigns && s'.hist.candidacies == s.hist.candidacies
    ensures PeerLogs(s')
  {
    hide Rooted, Compacts;
    forall j | 0 <= j < |s'.peers| ensures PeerLog(s', j) {
      if j != i {
        PeerLogAt(s, j);
      }
    }
  }

  lemma AppendLogs(s: Cluster, idx: nat)
    requires AllSound(s) && Voting(s) && Logs(s) && Enabled(s, DeliverAppend(idx))
    ensures Logs(AfterAppend(s, idx))
  {
    hide HandleAppend, AllSound, Voting, PeerLogs, ReignLogs, CandidateLogs, VoterLogs, Messages, FullAfter, PeerLog, MessageOk;
    var s' := AfterAppend(s, idx);
    MessageAt(s, idx);
    MessageTo(s, s.sent[idx]);
    AppendPeerLog(s, s', idx, s.sent[idx].to);
    OtherPeerLogs(s, s', s.sent[idx].to, FullAfter(s.peers[s.sent[idx].to], s.sent[idx].args, FullLog(s, s.sent[idx].to)));
    SameRest(s, s');
    MoreMessages(s, s');
  }

  lemma MessageTo(s: Cluster, msg: AppendMsg)
    requires MessageOk(s, msg)
    ensures msg.to < |s.peers| && msg.from < |s.peers|
  {
  }

  lemma SameRest(s: Cluster, s': Cluster)
    requires ReignLogs(s) && CandidateLogs(s) && VoterLogs(s)
    requires s'.hist.reigns == s.hist.reigns && s'.hist.candidacies == s.hist.candidacies && s'.hist.votes == s.hist.votes
    ensures ReignLogs(s') && CandidateLogs(s') && VoterLogs(s')
  {
    hide Rooted, ValidReign;
  }

  // ---- snapshots ----

  /** What is sent in a snapshot's place is a prefix of the leader's log. */
  lemma SnapMessage(s: Cluster, i: nat, j: nat)
    requires AllSound(s) && Voting(s) && PeerLogs(s) && Up(s, i) && j < |s.peers| && i != j
    requires Reigns(s, s.peers[i].currentTerm, i)
    ensures SnapOk(s, MakeSnap(s, i, j))
  {
    hide AllSound, Voting, PeerLogs, Compacts;
    var p := s.peers[i];
    LeaderLog(s, i);
    SoundAt(s, i);
    KeepsFull(s, i);
    LengthOf(p.log, p.lastIncludedIndex, FullLog(s, i));
    TermAt(p.log, p.lastIncludedIndex, FullLog(s, i), p.lastIncludedIndex);
  }

  lemma SendSnapLogs(s: Cluster, i: nat, j: nat)
    requires AllSound(s) && Voting(s) && Logs(s) && Enabled(s, SendSnap(i, j))
    ensures Logs(Do(s, SendSnap(i, j)))
  {
    hide AllSound, VotesKept, CandidaciesVoted, BallotsBacked, TallyCounts, ReignsElected, LeadersReign, PeerLogs, ReignLogs,
         CandidateLogs, VoterLogs, Messages, MakeSnap, AfterAppend, AfterCount, AfterElect, AfterStart, AfterVote, AfterReply, AfterSnap;
    var s' := Do(s, SendSnap(i, j));
    LeaderReigns(s, i);
    SnapMessage(s, i, j);
    Unchanged(s, s');
    MoreMessages(s, s');
  }

  /** An arriving snapshot leaves the full log, or replaces it by the leader's; what the peer keeps is its end. */
  lemma SnapPeerLog(s: Cluster, idx: nat)
    requires AllSound(s) && Voting(s) && Logs(s) && Enabled(s, DeliverSnap(idx))
    ensures PeerLog(AfterSnap(s, idx), s.snaps[idx].to)
  {
    hide AllSound, Messages, PeerLogs, CandidateLogs, VoterLogs, VotesKept, CandidaciesVoted, BallotsBacked, InstallSnapshot,
         TallyCounts, LeadersReign, Rooted, ReignsElected, ReignLogs, Compacts, StandsFor;
    var msg := s.snaps[idx];
    var i, s' := msg.to, AfterSnap(s, idx);
    var p, full := s.peers[i], FullLog(s, i);
    SoundAt(s, i);
    SnapAt(s, idx);
    PeerLogAt(s, i);
    InstallTerm(p, msg.args);
    if msg.args.term >= p.currentTerm {
      NewCandidacy(s, i);
      if msg.args.term > p.currentTerm {
        NoReign(s, msg.args.term, i);
      }
      if KeepsSuffix(p, msg.args) {
        LengthOf(p.log, p.lastIncludedIndex, full);
        CompactsFurther(p.log, p.lastIncludedIndex, full, msg.args.lastIncludedIndex);
      } else {
        OnlyTheEnd(msg.args, msg.prefix);
        SnapPrefix(s, msg);
      }
    }
  }

  lemma SnapAt(s: Cluster, k: nat)
    requires Messages(s) && k < |s.snaps|
    ensures SnapOk(s, s.snaps[k])
  {
  }

  /** What installing does to a peer's log and saved term. */
  lemma InstallTerm(p: Peer, args: SnapshotArgs)
    requires Shaped(p)
    ensures var q := InstallSnapshot(p, args).0;
      if args.term < p.currentTerm then q == p
      else q.saved.currentTerm == args.term && q.lastIncludedIndex == args.lastIncludedIndex &&
           q.log == if KeepsSuffix(p, args) then p.log[args.lastIncludedIndex - p.lastIncludedIndex..]
                    else [LogEntry(args.lastIncludedTerm, 0)]
  {
  }

  lemma SnapPrefix(s: Cluster, msg: SnapMsg)
    requires ReignLogs(s) && SnapOk(s, msg)
    ensures Rooted(s.hist.reigns, msg.prefix) && TermsUpTo(msg.prefix, msg.args.term)
  {
    hide Rooted, ReignLogs;
    ReignAt(s, msg.args.term);
    var log := s.hist.reigns[msg.args.term].log;
    RootedPrefix(s.hist.reigns, log, |msg.prefix|);
    assert log[..|msg.prefix|] == msg.prefix;
  }

  lemma SnapLogs(s: Cluster, idx: nat)
    requires AllSound(s) && Voting(s) && Logs(s) && Enabled(s, DeliverSnap(idx))
    ensures Logs(AfterSnap(s, idx))
  {
    hide InstallSnapshot, AllSound, Voting, PeerLogs, ReignLogs, CandidateLogs, VoterLogs, Messages, PeerLog, KeepsSuffix;
    var s', i := AfterSnap(s, idx), s.snaps[idx].to;
    SnapPeerLog(s, idx);
    SameFull(s.hist.full, i);
    OtherPeerLogs(s, s', i, FullLog(s', i));
    SameRest(s, s');
    MoreMessages(s, s');
  }

  lemma SameFull(full: seq<Log>, i: nat)
    ensures i < |full| ==> full == SetFull(full, i, full[i])
  {
  }

  // ---- every action ----

  /** A peer has saved every term it stood for. */
  lemma CandidacySaved(s: Cluster, i: nat, term: nat)
    requires VotesKept(s) && CandidaciesVoted(s) && i < |s.peers| && term > s.peers[i].saved.currentTerm
    ensures At(term, i) !in s.hist.candidacies
  {
  }

  /** Replies, applying, restarting, taking snapshots: no full log changes. */
  lemma KeptActor(s: Cluster, a: Action)
    requires AllSound(s) && VotesKept(s) && CandidaciesVoted(s) && PeerLogs(s) && Enabled(s, a)
    requires a.AdoptRefusal? || a.HandleReply? || a.DoApply? || a.Crash? || a.DoSnapshot? || a.HandleSnapReply?
    ensures LogKept(s, Actor(s, a), Do(s, a).peers[Actor(s, a)])
  {
    hide HandleAppendReply, AllSound, PeerLogs, VotesKept, CandidaciesVoted, AfterAppend, AfterCount, AfterElect,
         AfterSend, AfterStart, AfterVote, AfterSnap, Compacts;
    var i := Actor(s, a);
    NewCandidacy(s, i);
    SoundAt(s, i);
    KeepsFull(s, i);
    var p := s.peers[i];
    if a.HandleReply? {
      ReplyKept(p, a.ack.msg.to, a.ack.msg.args, a.ack.reply);
    } else if a.DoSnapshot? {
      LengthOf(p.log, p.lastIncludedIndex, FullLog(s, i));
      CompactsFurther(p.log, p.lastIncludedIndex, FullLog(s, i), a.index);
      if p.saved.currentTerm < p.currentTerm {
        CandidacySaved(s, i, p.currentTerm);
      }
    }
  }

  lemma KeptActions(s: Cluster, a: Action)
    requires AllSound(s) && Voting(s) && Logs(s) && Enabled(s, a)
    requires a.AdoptRefusal? || a.DoApply? || a.Crash? || a.DoSnapshot? || a.HandleSnapReply?
    ensures Logs(Do(s, a))
  {
    hide AllSound, Logs, ReignsElected, VotesKept, CandidaciesVoted, AfterAppend, AfterCount, AfterElect,
         AfterSend, AfterStart, AfterVote, AfterSnap, AfterReply, LogKept, HandleRefusal, Restart, TakeSnapshot, HandleSnapshotReply;
    LogParts(s);
    KeptActor(s, a);
    KeptLogs(s, Do(s, a), Actor(s, a));
  }

  lemma LogParts(s: Cluster)
    requires Logs(s)
    ensures PeerLogs(s) && ReignLogs(s) && CandidateLogs(s) && VoterLogs(s) && Messages(s)
  {
  }

  /** A reply may send a snapshot. */
  lemma ReplyLogs(s: Cluster, ack: AppendAck)
    requires AllSound(s) && Voting(s) && Logs(s) && Enabled(s, HandleReply(ack))
    ensures Logs(Do(s, HandleReply(ack)))
  {
    hide AllSound, PeerLogs, ReignLogs, CandidateLogs, VoterLogs, Messages, ReignsElected, VotesKept, CandidaciesVoted, BallotsBacked,
         TallyCounts, LeadersReign, AfterAppend, AfterCount, AfterElect, AfterSend, AfterStart, AfterVote, AfterSnap, LogKept,
         HandleAppendReply, MakeSnap, SnapOk;
    var i, s' := ack.msg.from, Do(s, HandleReply(ack));
    var t := s'.(snaps := s.snaps);
    KeptActor(s, HandleReply(ack));
    KeptLogs(s, t, i);
    if s' != t {
      ReplyAt(s, ack);
      SnapMessage(s, i, ack.msg.to);
      SnapSame(s, t, MakeSnap(s, i, ack.msg.to));
      LogParts(t);
      Unchanged(t, s');
      MoreMessages(t, s');
    }
  }

  lemma ReplyAt(s: Cluster, ack: AppendAck)
    requires Messages(s) && ack in s.replies
    ensures MessageOk(s, ack.msg)
  {
  }

  lemma SnapSame(s: Cluster, t: Cluster, msg: SnapMsg)
    requires SnapOk(s, msg) && t.hist.reigns == s.hist.reigns && |t.peers| == |s.peers|
    ensures SnapOk(t, msg)
  {
  }

  lemma ReplyKept(p: Peer, j: nat, args: AppendArgs, reply: AppendReply)
    requires Shaped(p) && j < |p.nextIndex| && j < |p.matchIndex|
    ensures var q := HandleAppendReply(p, j, args, reply);
      && q.log == p.log && q.lastIncludedIndex == p.lastIncludedIndex
      && (q.saved == p.saved || q.saved.currentTerm > p.currentTerm)
  {
    hide CommitScan, BackUp;
  }

  lemma DoLogs(s: Cluster, a: Action)
    requires AllSound(s) && Voting(s) && Logs(s) && Enabled(s, a)
    ensures Logs(Do(s, a))
  {
    hide AllSound, Voting, Logs, AfterAppend, AfterCount, AfterElect, AfterSend, AfterStart, AfterVote, AfterApply, Set, AfterReply, AfterSnap;
    match a
    case DoElect(i) => ElectLogs(s, i);
    case DeliverVote(ask) => VoteLogs(s, ask);
    case CountVote(ask) => CountLogs(s, ask);
    case DoSend(i, j) => SendLogs(s, i, j);
    case DeliverAppend(idx) => AppendLogs(s, idx);
    case HandleReply(ack) => ReplyLogs(s, ack);
    case ClientStart(i, command) => StartLogs(s, i, command);
    case SendSnap(i, j) => SendSnapLogs(s, i, j);
    case DeliverSnap(idx) => SnapLogs(s, idx);
    case _ => KeptActions(s, a);
  }

  lemma InitLogs(s: Cluster)
    requires Init(s)
    ensures Logs(s)
  {
  }
}
