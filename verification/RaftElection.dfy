/** Election Safety: in every run at most one peer is ever leader of a term, although terms are raised
    without clearing the vote and refusals leave a raised term unsaved. */
module RaftElection {
  import opened RaftPeer
  import opened RaftCluster
  import opened Permutations

  // ---- each peer by itself ----

  /** The log saved at every change, and never a saved term above the current one. */
  ghost predicate Sound(p: Peer, i: nat, n: nat) {
    && Shaped(p) && p.me == i && p.peers == n
    && p.saved.log == p.log && p.saved.lastIncludedIndex == p.lastIncludedIndex && p.saved.lastIncludedTerm == p.lastIncludedTerm
    && p.saved.currentTerm <= p.currentTerm
    && (p.saved.currentTerm == p.currentTerm ==> p.votedFor == p.saved.votedFor)
  }

  ghost predicate AllSound(s: Cluster) {
    && |s.boots| == |s.peers|
    && forall i :: 0 <= i < |s.peers| ==> Sound(s.peers[i], i, |s.peers|)
  }

  lemma SoundAt(s: Cluster, i: nat)
    requires AllSound(s) && i < |s.peers|
    ensures Sound(s.peers[i], i, |s.peers|) && |s.boots| == |s.peers|
  {
  }

  lemma VoteSound(p: Peer, i: nat, n: nat, args: VoteArgs, reply: VoteReply)
    requires Sound(p, i, n)
    ensures Sound(Elect(p).0, i, n) && Sound(HandleVote(p, args).0, i, n)
    ensures Sound(HandleVoteReply(p, args, reply), i, n) && Sound(HandleRefusal(p, reply), i, n)
  {
  }

  lemma AppendSound(p: Peer, i: nat, n: nat, args: AppendArgs)
    requires Sound(p, i, n) && Reaches(p, args)
    ensures Sound(HandleAppend(p, args).0, i, n)
  {
  }

  lemma ReplySound(p: Peer, i: nat, n: nat, j: nat, args: AppendArgs, reply: AppendReply)
    requires Sound(p, i, n) && j < |p.nextIndex| && j < |p.matchIndex|
    ensures Sound(HandleAppendReply(p, j, args, reply), i, n)
  {
    hide CommitScan, BackUp;
  }

  lemma SnapshotSound(p: Peer, i: nat, n: nat, args: SnapshotArgs)
    requires Sound(p, i, n)
    ensures Sound(InstallSnapshot(p, args).0, i, n)
    ensures forall index, data :: p.lastIncludedIndex <= index < p.logLength ==> Sound(TakeSnapshot(p, index, data), i, n)
    ensures forall j: nat, term :: j < |p.nextIndex| ==> Sound(HandleSnapshotReply(p, j, args, term), i, n)
  {
  }

  lemma DoSound(s: Cluster, a: Action)
    requires AllSound(s) && Enabled(s, a)
    ensures AllSound(Do(s, a))
  {
    hide Do, Enabled, Sound;
    OneActor(s, a);
    ActorSound(s, a);
  }

  lemma ActorSound(s: Cluster, a: Action)
    requires AllSound(s) && Enabled(s, a)
    ensures Actor(s, a) < |Do(s, a).peers| && Sound(Do(s, a).peers[Actor(s, a)], Actor(s, a), |s.peers|)
  {
    hide HandleAppend, HandleAppendReply, HandleVote, HandleVoteReply, HandleRefusal, Elect, MakeAppend, Tally, Asks,
         InstallSnapshot, TakeSnapshot, HandleSnapshotReply, FullAfter, MakeSnap, AllSound;
    SoundAt(s, Actor(s, a));
    match a
    case DoElect(i) => VoteSound(s.peers[i], i, |s.peers|, VoteArgs(0, 0, 0, 0), VoteReply(0, false));
    case DeliverVote(ask) => VoteSound(s.peers[ask.voter], ask.voter, |s.peers|, s.ballots[ask].args, VoteReply(0, false));
    case CountVote(ask) => VoteSound(s.peers[ask.cand], ask.cand, |s.peers|, s.ballots[ask].args, s.ballots[ask].reply);
    case AdoptRefusal(ask) => VoteSound(s.peers[ask.cand], ask.cand, |s.peers|, s.ballots[ask].args, s.ballots[ask].reply);
    case DoSend(_, _) =>
    case DeliverAppend(idx) => AppendSound(s.peers[s.sent[idx].to], s.sent[idx].to, |s.peers|, s.sent[idx].args);
    case HandleReply(ack) => ReplySound(s.peers[ack.msg.from], ack.msg.from, |s.peers|, ack.msg.to, ack.msg.args, ack.reply);
    case ClientStart(_, _) =>
    case DoApply(_) =>
    case Crash(_) =>
    case DoSnapshot(i, _, _) => SnapshotSound(s.peers[i], i, |s.peers|, SnapshotArgs(0, 0, 0, 0, 0));
    case SendSnap(_, _) =>
    case DeliverSnap(idx) => SnapshotSound(s.peers[s.snaps[idx].to], s.snaps[idx].to, |s.peers|, s.snaps[idx].args);
    case HandleSnapReply(ack) => SnapshotSound(s.peers[ack.msg.from], ack.msg.from, |s.peers|, ack.msg.args);
  }

  // ---- voting ----

  /** A vote outlives crashes: the voter's saved term is the vote's or later, and while it is the
      vote's the saved choice is the vote's. */
  ghost predicate VotesKept(s: Cluster) {
    forall x :: x in s.hist.votes ==>
      && x.server < |s.peers|
      && x.term <= s.peers[x.server].saved.currentTerm
      && (x.term == s.peers[x.server].saved.currentTerm ==> s.peers[x.server].saved.votedFor == s.hist.votes[x].cand)
  }

  /** A candidate has voted for itself. */
  ghost predicate CandidaciesVoted(s: Cluster) {
    forall x :: x in s.hist.candidacies ==> x in s.hist.votes && s.hist.votes[x].cand == x.server
  }

  ghost predicate BallotOk(s: Cluster, ask: Ask, b: Ballot) {
    && ask.cand < |s.peers| && ask.voter < |s.peers| && ask.cand != ask.voter
    && At(ask.term, ask.cand) in s.hist.candidacies
    && b.args.term == ask.term && b.args.candidateId == ask.cand
    && (b.Counted? || (b.Answered? && b.reply.voteGranted) ==> HasVote(s, ask.term, ask.voter, ask.cand))
  }

  ghost predicate HasVote(s: Cluster, term: nat, voter: nat, cand: nat) {
    At(term, voter) in s.hist.votes && s.hist.votes[At(term, voter)].cand == cand
  }

  ghost predicate BallotsBacked(s: Cluster) {
    forall ask :: ask in s.ballots ==> BallotOk(s, ask, s.ballots[ask])
  }

  /** A candidate never counts more votes than it has collected from different peers. */
  ghost predicate TallyCounts(s: Cluster) {
    forall c :: 0 <= c < |s.peers| ==> TallyOk(s, c)
  }

  ghost predicate TallyOk(s: Cluster, c: nat)
    requires c < |s.peers|
  {
    At(s.peers[c].currentTerm, c) in s.hist.candidacies ==> s.peers[c].votes <= |Tally(s, c, s.peers[c].currentTerm)|
  }

  ghost predicate Elected(s: Cluster, term: nat, r: Reign) {
    && r.leader < |s.peers| && At(term, r.leader) in s.hist.candidacies
    && r.quorum <= Below(|s.peers|) && 2 * |r.quorum| > |s.peers|
    && forall v :: v in r.quorum ==> HasVote(s, term, v, r.leader)
  }

  ghost predicate ReignsElected(s: Cluster) {
    forall term :: term in s.hist.reigns ==> Elected(s, term, s.hist.reigns[term])
  }

  ghost predicate LeadersReign(s: Cluster) {
    forall i :: 0 <= i < |s.peers| && s.peers[i].role == Leader ==> Reigns(s, s.peers[i].currentTerm, i)
  }

  ghost predicate Reigns(s: Cluster, term: nat, i: nat) {
    term in s.hist.reigns && s.hist.reigns[term].leader == i
  }

  ghost predicate Voting(s: Cluster) {
    && VotesKept(s) && CandidaciesVoted(s) && BallotsBacked(s) && TallyCounts(s) && ReignsElected(s) && LeadersReign(s)
  }

  // ---- actions that do not vote ----

  /** A change of one peer that neither grants, nor counts, nor wins anything. */
  ghost predicate Quiet(p: Peer, q: Peer) {
    && p.saved.currentTerm <= q.saved.currentTerm
    && (p.saved.currentTerm == q.saved.currentTerm ==> p.saved.votedFor == q.saved.votedFor)
    && (q.currentTerm > p.currentTerm || q.votes == 0 || (q.currentTerm == p.currentTerm && q.votes <= p.votes))
    && (q.role == Leader ==> p.role == Leader && q.currentTerm == p.currentTerm)
  }

  /** The same elections have been held and won. */
  ghost predicate SameElections(h: History, h': History) {
    && h.votes == h'.votes && h.candidacies == h'.candidacies
    && h.reigns.Keys == h'.reigns.Keys
    && forall t :: t in h.reigns ==> h.reigns[t].leader == h'.reigns[t].leader && h.reigns[t].quorum == h'.reigns[t].quorum
  }

  lemma QuietVoting(s: Cluster, s': Cluster, i: nat)
    requires AllSound(s) && Voting(s) && i < |s.peers| == |s'.peers|
    requires s'.peers == s.peers[i := s'.peers[i]] && Quiet(s.peers[i], s'.peers[i])
    requires s'.ballots == s.ballots && SameElections(s.hist, s'.hist)
    ensures Voting(s')
  {
    forall c | 0 <= c < |s'.peers| ensures TallyOk(s', c) {
      assert TallyOk(s, c);
      assert Tally(s', c, s'.peers[c].currentTerm) == Tally(s, c, s'.peers[c].currentTerm);
      assert Sound(s.peers[c], c, |s.peers|);
    }
  }

  lemma AppendQuiet(p: Peer, args: AppendArgs)
    requires Shaped(p) && Reaches(p, args) && p.saved.currentTerm <= p.currentTerm
    requires p.saved.currentTerm == p.currentTerm ==> p.votedFor == p.saved.votedFor
    ensures Quiet(p, HandleAppend(p, args).0)
  {
  }

  lemma ReplyQuiet(p: Peer, j: nat, args: AppendArgs, reply: AppendReply)
    requires Shaped(p) && j < |p.nextIndex| && j < |p.matchIndex|
    requires p.saved.currentTerm <= p.currentTerm
    ensures Quiet(p, HandleAppendReply(p, j, args, reply))
  {
    hide CommitScan, BackUp;
  }

  /** Snapshots neither vote nor count; an install that raises the term clears the vote of the term left behind only. */
  lemma SnapshotQuiet(p: Peer, args: SnapshotArgs)
    requires Shaped(p) && p.saved.currentTerm <= p.currentTerm
    requires p.saved.currentTerm == p.currentTerm ==> p.votedFor == p.saved.votedFor
    ensures Quiet(p, InstallSnapshot(p, args).0)
    ensures forall index, data :: p.lastIncludedIndex <= index < p.logLength ==> Quiet(p, TakeSnapshot(p, index, data))
    ensures forall j: nat, term :: j < |p.nextIndex| ==> Quiet(p, HandleSnapshotReply(p, j, args, term))
  {
  }

  // ---- the voting actions ----

  /** Votes are added, never changed. */
  ghost predicate Grew(s: Cluster, s': Cluster) {
    && |s'.peers| == |s.peers|
    && (forall x :: x in s.hist.votes ==> x in s'.hist.votes && s'.hist.votes[x].cand == s.hist.votes[x].cand)
    && (forall x :: x in s.hist.candidacies ==> x in s'.hist.candidacies)
  }

  lemma BallotGrew(s: Cluster, s': Cluster, ask: Ask, b: Ballot)
    requires BallotOk(s, ask, b) && Grew(s, s')
    ensures BallotOk(s', ask, b)
  {
  }

  lemma ReignsGrew(s: Cluster, s': Cluster)
    requires ReignsElected(s) && Grew(s, s') && s'.hist.reigns == s.hist.reigns
    ensures ReignsElected(s')
  {
    forall t | t in s'.hist.reigns ensures Elected(s', t, s'.hist.reigns[t]) {
      assert Elected(s, t, s.hist.reigns[t]);
    }
  }

  lemma TallySame(s: Cluster, s': Cluster, c: nat, term: nat)
    requires |s'.peers| == |s.peers|
    requires forall v: nat :: v < |s.peers| ==>
      (Ask(c, v, term) in s.ballots && s.ballots[Ask(c, v, term)].Counted? <==>
       Ask(c, v, term) in s'.ballots && s'.ballots[Ask(c, v, term)].Counted?)
    ensures Tally(s', c, term) == Tally(s, c, term)
  {
  }

  /** A candidacy is new to its term. */
  lemma NewCandidacy(s: Cluster, i: nat)
    requires AllSound(s) && VotesKept(s) && CandidaciesVoted(s) && i < |s.peers|
    ensures forall t :: t > s.peers[i].currentTerm ==> At(t, i) !in s.hist.votes && At(t, i) !in s.hist.candidacies
  {
    assert Sound(s.peers[i], i, |s.peers|);
  }

  lemma ElectBallots(s: Cluster, i: nat)
    requires AllSound(s) && BallotsBacked(s) && Enabled(s, DoElect(i))
    requires At(s.peers[i].currentTerm + 1, i) !in s.hist.votes
    ensures BallotsBacked(AfterElect(s, i)) && Grew(s, AfterElect(s, i))
  {
    var s' := AfterElect(s, i);
    forall ask | ask in s'.ballots ensures BallotOk(s', ask, s'.ballots[ask]) {
      if ask in Asks(s, i, Elect(s.peers[i]).1) {
      } else {
        BallotGrew(s, s', ask, s.ballots[ask]);
      }
    }
  }

  lemma ElectTally(s: Cluster, i: nat, c: nat)
    requires AllSound(s) && TallyCounts(s) && Enabled(s, DoElect(i)) && c < |s.peers|
    ensures TallyOk(AfterElect(s, i), c)
  {
    var s' := AfterElect(s, i);
    assert TallyOk(s, c);
    var term := s'.peers[c].currentTerm;
    if c == i {
      SubsetCardinality({i}, Tally(s', i, term));
    } else {
      assert forall v: nat :: Ask(c, v, term) !in Asks(s, i, Elect(s.peers[i]).1);
      TallySame(s, s', c, term);
    }
  }

  lemma ElectVoting(s: Cluster, i: nat)
    requires AllSound(s) && Voting(s) && Enabled(s, DoElect(i))
    ensures Voting(AfterElect(s, i))
  {
    hide BallotsBacked, ReignsElected, TallyOk, Grew, VotesKept, CandidaciesVoted, LeadersReign, AfterElect;
    var s' := AfterElect(s, i);
    NewCandidacy(s, i);
    ElectBallots(s, i);
    ElectVotes(s, i);
    ReignsGrew(s, s');
    forall c | 0 <= c < |s'.peers| ensures TallyOk(s', c) {
      ElectTally(s, i, c);
    }
  }

  lemma ElectVotes(s: Cluster, i: nat)
    requires AllSound(s) && VotesKept(s) && CandidaciesVoted(s) && LeadersReign(s) && Enabled(s, DoElect(i))
    requires At(s.peers[i].currentTerm + 1, i) !in s.hist.votes
    ensures VotesKept(AfterElect(s, i)) && CandidaciesVoted(AfterElect(s, i)) && LeadersReign(AfterElect(s, i))
    ensures AfterElect(s, i).hist.reigns == s.hist.reigns && |AfterElect(s, i).peers| == |s.peers|
  {
    assert Sound(s.peers[i], i, |s.peers|);
  }

  /** What a vote request leaves saved: the vote if granted, nothing new if refused. */
  lemma VoteSaves(p: Peer, i: nat, n: nat, args: VoteArgs)
    requires Sound(p, i, n)
    ensures var (q, reply) := HandleVote(p, args);
      if reply.voteGranted then
        && q.saved.currentTerm == args.term && q.saved.votedFor == args.candidateId && p.saved.currentTerm <= args.term
        && (p.saved.currentTerm == args.term ==> p.saved.votedFor == -1 || p.saved.votedFor == args.candidateId)
      else q.saved == p.saved
  {
  }

  /** A vote is granted exactly to a candidate of a newer term, or of the present one if no other candidate has
      the vote, whose last entry is of a later term, or of the same term and no less far along. */
  lemma GrantedIff(p: Peer, args: VoteArgs)
    requires Shaped(p)
    ensures var (q, reply) := HandleVote(p, args);
      var last := p.log[|p.log| - 1].term;
      && (reply.voteGranted <==>
            && (p.currentTerm < args.term || (p.currentTerm == args.term && (p.votedFor == -1 || p.votedFor == args.candidateId)))
            && (last < args.lastLogTerm || (last == args.lastLogTerm && p.lastIncludedIndex + |p.log| <= args.lastLogIndex + 1)))
      && reply.term == p.currentTerm && q.currentTerm == Max(p.currentTerm, args.term)
      && (q.currentTerm > p.currentTerm ==> q.role == Follower) && (q.currentTerm == p.currentTerm ==> q.role == p.role)
      && q.votedFor == if reply.voteGranted then args.candidateId else if p.currentTerm < args.term then -1 else p.votedFor
  {
  }

  /** After a vote reply a peer leads exactly if the reply is of the term it is in and it led already or the reply makes its
      votes a true majority; only in the latter case it begins by knowing nothing of anyone. A reply of another term takes
      the office away. */
  lemma PromotedIffMajority(p: Peer, args: VoteArgs, reply: VoteReply)
    ensures var q := HandleVoteReply(p, args, reply);
      var counts := p.currentTerm == args.term && reply.voteGranted;
      var wins := counts && 2 * (p.votes + 1) > p.peers && p.votedFor == p.me;
      && (q.role == Leader <==> p.currentTerm == args.term && (p.role == Leader || wins))
      && (wins ==>
            && |q.nextIndex| == |q.matchIndex| == p.peers
            && forall i :: 0 <= i < p.peers ==> q.nextIndex[i] == p.logLength && q.matchIndex[i] == -1)
      && (!wins ==> q.nextIndex == p.nextIndex && q.matchIndex == p.matchIndex)
      && q.votes == (if counts then p.votes + 1 else p.votes)
      && q == p.(role := q.role, votes := q.votes, nextIndex := q.nextIndex, matchIndex := q.matchIndex)
  {
  }

  /** A peer that grants a vote has not voted for anyone else in that term, in this life or an earlier one. */
  lemma VoteGrew(s: Cluster, ask: Ask)
    requires AllSound(s) && VotesKept(s) && CandidaciesVoted(s) && Enabled(s, DeliverVote(ask)) && BallotOk(s, ask, s.ballots[ask])
    ensures Grew(s, AfterVote(s, ask)) && VotesKept(AfterVote(s, ask)) && CandidaciesVoted(AfterVote(s, ask))
    ensures BallotOk(AfterVote(s, ask), ask, AfterVote(s, ask).ballots[ask])
  {
    hide HandleVote, Sound, AllSound, AfterVote;
    SoundAt(s, ask.voter);
    VoteSaves(s.peers[ask.voter], ask.voter, |s.peers|, s.ballots[ask].args);
    VoteRecorded(s, ask);
  }

  lemma VoteRecorded(s: Cluster, ask: Ask)
    requires Enabled(s, DeliverVote(ask))
    ensures var (q, reply), s' := HandleVote(s.peers[ask.voter], s.ballots[ask].args), AfterVote(s, ask);
      var at := At(s.ballots[ask].args.term, ask.voter);
      && s'.peers == s.peers[ask.voter := q] && ask in s'.ballots && s'.hist.candidacies == s.hist.candidacies
      && s'.ballots[ask] == Answered(s.ballots[ask].args, s.ballots[ask].boot, reply)
      && if reply.voteGranted then at in s'.hist.votes && s'.hist.votes == s.hist.votes[at := s'.hist.votes[at]] && s'.hist.votes[at].cand == ask.cand
         else s'.hist.votes == s.hist.votes
  {
    hide HandleVote;
  }

  lemma VoteTally(s: Cluster, ask: Ask, c: nat)
    requires AllSound(s) && VotesKept(s) && CandidaciesVoted(s) && TallyCounts(s) && Enabled(s, DeliverVote(ask)) && c < |s.peers|
    ensures TallyOk(AfterVote(s, ask), c)
  {
    hide UpToDate;
    var s' := AfterVote(s, ask);
    assert TallyOk(s, c);
    TallySame(s, s', c, s'.peers[c].currentTerm);
    NewCandidacy(s, c);
  }

  lemma VoteLeaders(s: Cluster, ask: Ask)
    requires LeadersReign(s) && Enabled(s, DeliverVote(ask))
    ensures LeadersReign(AfterVote(s, ask)) && AfterVote(s, ask).hist.reigns == s.hist.reigns
    ensures |AfterVote(s, ask).peers| == |s.peers| && ask in AfterVote(s, ask).ballots
    ensures forall x :: x in AfterVote(s, ask).ballots && x != ask ==> x in s.ballots && AfterVote(s, ask).ballots[x] == s.ballots[x]
  {
  }

  lemma VoteVoting(s: Cluster, ask: Ask)
    requires AllSound(s) && Voting(s) && Enabled(s, DeliverVote(ask))
    ensures Voting(AfterVote(s, ask))
  {
    var s' := AfterVote(s, ask);
    hide BallotOk, ReignsElected, TallyOk, Grew, VotesKept, CandidaciesVoted, LeadersReign, AfterVote, AllSound;
    VoteGrew(s, ask);
    VoteLeaders(s, ask);
    ReignsGrew(s, s');
    forall x | x in s'.ballots ensures BallotOk(s', x, s'.ballots[x]) {
      if x != ask {
        BallotGrew(s, s', x, s.ballots[x]);
      }
    }
    forall c | 0 <= c < |s'.peers| ensures TallyOk(s', c) {
      VoteTally(s, ask, c);
    }
  }

  /** Any two majorities share a peer. */
  lemma QuorumsMeet(a: set<nat>, b: set<nat>, n: nat) returns (v: nat)
    requires a <= Below(n) && b <= Below(n) && 2 * |a| > n && 2 * |b| > n
    ensures v in a && v in b
  {
    if a * b == {} {
      assert |a + b| == |a| + |b|;
      BelowCardinality(n);
      SubsetCardinality(a + b, Below(n));
    }
    v :| v in a * b;
  }

  /** Everyone in the tally has voted for the candidate. */
  lemma TallyVoted(s: Cluster, c: nat, term: nat)
    requires CandidaciesVoted(s) && BallotsBacked(s) && c < |s.peers| && At(term, c) in s.hist.candidacies
    ensures Tally(s, c, term) <= Below(|s.peers|)
    ensures forall v :: v in Tally(s, c, term) ==> HasVote(s, term, v, c)
  {
    forall v | v in Tally(s, c, term) ensures v < |s.peers| && HasVote(s, term, v, c) {
      if v != c {
        assert BallotOk(s, Ask(c, v, term), s.ballots[Ask(c, v, term)]);
      }
    }
  }

  /** Two majorities of one term voted for the same candidate. */
  lemma OneWinner(s: Cluster, term: nat, c: nat, votes: set<nat>)
    requires ReignsElected(s) && term in s.hist.reigns
    requires votes <= Below(|s.peers|) && 2 * |votes| > |s.peers| && forall v :: v in votes ==> HasVote(s, term, v, c)
    ensures s.hist.reigns[term].leader == c
  {
    assert Elected(s, term, s.hist.reigns[term]);
    var v := QuorumsMeet(s.hist.reigns[term].quorum, votes, |s.peers|);
  }

  /** The state after a granted reply has been counted, before any crowning. */
  ghost function Count(s: Cluster, ask: Ask): Cluster
    requires Enabled(s, CountVote(ask))
  {
    var b := s.ballots[ask];
    Set(s, ask.cand, HandleVoteReply(s.peers[ask.cand], b.args, b.reply)).(ballots := s.ballots[ask := Counted(b.args)])
  }

  ghost predicate Counts(s: Cluster, ask: Ask) {
    && Enabled(s, CountVote(ask))
    && s.ballots[ask].reply.voteGranted && s.peers[ask.cand].currentTerm == s.ballots[ask].args.term
  }

  lemma CountTally(s: Cluster, ask: Ask, c: nat)
    requires AllSound(s) && TallyCounts(s) && Counts(s, ask) && c < |s.peers|
    requires BallotOk(s, ask, s.ballots[ask])
    ensures TallyOk(Count(s, ask), c)
    ensures c == ask.cand ==> s.peers[c].votes + 1 <= |Tally(Count(s, ask), c, ask.term)|
  {
    var s' := Count(s, ask);
    assert TallyOk(s, c);
    hide TallyCounts, AllSound;
    if c == ask.cand {
      assert Tally(s', c, ask.term) == Tally(s, c, ask.term) + {ask.voter};
      assert ask.voter !in Tally(s, c, ask.term);
    } else {
      TallySame(s, s', c, s'.peers[c].currentTerm);
    }
  }

  lemma CountBallots(s: Cluster, ask: Ask)
    requires AllSound(s) && Voting(s) && Counts(s, ask)
    ensures VotesKept(Count(s, ask)) && CandidaciesVoted(Count(s, ask)) && BallotsBacked(Count(s, ask)) && ReignsElected(Count(s, ask))
  {
    hide HandleVoteReply, AllSound, TallyCounts, ReignsElected, LeadersReign, BallotOk;
    var s' := Count(s, ask);
    ReplySaves(s.peers[ask.cand], s.ballots[ask].args, s.ballots[ask].reply);
    ReignsGrew(s, s');
    CountedOk(s, ask);
    forall x | x in s'.ballots ensures BallotOk(s', x, s'.ballots[x]) {
      if x != ask {
        BallotGrew(s, s', x, s.ballots[x]);
      }
    }
  }

  lemma ReplySaves(p: Peer, args: VoteArgs, reply: VoteReply)
    ensures HandleVoteReply(p, args, reply).saved == p.saved
  {
  }

  lemma CountedOk(s: Cluster, ask: Ask)
    requires BallotsBacked(s) && Counts(s, ask)
    ensures BallotOk(Count(s, ask), ask, Counted(s.ballots[ask].args))
  {
    assert BallotOk(s, ask, s.ballots[ask]);
  }

  /** A majority of counted votes. */
  lemma CountMajority(s: Cluster, ask: Ask)
    requires AllSound(s) && Voting(s) && Counts(s, ask)
    ensures var t, p := Count(s, ask), s.peers[ask.cand];
      && At(ask.term, ask.cand) in s.hist.candidacies && ask.cand < |s.peers|
      && Tally(t, ask.cand, ask.term) <= Below(|s.peers|)
      && (forall v :: v in Tally(t, ask.cand, ask.term) ==> HasVote(t, ask.term, v, ask.cand))
      && (p.votes + 1 > p.peers / 2 ==> 2 * |Tally(t, ask.cand, ask.term)| > |s.peers|)
  {
    hide Tally, TallyCounts, ReignsElected, LeadersReign;
    assert BallotOk(s, ask, s.ballots[ask]);
    CountBallots(s, ask);
    CountTally(s, ask, ask.cand);
    TallyVoted(Count(s, ask), ask.cand, ask.term);
    assert Sound(s.peers[ask.cand], ask.cand, |s.peers|);
  }

  lemma CountTallies(s: Cluster, ask: Ask)
    requires AllSound(s) && TallyCounts(s) && BallotsBacked(s) && Counts(s, ask)
    ensures TallyCounts(Count(s, ask))
  {
    hide AllSound, TallyOk, HandleVoteReply, TallyCounts, BallotsBacked;
    var t := Count(s, ask);
    BallotAt(s, ask);
    forall i | 0 <= i < |t.peers| ensures TallyOk(t, i) {
      CountTally(s, ask, i);
    }
    AllTallies(t);
  }

  lemma AllTallies(s: Cluster)
    requires forall c :: 0 <= c < |s.peers| ==> TallyOk(s, c)
    ensures TallyCounts(s)
  {
  }

  lemma BallotAt(s: Cluster, ask: Ask)
    requires BallotsBacked(s) && ask in s.ballots
    ensures BallotOk(s, ask, s.ballots[ask])
  {
  }

  /** Counting promotes at most the candidate. */
  lemma CountLeaders(s: Cluster, ask: Ask)
    requires LeadersReign(s) && Counts(s, ask)
    requires Count(s, ask).peers[ask.cand].role == Leader ==> Reigns(s, s.peers[ask.cand].currentTerm, ask.cand)
    ensures LeadersReign(Count(s, ask))
  {
  }

  lemma CountUncrowned(s: Cluster, ask: Ask)
    requires AllSound(s) && Voting(s) && Counts(s, ask) && AfterCount(s, ask) == Count(s, ask)
    ensures Voting(Count(s, ask))
  {
    hide Tally, TallyCounts, VotesKept, CandidaciesVoted, BallotsBacked, ReignsElected, LeadersReign, AllSound, Count;
    CountBallots(s, ask);
    CountTallies(s, ask);
    CountReigns(s, ask);
    CountLeaders(s, ask);
  }

  /** A majority that is not the first of its term is the reigning leader's. */
  lemma CountReigns(s: Cluster, ask: Ask)
    requires AllSound(s) && Voting(s) && Counts(s, ask) && AfterCount(s, ask) == Count(s, ask)
    ensures Count(s, ask).peers[ask.cand].role == Leader ==> Reigns(s, s.peers[ask.cand].currentTerm, ask.cand)
  {
    hide Tally, TallyCounts, VotesKept, CandidaciesVoted, BallotsBacked, ReignsElected, AllSound;
    var t, p := Count(s, ask), s.peers[ask.cand];
    CountMajority(s, ask);
    CountBallots(s, ask);
    BallotTerm(s, ask);
    if p.votes + 1 > p.peers / 2 && p.votedFor == p.me {
      OneWinner(t, ask.term, ask.cand, Tally(t, ask.cand, ask.term));
    }
  }

  lemma CountCrowned(s: Cluster, ask: Ask)
    requires AllSound(s) && Voting(s) && Counts(s, ask) && AfterCount(s, ask) != Count(s, ask)
    ensures Voting(AfterCount(s, ask))
  {
    var t, s' := Count(s, ask), AfterCount(s, ask);
    hide TallyOk, AllSound, Tally, VotesKept, CandidaciesVoted, BallotsBacked, ReignsElected, BallotOk;
    CountBallots(s, ask);
    CountMajority(s, ask);
    CrownElected(t, ask.cand, ask.term);
    CrownKeeps(t, ask.cand, ask.term);
    forall i | 0 <= i < |s'.peers| ensures TallyOk(s', i) {
      CrownTally(s, ask, i);
    }
    BallotTerm(s, ask);
    CrownLeaders(s, ask);
    assert s' == Crown(t, ask.cand, ask.term);
  }

  lemma BallotTerm(s: Cluster, ask: Ask)
    requires BallotsBacked(s) && ask in s.ballots
    ensures s.ballots[ask].args.term == ask.term
  {
    assert BallotOk(s, ask, s.ballots[ask]);
  }

  lemma CrownTally(s: Cluster, ask: Ask, i: nat)
    requires AllSound(s) && Voting(s) && Counts(s, ask) && i < |s.peers|
    ensures TallyOk(Crown(Count(s, ask), ask.cand, ask.term), i)
  {
    hide VotesKept, CandidaciesVoted, ReignsElected, LeadersReign, AllSound;
    var t := Count(s, ask);
    assert BallotOk(s, ask, s.ballots[ask]);
    hide BallotsBacked;
    CountTally(s, ask, i);
    TallySame(t, Crown(t, ask.cand, ask.term), i, t.peers[i].currentTerm);
  }

  lemma CrownLeaders(s: Cluster, ask: Ask)
    requires LeadersReign(s) && Counts(s, ask) && s.ballots[ask].args.term == ask.term
    requires ask.term !in s.hist.reigns
    ensures LeadersReign(Crown(Count(s, ask), ask.cand, ask.term))
  {
    hide Tally;
  }

  lemma CrownElected(t: Cluster, c: nat, term: nat)
    requires ReignsElected(t) && c < |t.peers| && At(term, c) in t.hist.candidacies
    requires Tally(t, c, term) <= Below(|t.peers|) && 2 * |Tally(t, c, term)| > |t.peers|
    requires forall v :: v in Tally(t, c, term) ==> HasVote(t, term, v, c)
    ensures ReignsElected(Crown(t, c, term))
  {
    hide Tally;
    var s' := Crown(t, c, term);
    forall x | x in s'.hist.reigns ensures Elected(s', x, s'.hist.reigns[x]) {
      if x != term {
        assert Elected(t, x, t.hist.reigns[x]);
      }
    }
  }

  lemma CrownKeeps(t: Cluster, c: nat, term: nat)
    requires VotesKept(t) && CandidaciesVoted(t) && BallotsBacked(t) && c < |t.peers|
    ensures VotesKept(Crown(t, c, term)) && CandidaciesVoted(Crown(t, c, term)) && BallotsBacked(Crown(t, c, term))
  {
    hide Tally;
    forall x | x in t.ballots ensures BallotOk(Crown(t, c, term), x, t.ballots[x]) {
      assert BallotOk(t, x, t.ballots[x]);
    }
  }

  lemma CountVoting(s: Cluster, ask: Ask)
    requires AllSound(s) && Voting(s) && Counts(s, ask)
    ensures Voting(AfterCount(s, ask))
  {
    if AfterCount(s, ask) == Count(s, ask) {
      CountUncrowned(s, ask);
    } else {
      CountCrowned(s, ask);
    }
  }

  // ---- every action, every run ----

  /** A reply that is stale or a refusal. */
  lemma UncountedVoting(s: Cluster, ask: Ask)
    requires AllSound(s) && Voting(s) && Enabled(s, CountVote(ask)) && !Counts(s, ask)
    ensures Voting(AfterCount(s, ask))
  {
    var b := s.ballots[ask];
    var t := Set(s, ask.cand, HandleVoteReply(s.peers[ask.cand], b.args, b.reply));
    QuietVoting(s, t, ask.cand);
    var s' := AfterCount(s, ask);
    if s' != t {
      DiscardVoting(t, ask);
    }
  }

  lemma DiscardVoting(t: Cluster, ask: Ask)
    requires Voting(t) && ask in t.ballots && t.ballots[ask].Answered?
    ensures Voting(t.(ballots := t.ballots[ask := Discarded(t.ballots[ask].args)]))
  {
    var s' := t.(ballots := t.ballots[ask := Discarded(t.ballots[ask].args)]);
    forall x | x in s'.ballots ensures BallotOk(s', x, s'.ballots[x]) {
      assert BallotOk(t, x, t.ballots[x]);
    }
    forall c | 0 <= c < |s'.peers| ensures TallyOk(s', c) {
      assert TallyOk(t, c);
      TallySame(t, s', c, s'.peers[c].currentTerm);
    }
    ReignsGrew(t, s');
  }

  /** The remaining actions change at most one peer, quietly. */
  lemma QuietPeer(s: Cluster, a: Action)
    requires AllSound(s) && Enabled(s, a) && !a.DoElect? && !a.DeliverVote? && !a.CountVote?
    ensures Quiet(s.peers[Actor(s, a)], Do(s, a).peers[Actor(s, a)])
  {
    hide HandleAppend, HandleAppendReply, AllSound, InstallSnapshot, TakeSnapshot, HandleSnapshotReply, FullAfter, MakeSnap;
    var i := Actor(s, a);
    SoundAt(s, i);
    var p := s.peers[i];
    match a
    case DeliverAppend(idx) => AppendQuiet(p, s.sent[idx].args);
    case HandleReply(ack) => ReplyQuiet(p, ack.msg.to, ack.msg.args, ack.reply);
    case DoSnapshot(_, _, _) => SnapshotQuiet(p, SnapshotArgs(0, 0, 0, 0, 0));
    case DeliverSnap(idx) => SnapshotQuiet(p, s.snaps[idx].args);
    case HandleSnapReply(ack) => SnapshotQuiet(p, ack.msg.args);
    case _ =>
  }

  lemma QuietHistory(s: Cluster, a: Action)
    requires Enabled(s, a) && !a.DoElect? && !a.DeliverVote? && !a.CountVote?
    ensures Do(s, a).ballots == s.ballots && SameElections(s.hist, Do(s, a).hist)
  {
    hide Do, Enabled;
    if a.ClientStart? {
      StartRecords(s, a.i, a.command);
    } else {
      HistoryKept(s, a);
    }
  }

  lemma StartRecords(s: Cluster, i: nat, command: Command)
    requires Enabled(s, ClientStart(i, command))
    ensures Do(s, ClientStart(i, command)).ballots == s.ballots && SameElections(s.hist, Do(s, ClientStart(i, command)).hist)
  {
    hide Start;
  }

  lemma QuietActions(s: Cluster, a: Action)
    requires AllSound(s) && Voting(s) && Enabled(s, a) && !a.DoElect? && !a.DeliverVote? && !a.CountVote?
    ensures Voting(Do(s, a))
  {
    hide Voting, AllSound, Do, Quiet, SameElections, Enabled;
    QuietPeer(s, a);
    QuietHistory(s, a);
    OneActor(s, a);
    QuietVoting(s, Do(s, a), Actor(s, a));
  }

  lemma DoVoting(s: Cluster, a: Action)
    requires AllSound(s) && Voting(s) && Enabled(s, a)
    ensures Voting(Do(s, a))
  {
    hide Voting, AllSound;
    match a
    case DoElect(i) => ElectVoting(s, i);
    case DeliverVote(ask) => VoteVoting(s, ask);
    case CountVote(ask) => if Counts(s, ask) { CountVoting(s, ask); } else { UncountedVoting(s, ask); }
    case _ => QuietActions(s, a);
  }

  lemma InitVoting(s: Cluster)
    requires Init(s)
    ensures AllSound(s) && Voting(s)
  {
  }
}
