/** Leader Completeness and State Machine Safety, for runs without snapshots in which no append with entries ends at or
    before what its follower has already acknowledged of that term. */
module RaftCommit {
  import opened RaftPeer
  import opened RaftCluster
  import opened RaftElection
  import opened RaftLogs
  import opened Permutations

  // ---- logs that have not been cut ----

  ghost predicate Flat(p: Peer, i: nat, n: nat) {
    Sound(p, i, n) && p.lastIncludedIndex == 0 && p.lastIncludedTerm == 0 && p.log[0] == ROOT
  }

  /** No peer has cut its log, so every log is its full log. */
  ghost predicate AllFlat(s: Cluster) {
    && |s.boots| == |s.peers|
    && forall i :: 0 <= i < |s.peers| ==> Flat(s.peers[i], i, |s.peers|) && FullLog(s, i) == s.peers[i].log
  }

  lemma FlatAt(s: Cluster, i: nat)
    requires AllFlat(s) && i < |s.peers|
    ensures Flat(s.peers[i], i, |s.peers|) && |s.boots| == |s.peers| && FullLog(s, i) == s.peers[i].log
  {
  }

  /** Not a snapshot, in any form. */
  predicate Uncut(a: Action) {
    !a.DoSnapshot? && !a.SendSnap? && !a.DeliverSnap? && !a.HandleSnapReply?
  }

  /** What an uncut peer appends, its full log appends. */
  lemma AppendFlat(p: Peer, i: nat, n: nat, args: AppendArgs)
    requires Flat(p, i, n) && Reaches(p, args)
    ensures Flat(HandleAppend(p, args).0, i, n) && FullAfter(p, args, p.log) == HandleAppend(p, args).0.log
  {
    hide FirstWithTerm;
    AppendSound(p, i, n, args);
    assert p.log[..|p.log|] == p.log;
  }

  lemma FlatActor(s: Cluster, a: Action)
    requires Enabled(s, a) && Uncut(a) && AllFlat(s) && AllSound(Do(s, a)) && |s.hist.full| == |s.peers|
    ensures var s', i := Do(s, a), Actor(s, a);
      Flat(s'.peers[i], i, |s.peers|) && FullLog(s', i) == s'.peers[i].log
  {
    hide HandleAppend, HandleAppendReply, HandleVote, HandleVoteReply, Elect, MakeAppend, Tally, Asks, FullAfter, MakeSnap, AllSound,
         AllFlat;
    var s', i := Do(s, a), Actor(s, a);
    FlatAt(s, i);
    SoundAt(s', i);
    var p := s.peers[i];
    match a
    case DoElect(_) =>
      VoteFlat(p, VoteArgs(0, 0, 0, 0), VoteReply(0, false));
    case DeliverVote(ask) => VoteFlat(p, s.ballots[ask].args, VoteReply(0, false));
    case CountVote(ask) => VoteFlat(p, s.ballots[ask].args, s.ballots[ask].reply);
    case DeliverAppend(idx) => AppendFlat(p, i, |s.peers|, s.sent[idx].args);
    case HandleReply(ack) => ReplyFlat(p, ack.msg.to, ack.msg.args, ack.reply);
    case _ =>
  }

  lemma VoteFlat(p: Peer, args: VoteArgs, reply: VoteReply)
    requires Shaped(p)
    ensures forall q :: q == Elect(p).0 || q == HandleVote(p, args).0 || q == HandleVoteReply(p, args, reply) ==>
      q.log == p.log && q.lastIncludedIndex == p.lastIncludedIndex && q.lastIncludedTerm == p.lastIncludedTerm
  {
  }

  lemma ReplyFlat(p: Peer, j: nat, args: AppendArgs, reply: AppendReply)
    requires Shaped(p) && j < |p.nextIndex| && j < |p.matchIndex|
    ensures var q := HandleAppendReply(p, j, args, reply);
      q.log == p.log && q.lastIncludedIndex == p.lastIncludedIndex && q.lastIncludedTerm == p.lastIncludedTerm
  {
    hide CommitScan, BackUp;
  }

  lemma FlatOthers(s: Cluster, a: Action)
    requires Enabled(s, a) && Uncut(a) && |s.hist.full| == |s.peers| == |s.boots|
    ensures var s', i := Do(s, a), Actor(s, a);
      forall j: nat :: j < |s.peers| && j != i ==> FullLog(s', j) == FullLog(s, j)
  {
    hide HandleAppend, HandleAppendReply, HandleVote, HandleVoteReply, Elect, MakeAppend, Tally, Asks, FullAfter, MakeSnap, Start,
         Restart, Apply, HandleRefusal;
  }

  /** Without snapshots no log is ever cut. */
  lemma DoFlat(s: Cluster, a: Action)
    requires AllSound(s) && AllFlat(s) && PeerLogs(s) && Enabled(s, a) && Uncut(a)
    ensures AllFlat(Do(s, a))
  {
    hide AllSound, PeerLogs, Do, Enabled, Uncut, Flat, FullLog;
    FullLength(s);
    DoSound(s, a);
    FlatActor(s, a);
    FlatOthers(s, a);
    OneActor(s, a);
    forall j | 0 <= j < |s.peers| && j != Actor(s, a)
      ensures Flat(Do(s, a).peers[j], j, |s.peers|) && FullLog(Do(s, a), j) == Do(s, a).peers[j].log
    {
      FlatAt(s, j);
    }
  }

  // ---- acknowledgements and majorities ----

  /** How far server v has acknowledged the log of the leader of `term`; -1 if not at all. */
  ghost function AckOf(s: Cluster, term: nat, v: nat): int {
    if At(term, v) in s.hist.acks then s.hist.acks[At(term, v)] else -1
  }

  /** Entry k was appended by the leader of `term` itself. */
  ghost predicate Own(s: Cluster, term: nat, k: nat) {
    term in s.hist.reigns && k < |s.hist.reigns[term].log| && s.hist.reigns[term].log[k].term == term
  }

  /** Everything up to entry k of the leader of `term`. */
  ghost function UpTo(s: Cluster, term: nat, k: nat): Log {
    if term in s.hist.reigns && k < |s.hist.reigns[term].log| then s.hist.reigns[term].log[..k + 1] else []
  }

  ghost function Holders(s: Cluster, term: nat, k: nat): set<nat> {
    set v | v in Below(|s.peers|) && AckOf(s, term, v) >= k
  }

  /** Servers that hold the entry, or could still acknowledge it. */
  ghost function Possible(s: Cluster, term: nat, k: nat): set<nat> {
    set v | v in Below(|s.peers|) && (AckOf(s, term, v) >= k || s.peers[v].saved.currentTerm <= term)
  }

  /** A majority holds the leader's own entry k: it is committed. */
  ghost predicate Chosen(s: Cluster, term: nat, k: nat) {
    Own(s, term, k) && 2 * |Holders(s, term, k)| > |s.peers|
  }

  /** The entry is committed or may still become so. */
  ghost predicate Choosable(s: Cluster, term: nat, k: nat) {
    Own(s, term, k) && 2 * |Possible(s, term, k)| > |s.peers|
  }

  lemma ChosenIsChoosable(s: Cluster, term: nat, k: nat)
    requires Chosen(s, term, k)
    ensures Choosable(s, term, k)
  {
    assert Holders(s, term, k) <= Possible(s, term, k);
    SubsetCardinality(Holders(s, term, k), Possible(s, term, k));
  }

  // ---- the invariant: what may be committed survives ----

  ghost predicate AckOk(s: Cluster, x: At) {
    && x in s.hist.acks && x.server < |s.peers| && x.term in s.hist.reigns
    && 0 <= s.hist.acks[x] < |s.hist.reigns[x.term].log|
    && (forall k: nat :: k <= s.hist.acks[x] && Own(s, x.term, k) ==> x.term <= s.peers[x.server].saved.currentTerm)
    && (x.server == s.hist.reigns[x.term].leader ==> s.hist.acks[x] == |s.hist.reigns[x.term].log| - 1)
  }

  ghost predicate Acks(s: Cluster) {
    && (forall x :: x in s.hist.acks ==> AckOk(s, x))
    && (forall t :: t in s.hist.reigns ==> At(t, s.hist.reigns[t].leader) in s.hist.acks)
  }

  /** A server keeps what it acknowledged as long as it may be committed. */
  ghost predicate Retains(s: Cluster, v: nat)
    requires v < |s.peers|
  {
    forall t: nat, k: nat :: k <= AckOf(s, t, v) && Choosable(s, t, k) ==> UpTo(s, t, k) <= s.peers[v].log
  }

  ghost predicate Retention(s: Cluster) {
    forall v :: 0 <= v < |s.peers| ==> Retains(s, v)
  }

  /** A later leader starts with everything that may be committed in an earlier term. */
  ghost predicate Inherits(s: Cluster, t: nat, t': nat) {
    t < t' && t in s.hist.reigns && t' in s.hist.reigns ==>
      forall k: nat :: Choosable(s, t, k) ==> UpTo(s, t, k) <= s.hist.reigns[t'].init
  }

  ghost predicate Inheritance(s: Cluster) {
    forall t: nat, t': nat :: Inherits(s, t, t')
  }

  /** The last entry decides which log is more up to date. */
  ghost predicate AtLeast(a: Log, b: Log) {
    && a != [] && b != []
    && (a[|a| - 1].term > b[|b| - 1].term || (a[|a| - 1].term == b[|b| - 1].term && |a| >= |b|))
  }

  /** The voter's log held what it had acknowledged, and the candidate's log was at least as up to date. */
  ghost predicate VoteWise(s: Cluster, x: At) {
    && x in s.hist.votes
    && At(x.term, s.hist.votes[x].cand) in s.hist.candidacies
    && AtLeast(s.hist.candidacies[At(x.term, s.hist.votes[x].cand)], s.hist.votes[x].log)
    && forall t: nat, k: nat :: t < x.term && k <= AckOf(s, t, x.server) && Choosable(s, t, k) ==>
         UpTo(s, t, k) <= s.hist.votes[x].log
  }

  ghost predicate VotesWise(s: Cluster) {
    forall x :: x in s.hist.votes ==> VoteWise(s, x)
  }

  /** A request describes the candidate's log truthfully. */
  ghost predicate AskTrue(s: Cluster, ask: Ask) {
    && ask in s.ballots && At(ask.term, ask.cand) in s.hist.candidacies
    && var log, args := s.hist.candidacies[At(ask.term, ask.cand)], s.ballots[ask].args;
       log != [] && args.lastLogIndex == |log| - 1 && args.lastLogTerm == log[|log| - 1].term
  }

  ghost predicate AsksTrue(s: Cluster) {
    forall ask :: ask in s.ballots ==> AskTrue(s, ask)
  }

  /** Where the log ended when the message was sent. */
  function EndOf(args: AppendArgs): int {
    args.prevLogIndex + 1 + |args.entries|
  }

  /** The message is not stale, carries entries, and ends at or before what its receiver has acknowledged of its term. */
  ghost predicate Overtaken(s: Cluster, msg: AppendMsg) {
    && msg.to < |s.peers| && s.peers[msg.to].currentTerm <= msg.args.term && msg.args.entries != []
    && EndOf(msg.args) <= AckOf(s, msg.args.term, msg.to)
  }

  /** No overtaken message is delivered. */
  ghost predicate Ahead(s: Cluster, a: Action) {
    a.DeliverAppend? && a.idx < |s.sent| ==> !Overtaken(s, s.sent[a.idx])
  }

  ghost predicate Surviving(s: Cluster) {
    Acks(s) && Retention(s) && Inheritance(s) && VotesWise(s) && AsksTrue(s)
  }

  /** All the invariants so far. */
  ghost predicate Solid(s: Cluster) {
    AllSound(s) && AllFlat(s) && Voting(s) && Logs(s)
  }

  // ---- what may be committed only shrinks ----

  /** A step that adds no possibility: saved terms grow, and only servers that could still
      acknowledge an entry do so. */
  ghost predicate Narrows(s: Cluster, s': Cluster) {
    && |s'.peers| == |s.peers| && Extends(s.hist.reigns, s'.hist.reigns)
    && (forall v :: 0 <= v < |s.peers| ==> s.peers[v].saved.currentTerm <= s'.peers[v].saved.currentTerm)
    && (forall t: nat, v: nat :: t in s.hist.reigns && v < |s.peers| && AckOf(s', t, v) > AckOf(s, t, v) ==>
          s.peers[v].saved.currentTerm <= t || AckOf(s, t, v) == |s.hist.reigns[t].log| - 1)
  }

  lemma OwnExtends(s: Cluster, s': Cluster, t: nat, k: nat)
    requires Extends(s.hist.reigns, s'.hist.reigns) && t in s.hist.reigns && k < |s.hist.reigns[t].log|
    ensures Own(s', t, k) <==> Own(s, t, k)
    ensures t in s'.hist.reigns && k < |s'.hist.reigns[t].log| && UpTo(s', t, k) == UpTo(s, t, k)
  {
  }

  lemma ChoosableNarrows(s: Cluster, s': Cluster, t: nat, k: nat)
    requires Narrows(s, s') && t in s.hist.reigns && k < |s.hist.reigns[t].log| && Choosable(s', t, k)
    ensures Choosable(s, t, k) && UpTo(s', t, k) == UpTo(s, t, k)
  {
    hide Extends;
    OwnExtends(s, s', t, k);
    assert Possible(s', t, k) <= Possible(s, t, k);
    SubsetCardinality(Possible(s', t, k), Possible(s, t, k));
  }

  lemma ChosenGrows(s: Cluster, s': Cluster, t: nat, k: nat)
    requires |s'.peers| == |s.peers| && Extends(s.hist.reigns, s'.hist.reigns) && Chosen(s, t, k)
    requires forall v: nat :: v < |s.peers| ==> AckOf(s, t, v) <= AckOf(s', t, v)
    ensures Chosen(s', t, k) && UpTo(s', t, k) == UpTo(s, t, k)
  {
    hide Extends;
    OwnExtends(s, s', t, k);
    assert Holders(s, t, k) <= Holders(s', t, k);
    SubsetCardinality(Holders(s, t, k), Holders(s', t, k));
  }

  // ---- a new leader has everything that may be committed ----

  /** A leader's own entries lie behind the log it started from. */
  lemma OwnIsNew(s: Cluster, t: nat, k: nat)
    requires ReignLogs(s) && Own(s, t, k)
    ensures 0 < |s.hist.reigns[t].init| <= k && t > 0
  {
    ReignAt(s, t);
    assert s.hist.reigns[t].init[0].term < t;
  }

  /** A log lies on the log of the leader of its last term, ending among that leader's own entries. */
  lemma LastReign(s: Cluster, log: Log)
    requires ReignLogs(s) && Rooted(s.hist.reigns, log) && |log| > 1
    ensures var t := log[|log| - 1].term;
      t in s.hist.reigns && log <= s.hist.reigns[t].log && |s.hist.reigns[t].init| < |log|
  {
    var n := |log| - 1;
    assert RootedAt(s.hist.reigns, log, n);
    assert log[..n + 1] == log;
    ReignAt(s, log[n].term);
  }

  /** If the voter's log has an entry that may be committed, so has any log at least as up to date. */
  lemma UpToDateHas(s: Cluster, cand: Log, voter: Log, term: nat, t: nat, k: nat)
    requires ReignLogs(s) && Inheritance(s) && Rooted(s.hist.reigns, cand) && Rooted(s.hist.reigns, voter)
    requires TermsUpTo(cand, term - 1) && AtLeast(cand, voter)
    requires t < term && Choosable(s, t, k) && UpTo(s, t, k) <= voter
    ensures UpTo(s, t, k) <= cand
  {
    hide Rooted, Possible, ReignLogs;
    OwnIsNew(s, t, k);
    LastReign(s, voter);
    var tv, tc := voter[|voter| - 1].term, cand[|cand| - 1].term;
    ReignAt(s, tv);
    assert voter[k].term == t;
    assert t <= tv;
    RootedNonTrivial(s, cand);
    LastReign(s, cand);
    if tc == t {
      assert cand == s.hist.reigns[t].log[..|cand|];
    } else {
      ReignAt(s, tc);
      assert Inherits(s, t, tc);
    }
  }

  /** Only the root has term 0. */
  lemma RootedNonTrivial(s: Cluster, log: Log)
    requires Rooted(s.hist.reigns, log) && log[|log| - 1].term > 0
    ensures |log| > 1
  {
    assert RootedAt(s.hist.reigns, log, 0);
  }

  // ---- actions that change neither logs nor acknowledgements ----

  /** Logs, reigns and acknowledgements as before; saved terms may have grown, votes been added. */
  ghost predicate Still(s: Cluster, s': Cluster) {
    && |s'.peers| == |s.peers|
    && s'.hist.acks == s.hist.acks && s'.hist.reigns == s.hist.reigns && s'.hist.cursor == s.hist.cursor
    && (forall v :: 0 <= v < |s.peers| ==>
          s'.peers[v].log == s.peers[v].log && s.peers[v].saved.currentTerm <= s'.peers[v].saved.currentTerm)
    && (forall x :: x in s.hist.candidacies ==> x in s'.hist.candidacies && s'.hist.candidacies[x] == s.hist.candidacies[x])
  }

  lemma StillChoosable(s: Cluster, s': Cluster, t: nat, k: nat)
    requires Still(s, s') && Choosable(s', t, k)
    ensures Choosable(s, t, k) && UpTo(s', t, k) == UpTo(s, t, k)
  {
    ChoosableNarrows(s, s', t, k);
  }

  lemma StillAcks(s: Cluster, s': Cluster)
    requires Still(s, s') && Acks(s)
    ensures Acks(s')
  {
    forall x | x in s'.hist.acks ensures AckOk(s', x) {
      assert AckOk(s, x);
      forall k: nat | k <= s'.hist.acks[x] && Own(s', x.term, k) ensures x.term <= s'.peers[x.server].saved.currentTerm {
        assert Own(s, x.term, k);
      }
    }
  }

  lemma StillRetention(s: Cluster, s': Cluster)
    requires Still(s, s') && Retention(s) && Inheritance(s)
    ensures Retention(s') && Inheritance(s')
  {
    hide Choosable;
    forall v | 0 <= v < |s'.peers| ensures Retains(s', v) {
      assert Retains(s, v);
      forall t: nat, k: nat | k <= AckOf(s', t, v) && Choosable(s', t, k) ensures UpTo(s', t, k) <= s'.peers[v].log {
        StillChoosable(s, s', t, k);
      }
    }
    forall t: nat, t': nat ensures Inherits(s', t, t') {
      assert Inherits(s, t, t');
      forall k: nat | t < t' && t in s'.hist.reigns && t' in s'.hist.reigns && Choosable(s', t, k)
        ensures UpTo(s', t, k) <= s'.hist.reigns[t'].init
      {
        StillChoosable(s, s', t, k);
      }
    }
  }

  lemma StillVote(s: Cluster, s': Cluster, x: At)
    requires Still(s, s') && VoteWise(s, x) && x in s'.hist.votes && s'.hist.votes[x] == s.hist.votes[x]
    ensures VoteWise(s', x)
  {
    hide Choosable;
    forall t: nat, k: nat | t < x.term && k <= AckOf(s', t, x.server) && Choosable(s', t, k)
      ensures UpTo(s', t, k) <= s'.hist.votes[x].log
    {
      StillChoosable(s, s', t, k);
    }
  }

  lemma StillSurviving(s: Cluster, s': Cluster)
    requires Surviving(s) && Still(s, s') && AsksTrue(s')
    requires forall x :: x in s'.hist.votes ==> (x in s.hist.votes && s'.hist.votes[x] == s.hist.votes[x]) || VoteWise(s', x)
    ensures Surviving(s')
  {
    hide Still, Acks, Retention, Inheritance, AsksTrue, VoteWise;
    StillAcks(s, s');
    StillRetention(s, s');
    forall x | x in s'.hist.votes ensures VoteWise(s', x) {
      if x in s.hist.votes && s'.hist.votes[x] == s.hist.votes[x] {
        StillVote(s, s', x);
      }
    }
  }

  /** A voter's log holds, when it votes, what it has acknowledged in earlier terms. */
  lemma NewVoteWise(s: Cluster, s': Cluster, x: At)
    requires Still(s, s') && Retention(s) && x.server < |s.peers| && x in s'.hist.votes
    requires s'.hist.votes[x].log == s.peers[x.server].log
    requires At(x.term, s'.hist.votes[x].cand) in s'.hist.candidacies
    requires AtLeast(s'.hist.candidacies[At(x.term, s'.hist.votes[x].cand)], s'.hist.votes[x].log)
    ensures VoteWise(s', x)
  {
    hide Choosable;
    assert Retains(s, x.server);
    forall t: nat, k: nat | t < x.term && k <= AckOf(s', t, x.server) && Choosable(s', t, k)
      ensures UpTo(s', t, k) <= s'.hist.votes[x].log
    {
      StillChoosable(s, s', t, k);
    }
  }

  lemma ElectStill(s: Cluster, i: nat)
    requires AllFlat(s) && AsksTrue(s) && Enabled(s, DoElect(i)) && At(s.peers[i].currentTerm + 1, i) !in s.hist.candidacies
    ensures Still(s, AfterElect(s, i)) && AsksTrue(AfterElect(s, i))
  {
    var s' := AfterElect(s, i);
    FlatAt(s, i);
    forall ask | ask in s'.ballots ensures AskTrue(s', ask) {
      if ask !in Asks(s, i, Elect(s.peers[i]).1) {
        assert AskTrue(s, ask);
      }
    }
  }

  lemma ElectSurviving(s: Cluster, i: nat)
    requires Solid(s) && Surviving(s) && Enabled(s, DoElect(i))
    ensures Surviving(AfterElect(s, i))
  {
    hide AllSound, AllFlat, VotesKept, CandidaciesVoted, BallotsBacked, TallyCounts, ReignsElected, LeadersReign, Logs,
         Acks, Retention, Inheritance, VotesWise, AsksTrue, Still, VoteWise, Asks;
    var s' := AfterElect(s, i);
    NewCandidacy(s, i);
    ElectStill(s, i);
    FlatAt(s, i);
    NewVoteWise(s, s', At(s.peers[i].currentTerm + 1, i));
    StillSurviving(s, s');
  }

  lemma VoteStill(s: Cluster, ask: Ask)
    requires AllFlat(s) && AsksTrue(s) && Enabled(s, DeliverVote(ask))
    ensures Still(s, AfterVote(s, ask)) && AsksTrue(AfterVote(s, ask))
  {
    hide HandleVote, AllSound, AllFlat;
    var s', p := AfterVote(s, ask), s.peers[ask.voter];
    FlatAt(s, ask.voter);
    VoteKeepsLog(p, s.ballots[ask].args);
    VoteSaves(p, ask.voter, |s.peers|, s.ballots[ask].args);
    forall x | x in s'.ballots ensures AskTrue(s', x) {
      assert AskTrue(s, x);
    }
  }

  /** A vote is granted only to a log at least as up to date. */
  lemma GrantAtLeast(s: Cluster, ask: Ask)
    requires AllFlat(s) && AskTrue(s, ask) && Enabled(s, DeliverVote(ask))
    requires HandleVote(s.peers[ask.voter], s.ballots[ask].args).1.voteGranted
    ensures AtLeast(s.hist.candidacies[At(ask.term, ask.cand)], s.peers[ask.voter].log)
  {
    FlatAt(s, ask.voter);
  }

  lemma VoteSurviving(s: Cluster, ask: Ask)
    requires Solid(s) && Surviving(s) && Enabled(s, DeliverVote(ask))
    ensures Surviving(AfterVote(s, ask))
  {
    hide AllSound, AllFlat, VotesKept, CandidaciesVoted, TallyCounts, ReignsElected, LeadersReign, Logs,
         Acks, Retention, Inheritance, VotesWise, Still, VoteWise, HandleVote, AtLeast;
    var s' := AfterVote(s, ask);
    VoteStill(s, ask);
    assert BallotOk(s, ask, s.ballots[ask]) && AskTrue(s, ask);
    FlatAt(s, ask.voter);
    if HandleVote(s.peers[ask.voter], s.ballots[ask].args).1.voteGranted {
      GrantAtLeast(s, ask);
      NewVoteWise(s, s', At(ask.term, ask.voter));
    }
    StillSurviving(s, s');
  }

  // ---- a new reign ----

  /** Server c becomes the first leader of `term`; nothing else that matters here changes. */
  ghost predicate Crowning(s: Cluster, s': Cluster, c: nat, term: nat) {
    && c < |s.peers| == |s'.peers| && term !in s.hist.reigns && s'.sent == s.sent
    && term in s'.hist.reigns && At(term, c) in s.hist.candidacies
    && s.peers[c].log == s.hist.candidacies[At(term, c)]
    && (var r := s'.hist.reigns[term];
        && r.leader == c && r.init == r.log == s.peers[c].log && Elected(s, term, r)
        && s'.hist.reigns == s.hist.reigns[term := r] && s'.hist.acks == s.hist.acks[At(term, c) := |r.log| - 1])
    && s'.hist.cursor == s.hist.cursor && s'.hist.votes == s.hist.votes && s'.hist.candidacies == s.hist.candidacies
    && (forall v :: 0 <= v < |s.peers| ==>
          s'.peers[v].log == s.peers[v].log && s'.peers[v].saved.currentTerm == s.peers[v].saved.currentTerm)
    && (forall ask :: ask in s'.ballots ==> ask in s.ballots && s'.ballots[ask].args == s.ballots[ask].args)
  }

  /** A fresh leader has no entries of its own. */
  lemma NoOwnYet(s: Cluster, s': Cluster, c: nat, term: nat, k: nat)
    requires Crowning(s, s', c, term) && CandidateLogs(s)
    ensures !Own(s', term, k)
  {
    hide Rooted;
  }

  lemma CrownOld(s: Cluster, s': Cluster, c: nat, term: nat, t: nat, k: nat)
    requires Crowning(s, s', c, term) && CandidateLogs(s) && Choosable(s', t, k)
    ensures t != term && Choosable(s, t, k) && UpTo(s', t, k) == UpTo(s, t, k)
    ensures forall v: nat :: AckOf(s', t, v) == AckOf(s, t, v)
  {
    hide CandidateLogs, Possible;
    NoOwnYet(s, s', c, term, k);
    assert forall v: nat :: AckOf(s', t, v) == AckOf(s, t, v);
    CrownNarrows(s, s', c, term);
    ChoosableNarrows(s, s', t, k);
  }

  lemma CrownNarrows(s: Cluster, s': Cluster, c: nat, term: nat)
    requires Crowning(s, s', c, term)
    ensures Narrows(s, s')
  {
  }

  lemma CrownAcks(s: Cluster, s': Cluster, c: nat, term: nat)
    requires Crowning(s, s', c, term) && CandidateLogs(s) && Acks(s)
    ensures Acks(s')
  {
    hide RootedAt;
    forall x | x in s'.hist.acks ensures AckOk(s', x) {
      if x == At(term, c) {
        forall k: nat ensures !Own(s', term, k) {
          NoOwnYet(s, s', c, term, k);
        }
        assert s.peers[c].log != [];
      } else {
        assert AckOk(s, x);
        forall k: nat | Own(s', x.term, k) ensures Own(s, x.term, k) {
        }
      }
    }
  }

  /** The new leader's log has every entry of an earlier term that may be committed. */
  lemma CrownInherits(s: Cluster, s': Cluster, c: nat, term: nat, t: nat, k: nat)
    requires Solid(s) && Surviving(s) && Crowning(s, s', c, term) && t < term && Choosable(s, t, k)
    ensures UpTo(s, t, k) <= s.peers[c].log
  {
    hide AllSound, AllFlat, CandidaciesVoted, BallotsBacked, TallyCounts, ReignsElected, LeadersReign, PeerLogs, ReignLogs, Messages,
         Acks, Retention, Inheritance, AsksTrue, Rooted, AtLeast;
    var v := QuorumsMeet(Possible(s, t, k), s'.hist.reigns[term].quorum, |s.peers|);
    var x := At(term, v);
    assert HasVote(s, term, v, c);
    assert VoteWise(s, x);
    UpToDateHas(s, s.peers[c].log, s.hist.votes[x].log, term, t, k);
  }

  lemma CrownRetention(s: Cluster, s': Cluster, c: nat, term: nat)
    requires Crowning(s, s', c, term) && CandidateLogs(s) && Retention(s) && VotesWise(s)
    ensures Retention(s') && VotesWise(s')
  {
    hide CandidateLogs, Choosable, UpTo;
    forall v | 0 <= v < |s'.peers| ensures Retains(s', v) {
      assert Retains(s, v);
      forall t: nat, k: nat | k <= AckOf(s', t, v) && Choosable(s', t, k) ensures UpTo(s', t, k) <= s'.peers[v].log {
        CrownOld(s, s', c, term, t, k);
      }
    }
    forall x | x in s'.hist.votes ensures VoteWise(s', x) {
      assert VoteWise(s, x);
      forall t: nat, k: nat | t < x.term && k <= AckOf(s', t, x.server) && Choosable(s', t, k)
        ensures UpTo(s', t, k) <= s'.hist.votes[x].log
      {
        CrownOld(s, s', c, term, t, k);
      }
    }
  }

  lemma CrownInheritance(s: Cluster, s': Cluster, c: nat, term: nat)
    requires Solid(s) && Surviving(s) && Crowning(s, s', c, term)
    ensures Inheritance(s')
  {
    hide Solid, Acks, Retention, VotesWise, AsksTrue, Choosable, UpTo;
    forall t: nat, t': nat ensures Inherits(s', t, t') {
      assert Inherits(s, t, t');
      forall k: nat | t < t' && t in s'.hist.reigns && t' in s'.hist.reigns && Choosable(s', t, k)
        ensures UpTo(s', t, k) <= s'.hist.reigns[t'].init
      {
        SolidParts(s);
        CrownOld(s, s', c, term, t, k);
        if t' == term {
          CrownInherits(s, s', c, term, t, k);
        }
      }
    }
  }

  lemma SolidParts(s: Cluster)
    requires Solid(s)
    ensures AllSound(s) && Voting(s) && Logs(s) && CandidateLogs(s) && ReignLogs(s) && Messages(s) && PeerLogs(s)
  {
  }

  lemma CrownAsks(s: Cluster, s': Cluster, c: nat, term: nat)
    requires Crowning(s, s', c, term) && AsksTrue(s)
    ensures AsksTrue(s')
  {
    forall ask | ask in s'.ballots ensures AskTrue(s', ask) {
      assert AskTrue(s, ask);
    }
  }

  lemma CrownSurviving(s: Cluster, s': Cluster, c: nat, term: nat)
    requires Solid(s) && Surviving(s) && Crowning(s, s', c, term)
    ensures Surviving(s')
  {
    hide Solid, Acks, Retention, Inheritance, VotesWise, AsksTrue, Crowning;
    SolidParts(s);
    CrownAcks(s, s', c, term);
    CrownRetention(s, s', c, term);
    CrownInheritance(s, s', c, term);
    CrownAsks(s, s', c, term);
  }

  lemma CountCrowning(s: Cluster, ask: Ask)
    requires Solid(s) && Enabled(s, CountVote(ask)) && AfterCount(s, ask).hist != s.hist
    ensures Crowning(s, AfterCount(s, ask), ask.cand, ask.term)
  {
    hide AllSound, AllFlat, VotesKept, CandidaciesVoted, TallyCounts, LeadersReign, ReignsElected, Logs, Tally;
    var s', c := AfterCount(s, ask), ask.cand;
    DoVoting(s, CountVote(ask));
    assert BallotOk(s, ask, s.ballots[ask]);
    SolidParts(s);
    CandidateLog(s, c, ask.term);
    FlatAt(s, c);
    ElectedIn(s', ask.term);
    assert Elected(s, ask.term, s'.hist.reigns[ask.term]);
  }

  lemma ElectedIn(s: Cluster, term: nat)
    requires ReignsElected(s) && term in s.hist.reigns
    ensures Elected(s, term, s.hist.reigns[term])
  {
  }

  lemma CountStill(s: Cluster, ask: Ask)
    requires AllFlat(s) && AsksTrue(s) && Enabled(s, CountVote(ask)) && AfterCount(s, ask).hist == s.hist
    ensures Still(s, AfterCount(s, ask)) && AsksTrue(AfterCount(s, ask)) && AfterCount(s, ask).sent == s.sent
  {
    hide Tally;
    var s' := AfterCount(s, ask);
    forall x | x in s'.ballots ensures AskTrue(s', x) {
      assert AskTrue(s, x);
    }
  }

  lemma CountSurviving(s: Cluster, ask: Ask)
    requires Solid(s) && Surviving(s) && Enabled(s, CountVote(ask))
    ensures Surviving(AfterCount(s, ask))
  {
    hide AllSound, AllFlat, Voting, Logs, Acks, Retention, Inheritance, VotesWise, AsksTrue, Crowning, Still, AfterCount, VoteWise;
    if AfterCount(s, ask).hist == s.hist {
      CountStill(s, ask);
      StillSurviving(s, AfterCount(s, ask));
    } else {
      CountCrowning(s, ask);
      CrownSurviving(s, AfterCount(s, ask), ask.cand, ask.term);
    }
  }

  // ---- sending ----

  lemma SendSurviving(s: Cluster, i: nat, j: nat)
    requires Solid(s) && Surviving(s) && Enabled(s, DoSend(i, j))
    ensures Surviving(AfterSend(s, i, j))
  {
    hide Solid, MakeAppend, Acks, Retention, Inheritance, VoteWise, AsksTrue;
    SameAsks(s, AfterSend(s, i, j));
    StillSurviving(s, AfterSend(s, i, j));
  }

  lemma SameAsks(s: Cluster, s': Cluster)
    requires AsksTrue(s) && s'.ballots == s.ballots && s'.hist.candidacies == s.hist.candidacies
    ensures AsksTrue(s')
  {
    forall ask | ask in s'.ballots ensures AskTrue(s', ask) {
      assert AskTrue(s, ask);
    }
  }

  // ---- replies, applying, restarting ----

  lemma KeptStill(s: Cluster, a: Action)
    requires AllFlat(s) && AsksTrue(s) && Enabled(s, a)
    requires a.AdoptRefusal? || a.HandleReply? || a.DoApply? || a.Crash?
    ensures Still(s, Do(s, a)) && AsksTrue(Do(s, a)) && Do(s, a).sent == s.sent && Do(s, a).hist.votes == s.hist.votes
  {
    hide HandleAppendReply, AllSound, AllFlat, AsksTrue, AskTrue, AfterAppend, AfterCount, AfterElect, AfterSend, AfterStart, AfterVote;
    var i := if a.AdoptRefusal? then a.ask.cand else if a.HandleReply? then a.ack.msg.from else a.i;
    FlatAt(s, i);
    if a.HandleReply? {
      ReplyKept(s.peers[i], a.ack.msg.to, a.ack.msg.args, a.ack.reply);
    }
    SameAsks(s, Do(s, a));
  }

  lemma KeptSurviving(s: Cluster, a: Action)
    requires Solid(s) && Surviving(s) && Enabled(s, a)
    requires a.AdoptRefusal? || a.HandleReply? || a.DoApply? || a.Crash?
    ensures Surviving(Do(s, a))
  {
    hide AllSound, AllFlat, Voting, Logs, Acks, Retention, Inheritance, VotesWise, AsksTrue, Still, Do, VoteWise;
    KeptStill(s, a);
    StillSurviving(s, Do(s, a));
  }

  // ---- a follower appends ----

  /** Server v handles a message of `term`: it may raise what it acknowledged of that term, nothing else. */
  ghost predicate Appending(s: Cluster, s': Cluster, v: nat, term: nat) {
    && v < |s.peers| == |s'.peers| && term in s.hist.reigns && v != s.hist.reigns[term].leader
    && s'.hist.reigns == s.hist.reigns && s'.hist.votes == s.hist.votes && s'.hist.candidacies == s.hist.candidacies
    && s'.ballots == s.ballots && s'.sent == s.sent
    && s'.peers == s.peers[v := s'.peers[v]] && s.peers[v].saved.currentTerm <= s'.peers[v].saved.currentTerm
    && (s'.hist.acks == s.hist.acks ||
        (&& s.peers[v].saved.currentTerm <= term && AckOf(s, term, v) <= AckOf(s', term, v)
         && 0 <= AckOf(s', term, v) < |s.hist.reigns[term].log|
         && s'.hist.acks == s.hist.acks[At(term, v) := AckOf(s', term, v)]))
  }

  lemma AppendNarrows(s: Cluster, s': Cluster, v: nat, term: nat, t: nat, k: nat)
    requires Appending(s, s', v, term) && Choosable(s', t, k)
    ensures Choosable(s, t, k) && UpTo(s', t, k) == UpTo(s, t, k)
  {
    assert Narrows(s, s') by {
      forall x: nat, u: nat | u < |s.peers| && AckOf(s', x, u) > AckOf(s, x, u) ensures x == term && u == v {
      }
    }
    ChoosableNarrows(s, s', t, k);
  }

  lemma AppendKeeps(s: Cluster, s': Cluster, v: nat, term: nat)
    requires Appending(s, s', v, term) && VotesKept(s) && Retention(s) && Inheritance(s) && VotesWise(s)
    requires Retains(s', v)
    ensures Retention(s') && Inheritance(s') && VotesWise(s')
  {
    hide Choosable, UpTo;
    forall u | 0 <= u < |s'.peers| ensures Retains(s', u) {
      if u != v {
        assert Retains(s, u);
        forall t: nat, k: nat | k <= AckOf(s', t, u) && Choosable(s', t, k) ensures UpTo(s', t, k) <= s'.peers[u].log {
          AppendNarrows(s, s', v, term, t, k);
        }
      }
    }
    forall t: nat, t': nat ensures Inherits(s', t, t') {
      assert Inherits(s, t, t');
      forall k: nat | t < t' && t in s'.hist.reigns && t' in s'.hist.reigns && Choosable(s', t, k)
        ensures UpTo(s', t, k) <= s'.hist.reigns[t'].init
      {
        AppendNarrows(s, s', v, term, t, k);
      }
    }
    forall x | x in s'.hist.votes ensures VoteWise(s', x) {
      assert VoteWise(s, x);
      forall t: nat, k: nat | t < x.term && k <= AckOf(s', t, x.server) && Choosable(s', t, k)
        ensures UpTo(s', t, k) <= s'.hist.votes[x].log
      {
        AppendNarrows(s, s', v, term, t, k);
      }
    }
  }

  /** What a follower does with a message, as far as commitment goes. */
  ghost predicate Effect(p: Peer, args: AppendArgs, q: Peer, success: bool) {
    && p.saved.currentTerm <= q.saved.currentTerm
    && (q.log != p.log || success ==> p.currentTerm <= args.term && 0 <= args.prevLogIndex < |p.log|)
    && (success ==>
          && p.log[args.prevLogIndex].term == args.prevLogTerm
          && if args.entries == [] then q.log == p.log
             else q.log == p.log[..args.prevLogIndex + 1] + args.entries && q.saved.currentTerm == args.term)
    && (!success && q.log != p.log ==>
          && p.log[args.prevLogIndex].term != args.prevLogTerm
          && q.log == p.log[..if args.prevLogIndex == 0 then 1 else args.prevLogIndex])
  }

  lemma AppendEffect(p: Peer, i: nat, n: nat, args: AppendArgs)
    requires Flat(p, i, n) && 0 <= args.prevLogIndex
    ensures Effect(p, args, HandleAppend(p, args).0, HandleAppend(p, args).1.success)
  {
  }

  /** The step, with the message and the new peer named. */
  ghost predicate Delivery(s: Cluster, s': Cluster, idx: nat, msg: AppendMsg, q: Peer, success: bool) {
    && Enabled(s, DeliverAppend(idx)) && s' == AfterAppend(s, idx) && msg == s.sent[idx]
    && q == HandleAppend(s.peers[msg.to], msg.args).0 && success == HandleAppend(s.peers[msg.to], msg.args).1.success
  }

  lemma DeliveryEffect(s: Cluster, s': Cluster, idx: nat, msg: AppendMsg, q: Peer, success: bool)
    requires Delivery(s, s', idx, msg, q, success) && AllFlat(s) && Messages(s)
    ensures MessageOk(s, msg) && Flat(s.peers[msg.to], msg.to, |s.peers|) && Effect(s.peers[msg.to], msg.args, q, success)
  {
    hide HandleAppend, AllSound, AllFlat, Messages;
    FlatAt(s, msg.to);
    MessageAt(s, idx);
    AppendEffect(s.peers[msg.to], msg.to, |s.peers|, msg.args);
  }

  lemma AppendAppending(s: Cluster, s': Cluster, idx: nat, msg: AppendMsg, q: Peer, success: bool)
    requires Delivery(s, s', idx, msg, q, success) && AllFlat(s) && Messages(s) && Acks(s)
    ensures Appending(s, s', msg.to, msg.args.term)
  {
    hide HandleAppend, AllSound, AllFlat, Messages;
    DeliveryEffect(s, s', idx, msg, q, success);
    if At(msg.args.term, msg.to) in s.hist.acks {
      assert AckOk(s, At(msg.args.term, msg.to));
    }
  }

  /** A possibly committed entry that server v has acknowledged lies on the log of the leader of any term
      v could now accept a message of. */
  lemma AckedInLater(s: Cluster, v: nat, term: nat, t: nat, k: nat)
    requires Acks(s) && Inheritance(s) && ReignLogs(s) && v < |s.peers| && term in s.hist.reigns
    requires s.peers[v].saved.currentTerm <= term && k <= AckOf(s, t, v) && Choosable(s, t, k)
    ensures UpTo(s, t, k) <= s.hist.reigns[term].log && (t != term ==> k < |s.hist.reigns[term].init|)
  {
    hide Rooted;
    assert AckOk(s, At(t, v));
    assert Inherits(s, t, term);
    ReignAt(s, term);
  }

  /** Dropping a conflicting entry drops nothing that may be committed. */
  lemma TruncateRetains(s: Cluster, v: nat, term: nat, prev: nat, t: nat, k: nat)
    requires Acks(s) && Inheritance(s) && ReignLogs(s) && Retention(s) && v < |s.peers| && term in s.hist.reigns
    requires s.peers[v].saved.currentTerm <= term && k <= AckOf(s, t, v) && Choosable(s, t, k)
    requires prev < |s.peers[v].log| && prev < |s.hist.reigns[term].log|
    requires s.peers[v].log[prev].term != s.hist.reigns[term].log[prev].term
    ensures UpTo(s, t, k) <= s.peers[v].log[..prev]
  {
    hide ReignLogs, Acks, Inheritance, Possible;
    AckedInLater(s, v, term, t, k);
    assert Retains(s, v);
    assert k < prev;
  }

  /** Whatever a message does to a follower's log, the log keeps what may be committed. */
  lemma AppendRetains(s: Cluster, msg: AppendMsg, q: Peer, success: bool, t: nat, k: nat)
    requires Solid(s) && Surviving(s) && MessageOk(s, msg) && Flat(s.peers[msg.to], msg.to, |s.peers|)
    requires Effect(s.peers[msg.to], msg.args, q, success)
    requires !Overtaken(s, msg)
    requires k <= AckOf(s, t, msg.to) || (success && t == msg.args.term && k < EndOf(msg.args))
    requires Choosable(s, t, k)
    ensures UpTo(s, t, k) <= q.log
  {
    hide AllSound, AllFlat, Voting, PeerLogs, ReignLogs, CandidateLogs, VoterLogs, Messages, Acks, Retention, Inheritance,
         VotesWise, AsksTrue, Choosable, Rooted;
    var v, a, p := msg.to, msg.args, s.peers[msg.to];
    RootedPeer(s, v);
    if q.log == p.log {
      if k <= AckOf(s, t, v) {
        RetainsAt(s, v, t, k);
      } else {
        AppendMatches(s, msg, p.log);
      }
    } else if success {
      AppendMatches(s, msg, p.log);
      if t != a.term {
        AckedInLater(s, v, a.term, t, k);
      }
    } else {
      RootTerm(s, msg);
      TruncateRetains(s, v, a.term, a.prevLogIndex, t, k);
    }
  }

  lemma RootedPeer(s: Cluster, v: nat)
    requires AllFlat(s) && PeerLogs(s) && v < |s.peers|
    ensures Rooted(s.hist.reigns, s.peers[v].log) && TermsUpTo(s.peers[v].log, s.peers[v].saved.currentTerm)
  {
    FlatAt(s, v);
    PeerLogAt(s, v);
  }

  lemma RetainsAt(s: Cluster, v: nat, t: nat, k: nat)
    requires Retention(s) && v < |s.peers| && k <= AckOf(s, t, v) && Choosable(s, t, k)
    ensures UpTo(s, t, k) <= s.peers[v].log
  {
    assert Retains(s, v);
  }

  /** Logs never conflict at the root. */
  lemma RootTerm(s: Cluster, msg: AppendMsg)
    requires ReignLogs(s) && MessageOk(s, msg) && Rooted(s.hist.reigns, s.peers[msg.to].log)
    requires msg.args.prevLogIndex < |s.peers[msg.to].log| && s.peers[msg.to].log[msg.args.prevLogIndex].term != msg.args.prevLogTerm
    ensures msg.args.prevLogIndex > 0
  {
    ReignAt(s, msg.args.term);
    assert RootedAt(s.hist.reigns, s.peers[msg.to].log, 0);
    assert RootedAt(s.hist.reigns, s.hist.reigns[msg.args.term].log, 0);
  }

  lemma AppendAcks(s: Cluster, s': Cluster, idx: nat, msg: AppendMsg, q: Peer, success: bool)
    requires Delivery(s, s', idx, msg, q, success) && Solid(s) && Acks(s)
    ensures Acks(s')
  {
    hide HandleAppend, AllSound, AllFlat, Voting, PeerLogs, ReignLogs, CandidateLogs, VoterLogs, Messages, Rooted;
    DeliveryEffect(s, s', idx, msg, q, success);
    AppendAppending(s, s', idx, msg, q, success);
    forall x | x in s'.hist.acks ensures AckOk(s', x) {
      if x == At(msg.args.term, msg.to) {
        forall k: nat | k <= s'.hist.acks[x] && Own(s', x.term, k) ensures x.term <= s'.peers[x.server].saved.currentTerm {
          assert Own(s, x.term, k);
          if x in s.hist.acks && k <= s.hist.acks[x] {
            assert AckOk(s, x);
          } else {
            AckedOwn(s, msg, q, k);
          }
        }
      } else {
        assert AckOk(s, x);
        forall k: nat | Own(s', x.term, k) ensures Own(s, x.term, k) {
        }
      }
    }
  }

  /** A follower that holds an entry of the leader's own has saved the leader's term. */
  lemma AckedOwn(s: Cluster, msg: AppendMsg, q: Peer, k: nat)
    requires AllFlat(s) && PeerLogs(s) && ReignLogs(s) && MessageOk(s, msg) && Effect(s.peers[msg.to], msg.args, q, true)
    requires k < EndOf(msg.args) && Own(s, msg.args.term, k)
    ensures msg.args.term <= q.saved.currentTerm
  {
    hide PeerLogs, ReignLogs, Rooted;
    RootedPeer(s, msg.to);
    ReignAt(s, msg.args.term);
  }

  /** What a message adds to what is acknowledged. */
  lemma AppendAcked(s: Cluster, s': Cluster, idx: nat, msg: AppendMsg, q: Peer, success: bool)
    requires Delivery(s, s', idx, msg, q, success)
    ensures forall t: nat :: AckOf(s', t, msg.to) > AckOf(s, t, msg.to) ==>
      success && t == msg.args.term && AckOf(s', t, msg.to) < EndOf(msg.args)
  {
    hide HandleAppend, FullAfter;
  }

  lemma AppendSurviving(s: Cluster, idx: nat)
    requires Solid(s) && Surviving(s) && Enabled(s, DeliverAppend(idx)) && Ahead(s, DeliverAppend(idx))
    ensures Surviving(AfterAppend(s, idx))
  {
    hide Solid, Surviving, Ahead;
    var msg := s.sent[idx];
    var (q, reply) := HandleAppend(s.peers[msg.to], msg.args);
    AppendSurvives(s, AfterAppend(s, idx), idx, msg, q, reply.success);
  }

  lemma AppendSurvives(s: Cluster, s': Cluster, idx: nat, msg: AppendMsg, q: Peer, success: bool)
    requires Delivery(s, s', idx, msg, q, success) && Solid(s) && Surviving(s) && Ahead(s, DeliverAppend(idx))
    ensures Surviving(s')
  {
    hide HandleAppend, AllSound, AllFlat, VotesKept, CandidaciesVoted, BallotsBacked, TallyCounts, ReignsElected, LeadersReign,
         PeerLogs, ReignLogs, CandidateLogs, VoterLogs, Messages, Acks, Retention, Inheritance, VotesWise, AsksTrue,
         Choosable, UpTo, AckOf, Effect;
    DeliveryEffect(s, s', idx, msg, q, success);
    AppendAppending(s, s', idx, msg, q, success);
    AppendAcks(s, s', idx, msg, q, success);
    AppendAcked(s, s', idx, msg, q, success);
    assert Retains(s', msg.to) by {
      forall t: nat, k: nat | k <= AckOf(s', t, msg.to) && Choosable(s', t, k) ensures UpTo(s', t, k) <= s'.peers[msg.to].log {
        AppendNarrows(s, s', msg.to, msg.args.term, t, k);
        AppendRetains(s, msg, q, success, t, k);
      }
    }
    AppendKeeps(s, s', msg.to, msg.args.term);
    SameAsks(s, s');
  }

  // ---- a client's command ----

  /** Leader i of `term` appends one entry of its own. */
  ghost predicate Starting(s: Cluster, s': Cluster, i: nat, term: nat) {
    && i < |s.peers| == |s'.peers| && Reigns(s, term, i) && s.peers[i].saved.currentTerm == term
    && s.peers[i].log == s.hist.reigns[term].log
    && s'.peers == s.peers[i := s'.peers[i]] && s'.peers[i].saved.currentTerm == term
    && |s'.peers[i].log| == |s.peers[i].log| + 1 && s.peers[i].log <= s'.peers[i].log && s'.peers[i].log[|s.peers[i].log|].term == term
    && s'.hist.reigns == s.hist.reigns[term := s.hist.reigns[term].(log := s'.peers[i].log)]
    && s'.hist.acks == s.hist.acks[At(term, i) := |s.peers[i].log|]
    && s'.hist.votes == s.hist.votes && s'.hist.candidacies == s.hist.candidacies && s'.hist.cursor == s.hist.cursor
    && s'.ballots == s.ballots && s'.sent == s.sent
  }

  lemma StartStarting(s: Cluster, i: nat, command: Command)
    requires Solid(s) && Enabled(s, ClientStart(i, command))
    ensures Starting(s, AfterStart(s, i, command), i, s.peers[i].currentTerm)
  {
    hide AllSound, AllFlat, VotesKept, CandidaciesVoted, BallotsBacked, TallyCounts, ReignsElected, LeadersReign,
         PeerLogs, ReignLogs, CandidateLogs, VoterLogs, Messages;
    LeaderReigns(s, i);
    LeaderLog(s, i);
    FlatAt(s, i);
    assert AfterStart(s, i, command).peers[i].log == s.peers[i].log + [LogEntry(s.peers[i].currentTerm, command)];
  }

  lemma StartNarrows(s: Cluster, s': Cluster, i: nat, term: nat, t: nat, k: nat)
    requires Starting(s, s', i, term) && Choosable(s', t, k) && !(t == term && k == |s.peers[i].log|)
    ensures Choosable(s, t, k) && UpTo(s', t, k) == UpTo(s, t, k)
  {
    assert Narrows(s, s') by {
      forall x: nat, u: nat | u < |s.peers| && AckOf(s', x, u) > AckOf(s, x, u) ensures x == term && u == i {
      }
    }
    ChoosableNarrows(s, s', t, k);
  }

  /** Once a later leader has been elected, nothing new can be committed in this term. */
  lemma NothingNew(s: Cluster, s': Cluster, i: nat, term: nat, t': nat)
    requires Starting(s, s', i, term) && Acks(s) && VotesKept(s) && ReignsElected(s) && term < t' && t' in s.hist.reigns
    ensures !Choosable(s', term, |s.peers[i].log|)
  {
    hide Acks;
    var n := |s.peers[i].log|;
    if Choosable(s', term, n) {
      assert Elected(s, t', s.hist.reigns[t']);
      var v := QuorumsMeet(Possible(s', term, n), s.hist.reigns[t'].quorum, |s.peers|);
      assert HasVote(s, t', v, s.hist.reigns[t'].leader);
      AckShort(s, term, v);
    }
  }

  lemma AckShort(s: Cluster, t: nat, v: nat)
    requires Acks(s) && t in s.hist.reigns
    ensures AckOf(s, t, v) < |s.hist.reigns[t].log|
  {
    assert At(t, v) in s.hist.acks ==> AckOk(s, At(t, v));
    assert At(t, s.hist.reigns[t].leader) in s.hist.acks;
    assert AckOk(s, At(t, s.hist.reigns[t].leader));
  }

  lemma StartAcks(s: Cluster, s': Cluster, i: nat, term: nat)
    requires Starting(s, s', i, term) && Acks(s)
    ensures Acks(s')
  {
    forall x | x in s'.hist.acks ensures AckOk(s', x) {
      if x != At(term, i) {
        assert AckOk(s, x);
        forall k: nat | k <= s.hist.acks[x] && Own(s', x.term, k) ensures Own(s, x.term, k) {
        }
      }
    }
  }

  lemma StartRetains(s: Cluster, s': Cluster, i: nat, term: nat)
    requires Starting(s, s', i, term) && Acks(s) && Retention(s)
    ensures Retention(s')
  {
    hide Choosable, Acks;
    forall v | 0 <= v < |s'.peers| ensures Retains(s', v) {
      assert Retains(s, v);
      forall t: nat, k: nat | k <= AckOf(s', t, v) && Choosable(s', t, k) ensures UpTo(s', t, k) <= s'.peers[v].log {
        if t == term && v == i {
          assert UpTo(s', t, k) <= s'.hist.reigns[term].log;
        } else {
          AckShort(s, term, v);
          StartNarrows(s, s', i, term, t, k);
        }
      }
    }
  }

  lemma StartInheritance(s: Cluster, s': Cluster, i: nat, term: nat)
    requires Starting(s, s', i, term) && Acks(s) && Inheritance(s) && VotesKept(s) && ReignsElected(s)
    ensures Inheritance(s')
  {
    hide Choosable, UpTo, Acks, VotesKept, ReignsElected;
    forall t: nat, t': nat ensures Inherits(s', t, t') {
      assert Inherits(s, t, t');
      forall k: nat | t < t' && t in s'.hist.reigns && t' in s'.hist.reigns && Choosable(s', t, k)
        ensures UpTo(s', t, k) <= s'.hist.reigns[t'].init
      {
        if t == term {
          NothingNew(s, s', i, term, t');
        }
        StartNarrows(s, s', i, term, t, k);
      }
    }
  }

  lemma StartVotes(s: Cluster, s': Cluster, i: nat, term: nat)
    requires Starting(s, s', i, term) && Acks(s) && VotesWise(s) && VotesKept(s)
    ensures VotesWise(s')
  {
    hide Choosable, UpTo, Acks;
    forall x | x in s'.hist.votes ensures VoteWise(s', x) {
      assert VoteWise(s, x);
      forall t: nat, k: nat | t < x.term && k <= AckOf(s', t, x.server) && Choosable(s', t, k)
        ensures UpTo(s', t, k) <= s'.hist.votes[x].log
      {
        AckShort(s, term, x.server);
        StartNarrows(s, s', i, term, t, k);
      }
    }
  }

  lemma StartSurviving(s: Cluster, i: nat, command: Command)
    requires Solid(s) && Surviving(s) && Enabled(s, ClientStart(i, command))
    ensures Surviving(AfterStart(s, i, command))
  {
    hide AllSound, AllFlat, VotesKept, CandidaciesVoted, BallotsBacked, TallyCounts, ReignsElected, LeadersReign,
         PeerLogs, ReignLogs, CandidateLogs, VoterLogs, Messages, Acks, Retention, Inheritance, VotesWise, AsksTrue,
         AfterStart;
    var s', term := AfterStart(s, i, command), s.peers[i].currentTerm;
    StartStarting(s, i, command);
    StartAcks(s, s', i, term);
    StartRetains(s, s', i, term);
    StartInheritance(s, s', i, term);
    StartVotes(s, s', i, term);
    SameAsks(s, s');
  }

  // ---- every action ----

  lemma SolidStep(s: Cluster, a: Action)
    requires Solid(s) && Enabled(s, a) && Uncut(a)
    ensures Solid(Do(s, a))
  {
    hide AllSound, AllFlat, Voting, PeerLogs, ReignLogs, CandidateLogs, VoterLogs, Messages, Do;
    DoSound(s, a);
    DoFlat(s, a);
    DoVoting(s, a);
    DoLogs(s, a);
  }

  lemma DoSurviving(s: Cluster, a: Action)
    requires Solid(s) && Surviving(s) && Enabled(s, a) && Uncut(a) && Ahead(s, a)
    ensures Solid(Do(s, a)) && Surviving(Do(s, a))
  {
    hide Solid, Surviving, AfterAppend, AfterCount, AfterElect, AfterSend, AfterStart, AfterVote, AfterApply, Set, AfterReply,
         AfterSnap;
    SolidStep(s, a);
    match a
    case DoElect(i) => ElectSurviving(s, i);
    case DeliverVote(ask) => VoteSurviving(s, ask);
    case CountVote(ask) => CountSurviving(s, ask);
    case DoSend(i, j) => SendSurviving(s, i, j);
    case DeliverAppend(idx) => AppendSurviving(s, idx);
    case ClientStart(i, command) => StartSurviving(s, i, command);
    case _ => KeptSurviving(s, a);
  }

  lemma InitSurviving(s: Cluster)
    requires Init(s)
    ensures Solid(s) && Surviving(s)
  {
    InitVoting(s);
    InitLogs(s);
    assert forall t: nat, v: nat :: AckOf(s, t, v) == -1;
  }
}
