/** What follows for any sequence of cluster states, however its steps are divided, from invariants that hold in each and
    a record that only grows: Election Safety, Log Matching, Leader Completeness and State Machine Safety. */
module RaftTraces {
  import opened RaftPeer
  import opened RaftCluster
  import opened RaftElection
  import opened RaftCompaction
  import opened RaftLogs
  import opened RaftCommit
  import opened RaftApplied

  /** Voting and logs are as they should be. */
  ghost predicate Firm(s: Cluster) {
    AllSound(s) && Voting(s) && Logs(s)
  }

  /** So is what is acknowledged and committed; no log has been cut. */
  ghost predicate Safe(s: Cluster) {
    Solid(s) && Surviving(s) && Committing(s)
  }

  /** Reigns are added, leaders only append, applied entries stay applied. */
  ghost predicate Follows(s: Cluster, s': Cluster) {
    |s'.peers| == |s.peers| && Extends(s.hist.reigns, s'.hist.reigns) && s.hist.applied <= s'.hist.applied
  }

  ghost predicate Firmly(tr: seq<Cluster>) {
    && (forall k :: 0 <= k < |tr| ==> Firm(tr[k]))
    && (forall a, b :: 0 <= a <= b < |tr| ==> Follows(tr[a], tr[b]))
  }

  ghost predicate Safely(tr: seq<Cluster>) {
    && (forall k :: 0 <= k < |tr| ==> Safe(tr[k]))
    && (forall a, b :: 0 <= a <= b < |tr| ==> Follows(tr[a], tr[b]) && Advances(tr[a], tr[b]))
  }

  lemma FirmAt(tr: seq<Cluster>, a: nat)
    requires Firmly(tr) && a < |tr|
    ensures Firm(tr[a])
  {
  }

  lemma FirmFollows(tr: seq<Cluster>, a: nat, b: nat)
    requires Firmly(tr) && a <= b < |tr|
    ensures Follows(tr[a], tr[b])
  {
  }

  lemma SafeAt(tr: seq<Cluster>, a: nat)
    requires Safely(tr) && a < |tr|
    ensures Safe(tr[a])
  {
  }

  lemma SafeAdvances(tr: seq<Cluster>, a: nat, b: nat)
    requires Safely(tr) && a <= b < |tr|
    ensures Follows(tr[a], tr[b]) && Advances(tr[a], tr[b])
  {
  }

  lemma ExtendsSelf(r: map<nat, Reign>)
    ensures Extends(r, r)
  {
  }

  lemma ExtendsOn(r: map<nat, Reign>, r': map<nat, Reign>, r'': map<nat, Reign>)
    requires Extends(r, r') && Extends(r', r'')
    ensures Extends(r, r'')
  {
  }

  lemma FollowsOn(s: Cluster, s': Cluster, s'': Cluster)
    requires Follows(s, s') && Follows(s', s'')
    ensures Follows(s, s'')
  {
    ExtendsOn(s.hist.reigns, s'.hist.reigns, s''.hist.reigns);
  }

  lemma AdvancesOn(s: Cluster, s': Cluster, s'': Cluster)
    requires Advances(s, s') && Advances(s', s'')
    ensures Advances(s, s'')
  {
    hide Extends;
    ExtendsOn(s.hist.reigns, s'.hist.reigns, s''.hist.reigns);
    forall t: nat, v: nat ensures AckOf(s, t, v) <= AckOf(s'', t, v) {
      AckAdvances(s, s', t, v);
      AckAdvances(s', s'', t, v);
    }
  }

  /** Peer i leads its term at moment a. */
  ghost predicate Leads(tr: seq<Cluster>, a: nat, i: nat) {
    a < |tr| && i < |tr[a].peers| && tr[a].peers[i].role == Leader
  }

  // ---- elections and logs ----

  lemma OneLeader(tr: seq<Cluster>, a: nat, b: nat, i: nat, j: nat)
    requires Firmly(tr) && Leads(tr, a, i) && Leads(tr, b, j) && tr[a].peers[i].currentTerm == tr[b].peers[j].currentTerm
    ensures i == j
  {
    hide AllSound, VotesKept, CandidaciesVoted, BallotsBacked, TallyCounts, ReignsElected, LeadersReign, Logs, Firmly;
    FirmAt(tr, a);
    FirmAt(tr, b);
    LeaderReigns(tr[a], i);
    LeaderReigns(tr[b], j);
    if a <= b {
      FirmFollows(tr, a, b);
    } else {
      FirmFollows(tr, b, a);
    }
  }

  lemma TraceRooted(tr: seq<Cluster>, a: nat, b: nat, i: nat)
    requires Firmly(tr) && a <= b < |tr| && i < |tr[a].peers|
    ensures Rooted(tr[b].hist.reigns, FullLog(tr[a], i))
    ensures Compacts(tr[a].peers[i].log, tr[a].peers[i].lastIncludedIndex, FullLog(tr[a], i))
  {
    hide AllSound, Voting, Firmly, Rooted, PeerLogs, ReignLogs, CandidateLogs, VoterLogs, Messages, Compacts;
    FirmAt(tr, a);
    PeerLogAt(tr[a], i);
    FirmFollows(tr, a, b);
    RootedExtends(tr[a].hist.reigns, tr[b].hist.reigns, FullLog(tr[a], i));
  }

  lemma FullMatching(tr: seq<Cluster>, a: nat, b: nat, i: nat, j: nat, k: nat)
    requires Firmly(tr) && a < |tr| && b < |tr| && i < |tr[a].peers| && j < |tr[b].peers|
    requires k < |FullLog(tr[a], i)| && k < |FullLog(tr[b], j)| && FullLog(tr[a], i)[k].term == FullLog(tr[b], j)[k].term
    ensures FullLog(tr[a], i)[..k + 1] == FullLog(tr[b], j)[..k + 1]
  {
    hide Firmly, Rooted, FullLog, Compacts;
    var c := if a <= b then b else a;
    TraceRooted(tr, a, c, i);
    TraceRooted(tr, b, c, j);
    Matching(tr[c].hist.reigns, FullLog(tr[a], i), FullLog(tr[b], j), k);
  }

  /** The log of a peer reaches from its snapshot to beyond a global index. */
  predicate Holds(p: Peer, n: int) {
    p.lastIncludedIndex <= n < p.lastIncludedIndex + |p.log|
  }

  /** Its entry at that index; at its snapshot boundary only the term counts. */
  function EntryAt(p: Peer, n: int): LogEntry
    requires Holds(p, n)
  {
    p.log[n - p.lastIncludedIndex]
  }

  lemma EntryOfFull(p: Peer, full: Log, n: nat)
    requires Compacts(p.log, p.lastIncludedIndex, full) && Holds(p, n)
    ensures n < |full| && EntryAt(p, n).term == full[n].term && (n > p.lastIncludedIndex ==> EntryAt(p, n) == full[n])
  {
    TermAt(p.log, p.lastIncludedIndex, full, n);
    var k := n - p.lastIncludedIndex;
    assert k > 0 ==> p.log[k] == full[p.lastIncludedIndex + k];
  }

  /** Two peers have the same entry at a global index, or where one's snapshot ends the same term. */
  ghost predicate SameAt(p: Peer, q: Peer, k: int)
    requires Holds(p, k) && Holds(q, k)
  {
    && EntryAt(p, k).term == EntryAt(q, k).term
    && (k > p.lastIncludedIndex && k > q.lastIncludedIndex ==> EntryAt(p, k) == EntryAt(q, k))
  }

  lemma EntriesMatching(tr: seq<Cluster>, a: nat, b: nat, i: nat, j: nat, n: nat, k: nat)
    requires Firmly(tr) && a < |tr| && b < |tr| && i < |tr[a].peers| && j < |tr[b].peers|
    requires var p, q := tr[a].peers[i], tr[b].peers[j];
      && Holds(p, k) && Holds(q, k) && Holds(p, n) && Holds(q, n) && k <= n && EntryAt(p, n).term == EntryAt(q, n).term
    ensures SameAt(tr[a].peers[i], tr[b].peers[j], k)
  {
    hide Firmly, Rooted, FullLog, Compacts, EntryAt, Holds;
    var p, q, P, Q := tr[a].peers[i], tr[b].peers[j], FullLog(tr[a], i), FullLog(tr[b], j);
    TraceRooted(tr, a, a, i);
    TraceRooted(tr, b, b, j);
    EntryOfFull(p, P, n);
    EntryOfFull(q, Q, n);
    EntryOfFull(p, P, k);
    EntryOfFull(q, Q, k);
    FullMatching(tr, a, b, i, j, n);
    assert P[..n + 1][k] == Q[..n + 1][k];
  }

  // ---- commitment ----

  /** Two committed entries lie on one log. */
  lemma ChosenAgree(s: Cluster, t0: nat, k0: nat, t1: nat, k1: nat)
    requires Safe(s) && Chosen(s, t0, k0) && Chosen(s, t1, k1)
    ensures t0 in s.hist.reigns && t1 in s.hist.reigns && k0 < |s.hist.reigns[t0].log| && k1 < |s.hist.reigns[t1].log|
    ensures forall n :: 0 <= n <= k0 && n <= k1 ==> s.hist.reigns[t0].log[n] == s.hist.reigns[t1].log[n]
  {
    hide AllSound, Voting, PeerLogs, ReignLogs, CandidateLogs, VoterLogs, Messages, Acks, Retention, Inheritance, VotesWise,
         AsksTrue, Committing, Chosen;
    ChosenOwn(s, t0, k0);
    ChosenOwn(s, t1, k1);
    if t0 <= t1 {
      CommittedInLater(s, t0, k0, t1);
    } else {
      CommittedInLater(s, t1, k1, t0);
    }
  }

  lemma AppliedAgree(tr: seq<Cluster>, a: nat, b: nat, x: Application, y: Application)
    requires Safely(tr) && a < |tr| && b < |tr| && x in tr[a].hist.applied && y in tr[b].hist.applied && x.index == y.index
    ensures x.command == y.command
  {
    hide Solid, Surviving, PeersOk, MessagesOk, Safely, Chosen, Advances;
    var c := if a <= b then b else a;
    SafeAdvances(tr, a, c);
    SafeAdvances(tr, b, c);
    SafeAt(tr, c);
    var s := tr[c];
    var t0, k0 :| AppliedFrom(s, x, t0, k0);
    var t1, k1 :| AppliedFrom(s, y, t1, k1);
    ChosenAgree(s, t0, k0, t1, k1);
  }

  /** What a peer has committed at moment a lies, at any moment c from then on, on a committed leader's log. */
  lemma CommittedLater(tr: seq<Cluster>, a: nat, c: nat, i: nat) returns (t0: nat, k0: nat)
    requires Safely(tr) && a <= c < |tr| && i < |tr[a].peers| && tr[a].peers[i].commitIndex != 0
    ensures t0 <= tr[a].peers[i].currentTerm
    ensures Witness(tr[c], t0, k0, tr[a].peers[i].log, tr[a].peers[i].commitIndex)
  {
    hide Solid, Surviving, MessagesOk, AppliedOk, Witness, Safely, Advances;
    SafeAt(tr, a);
    PeerOkAt(tr[a], i);
    SafeAdvances(tr, a, c);
    t0, k0 :| CommitBacked(tr[a], i, t0, k0);
    WitnessAdvances(tr[a], tr[c], t0, k0, tr[a].peers[i].log, tr[a].peers[i].log, tr[a].peers[i].commitIndex);
  }

  lemma CommitWithin(s: Cluster, i: nat)
    requires Safe(s) && i < |s.peers|
    ensures var p := s.peers[i]; 0 <= p.lastApplied <= p.commitIndex < |p.log| == p.logLength && p.log[0] == ROOT
  {
    hide AllSound, AllFlat, Voting, Logs, Surviving, Committing;
    FlatAt(s, i);
    PeerOkAt(s, i);
  }

  lemma Completeness(tr: seq<Cluster>, a: nat, b: nat, i: nat, j: nat)
    requires Safely(tr) && a < |tr| && i < |tr[a].peers| && Leads(tr, b, j) && tr[a].peers[i].currentTerm < tr[b].peers[j].currentTerm
    ensures var p := tr[a].peers[i]; 0 <= p.commitIndex < |p.log| && p.log[..p.commitIndex + 1] <= tr[b].peers[j].log
  {
    hide Safely, Safe, Witness, Extends, Advances;
    SafeAt(tr, a);
    SafeAt(tr, b);
    CommitWithin(tr[a], i);
    CommitWithin(tr[b], j);
    if tr[a].peers[i].commitIndex != 0 {
      var c := if a <= b then b else a;
      var t0, k0 := CommittedLater(tr, a, c, i);
      SafeAdvances(tr, b, c);
      SafeAt(tr, c);
      LaterLeaderHas(tr[b], tr[c], j, t0, k0, tr[a].peers[i].log, tr[a].peers[i].commitIndex);
    }
  }

  lemma LaterLeaderHas(s: Cluster, s': Cluster, j: nat, t0: nat, k0: nat, log: Log, n: nat)
    requires Safe(s) && Safe(s') && Extends(s.hist.reigns, s'.hist.reigns) && Witness(s', t0, k0, log, n)
    requires j < |s.peers| && s.peers[j].role == Leader && t0 < s.peers[j].currentTerm
    ensures log[..n + 1] <= s.peers[j].log
  {
    hide AllSound, VotesKept, CandidaciesVoted, BallotsBacked, TallyCounts, ReignsElected, LeadersReign, PeerLogs, ReignLogs,
         CandidateLogs, VoterLogs, Messages, Acks, Retention, Inheritance, VotesWise, AsksTrue, Committing, Chosen, Rooted;
    var term := s.peers[j].currentTerm;
    LeaderReigns(s, j);
    LeaderLog(s, j);
    CommittedInLater(s', t0, k0, term);
    ReignAt(s, term);
    assert s'.hist.reigns[term].init == s.hist.reigns[term].init <= s.peers[j].log;
    ReignAt(s', term);
  }

  lemma BothCommitted(tr: seq<Cluster>, a: nat, b: nat, i: nat, j: nat, n: nat)
    requires Safely(tr) && a < |tr| && b < |tr| && i < |tr[a].peers| && j < |tr[b].peers|
    requires n <= tr[a].peers[i].commitIndex && n <= tr[b].peers[j].commitIndex
    ensures n < |tr[a].peers[i].log| && n < |tr[b].peers[j].log| && tr[a].peers[i].log[n] == tr[b].peers[j].log[n]
  {
    hide Safely, Safe, Chosen;
    SafeAt(tr, a);
    SafeAt(tr, b);
    CommitWithin(tr[a], i);
    CommitWithin(tr[b], j);
    if n > 0 {
      var c := if a <= b then b else a;
      var t0, k0 := CommittedLater(tr, a, c, i);
      var t1, k1 := CommittedLater(tr, b, c, j);
      SafeAt(tr, c);
      ChosenAgree(tr[c], t0, k0, t1, k1);
      WitnessAt(tr[c], t0, k0, tr[a].peers[i].log, tr[a].peers[i].commitIndex, n);
      WitnessAt(tr[c], t1, k1, tr[b].peers[j].log, tr[b].peers[j].commitIndex, n);
    }
  }

  lemma WitnessAt(s: Cluster, t0: nat, k0: nat, log: Log, c: int, n: nat)
    requires Witness(s, t0, k0, log, c) && n <= c
    ensures n <= k0 && t0 in s.hist.reigns && n < |s.hist.reigns[t0].log| && log[n] == s.hist.reigns[t0].log[n]
  {
    assert log[..c + 1][n] == s.hist.reigns[t0].log[..c + 1][n];
  }
}
