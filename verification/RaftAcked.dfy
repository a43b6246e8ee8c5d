/** What the condition on runs is about: as long as a follower stays in a term it keeps what it has acknowledged of that
    term's leader, at every moment of a run without snapshots, exactly if no overtaken append is delivered. */
module RaftAcked {
  import opened RaftPeer
  import opened RaftCluster
  import opened RaftElection
  import opened RaftLogs
  import opened RaftCommit
  import opened RaftApplied
  import opened RaftTraces

  /** Server v has every entry of its leader's own that it acknowledged, with all before it, unless it has gone on to a
      later term. */
  ghost predicate Keeps(s: Cluster, v: nat)
    requires v < |s.peers|
  {
    forall t: nat, k: nat :: k <= AckOf(s, t, v) && Own(s, t, k) && s.peers[v].saved.currentTerm == t ==>
      UpTo(s, t, k) <= s.peers[v].log
  }

  ghost predicate AllKeep(s: Cluster) {
    forall v :: 0 <= v < |s.peers| ==> Keeps(s, v)
  }

  lemma KeepsAt(s: Cluster, v: nat, t: nat, k: nat)
    requires AllKeep(s) && v < |s.peers| && k <= AckOf(s, t, v) && Own(s, t, k) && s.peers[v].saved.currentTerm == t
    ensures UpTo(s, t, k) <= s.peers[v].log
  {
    assert Keeps(s, v);
  }

  /** Whoever acknowledged an entry of the leader's own has saved the leader's term. */
  lemma AckedSaved(s: Cluster, v: nat, t: nat, k: nat)
    requires Acks(s) && k <= AckOf(s, t, v) && Own(s, t, k)
    ensures v < |s.peers| && t <= s.peers[v].saved.currentTerm
  {
    assert AckOk(s, At(t, v));
  }

  // ---- every action but an append ----

  lemma StillKeeps(s: Cluster, s': Cluster)
    requires Still(s, s') && Acks(s) && AllKeep(s)
    ensures AllKeep(s')
  {
    forall v | 0 <= v < |s'.peers| ensures Keeps(s', v) {
      forall t: nat, k: nat | k <= AckOf(s', t, v) && Own(s', t, k) && s'.peers[v].saved.currentTerm == t
        ensures UpTo(s', t, k) <= s'.peers[v].log
      {
        AckedSaved(s, v, t, k);
        KeepsAt(s, v, t, k);
      }
    }
  }

  lemma CrownKeeps(s: Cluster, s': Cluster, c: nat, term: nat)
    requires Crowning(s, s', c, term) && CandidateLogs(s) && AllKeep(s)
    ensures AllKeep(s')
  {
    hide CandidateLogs;
    forall v | 0 <= v < |s'.peers| ensures Keeps(s', v) {
      forall t: nat, k: nat | k <= AckOf(s', t, v) && Own(s', t, k) && s'.peers[v].saved.currentTerm == t
        ensures UpTo(s', t, k) <= s'.peers[v].log
      {
        NoOwnYet(s, s', c, term, k);
        KeepsAt(s, v, t, k);
      }
    }
  }

  lemma StartKeeps(s: Cluster, s': Cluster, i: nat, term: nat)
    requires Starting(s, s', i, term) && Acks(s) && AllKeep(s)
    ensures AllKeep(s')
  {
    hide Acks;
    forall v | 0 <= v < |s'.peers| ensures Keeps(s', v) {
      forall t: nat, k: nat | k <= AckOf(s', t, v) && Own(s', t, k) && s'.peers[v].saved.currentTerm == t
        ensures UpTo(s', t, k) <= s'.peers[v].log
      {
        if t == term && v == i {
          assert UpTo(s', t, k) <= s'.hist.reigns[term].log;
        } else {
          AckShort(s, term, v);
          KeepsAt(s, v, t, k);
        }
      }
    }
  }

  // ---- an append ----

  /** A change of the log is saved under the message's term. */
  lemma ChangeSaved(p: Peer, args: AppendArgs)
    requires Shaped(p) && Reaches(p, args)
    ensures var q := HandleAppend(p, args).0; q.log != p.log ==> q.saved.currentTerm == args.term
  {
    hide FirstWithTerm;
  }

  /** The follower after a message that was not overtaken. */
  lemma AppendKeeps(s: Cluster, s': Cluster, idx: nat, msg: AppendMsg, q: Peer, success: bool, t: nat, k: nat)
    requires Delivery(s, s', idx, msg, q, success) && Solid(s) && Acks(s) && AllKeep(s) && !Overtaken(s, msg)
    requires k <= AckOf(s', t, msg.to) && Own(s, t, k) && q.saved.currentTerm == t
    ensures UpTo(s, t, k) <= q.log
  {
    hide AllSound, AllFlat, Voting, PeerLogs, ReignLogs, CandidateLogs, VoterLogs, Messages, Acks, AllKeep, HandleAppend, Rooted, FullAfter;
    var v, a, p := msg.to, msg.args, s.peers[msg.to];
    DeliveryEffect(s, s', idx, msg, q, success);
    ChangeSaved(p, a);
    AppendAcked(s, s', idx, msg, q, success);
    RootedPeer(s, v);
    if k <= AckOf(s, t, v) {
      AckedSaved(s, v, t, k);
      KeepsAt(s, v, t, k);
      if q.log != p.log {
        if success {
          AppendMatches(s, msg, p.log);
        } else {
          RootTerm(s, msg);
          Untouched(s, msg, k);
        }
      }
    } else {
      AppendMatches(s, msg, p.log);
    }
  }

  /** A conflict is never on an entry that is kept. */
  lemma Untouched(s: Cluster, msg: AppendMsg, k: nat)
    requires MessageOk(s, msg) && msg.args.prevLogIndex < |s.peers[msg.to].log| && Own(s, msg.args.term, k)
    requires s.peers[msg.to].log[msg.args.prevLogIndex].term != msg.args.prevLogTerm
    requires UpTo(s, msg.args.term, k) <= s.peers[msg.to].log
    ensures k < msg.args.prevLogIndex
  {
  }

  lemma AppendKeepsAll(s: Cluster, s': Cluster, idx: nat, msg: AppendMsg, q: Peer, success: bool)
    requires Delivery(s, s', idx, msg, q, success) && Solid(s) && Acks(s) && AllKeep(s) && !Overtaken(s, msg)
    ensures AllKeep(s')
  {
    hide AllSound, AllFlat, Voting, PeerLogs, ReignLogs, CandidateLogs, VoterLogs, Messages, Acks, AllKeep, Delivery, Overtaken, UpTo;
    AppendAppending(s, s', idx, msg, q, success);
    Replaced(s, s', idx, msg, q, success);
    forall v | 0 <= v < |s'.peers| ensures Keeps(s', v) {
      forall t: nat, k: nat | k <= AckOf(s', t, v) && Own(s', t, k) && s'.peers[v].saved.currentTerm == t
        ensures UpTo(s', t, k) <= s'.peers[v].log
      {
        SameUpTo(s, s', t, k);
        if v == msg.to {
          AppendKeeps(s, s', idx, msg, q, success, t, k);
        } else {
          KeepsAt(s, v, t, k);
        }
      }
    }
    EveryoneKeeps(s');
  }

  lemma Replaced(s: Cluster, s': Cluster, idx: nat, msg: AppendMsg, q: Peer, success: bool)
    requires Delivery(s, s', idx, msg, q, success)
    ensures msg.to < |s.peers| && s'.peers == s.peers[msg.to := q]
  {
    hide HandleAppend, FullAfter;
  }

  lemma SameUpTo(s: Cluster, s': Cluster, t: nat, k: nat)
    requires s'.hist.reigns == s.hist.reigns
    ensures UpTo(s', t, k) == UpTo(s, t, k) && (Own(s', t, k) <==> Own(s, t, k))
  {
  }

  lemma EveryoneKeeps(s: Cluster)
    requires forall v :: 0 <= v < |s.peers| ==> Keeps(s, v)
    ensures AllKeep(s)
  {
  }

  /** What the message says of the entry before it is true of the follower's log. */
  lemma Accepted(p: Peer, i: nat, n: nat, args: AppendArgs)
    requires Flat(p, i, n) && p.currentTerm == args.term && 0 <= args.prevLogIndex < |p.log|
    requires p.log[args.prevLogIndex].term == args.prevLogTerm
    ensures HandleAppend(p, args).1.success
  {
  }

  /** An overtaken message finds a follower that still has all it acknowledged, is accepted, and takes some of it away. */
  lemma OvertakenTakes(s: Cluster, s': Cluster, idx: nat, msg: AppendMsg, q: Peer, success: bool)
    requires Delivery(s, s', idx, msg, q, success) && Solid(s) && Acks(s) && AllKeep(s) && Overtaken(s, msg)
    ensures !AllKeep(s')
  {
    hide AllSound, AllFlat, Voting, PeerLogs, ReignLogs, CandidateLogs, VoterLogs, Messages, Acks, AllKeep, HandleAppend, Rooted, FullAfter;
    var v, a, p, ack := msg.to, msg.args, s.peers[msg.to], AckOf(s, msg.args.term, msg.to);
    DeliveryEffect(s, s', idx, msg, q, success);
    AckShort(s, a.term, v);
    OwnBehindInit(s, a.term, ack);
    AckedSaved(s, v, a.term, ack);
    SoundAt(s, v);
    KeepsAt(s, v, a.term, ack);
    assert UpTo(s, a.term, ack)[a.prevLogIndex] == p.log[a.prevLogIndex];
    Accepted(p, v, |s.peers|, a);
    Replaced(s, s', idx, msg, q, success);
    AppendAppending(s, s', idx, msg, q, success);
    if AllKeep(s') {
      SameUpTo(s, s', a.term, ack);
      KeepsAt(s', v, a.term, ack);
    }
  }

  lemma OwnBehindInit(s: Cluster, t: nat, k: nat)
    requires ReignLogs(s) && t in s.hist.reigns && |s.hist.reigns[t].init| <= k < |s.hist.reigns[t].log|
    ensures Own(s, t, k)
  {
    hide Rooted;
    assert ValidReign(s.hist.reigns, t, s.hist.reigns[t]);
  }

  // ---- every action ----

  lemma CountKeeps(s: Cluster, ask: Ask)
    requires Solid(s) && Surviving(s) && AllKeep(s) && Enabled(s, CountVote(ask))
    ensures AllKeep(AfterCount(s, ask))
  {
    hide AllSound, AllFlat, Voting, PeerLogs, ReignLogs, CandidateLogs, VoterLogs, Messages, Acks, Retention, Inheritance, VotesWise,
         AsksTrue, Crowning, Still, AfterCount, AllKeep;
    if AfterCount(s, ask).hist == s.hist {
      CountStill(s, ask);
      StillKeeps(s, AfterCount(s, ask));
    } else {
      CountCrowning(s, ask);
      CrownKeeps(s, AfterCount(s, ask), ask.cand, ask.term);
    }
  }

  lemma DoStill(s: Cluster, a: Action)
    requires Solid(s) && Surviving(s) && Enabled(s, a) && Uncut(a) && !a.CountVote? && !a.ClientStart? && !a.DeliverAppend?
    ensures Still(s, Do(s, a))
  {
    hide AllSound, AllFlat, VotesKept, CandidaciesVoted, BallotsBacked, TallyCounts, ReignsElected, LeadersReign, Logs, Acks, Retention,
         Inheritance, VotesWise, AsksTrue, AfterElect, AfterVote, AfterReply, AfterApply, Still;
    match a
    case DoElect(i) =>
      NewCandidacy(s, i);
      ElectStill(s, i);
    case DeliverVote(ask) => VoteStill(s, ask);
    case DoSend(i, j) => SentStill(s, i, j);
    case AdoptRefusal(_) => KeptStill(s, a);
    case HandleReply(_) => KeptStill(s, a);
    case DoApply(_) => KeptStill(s, a);
    case Crash(_) => KeptStill(s, a);
  }

  lemma SentStill(s: Cluster, i: nat, j: nat)
    requires Enabled(s, DoSend(i, j))
    ensures Still(s, AfterSend(s, i, j))
  {
    hide MakeAppend;
  }

  lemma AppendStep(s: Cluster, idx: nat)
    requires Solid(s) && Acks(s) && AllKeep(s) && Enabled(s, DeliverAppend(idx))
    ensures AllKeep(AfterAppend(s, idx)) <==> Ahead(s, DeliverAppend(idx))
  {
    hide Solid, Acks, AllKeep, Overtaken, HandleAppend, FullAfter;
    var msg := s.sent[idx];
    var (q, reply) := HandleAppend(s.peers[msg.to], msg.args);
    if Overtaken(s, msg) {
      OvertakenTakes(s, AfterAppend(s, idx), idx, msg, q, reply.success);
    } else {
      AppendKeepsAll(s, AfterAppend(s, idx), idx, msg, q, reply.success);
    }
  }

  /** One step: everyone keeps what it acknowledged exactly if the step is not the delivery of an overtaken message. */
  lemma KeepIffAhead(s: Cluster, a: Action)
    requires Solid(s) && Surviving(s) && AllKeep(s) && Enabled(s, a) && Uncut(a)
    ensures AllKeep(Do(s, a)) <==> Ahead(s, a)
  {
    hide Solid, Acks, Retention, Inheritance, VotesWise, AsksTrue, AllKeep, AfterAppend, AfterCount, AfterStart, Still, Overtaken, Uncut;
    match a
    case CountVote(ask) => CountKeeps(s, ask);
    case ClientStart(i, command) =>
      StartStarting(s, i, command);
      StartKeeps(s, AfterStart(s, i, command), i, s.peers[i].currentTerm);
    case DeliverAppend(idx) => AppendStep(s, idx);
    case _ =>
      hide Do, Enabled;
      DoStill(s, a);
      StillKeeps(s, Do(s, a));
  }

  // ---- whole runs ----

  /** A run without snapshots, with the actions taken. */
  ghost predicate UncutRun(run: seq<Cluster>, steps: seq<Action>) {
    && |run| == |steps| + 1 && Init(run[0])
    && forall k :: 0 <= k < |steps| ==> Enabled(run[k], steps[k]) && Uncut(steps[k]) && run[k + 1] == Do(run[k], steps[k])
  }

  lemma InitKeeps(s: Cluster)
    requires Init(s)
    ensures AllKeep(s)
  {
  }

  lemma {:induction false} AheadKeeps(run: seq<Cluster>, steps: seq<Action>, n: nat)
    requires UncutRun(run, steps) && n <= |steps| && forall k :: 0 <= k < n ==> Ahead(run[k], steps[k])
    ensures Safe(run[n]) && AllKeep(run[n])
  {
    hide Solid, Surviving, Committing, AllKeep, Ahead, Enabled, Do, Init, Uncut;
    if n == 0 {
      InitSurviving(run[0]);
      InitCommitting(run[0]);
      InitKeeps(run[0]);
    } else {
      var s, a := run[n - 1], steps[n - 1];
      AheadKeeps(run, steps, n - 1);
      DoSurviving(s, a);
      DoCommitting(s, a);
      KeepIffAhead(s, a);
    }
  }

  lemma {:induction false} KeepersAhead(run: seq<Cluster>, steps: seq<Action>, n: nat)
    requires UncutRun(run, steps) && n <= |steps| && forall k :: 0 <= k < |run| ==> AllKeep(run[k])
    ensures forall k :: 0 <= k < n ==> Ahead(run[k], steps[k])
  {
    hide Safe, AllKeep, Ahead, Enabled, Do, Init, Uncut;
    if n > 0 {
      KeepersAhead(run, steps, n - 1);
      AheadKeeps(run, steps, n - 1);
      assert AllKeep(run[n - 1 + 1]);
      SafeParts(run[n - 1]);
      KeepIffAhead(run[n - 1], steps[n - 1]);
    }
  }

  lemma SafeParts(s: Cluster)
    requires Safe(s)
    ensures Solid(s) && Surviving(s)
  {
  }

  /** Over whole runs: everyone keeps what it acknowledged at every moment if and only if no overtaken append is ever
      delivered. */
  lemma AllKeepIffAllAhead(run: seq<Cluster>, steps: seq<Action>)
    requires UncutRun(run, steps)
    ensures (forall k :: 0 <= k < |run| ==> AllKeep(run[k])) <==> (forall k :: 0 <= k < |steps| ==> Ahead(run[k], steps[k]))
  {
    hide Safe, AllKeep, Ahead, Enabled, Do, Init, Uncut;
    if forall k :: 0 <= k < |steps| ==> Ahead(run[k], steps[k]) {
      forall k | 0 <= k < |run| ensures AllKeep(run[k]) {
        AheadKeeps(run, steps, k);
      }
    }
    if forall k :: 0 <= k < |run| ==> AllKeep(run[k]) {
      KeepersAhead(run, steps, |steps|);
    }
  }
}
