/** Delivery in the order of sending is one way to meet the condition of the commit theorems: messages of a term reach
    further and further, so a later one reaches beyond what earlier ones were acknowledged for. */
module RaftOrder {
  import opened RaftPeer
  import opened RaftCluster
  import opened RaftElection
  import opened RaftLogs
  import opened RaftCommit

  function CursorOf(s: Cluster, term: nat, v: nat): nat {
    if At(term, v) in s.hist.cursor then s.hist.cursor[At(term, v)] else 0
  }

  /** Messages of a term reach further and further, and what may still be delivered reaches beyond what was
      acknowledged. */
  ghost predicate InOrder(s: Cluster) {
    && (forall a, b :: 0 <= a < b < |s.sent| && s.sent[a].args.term == s.sent[b].args.term ==>
          EndOf(s.sent[a].args) <= EndOf(s.sent[b].args))
    && (forall a :: 0 <= a < |s.sent| && CursorOf(s, s.sent[a].args.term, s.sent[a].to) <= a ==>
          AckOf(s, s.sent[a].args.term, s.sent[a].to) < EndOf(s.sent[a].args))
  }

  lemma OrderedIsAhead(s: Cluster, a: Action)
    requires InOrder(s) && Ordered(s, a)
    ensures Ahead(s, a)
  {
  }

  /** Neither messages nor what is acknowledged of them changes. */
  lemma SameOrder(s: Cluster, s': Cluster)
    requires InOrder(s) && s'.sent == s.sent && s'.hist.acks == s.hist.acks && s'.hist.cursor == s.hist.cursor
    ensures InOrder(s')
  {
  }

  /** A leader's own acknowledgement concerns no message. */
  lemma LeaderOrder(s: Cluster, s': Cluster, i: nat, term: nat)
    requires InOrder(s) && Messages(s) && s'.sent == s.sent && s'.hist.cursor == s.hist.cursor
    requires term in s.hist.reigns ==> s.hist.reigns[term].leader == i
    requires At(term, i) in s'.hist.acks && s'.hist.acks == s.hist.acks[At(term, i) := s'.hist.acks[At(term, i)]]
    ensures InOrder(s')
  {
    forall a | 0 <= a < |s'.sent| && CursorOf(s', s'.sent[a].args.term, s'.sent[a].to) <= a
      ensures AckOf(s', s'.sent[a].args.term, s'.sent[a].to) < EndOf(s'.sent[a].args)
    {
      assert MessageOk(s, s.sent[a]);
    }
  }

  lemma SendOrder(s: Cluster, i: nat, j: nat)
    requires Solid(s) && Acks(s) && InOrder(s) && Enabled(s, DoSend(i, j))
    ensures InOrder(AfterSend(s, i, j))
  {
    hide AllSound, AllFlat, Voting, PeerLogs, ReignLogs, CandidateLogs, VoterLogs, MakeAppend;
    var s', n := AfterSend(s, i, j), |s.sent|;
    SendMessage(s, i, j);
    var args := s'.sent[n].args;
    forall a | 0 <= a < n && s.sent[a].args.term == args.term ensures EndOf(s.sent[a].args) <= EndOf(args) {
      assert MessageOk(s, s.sent[a]);
    }
    if At(args.term, j) in s.hist.acks {
      assert AckOk(s, At(args.term, j));
    }
  }

  lemma AppendOrder(s: Cluster, idx: nat)
    requires Enabled(s, DeliverAppend(idx)) && InOrder(s) && Ordered(s, DeliverAppend(idx))
    ensures InOrder(AfterAppend(s, idx))
  {
    hide HandleAppend, FullAfter;
    var s', msg := AfterAppend(s, idx), s.sent[idx];
    forall a | 0 <= a < |s'.sent| && CursorOf(s', s'.sent[a].args.term, s'.sent[a].to) <= a
      ensures AckOf(s', s'.sent[a].args.term, s'.sent[a].to) < EndOf(s'.sent[a].args)
    {
      if s'.sent[a].args.term == msg.args.term && s'.sent[a].to == msg.to {
        assert EndOf(s.sent[idx].args) <= EndOf(s.sent[a].args);
      }
    }
  }

  lemma CountOrder(s: Cluster, ask: Ask)
    requires Solid(s) && InOrder(s) && Enabled(s, CountVote(ask))
    ensures InOrder(AfterCount(s, ask))
  {
    hide AllSound, AllFlat, Voting, PeerLogs, ReignLogs, CandidateLogs, VoterLogs, Messages, InOrder, HandleVoteReply, Tally;
    var s' := AfterCount(s, ask);
    if s'.hist == s.hist {
      SameOrder(s, s');
    } else {
      LeaderOrder(s, s', ask.cand, s.ballots[ask].args.term);
    }
  }

  lemma StartOrder(s: Cluster, i: nat, command: Command)
    requires Solid(s) && InOrder(s) && Enabled(s, ClientStart(i, command))
    ensures InOrder(AfterStart(s, i, command))
  {
    hide AllSound, AllFlat, Voting, PeerLogs, ReignLogs, CandidateLogs, VoterLogs, Messages, InOrder, AfterStart;
    StartStep(s, i, command);
    LeaderOrder(s, AfterStart(s, i, command), i, s.peers[i].currentTerm);
  }

  lemma DoInOrder(s: Cluster, a: Action)
    requires Solid(s) && Acks(s) && InOrder(s) && Enabled(s, a) && Uncut(a) && Ordered(s, a)
    ensures InOrder(Do(s, a))
  {
    hide Solid, Acks, InOrder, HandleAppend, HandleAppendReply, HandleVote, HandleVoteReply, HandleRefusal, Elect, MakeAppend,
         Tally, Asks, Start, MakeSnap, AfterAppend, AfterCount, AfterStart, AfterSend, Ordered, Uncut;
    match a
    case CountVote(ask) => CountOrder(s, ask);
    case DoSend(i, j) => SendOrder(s, i, j);
    case DeliverAppend(idx) => AppendOrder(s, idx);
    case ClientStart(i, command) => StartOrder(s, i, command);
    case _ => SameOrder(s, Do(s, a));
  }

  lemma InitInOrder(s: Cluster)
    requires Init(s)
    ensures InOrder(s)
  {
  }
}
