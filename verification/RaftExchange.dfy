/** One append and its reply, in the terms of global indices, between peers whose logs may have been cut. */
module RaftExchange {
  import opened RaftPeer
  import opened RaftTraces

  /** A message holds everything the leader has from the follower's next index on, with what comes just before it and how
      far the leader has committed. */
  lemma MessageHolds(p: Peer, i: nat)
    requires Shaped(p) && i < |p.nextIndex| && p.lastIncludedIndex < p.nextIndex[i] <= p.logLength
    ensures var m := MakeAppend(p, i);
      && m.term == p.currentTerm && m.leaderId == p.me && m.leaderCommit == p.commitIndex
      && m.prevLogIndex + 1 == p.nextIndex[i] && Holds(p, m.prevLogIndex) && EntryAt(p, m.prevLogIndex).term == m.prevLogTerm
      && m.prevLogIndex + |m.entries| + 1 == p.logLength
      && forall n :: p.nextIndex[i] <= n < p.logLength ==> m.entries[n - p.nextIndex[i]] == EntryAt(p, n)
  {
  }

  /** A message is accepted exactly if it is not stale and the follower has the entry before it. Then the follower holds,
      from there on, exactly what the message carries, or what it held if the message carries nothing; and its commit
      index is raised as far as the leader's and its own log allow, never beyond either. */
  lemma AcceptedIff(f: Peer, m: AppendArgs)
    requires Shaped(f) && Reaches(f, m)
    ensures var (q, r) := HandleAppend(f, m);
      && (r.success <==> f.currentTerm <= m.term && Holds(f, m.prevLogIndex) && EntryAt(f, m.prevLogIndex).term == m.prevLogTerm)
      && (r.success ==>
            && Shaped(q) && q.lastIncludedIndex == f.lastIncludedIndex
            && (m.entries == [] ==> q.log == f.log)
            && (m.entries != [] ==>
                  && q.logLength == m.prevLogIndex + 1 + |m.entries|
                  && (forall n :: f.lastIncludedIndex <= n <= m.prevLogIndex ==> EntryAt(q, n) == EntryAt(f, n))
                  && (forall k :: 0 <= k < |m.entries| ==> EntryAt(q, m.prevLogIndex + 1 + k) == m.entries[k]))
            && (m.leaderCommit <= f.commitIndex ==> q.commitIndex == f.commitIndex)
            && (m.leaderCommit > f.commitIndex ==>
                  && q.commitIndex <= m.leaderCommit && q.commitIndex < q.logLength
                  && (q.commitIndex == m.leaderCommit || q.commitIndex + 1 == q.logLength)))
      && (!r.success ==> q.commitIndex == f.commitIndex && q.lastApplied == f.lastApplied)
  {
    hide FirstWithTerm;
  }

  /** After an accepted message with entries and its reply, leader and follower hold the same entries from the message's
      first on to the end of both logs, and the leader's tables say exactly that. */
  lemma ExchangeSyncs(p: Peer, f: Peer, i: nat)
    requires Shaped(p) && Shaped(f) && i < |p.nextIndex| && i < |p.matchIndex| && p.lastIncludedIndex < p.nextIndex[i] < p.logLength
    requires Reaches(f, MakeAppend(p, i)) && f.currentTerm <= p.currentTerm
    requires Holds(f, p.nextIndex[i] - 1) && EntryAt(f, p.nextIndex[i] - 1).term == EntryAt(p, p.nextIndex[i] - 1).term
    ensures var m := MakeAppend(p, i);
      var (q, r) := HandleAppend(f, m);
      var p' := HandleAppendReply(p, i, m, r);
      && r.success && q.logLength == p.logLength == p'.logLength && p'.log == p.log
      && (forall n :: p.nextIndex[i] <= n < p.logLength ==> Holds(q, n) && EntryAt(q, n) == EntryAt(p, n))
      && |p'.matchIndex| == |p.matchIndex| && |p'.nextIndex| == |p.nextIndex|
      && p'.matchIndex[i] == q.logLength - 1 && p'.nextIndex[i] == q.logLength
      && forall j :: 0 <= j < |p.matchIndex| && j != i ==> p'.matchIndex[j] == p.matchIndex[j]
  {
    hide HandleAppend, MakeAppend, CommitScan, EntryAt;
    var m := MakeAppend(p, i);
    MessageHolds(p, i);
    AcceptedIff(f, m);
    TermUnraised(f, m);
  }

  lemma TermUnraised(f: Peer, m: AppendArgs)
    requires Shaped(f) && Reaches(f, m)
    ensures HandleAppend(f, m).1.term == f.currentTerm
  {
    hide FirstWithTerm;
  }
}
