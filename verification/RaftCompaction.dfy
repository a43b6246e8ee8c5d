/** A peer whose log has been cut by snapshots behaves like one that kept everything: the two stay in step
    through every handler, and a snapshot is invisible. Where a handler may part them, the condition is exact. */
module RaftCompaction {
  import opened RaftPeer

  // ---- the shape every handler keeps ----

  /** Non-empty log, consistent length, and the first slot's term that of the snapshot, now and as saved. */
  predicate Whole(p: Peer) {
    Shaped(p) && p.saved.log != [] && p.saved.log[0].term == p.saved.lastIncludedTerm
  }

  lemma FreshWhole(me: nat, peers: nat, p: Peer)
    requires Whole(p)
    ensures Whole(Fresh(me, peers)) && Whole(Restart(p))
  {
  }

  lemma ElectionsKeepWhole(p: Peer, vote: VoteArgs, reply: VoteReply)
    requires Whole(p)
    ensures Whole(Elect(p).0) && Whole(HandleVote(p, vote).0) && Whole(HandleVoteReply(p, vote, reply)) && Whole(HandleRefusal(p, reply))
  {
  }

  lemma ReplicationKeepsWhole(p: Peer, i: nat, args: AppendArgs, reply: AppendReply, command: Command)
    requires Whole(p)
    ensures Reaches(p, args) ==> Whole(HandleAppend(p, args).0)
    ensures i < |p.nextIndex| && i < |p.matchIndex| ==>
      Whole(HandleAppendReply(p, i, args, reply))
    ensures Whole(Start(p, command).0) && Whole(Apply(p).0)
  {
    hide CommitScan, BackUp, FirstWithTerm;
  }

  lemma SnapshotsKeepWhole(p: Peer, i: nat, index: int, snapshot: int, args: SnapshotArgs, term: nat)
    requires Whole(p)
    ensures p.lastIncludedIndex <= index < p.logLength ==> Whole(TakeSnapshot(p, index, snapshot))
    ensures Whole(InstallSnapshot(p, args).0)
    ensures i < |p.nextIndex| ==> Whole(HandleSnapshotReply(p, i, args, term))
  {
  }

  // ---- a compacted log and the full one ----

  /** `log` is `full` from entry `base` on, except that the command of that entry itself may be forgotten. */
  ghost predicate Compacts(log: Log, base: nat, full: Log) {
    && base < |full| && |log| == |full| - base && log[0].term == full[base].term
    && forall k :: 1 <= k < |log| ==> log[k] == full[base + k]
  }

  /** p is P with its log cut at a snapshot; everything else about them is the same. */
  ghost predicate Refines(p: Peer, P: Peer) {
    && Whole(p) && Whole(P) && P.lastIncludedIndex == 0 && P.saved.lastIncludedIndex == 0
    && p.(log := P.log, lastIncludedIndex := 0, lastIncludedTerm := P.lastIncludedTerm, snapshot := P.snapshot, saved := P.saved) == P
    && Compacts(p.log, p.lastIncludedIndex, P.log)
    && p.saved.currentTerm == P.saved.currentTerm && p.saved.votedFor == P.saved.votedFor
    && Compacts(p.saved.log, p.saved.lastIncludedIndex, P.saved.log)
  }

  lemma TermAt(log: Log, base: nat, full: Log, n: nat)
    requires Compacts(log, base, full) && base <= n < |full|
    ensures log[n - base].term == full[n].term
  {
    assert n > base ==> log[n - base] == full[base + (n - base)];
  }

  lemma Cut(log: Log, base: nat, full: Log, m: nat)
    requires Compacts(log, base, full) && base < m <= |full|
    ensures Compacts(log[..m - base], base, full[..m])
  {
  }

  lemma Extend(log: Log, base: nat, full: Log, entries: Log)
    requires Compacts(log, base, full)
    ensures Compacts(log + entries, base, full + entries)
  {
  }

  // ---- elections ----

  lemma VotesAlike(p: Peer, P: Peer, args: VoteArgs)
    requires Refines(p, P)
    ensures Refines(HandleVote(p, args).0, HandleVote(P, args).0) && HandleVote(p, args).1 == HandleVote(P, args).1
    ensures Refines(Elect(p).0, Elect(P).0) && Elect(p).1 == Elect(P).1
  {
    hide Compacts;
    TermAt(p.log, p.lastIncludedIndex, P.log, p.logLength - 1);
  }

  lemma RestartsAlike(p: Peer, P: Peer)
    requires Refines(p, P)
    ensures Refines(Restart(p), Restart(P))
  {
  }

  // ---- the leader ----

  lemma SendsAlike(p: Peer, P: Peer, i: nat)
    requires Refines(p, P) && i < |p.nextIndex| && p.lastIncludedIndex < p.nextIndex[i] <= p.logLength
    ensures MakeAppend(p, i) == MakeAppend(P, i)
  {
    TermAt(p.log, p.lastIncludedIndex, P.log, p.nextIndex[i] - 1);
    var next := p.nextIndex[i] - p.lastIncludedIndex;
    assert p.log[next..] == P.log[p.nextIndex[i]..];
  }

  lemma StartsAlike(p: Peer, P: Peer, command: Command)
    requires Refines(p, P)
    ensures Refines(Start(p, command).0, Start(P, command).0) && Start(p, command).1 == Start(P, command).1
  {
    hide Compacts;
    Extend(p.log, p.lastIncludedIndex, P.log, [LogEntry(p.currentTerm, command)]);
  }

  lemma BackersAlike(p: Peer, P: Peer, n: int)
    requires Refines(p, P) && n < p.logLength && !LooksBehind(p, n)
    ensures Backers(p, n) == Backers(P, n)
  {
    if n >= p.lastIncludedIndex {
      TermAt(p.log, p.lastIncludedIndex, P.log, n);
    }
  }

  lemma {:induction false} ScansAlike(p: Peer, P: Peer, n: int)
    requires Refines(p, P) && n < p.logLength && !ScanStops(p, n)
    ensures CommitScan(p, n) == CommitScan(P, n)
    decreases n - p.commitIndex
  {
    hide Refines, Backers, LooksBehind;
    SameFrame(p, P);
    if n > p.commitIndex {
      BackersAlike(p, P, n);
      if |Backers(p, n)| <= p.peers / 2 {
        ScansAlike(p, P, n - 1);
      }
    }
  }

  lemma SameFrame(p: Peer, P: Peer)
    requires Refines(p, P)
    ensures Shaped(p) && Shaped(P) && P.logLength == p.logLength && P.commitIndex == p.commitIndex && P.peers == p.peers
  {
  }

  /** A peer that has applied less than its snapshot covers, as after a restart, skips to the snapshot when it next
      commits; one that kept everything goes on from where it is. */
  predicate Behind(p: Peer) {
    p.lastIncludedIndex > 0 && p.lastApplied < p.lastIncludedIndex
  }

  /** An accepted append commits the same entries; the two stay in step exactly unless that makes one of them skip. */
  lemma CommitsAlikeIff(p: Peer, P: Peer, i: nat, args: AppendArgs, reply: AppendReply)
    requires Refines(p, P) && i < |p.nextIndex| && i < |p.matchIndex| && reply.success && !ReplyStops(p, i, args, reply)
    ensures HandleAppendReply(p, i, args, reply).commitIndex == HandleAppendReply(P, i, args, reply).commitIndex
    ensures Refines(HandleAppendReply(p, i, args, reply), HandleAppendReply(P, i, args, reply)) <==>
      HandleAppendReply(p, i, args, reply).commitIndex == p.commitIndex || !Behind(p)
  {
    hide Compacts, CommitScan, Backers, ScanStops;
    if p.currentTerm == args.term && reply.term <= args.term && args.entries != [] {
      ScansAlike(Noted(p, i, args), Noted(P, i, args), p.logLength - 1);
    }
  }

  /** A term that first occurs at or after the base is found there; one that never occurs is not found. */
  lemma SearchAlike(log: Log, base: nat, full: Log, term: int)
    requires Compacts(log, base, full)
    ensures FirstWithTerm(full, term) == -1 ==> FirstWithTerm(log, term) == -1
    ensures FirstWithTerm(full, term) >= base ==> FirstWithTerm(log, term) == FirstWithTerm(full, term) - base
  {
    hide Compacts, FirstWithTerm;
    var j, J := FirstWithTerm(log, term), FirstWithTerm(full, term);
    CompactLength(log, base, full);
    if j >= 0 {
      TermAt(log, base, full, base + j);
    }
    if J >= base {
      TermAt(log, base, full, J);
    }
  }

  lemma CompactLength(log: Log, base: nat, full: Log)
    requires Compacts(log, base, full)
    ensures |full| == base + |log|
  {
  }

  /** After a refusal that names a term the leader looks for it; what it finds is the same unless the term first
      occurs behind the snapshot. */
  predicate SearchesAlike(p: Peer, P: Peer, reply: AppendReply) {
    var J := FirstWithTerm(P.log, reply.xTerm);
    || reply.xTerm == -1 || J == -1 || J >= p.lastIncludedIndex
    || (FirstWithTerm(p.log, reply.xTerm) == -1 && reply.xIndex == J + 1)
  }

  lemma BackUpAlikeIff(p: Peer, P: Peer, reply: AppendReply)
    requires Refines(p, P)
    ensures BackUp(p, reply) == BackUp(P, reply) <==> SearchesAlike(p, P, reply)
  {
    hide Compacts, FirstWithTerm;
    SearchAlike(p.log, p.lastIncludedIndex, P.log, reply.xTerm);
  }

  /** Any reply but an accepted append: the two stay in step exactly if it is no refusal to act on, or the search
      comes out alike. */
  lemma RefusedAlikeIff(p: Peer, P: Peer, i: nat, args: AppendArgs, reply: AppendReply)
    requires Refines(p, P) && i < |p.nextIndex| && i < |p.matchIndex| && !reply.success
    ensures Refines(HandleAppendReply(p, i, args, reply), HandleAppendReply(P, i, args, reply)) <==>
      p.currentTerm != args.term || args.term < reply.term || SearchesAlike(p, P, reply)
  {
    hide Compacts, BackUp, SearchesAlike;
    BackUpAlikeIff(p, P, reply);
    if p.currentTerm == args.term && args.term >= reply.term {
      var q, Q := HandleAppendReply(p, i, args, reply), HandleAppendReply(P, i, args, reply);
      assert q.nextIndex[i] == BackUp(p, reply) && Q.nextIndex[i] == BackUp(P, reply);
    }
  }

  // ---- the follower ----

  /** The message conflicts with the last entry the snapshot covers. */
  predicate ConflictsAtBase(p: Peer, args: AppendArgs) {
    p.lastIncludedIndex > 0 && args.prevLogIndex == p.lastIncludedIndex && args.term >= p.currentTerm && args.prevLogTerm != p.lastIncludedTerm
  }

  lemma AdoptsAlike(p: Peer, P: Peer, term: nat)
    requires Refines(p, P)
    ensures Refines(AdoptForAppend(p, term), AdoptForAppend(P, term))
  {
  }

  /** A message is taken or refused alike, wherever the log was cut. */
  lemma AcceptsAlike(p: Peer, P: Peer, args: AppendArgs)
    requires Refines(p, P) && Reaches(p, args)
    ensures var r, R := HandleAppend(p, args).1, HandleAppend(P, args).1;
      r.success == R.success && r.term == R.term && r.xTerm == R.xTerm && r.xLen == R.xLen
  {
    hide FirstWithTerm, Compacts;
    if p.currentTerm <= args.term && args.prevLogIndex < p.logLength {
      TermAt(p.log, p.lastIncludedIndex, P.log, args.prevLogIndex);
    }
  }

  /** The first entry of a term, seen through a compacted log. */
  lemma FirstAlike(log: Log, base: nat, full: Log, n: nat)
    requires Compacts(log, base, full) && base <= n < |full|
    ensures FirstWithTerm(log, full[n].term) + base >= FirstWithTerm(full, full[n].term) >= 0
    ensures FirstWithTerm(full, full[n].term) >= base ==> FirstWithTerm(log, full[n].term) + base == FirstWithTerm(full, full[n].term)
  {
    TermAt(log, base, full, n);
    var j := FirstWithTerm(log, full[n].term);
    TermAt(log, base, full, j + base);
    var i := FirstWithTerm(full, full[n].term);
    if i >= base {
      TermAt(log, base, full, i);
    }
  }

  /** A refusal points at the same entry, or at the snapshot if the full log's answer lies behind it. */
  lemma RefusesAlike(p: Peer, P: Peer, args: AppendArgs)
    requires Refines(p, P) && Reaches(p, args)
    ensures var r, R := HandleAppend(p, args).1, HandleAppend(P, args).1;
      R.xIndex <= r.xIndex && (R.xIndex >= p.lastIncludedIndex ==> r.xIndex == R.xIndex)
  {
    hide FirstWithTerm, Compacts;
    if p.currentTerm <= args.term && args.prevLogIndex < p.logLength {
      TermAt(p.log, p.lastIncludedIndex, P.log, args.prevLogIndex);
      FirstAlike(p.log, p.lastIncludedIndex, P.log, args.prevLogIndex);
    }
  }

  /** The message lets the peer commit, and it skips to its snapshot. */
  predicate SkipsOn(p: Peer, args: AppendArgs)
    requires Shaped(p) && Reaches(p, args)
  {
    HandleAppend(p, args).1.success && args.leaderCommit > p.commitIndex && Behind(p)
  }

  lemma TakesAlike(p: Peer, P: Peer, args: AppendArgs)
    requires Refines(p, P) && Reaches(p, args) && HandleAppend(p, args).1.success
    ensures Refines(HandleAppend(p, args).0, HandleAppend(P, args).0) <==> !SkipsOn(p, args)
  {
    hide FirstWithTerm, Compacts;
    AcceptsAlike(p, P, args);
    AdoptsAlike(p, P, args.term);
    Cut(p.log, p.lastIncludedIndex, P.log, args.prevLogIndex + 1);
    var c := args.prevLogIndex - p.lastIncludedIndex;
    Extend(p.log[..c + 1], p.lastIncludedIndex, P.log[..args.prevLogIndex + 1], args.entries);
  }

  /** The two logs are cut alike by a conflict, unless it is on the snapshot's own last entry. */
  lemma DropsAlike(p: Peer, P: Peer, args: AppendArgs)
    requires Refines(p, P) && Reaches(p, args) && !HandleAppend(p, args).1.success
    ensures Refines(HandleAppend(p, args).0, HandleAppend(P, args).0) <==> !ConflictsAtBase(p, args)
  {
    hide FirstWithTerm, Compacts;
    AcceptsAlike(p, P, args);
    AdoptsAlike(p, P, args.term);
    if args.term < p.currentTerm {
    } else if args.prevLogIndex > p.lastIncludedIndex && args.prevLogIndex < p.logLength {
      Cut(p.log, p.lastIncludedIndex, P.log, args.prevLogIndex);
    } else if args.prevLogIndex == 0 {
      Cut(p.log, 0, P.log, 1);
    } else if args.prevLogIndex == p.lastIncludedIndex {
      TooShort(p.log[..1], p.lastIncludedIndex, P.log[..args.prevLogIndex]);
    }
  }

  lemma TooShort(log: Log, base: nat, full: Log)
    requires |full| <= base
    ensures !Compacts(log, base, full)
  {
  }

  /** The whole of a heartbeat: in step before, in step after, exactly unless it conflicts at the base or makes a peer
      that is behind its snapshot commit. */
  lemma AppendsAlikeIff(p: Peer, P: Peer, args: AppendArgs)
    requires Refines(p, P) && Reaches(p, args)
    ensures Refines(HandleAppend(p, args).0, HandleAppend(P, args).0) <==> !ConflictsAtBase(p, args) && !SkipsOn(p, args)
  {
    hide Compacts, HandleAppend;
    if HandleAppend(p, args).1.success {
      TakesAlike(p, P, args);
      SuccessNoConflict(p, args);
    } else {
      DropsAlike(p, P, args);
    }
  }

  lemma SuccessNoConflict(p: Peer, args: AppendArgs)
    requires Whole(p) && Reaches(p, args) && HandleAppend(p, args).1.success
    ensures !ConflictsAtBase(p, args)
  {
  }

  // ---- applying and snapshots ----

  /** The same command is applied at the same index. */
  lemma AppliesAlike(p: Peer, P: Peer)
    requires Refines(p, P) && p.lastIncludedIndex <= p.lastApplied < p.commitIndex && p.lastApplied + 1 < p.logLength
    ensures Refines(Apply(p).0, Apply(P).0) && Apply(p).1 == Apply(P).1
    ensures p.log[Apply(p).1 - p.lastIncludedIndex].command == P.log[Apply(P).1].command
  {
    var k := p.lastApplied + 1 - p.lastIncludedIndex;
    assert p.log[k] == P.log[p.lastIncludedIndex + k];
  }

  lemma CompactsFurther(log: Log, base: nat, full: Log, base': nat)
    requires Compacts(log, base, full) && base <= base' < |full|
    ensures Compacts(log[base' - base..], base', full)
  {
    TermAt(log, base, full, base');
    var rest := log[base' - base..];
    forall k | 1 <= k < |rest| ensures rest[k] == full[base' + k] {
      assert log[base' - base + k] == full[base + (base' - base + k)];
    }
  }

  /** To the peer that kept everything, a snapshot is a save and nothing more. */
  lemma SnapshotInvisible(p: Peer, P: Peer, index: int, snapshot: int)
    requires Refines(p, P) && p.lastIncludedIndex <= index < p.logLength
    ensures Refines(TakeSnapshot(p, index, snapshot), Persist(P))
  {
    hide Compacts;
    CompactsFurther(p.log, p.lastIncludedIndex, P.log, index);
  }

  /** `prefix` is a log the snapshot stands for. */
  ghost predicate StandsFor(args: SnapshotArgs, prefix: Log) {
    |prefix| == args.lastIncludedIndex + 1 && prefix[args.lastIncludedIndex].term == args.lastIncludedTerm
  }

  /** The full log has the snapshot's last entry. */
  ghost predicate Agrees(P: Peer, args: SnapshotArgs) {
    args.lastIncludedIndex < |P.log| && P.log[args.lastIncludedIndex].term == args.lastIncludedTerm
  }

  /** A snapshot sent to a peer that keeps everything comes with the log it stands for. The peer's own log stays if it
      agrees with the snapshot's last entry, and becomes that log if it does not. */
  ghost function InstallFull(P: Peer, args: SnapshotArgs, prefix: Log): (Peer, nat)
    requires prefix != []
  {
    if args.term < P.currentTerm then (P, P.currentTerm)
    else
      var Q := if args.term > P.currentTerm then P.(currentTerm := args.term, votedFor := -1, role := Follower) else P;
      var log := if Agrees(P, args) then Q.log else prefix;
      (Persist(Q.(log := log, logLength := |log|, lastIncludedTerm := if Agrees(P, args) then Q.lastIncludedTerm else log[0].term,
                  lastApplied := Max(Q.lastApplied, args.lastIncludedIndex),
                  commitIndex := Max(Q.commitIndex, args.lastIncludedIndex))), P.currentTerm)
  }

  /** For a snapshot no older than its own, the compacting peer sees exactly what the full log says. */
  lemma KeepsIffAgrees(p: Peer, P: Peer, args: SnapshotArgs)
    requires Refines(p, P) && p.lastIncludedIndex <= args.lastIncludedIndex
    ensures KeepsSuffix(p, args) <==> Agrees(P, args)
  {
    if args.lastIncludedIndex < |P.log| {
      TermAt(p.log, p.lastIncludedIndex, P.log, args.lastIncludedIndex);
    }
  }

  lemma InstallKeeps(p: Peer, P: Peer, args: SnapshotArgs, prefix: Log)
    requires Refines(p, P) && StandsFor(args, prefix) && args.term >= p.currentTerm && KeepsSuffix(p, args) && Agrees(P, args)
    ensures Refines(InstallSnapshot(p, args).0, InstallFull(P, args, prefix).0)
  {
    hide Compacts;
    CompactsFurther(p.log, p.lastIncludedIndex, P.log, args.lastIncludedIndex);
  }

  lemma InstallReplaces(p: Peer, P: Peer, args: SnapshotArgs, prefix: Log)
    requires Refines(p, P) && StandsFor(args, prefix) && args.term >= p.currentTerm && !KeepsSuffix(p, args) && !Agrees(P, args)
    ensures Refines(InstallSnapshot(p, args).0, InstallFull(P, args, prefix).0)
  {
    hide Compacts;
    OnlyTheEnd(args, prefix);
  }

  lemma OnlyTheEnd(args: SnapshotArgs, prefix: Log)
    requires StandsFor(args, prefix)
    ensures Compacts([LogEntry(args.lastIncludedTerm, 0)], args.lastIncludedIndex, prefix)
  {
  }

  lemma InstallsNewer(p: Peer, P: Peer, args: SnapshotArgs, prefix: Log)
    requires Refines(p, P) && StandsFor(args, prefix) && args.term >= p.currentTerm
    requires p.lastIncludedIndex <= args.lastIncludedIndex || !Agrees(P, args)
    ensures Refines(InstallSnapshot(p, args).0, InstallFull(P, args, prefix).0)
  {
    hide Compacts, InstallSnapshot, InstallFull;
    if p.lastIncludedIndex <= args.lastIncludedIndex {
      KeepsIffAgrees(p, P, args);
    }
    if KeepsSuffix(p, args) {
      InstallKeeps(p, P, args, prefix);
    } else {
      InstallReplaces(p, P, args, prefix);
    }
  }

  /** An older snapshot makes the compacting peer throw away a log that the other peer keeps. */
  lemma InstallsOlder(p: Peer, P: Peer, args: SnapshotArgs, prefix: Log)
    requires Refines(p, P) && StandsFor(args, prefix) && args.term >= p.currentTerm
    requires args.lastIncludedIndex < p.lastIncludedIndex && Agrees(P, args)
    ensures !Refines(InstallSnapshot(p, args).0, InstallFull(P, args, prefix).0)
  {
    assert InstallSnapshot(p, args).0.logLength == args.lastIncludedIndex + 1 < |P.log|;
    assert InstallFull(P, args, prefix).0.logLength == |P.log|;
  }

  /** Installing keeps the two peers in step exactly unless the snapshot is older than the peer's own and the full log
      still has its last entry. A stale one always does. */
  lemma InstallsAlikeIff(p: Peer, P: Peer, args: SnapshotArgs, prefix: Log)
    requires Refines(p, P) && StandsFor(args, prefix)
    ensures InstallSnapshot(p, args).1 == InstallFull(P, args, prefix).1
    ensures Refines(InstallSnapshot(p, args).0, InstallFull(P, args, prefix).0) <==>
            args.term < p.currentTerm || p.lastIncludedIndex <= args.lastIncludedIndex || !Agrees(P, args)
  {
    hide Compacts, Rebased, Whole;
    if args.term >= p.currentTerm {
      if p.lastIncludedIndex <= args.lastIncludedIndex || !Agrees(P, args) {
        InstallsNewer(p, P, args, prefix);
      } else {
        InstallsOlder(p, P, args, prefix);
      }
    }
  }

  // ---- sending snapshots ----

  /** What is sent in a snapshot stands for the beginning of the full log. */
  lemma SnapshotStands(p: Peer, P: Peer)
    requires Refines(p, P)
    ensures p.lastIncludedIndex < |P.log|
    ensures StandsFor(SnapshotArgs(p.currentTerm, p.me, p.lastIncludedIndex, p.lastIncludedTerm, p.snapshot), P.log[..p.lastIncludedIndex + 1])
  {
  }

  /** A peer that keeps everything and sent a log in a snapshot's place goes on right behind what it sent. */
  function SnapshotReplyFull(P: Peer, i: nat, args: SnapshotArgs, replyTerm: nat): Peer
    requires i < |P.nextIndex|
  {
    if P.currentTerm != args.term then P
    else
      var Q := if replyTerm > P.currentTerm then Persist(P.(role := Follower, currentTerm := replyTerm)) else P;
      Q.(nextIndex := Q.nextIndex[i := args.lastIncludedIndex + 1])
  }

  /** The reply to a snapshot keeps the two in step exactly if it is stale or no other snapshot has come since. */
  lemma SnapshotRepliesAlikeIff(p: Peer, P: Peer, i: nat, args: SnapshotArgs, replyTerm: nat)
    requires Refines(p, P) && i < |p.nextIndex|
    ensures Refines(HandleSnapshotReply(p, i, args, replyTerm), SnapshotReplyFull(P, i, args, replyTerm)) <==>
      p.currentTerm != args.term || args.lastIncludedIndex == p.lastIncludedIndex
  {
    hide Compacts;
    if p.currentTerm == args.term {
      assert HandleSnapshotReply(p, i, args, replyTerm).nextIndex[i] == p.lastIncludedIndex + 1;
      assert SnapshotReplyFull(P, i, args, replyTerm).nextIndex[i] == args.lastIncludedIndex + 1;
    }
  }
}
