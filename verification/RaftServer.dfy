/** A Raft peer as the object it is: fields that handlers update in place. Every region of code that runs
    under the lock is a method, proved to do to the fields what its function in `RaftPeer` does to a value. */
module RaftServer {
  import opened RaftPeer

  datatype Outgoing = Append(args: AppendArgs) | Snapshot(snap: SnapshotArgs) | Nothing

  class Raft {
    const me: nat
    const peers: nat
    var currentTerm: nat
    var votedFor: int
    var role: Role
    var votes: nat
    var log: Log
    var logLength: int
    var nextIndex: seq<int>
    var matchIndex: seq<int>
    var commitIndex: int
    var lastApplied: int
    var lastIncludedIndex: nat
    var lastIncludedTerm: nat
    var snapshotData: int
    var persisted: Saved

    ghost function View(): Peer
      reads this
    {
      Peer(me, peers, currentTerm, votedFor, role, votes, log, logLength, nextIndex, matchIndex, commitIndex, lastApplied,
           lastIncludedIndex, lastIncludedTerm, snapshotData, persisted)
    }

    /** A peer made with what was saved before, if anything. */
    constructor (me: nat, peers: nat, saved: Saved, anything: bool)
      requires anything ==> saved.log != []
      ensures anything ==> View() == Restart(Fresh(me, peers).(saved := saved))
      ensures !anything ==> View() == Fresh(me, peers)
    {
      this.me, this.peers := me, peers;
      currentTerm, votedFor, role, votes := 0, -1, Follower, 0;
      nextIndex, matchIndex := [], [];
      commitIndex, lastApplied, lastIncludedIndex, lastIncludedTerm, snapshotData := 0, 0, 0, 0, 0;
      log, logLength := [ROOT], 1;
      persisted := Saved(0, -1, [ROOT], 0, 0, 0);
      new;
      if anything {
        currentTerm, votedFor, log := saved.currentTerm, saved.votedFor, saved.log;
        logLength := |saved.log| + saved.lastIncludedIndex;
        lastIncludedIndex, lastIncludedTerm, snapshotData := saved.lastIncludedIndex, saved.lastIncludedTerm, saved.snapshot;
        persisted := saved;
      }
    }

    method Save()
      modifies this`persisted
      ensures View() == Persist(old(View()))
    {
      persisted := Saved(currentTerm, votedFor, log, lastIncludedIndex, lastIncludedTerm, snapshotData);
    }

    // ---- elections ----

    method ElectLauncher() returns (args: VoteArgs)
      requires Shaped(View())
      modifies this
      ensures (View(), args) == Elect(old(View()))
    {
      currentTerm := currentTerm + 1;
      votedFor := me;
      votes := 1;
      Save();
      args := VoteArgs(currentTerm, me, logLength - 1, log[logLength - lastIncludedIndex - 1].term);
    }

    method RequestVoteHandler(args: VoteArgs) returns (reply: VoteReply)
      requires Shaped(View())
      modifies this
      ensures (View(), reply) == HandleVote(old(View()), args)
    {
      var granted := true;
      var term := currentTerm;
      if currentTerm < args.term {
        role, currentTerm, votedFor := Follower, args.term, -1;
      }
      if currentTerm > args.term {
        granted := false;
      }
      if votedFor != -1 && votedFor != args.candidateId {
        granted := false;
      }
      var last := log[logLength - lastIncludedIndex - 1].term;
      if !(args.lastLogTerm > last || (args.lastLogTerm == last && args.lastLogIndex >= logLength - 1)) {
        granted := false;
      }
      if granted {
        currentTerm, votedFor := args.term, args.candidateId;
      }
      if granted || currentTerm < args.term {
        Save();
      }
      reply := VoteReply(term, granted);
    }

    /** A reply to a vote request, up to the point where a majority takes the lock again. */
    method CountReply(args: VoteArgs, reply: VoteReply) returns (won: bool)
      modifies this
      ensures (View(), won) == TallyReply(old(View()), args, reply)
    {
      won := false;
      if currentTerm != args.term {
        role := Follower;
        return;
      }
      if reply.voteGranted {
        votes := votes + 1;
        won := votes > peers / 2 && votedFor == me;
      }
    }

    /** What a majority does under the lock, whatever has happened since. */
    method TakeOffice()
      requires |nextIndex| <= peers && |matchIndex| <= peers
      modifies this
      ensures View() == Promote(old(View()))
    {
      role := Leader;
      for i := 0 to peers
        invariant i <= |nextIndex| <= peers && i <= |matchIndex| <= peers
        invariant forall j :: 0 <= j < i ==> nextIndex[j] == logLength && matchIndex[j] == -1
        invariant View() == old(View()).(role := Leader, nextIndex := nextIndex, matchIndex := matchIndex)
      {
        if i >= |nextIndex| {
          nextIndex := nextIndex + [logLength];
        } else {
          nextIndex := nextIndex[i := logLength];
        }
        if i >= |matchIndex| {
          matchIndex := matchIndex + [-1];
        } else {
          matchIndex := matchIndex[i := -1];
        }
      }
      ghost var end := logLength;
      assert nextIndex == seq(peers, i => end);
      assert matchIndex == seq(peers, i => -1);
    }

    /** Both, if nobody takes the lock in between. */
    method CountVote(args: VoteArgs, reply: VoteReply)
      requires |nextIndex| <= peers && |matchIndex| <= peers
      modifies this
      ensures View() == HandleVoteReply(old(View()), args, reply)
    {
      var won := CountReply(args, reply);
      if won {
        TakeOffice();
      }
    }

    method AdoptRefusal(reply: VoteReply)
      modifies this
      ensures View() == HandleRefusal(old(View()), reply)
    {
      if !reply.voteGranted && reply.term > currentTerm {
        currentTerm := reply.term;
        Save();
        role := Follower;
      }
    }

    // ---- replication: the leader's side ----

    /** One round of heartbeats: a message for every other peer, or a snapshot for one that is too far behind. */
    method HeartBeatLauncher() returns (out: seq<Outgoing>)
      requires Shaped(View()) && |nextIndex| == peers && forall i :: 0 <= i < peers ==> nextIndex[i] <= logLength
      ensures |out| == peers
      ensures forall i: nat :: i < peers ==>
        out[i] == if i == me then Nothing
                  else if nextIndex[i] <= lastIncludedIndex
                  then Snapshot(SnapshotArgs(currentTerm, me, lastIncludedIndex, lastIncludedTerm, snapshotData))
                  else Append(MakeAppend(View(), i))
    {
      out := [];
      for i := 0 to peers
        invariant |out| == i
        invariant forall j: nat :: j < i ==>
          out[j] == if j == me then Nothing
                    else if nextIndex[j] <= lastIncludedIndex
                    then Snapshot(SnapshotArgs(currentTerm, me, lastIncludedIndex, lastIncludedTerm, snapshotData))
                    else Append(MakeAppend(View(), j))
      {
        var message := Nothing;
        if i != me {
          var prev := nextIndex[i] - lastIncludedIndex - 1;
          if prev < 0 {
            message := Snapshot(SnapshotArgs(currentTerm, me, lastIncludedIndex, lastIncludedTerm, snapshotData));
          } else if logLength > nextIndex[i] {
            message := Append(AppendArgs(currentTerm, me, nextIndex[i] - 1, log[prev].term, log[prev + 1..], commitIndex));
          } else {
            message := Append(AppendArgs(currentTerm, me, nextIndex[i] - 1, log[prev].term, [], commitIndex));
          }
        }
        out := out + [message];
      }
    }

    /** How many peers back entry n, oneself included. */
    method CountBackers(n: int) returns (count: nat)
      requires Shaped(View()) && n < logLength && !LooksBehind(View(), n)
      ensures count == |Backers(View(), n)|
    {
      count := 0;
      ghost var seen: set<nat> := {};
      for j := 0 to |matchIndex|
        invariant seen == set i | 0 <= i < j && Backs(View(), n, i)
        invariant count == |seen|
      {
        if j == me || (matchIndex[j] >= n && log[n - lastIncludedIndex].term == currentTerm) {
          count := count + 1;
          seen := seen + {j};
        }
      }
      assert seen == Backers(View(), n);
    }

    /** The commit rule: the highest entry a majority holds. */
    method Advance()
      requires Shaped(View()) && !ScanStops(View(), logLength - 1)
      modifies this`commitIndex, this`lastApplied
      ensures View() == AdvanceCommit(old(View()))
    {
      var n := logLength - 1;
      while n > commitIndex
        invariant n < logLength && View() == old(View())
        invariant CommitScan(View(), logLength - 1) == CommitScan(View(), n) && !ScanStops(View(), n)
      {
        var count := CountBackers(n);
        if count > peers / 2 {
          commitIndex := n;
          lastApplied := Max(lastApplied, lastIncludedIndex);
          return;
        }
        n := n - 1;
      }
    }

    method FindTerm(term: int) returns (j: int)
      ensures j == FirstWithTerm(log, term)
    {
      j := 0;
      while j < |log|
        invariant 0 <= j <= |log| && forall i :: 0 <= i < j ==> log[i].term != term
      {
        if log[j].term == term {
          return;
        }
        j := j + 1;
      }
      j := -1;
    }

    /** A reply to an append. The result is the snapshot to send when the follower turns out to be too far behind. */
    method HeartbeatReply(to: nat, args: AppendArgs, reply: AppendReply) returns (out: Outgoing)
      requires Shaped(View()) && to < |nextIndex| && to < |matchIndex|
      requires !ReplyStops(View(), to, args, reply)
      modifies this
      ensures View() == HandleAppendReply(old(View()), to, args, reply)
      ensures out == if old(currentTerm) == args.term && reply.term <= args.term && !reply.success && nextIndex[to] <= lastIncludedIndex
                     then Snapshot(SnapshotArgs(currentTerm, me, lastIncludedIndex, lastIncludedTerm, snapshotData)) else Nothing
    {
      out := Nothing;
      if currentTerm != args.term {
        return;
      }
      if args.term < reply.term {
        if currentTerm < reply.term {
          currentTerm := reply.term;
          Save();
        }
        role := Follower;
        return;
      }
      if reply.success {
        matchIndex := matchIndex[to := args.prevLogIndex + |args.entries|];
        nextIndex := nextIndex[to := matchIndex[to] + 1];
        if |args.entries| != 0 {
          Advance();
        }
        return;
      }
      if reply.xTerm != -1 {
        var j := FindTerm(reply.xTerm);
        if j >= 0 {
          nextIndex := nextIndex[to := j + lastIncludedIndex + 1];
        } else {
          nextIndex := nextIndex[to := reply.xIndex];
        }
      } else {
        nextIndex := nextIndex[to := reply.xLen];
      }
      if nextIndex[to] <= lastIncludedIndex {
        out := Snapshot(SnapshotArgs(currentTerm, me, lastIncludedIndex, lastIncludedTerm, snapshotData));
      }
    }

    method StartCommand(command: Command) returns (reply: StartReply)
      modifies this
      ensures (View(), reply) == Start(old(View()), command)
    {
      if role != Leader {
        return StartReply(-1, -1, false);
      }
      log := log + [LogEntry(currentTerm, command)];
      logLength := logLength + 1;
      Save();
      reply := StartReply(logLength - 1, currentTerm, true);
    }

    // ---- replication: the follower's side ----

    /** Replace everything from position `keep` on. */
    method Replace(keep: nat, entries: Log)
      requires keep <= |log|
      modifies this
      ensures View() == Persist(old(View().(log := log[..keep] + entries, logLength := keep + |entries| + lastIncludedIndex)))
    {
      log := log[..keep] + entries;
      logLength := |log| + lastIncludedIndex;
      Save();
    }

    method FollowCommit(leaderCommit: int)
      modifies this`commitIndex, this`lastApplied
      ensures View() == CommitFrom(old(View()), leaderCommit)
    {
      if leaderCommit > commitIndex {
        commitIndex := Min(leaderCommit, logLength - 1);
        lastApplied := Max(lastApplied, lastIncludedIndex);
      }
    }

    /** The consistency check has passed at position `check`. */
    method Accept(check: nat, args: AppendArgs)
      requires check < |log|
      modifies this
      ensures View() == CommitFrom(
        if args.entries == [] then old(View())
        else Persist(old(View().(log := log[..check + 1] + args.entries,
                                 logLength := check + 1 + |args.entries| + lastIncludedIndex))), args.leaderCommit)
    {
      if |args.entries| != 0 {
        Replace(check + 1, args.entries);
      }
      FollowCommit(args.leaderCommit);
    }

    method HeartbeatHandler(args: AppendArgs) returns (reply: AppendReply)
      requires Shaped(View()) && Reaches(View(), args)
      modifies this
      ensures (View(), reply) == HandleAppend(old(View()), args)
    {
      hide CommitFrom;
      reply := AppendReply(currentTerm, false, 0, 0, 0);
      if args.term > currentTerm {
        currentTerm, role := args.term, Follower;
        Save();
      }
      ghost var q := View();
      assert q == AdoptForAppend(old(View()), args.term);
      if args.term < currentTerm {
        return;
      }
      if args.prevLogIndex > logLength - 1 {
        reply := reply.(xTerm := -1, xLen := logLength);
        return;
      }
      var check := args.prevLogIndex - lastIncludedIndex;
      var term := log[check].term;
      if check == 0 {
        term := lastIncludedTerm;
        log := log[0 := log[0].(term := lastIncludedTerm)];
      }
      assert log == old(log) && View() == q;
      if args.prevLogTerm != term {
        var first := FindTerm(term);
        reply := reply.(xTerm := term, xIndex := first + lastIncludedIndex);
        var keep := if check == 0 then 1 else check;
        Replace(keep, []);
        assert old(log)[..keep] + [] == old(log)[..keep];
        return;
      }
      Accept(check, args);
      reply := reply.(success := true);
    }

    // ---- applying and snapshots ----

    /** One turn of the apply loop: the message it delivers, if any. */
    method ApplyOne() returns (index: int, command: Command)
      requires Shaped(View()) && (commitIndex > lastApplied ==> lastIncludedIndex <= lastApplied + 1 < logLength)
      modifies this`lastApplied
      ensures (View(), index) == Apply(old(View()))
      ensures index != -1 ==> index == lastApplied && command == log[index - lastIncludedIndex].command
    {
      if commitIndex > lastApplied {
        lastApplied := lastApplied + 1;
        return lastApplied, log[lastApplied - lastIncludedIndex].command;
      }
      return -1, 0;
    }

    method TakeServiceSnapshot(index: int, snapshot: int)
      requires Shaped(View()) && lastIncludedIndex <= index < logLength
      modifies this
      ensures View() == TakeSnapshot(old(View()), index, snapshot)
    {
      lastIncludedTerm := log[index - lastIncludedIndex].term;
      log := log[index - lastIncludedIndex..];
      lastIncludedIndex := index;
      logLength := |log| + lastIncludedIndex;
      snapshotData := snapshot;
      Save();
    }

    /** Start over from a snapshot: keep the rest of the log if it agrees with the snapshot's last entry. */
    method Rebase(args: SnapshotArgs)
      requires Shaped(View())
      modifies this
      ensures View() == Rebased(old(View()), args)
    {
      if lastIncludedIndex <= args.lastIncludedIndex && args.lastIncludedIndex <= logLength - 1 &&
         log[args.lastIncludedIndex - lastIncludedIndex].term == args.lastIncludedTerm
      {
        log := log[args.lastIncludedIndex - lastIncludedIndex..];
      } else {
        log := [LogEntry(args.lastIncludedTerm, 0)];
      }
      lastIncludedIndex, lastIncludedTerm := args.lastIncludedIndex, args.lastIncludedTerm;
      lastApplied := Max(lastApplied, args.lastIncludedIndex);
      commitIndex := Max(commitIndex, args.lastIncludedIndex);
      snapshotData := args.snapdata;
      logLength := |log| + lastIncludedIndex;
    }

    method InstallSnapshotHandler(args: SnapshotArgs) returns (term: nat)
      requires Shaped(View())
      modifies this
      ensures (View(), term) == InstallSnapshot(old(View()), args)
    {
      hide Rebased;
      term := currentTerm;
      if args.term < currentTerm {
        return;
      }
      if args.term > currentTerm {
        currentTerm, votedFor, role := args.term, -1, Follower;
      }
      Rebase(args);
      Save();
    }

    method SnapshotReply(to: nat, args: SnapshotArgs, replyTerm: nat)
      requires to < |nextIndex|
      modifies this
      ensures View() == HandleSnapshotReply(old(View()), to, args, replyTerm)
    {
      if currentTerm != args.term {
        return;
      }
      if replyTerm > currentTerm {
        role := Follower;
        currentTerm := replyTerm;
        Save();
      }
      nextIndex := nextIndex[to := lastIncludedIndex + 1];
    }
  }
}
