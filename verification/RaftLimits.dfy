/** Why the condition on runs is there: if an old message may overtake a newer one, State Machine Safety fails in a
    concrete run. */
module RaftLimits {
  import opened RaftPeer
  import opened RaftCluster

  // ---- reachable states, one action at a time ----

  ghost predicate Reachable(s: Cluster) {
    exists run :: Run(run) && run[|run| - 1] == s
  }

  lemma Step(s: Cluster, a: Action)
    requires Reachable(s) && Enabled(s, a)
    ensures Reachable(Do(s, a))
  {
    hide Init, Enabled, Do;
    var run :| Run(run) && run[|run| - 1] == s;
    var longer := run + [Do(s, a)];
    forall k | 0 <= k < |longer| - 1 ensures Next(longer[k], longer[k + 1]) {
      if k < |run| - 1 {
        assert Next(run[k], run[k + 1]);
      }
    }
    assert Run(longer);
  }

  lemma RunTo(s: Cluster) returns (run: seq<Cluster>)
    requires Reachable(s)
    ensures Run(run) && run[|run| - 1] == s
  {
    run :| Run(run) && run[|run| - 1] == s;
  }

  /** Everything but peers and ballots is as before. */
  ghost predicate Else(s: Cluster, s': Cluster) {
    s'.boots == s.boots && s'.sent == s.sent && s'.replies == s.replies && s'.hist.applied == s.hist.applied
  }

  /** Peer c has stood for election and asks peer v. */
  lemma Stood(s: Cluster, c: nat, v: nat)
    requires |s.boots| == |s.peers| && Up(s, c) && v < |s.peers| && c != v
    ensures var s', args := AfterElect(s, c), Elect(s.peers[c]).1;
      && Else(s, s') && s'.peers == s.peers[c := Elect(s.peers[c]).0]
      && Ask(c, v, args.term) in s'.ballots && s'.ballots[Ask(c, v, args.term)] == Asked(args, s.boots[c])
  {
    var args := Elect(s.peers[c]).1;
    assert Ask(c, v, args.term) in Asks(s, c, args);
  }

  lemma Stand(s: Cluster, c: nat, v: nat) returns (s': Cluster)
    requires Reachable(s) && |s.boots| == |s.peers| && Up(s, c) && s.peers[c].role == Follower && v < |s.peers| && c != v
    ensures Reachable(s') && s' == AfterElect(s, c) && Else(s, s') && s'.peers == s.peers[c := Elect(s.peers[c]).0]
    ensures var args := Elect(s.peers[c]).1;
      Ask(c, v, args.term) in s'.ballots && s'.ballots[Ask(c, v, args.term)] == Asked(args, s.boots[c])
  {
    hide AfterElect, Reachable;
    Step(s, DoElect(c));
    s' := AfterElect(s, c);
    Stood(s, c, v);
  }

  lemma Ballot(s: Cluster, ask: Ask) returns (s': Cluster)
    requires Reachable(s) && Enabled(s, DeliverVote(ask)) && Grants(s.peers[ask.voter], s.ballots[ask].args)
    ensures var (q, reply) := HandleVote(s.peers[ask.voter], s.ballots[ask].args);
      && Reachable(s') && Else(s, s') && s'.peers == s.peers[ask.voter := q]
      && s'.ballots == s.ballots[ask := Answered(s.ballots[ask].args, s.ballots[ask].boot, reply)]
  {
    hide HandleVote, Grants;
    GrantReplies(s.peers[ask.voter], s.ballots[ask].args);
    Step(s, DeliverVote(ask));
    s' := AfterVote(s, ask);
  }

  lemma GrantReplies(p: Peer, args: VoteArgs)
    requires Shaped(p) && Grants(p, args)
    ensures HandleVote(p, args).1.voteGranted
  {
  }

  lemma Count(s: Cluster, ask: Ask) returns (s': Cluster)
    requires Reachable(s) && Enabled(s, CountVote(ask)) && s.ballots[ask].reply.voteGranted
    requires var p := s.peers[ask.cand];
      p.currentTerm == s.ballots[ask].args.term && p.votes == 1 && p.peers == 3 && p.votedFor == p.me
    ensures Reachable(s') && Else(s, s') && s'.peers == s.peers[ask.cand := Promote(s.peers[ask.cand].(votes := 2))]
  {
    hide Tally, Promote;
    Step(s, CountVote(ask));
    s' := AfterCount(s, ask);
  }

  /** Peer c stands for election and peer v's vote makes a majority of three. */
  lemma Win(s: Cluster, c: nat, v: nat) returns (s': Cluster)
    requires Reachable(s) && |s.boots| == |s.peers| && Up(s, c) && Up(s, v) && c != v
    requires s.peers[c].role == Follower && s.peers[c].me == c && s.peers[c].peers == 3
    requires Grants(s.peers[v], Elect(s.peers[c]).1)
    ensures Reachable(s') && Else(s, s')
    ensures s'.peers == s.peers[c := Promote(Elect(s.peers[c]).0.(votes := 2))][v := HandleVote(s.peers[v], Elect(s.peers[c]).1).0]
  {
    hide HandleVote, Grants, Promote, Do, Reachable;
    var s1 := Stand(s, c, v);
    var ask := Ask(c, v, Elect(s.peers[c]).1.term);
    var s2 := Ballot(s1, ask);
    GrantReplies(s.peers[v], s1.ballots[ask].args);
    s' := Count(s2, ask);
  }

  /** Three new peers. */
  function Three(): Cluster {
    Cluster([Fresh(0, 3), Fresh(1, 3), Fresh(2, 3)], [0, 0, 0], map[], [], {}, [], {},
            History(map[], map[], map[], map[], map[], {}, seq(3, i => [ROOT])))
  }

  lemma Begin() returns (s: Cluster)
    ensures Reachable(s) && s == Three()
  {
    s := Three();
    assert Run([s]);
    assert [s][|[s]| - 1] == s;
  }

  lemma Command(s: Cluster, i: nat, command: Command) returns (s': Cluster)
    requires Reachable(s) && Enabled(s, ClientStart(i, command))
    ensures Reachable(s') && Else(s, s') && s'.peers == s.peers[i := Start(s.peers[i], command).0]
  {
    Step(s, ClientStart(i, command));
    s' := AfterStart(s, i, command);
  }

  lemma Send(s: Cluster, i: nat, j: nat) returns (s': Cluster)
    requires Reachable(s) && Enabled(s, DoSend(i, j))
    ensures Reachable(s') && s'.peers == s.peers && s'.boots == s.boots && s'.replies == s.replies && s'.hist.applied == s.hist.applied
    ensures s'.sent == s.sent + [AppendMsg(i, j, s.boots[i], MakeAppend(s.peers[i], j))]
  {
    Step(s, DoSend(i, j));
    s' := AfterSend(s, i, j);
  }

  lemma Deliver(s: Cluster, idx: nat) returns (s': Cluster)
    requires Reachable(s) && Enabled(s, DeliverAppend(idx))
    ensures var msg := s.sent[idx]; var (q, reply) := HandleAppend(s.peers[msg.to], msg.args);
      && Reachable(s') && s'.peers == s.peers[msg.to := q] && s'.replies == s.replies + {AppendAck(msg, reply)}
      && s'.boots == s.boots && s'.sent == s.sent && s'.hist.applied == s.hist.applied
  {
    hide HandleAppend;
    Step(s, DeliverAppend(idx));
    s' := AfterAppend(s, idx);
  }

  lemma Reply(s: Cluster, ack: AppendAck) returns (s': Cluster)
    requires Reachable(s) && Enabled(s, HandleReply(ack))
    ensures Reachable(s') && Else(s, s')
    ensures s'.peers == s.peers[ack.msg.from := HandleAppendReply(s.peers[ack.msg.from], ack.msg.to, ack.msg.args, ack.reply)]
  {
    hide HandleAppendReply;
    Step(s, HandleReply(ack));
    s' := Do(s, HandleReply(ack));
  }

  /** Peer i applies the next of its committed entries. */
  lemma ApplyNext(s: Cluster, i: nat) returns (s': Cluster)
    requires Reachable(s) && Enabled(s, DoApply(i))
    ensures Reachable(s') && s'.peers == s.peers[i := s.peers[i].(lastApplied := s.peers[i].lastApplied + 1)]
    ensures s'.boots == s.boots && s'.sent == s.sent && s'.replies == s.replies
    ensures var p := s.peers[i];
      s'.hist.applied == s.hist.applied +
        {Application(i, p.lastApplied + 1, p.log[p.lastApplied + 1 - p.lastIncludedIndex].command)}
  {
    Step(s, DoApply(i));
    s' := AfterApply(s, i);
  }

  // ---- an old message overtakes a newer one ----

  const LOG1: Log := [ROOT, LogEntry(1, 10)]
  const LOG2: Log := [ROOT, LogEntry(1, 10), LogEntry(1, 20)]
  const LOG3: Log := [ROOT, LogEntry(1, 10), LogEntry(2, 30)]

  /** Peer 0 as leader of term 1, knowing nothing of the others. */
  function Leader0(log: Log): Peer {
    Peer(0, 3, 1, 0, Leader, 2, log, |log|, [1, 1, 1], [-1, -1, -1], 0, 0, 0, 0, 0, Saved(1, 0, log, 0, 0, 0))
  }

  /** Peer 1 after voting for peer 0. */
  function Follower1(log: Log): Peer {
    Peer(1, 3, 1, 0, Follower, 0, log, |log|, [], [], 0, 0, 0, 0, 0, Saved(1, 0, log, 0, 0, 0))
  }

  function ToPeer1(log: Log): AppendMsg
    requires log != []
  {
    AppendMsg(0, 1, 0, AppendArgs(1, 0, 0, 0, log[1..], 0))
  }

  lemma FirstTerm() returns (s: Cluster)
    ensures Reachable(s) && s.boots == [0, 0, 0] && s.sent == [] && s.replies == {} && s.hist.applied == {}
    ensures s.peers == [Leader0([ROOT]), Follower1([ROOT]), Fresh(2, 3)]
  {
    hide Reachable, Do, Enabled, Elect, HandleVote, Grants, Promote;
    s := Begin();
    FirstVote();
    s := Win(s, 0, 1);
  }

  lemma FirstVote()
    ensures Grants(Fresh(1, 3), Elect(Fresh(0, 3)).1)
    ensures HandleVote(Fresh(1, 3), Elect(Fresh(0, 3)).1).0 == Follower1([ROOT])
    ensures Promote(Elect(Fresh(0, 3)).0.(votes := 2)) == Leader0([ROOT])
  {
    assert Promote(Elect(Fresh(0, 3)).0.(votes := 2)).nextIndex == [1, 1, 1];
    assert Promote(Elect(Fresh(0, 3)).0.(votes := 2)).matchIndex == [-1, -1, -1];
  }

  /** The leader takes a command and sends peer 1 all it has. */
  lemma CommandAndSend(s: Cluster, log: Log, command: Command) returns (s': Cluster)
    requires Reachable(s) && s.boots == [0, 0, 0] && |s.peers| == 3 && s.peers[0] == Leader0(log) && log != [] && log[0] == ROOT
    ensures Reachable(s') && s'.boots == s.boots && s'.replies == s.replies && s'.hist.applied == s.hist.applied
    ensures s'.peers == s.peers[0 := Leader0(log + [LogEntry(1, command)])]
    ensures s'.sent == s.sent + [ToPeer1(log + [LogEntry(1, command)])]
  {
    hide Reachable, Do;
    s' := Command(s, 0, command);
    s' := Send(s', 0, 1);
  }

  /** Two entries sent, first one and then both; only the second message has arrived, and peer 0 has
      committed and applied both. */
  lemma Overtaken() returns (s: Cluster)
    ensures Reachable(s) && s.boots == [0, 0, 0] && |s.peers| == 3
    ensures s.peers[0] == Leader0(LOG2).(matchIndex := [-1, 2, -1], nextIndex := [1, 3, 1], commitIndex := 2, lastApplied := 2)
    ensures s.peers[1] == Follower1(LOG2) && s.peers[2] == Fresh(2, 3)
    ensures s.sent == [ToPeer1(LOG1), ToPeer1(LOG2)] && Application(0, 2, 20) in s.hist.applied
  {
    hide Reachable, Do, Enabled;
    s := FirstTerm();
    s := CommandAndSend(s, [ROOT], 10);
    assert [ROOT] + [LogEntry(1, 10)] == LOG1;
    s := CommandAndSend(s, LOG1, 20);
    assert LOG1 + [LogEntry(1, 20)] == LOG2;
    Accepted(s, 1);
    s := Deliver(s, 1);
    var ack := AppendAck(ToPeer1(LOG2), AppendReply(1, true, 0, 0, 0));
    s := Acknowledged(s, ack);
  }

  /** The second message reaches peer 1. */
  lemma Accepted(s: Cluster, idx: nat)
    requires |s.peers| == |s.boots| == 3 && s.peers[1] == Follower1([ROOT]) && idx < |s.sent| && s.sent[idx] == ToPeer1(LOG2)
    ensures Enabled(s, DeliverAppend(idx))
    ensures HandleAppend(s.peers[1], s.sent[idx].args) == (Follower1(LOG2), AppendReply(1, true, 0, 0, 0))
  {
    assert [ROOT][..1] + LOG2[1..] == LOG2;
  }

  lemma Committed0(args: AppendArgs)
    requires args == ToPeer1(LOG2).args
    ensures HandleAppendReply(Leader0(LOG2), 1, args, AppendReply(1, true, 0, 0, 0)) ==
            Leader0(LOG2).(matchIndex := [-1, 2, -1], nextIndex := [1, 3, 1], commitIndex := 2)
  {
    var p := Leader0(LOG2);
    var q := p.(matchIndex := p.matchIndex[1 := 2], nextIndex := p.nextIndex[1 := 3]);
    assert q.matchIndex == [-1, 2, -1] && q.nextIndex == [1, 3, 1];
    assert Backers(q, 2) == {0, 1};
    assert CommitScan(q, 2) == 2;
  }

  lemma Acknowledged(s: Cluster, ack: AppendAck) returns (s': Cluster)
    requires Reachable(s) && s.boots == [0, 0, 0] && |s.peers| == 3 && s.peers[0] == Leader0(LOG2)
    requires ack == AppendAck(ToPeer1(LOG2), AppendReply(1, true, 0, 0, 0)) && ack in s.replies
    ensures Reachable(s') && s'.boots == s.boots && s'.sent == s.sent && Application(0, 2, 20) in s'.hist.applied
    ensures s'.peers == s.peers[0 :=
      Leader0(LOG2).(matchIndex := [-1, 2, -1], nextIndex := [1, 3, 1], commitIndex := 2, lastApplied := 2)]
  {
    hide Reachable, Do;
    Committed0(ack.msg.args);
    ScanGoesOn(Noted(s.peers[0], 1, ack.msg.args), 2);
    s' := Reply(s, ack);
    s' := ApplyNext(s', 0);
    s' := ApplyNext(s', 0);
  }

  /** Peer 1 as leader of term 2, after the old message took away its second entry. */
  function Leader1(log: Log): Peer {
    Peer(1, 3, 2, 1, Leader, 2, log, |log|, [2, 2, 2], [-1, -1, -1], 0, 0, 0, 0, 0, Saved(2, 1, log, 0, 0, 0))
  }

  lemma OldMessage(s: Cluster)
    requires |s.peers| == |s.boots| == 3 && s.peers[1] == Follower1(LOG2) && 0 < |s.sent| && s.sent[0] == ToPeer1(LOG1)
    ensures Enabled(s, DeliverAppend(0)) && HandleAppend(s.peers[1], s.sent[0].args).0 == Follower1(LOG1)
  {
    assert LOG2[..1] + LOG1[1..] == LOG1;
  }

  lemma SecondVote()
    ensures Grants(Fresh(2, 3), Elect(Follower1(LOG1)).1)
    ensures Promote(Elect(Follower1(LOG1)).0.(votes := 2)) == Leader1(LOG1)
  {
    assert Promote(Elect(Follower1(LOG1)).0.(votes := 2)).nextIndex == [2, 2, 2];
    assert Promote(Elect(Follower1(LOG1)).0.(votes := 2)).matchIndex == [-1, -1, -1];
  }

  /** Peer 1, having lost an entry it had acknowledged, wins term 2 and takes a command of its own. */
  lemma SecondTerm() returns (s: Cluster)
    ensures Reachable(s) && s.boots == [0, 0, 0] && |s.peers| == 3 && |s.sent| == 2
    ensures s.peers[0] == Leader0(LOG2).(matchIndex := [-1, 2, -1], nextIndex := [1, 3, 1], commitIndex := 2, lastApplied := 2)
    ensures s.peers[1] == Leader1(LOG3) && Application(0, 2, 20) in s.hist.applied
  {
    hide Reachable, Do, Enabled, Elect, HandleVote, Grants, Promote, HandleAppend;
    s := Overtaken();
    OldMessage(s);
    s := Deliver(s, 0);
    SecondVote();
    s := Win(s, 1, 2);
    assert LOG1 + [LogEntry(2, 30)] == LOG3;
    CanStart(s);
    s := Command(s, 1, 30);
  }

  lemma CanStart(s: Cluster)
    requires |s.peers| == |s.boots| == 3 && s.peers[1] == Leader1(LOG1)
    ensures Enabled(s, ClientStart(1, 30)) && Start(s.peers[1], 30).0 == Leader1(LOG1 + [LogEntry(2, 30)])
  {
  }

  const OVERWRITE: AppendArgs := AppendArgs(2, 1, 1, 1, [LogEntry(2, 30)], 0)

  lemma Overwritten(s: Cluster)
    requires |s.peers| == |s.boots| == 3 && |s.sent| == 3 && s.sent[2] == AppendMsg(1, 0, 0, OVERWRITE)
    requires s.peers[0] == Leader0(LOG2).(matchIndex := [-1, 2, -1], nextIndex := [1, 3, 1], commitIndex := 2, lastApplied := 2)
    ensures Enabled(s, DeliverAppend(2)) && HandleAppend(s.peers[0], OVERWRITE).1 == AppendReply(1, true, 0, 0, 0)
  {
  }

  lemma CanSend(s: Cluster)
    requires |s.peers| == 3 && s.boots == [0, 0, 0] && s.peers[1] == Leader1(LOG3)
    ensures Enabled(s, DoSend(1, 0)) && MakeAppend(s.peers[1], 0) == OVERWRITE
  {
  }

  lemma Committed1()
    ensures HandleAppendReply(Leader1(LOG3), 0, OVERWRITE, AppendReply(1, true, 0, 0, 0)) ==
            Leader1(LOG3).(matchIndex := [2, -1, -1], nextIndex := [3, 2, 2], commitIndex := 2)
  {
    var p := Leader1(LOG3);
    var q := p.(matchIndex := p.matchIndex[0 := 2], nextIndex := p.nextIndex[0 := 3]);
    assert q.matchIndex == [2, -1, -1] && q.nextIndex == [3, 2, 2];
    assert Backers(q, 2) == {0, 1};
    assert CommitScan(q, 2) == 2;
  }

  /** State Machine Safety is false of runs in which one message of a term may overtake another. */
  lemma ReorderingBreaksSafety() returns (run: seq<Cluster>, x: Application, y: Application)
    ensures Run(run) && x in run[|run| - 1].hist.applied && y in run[|run| - 1].hist.applied
    ensures x.index == y.index && x.command != y.command
  {
    hide Reachable, Do, Enabled, MakeAppend, HandleAppend, HandleAppendReply, Init, Next;
    var s := SecondTerm();
    CanSend(s);
    s := Send(s, 1, 0);
    Overwritten(s);
    s := Deliver(s, 2);
    var ack := AppendAck(AppendMsg(1, 0, 0, OVERWRITE), AppendReply(1, true, 0, 0, 0));
    Committed1();
    CanReply(s, ack);
    s := Reply(s, ack);
    CanApply(s, 0);
    s := ApplyNext(s, 1);
    CanApply(s, 1);
    s := ApplyNext(s, 1);
    run := RunTo(s);
    x, y := Application(0, 2, 20), Application(1, 2, 30);
  }

  lemma CanReply(s: Cluster, ack: AppendAck)
    requires |s.peers| == 3 && s.boots == [0, 0, 0] && s.peers[1] == Leader1(LOG3)
    requires ack in s.replies && ack == AppendAck(AppendMsg(1, 0, 0, OVERWRITE), AppendReply(1, true, 0, 0, 0))
    ensures Enabled(s, HandleReply(ack))
  {
    ScanGoesOn(Noted(s.peers[1], 0, OVERWRITE), 2);
  }

  lemma CanApply(s: Cluster, applied: nat)
    requires |s.peers| == 3 && s.boots == [0, 0, 0] && applied < 2
    requires s.peers[1] == Leader1(LOG3).(matchIndex := [2, -1, -1], nextIndex := [3, 2, 2], commitIndex := 2, lastApplied := applied)
    ensures Enabled(s, DoApply(1))
  {
  }
}
