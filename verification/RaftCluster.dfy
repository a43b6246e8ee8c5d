/** A cluster of peers as a transition system: every region of code that runs under a peer's lock is
    one action; messages may be lost, delayed and reordered; peers cut their logs with snapshots and send
    snapshots to peers that are too far behind; peers crash and restart from what they saved. The history
    variables record what happened; no action's guard looks at them. */
module RaftCluster {
  import opened RaftPeer

  /** One RequestVote call. A candidacy asks each peer once, and each call has at most one reply. */
  datatype Ask = Ask(cand: nat, voter: nat, term: nat)
  datatype Ballot =
    | Asked(args: VoteArgs, boot: nat)
    | Answered(args: VoteArgs, boot: nat, reply: VoteReply)
    | Counted(args: VoteArgs)
    | Discarded(args: VoteArgs)

  /** `boot` tells a peer's lives apart: a reply to a call of an earlier life reaches nobody. */
  datatype AppendMsg = AppendMsg(from: nat, to: nat, boot: nat, args: AppendArgs)
  datatype AppendAck = AppendAck(msg: AppendMsg, reply: AppendReply)

  /** `prefix` is history too: the log the snapshot stands for. No handler looks at it. */
  datatype SnapMsg = SnapMsg(from: nat, to: nat, boot: nat, args: SnapshotArgs, prefix: Log)
  datatype SnapAck = SnapAck(msg: SnapMsg, term: nat)

  // ---- history ----

  datatype At = At(term: nat, server: nat)

  /** A vote with the voter's log at that moment. */
  datatype Vote = Vote(cand: nat, log: Log)

  /** A term's leader, the log it started from, its log now, and the voters that elected it. */
  datatype Reign = Reign(leader: nat, init: Log, log: Log, quorum: set<nat>)

  datatype Application = Application(server: nat, index: int, command: Command)

  /** `full` holds every peer's log as it would be had it never been cut. */
  datatype History = History(candidacies: map<At, Log>, votes: map<At, Vote>, reigns: map<nat, Reign>,
                             acks: map<At, int>, cursor: map<At, nat>, applied: set<Application>, full: seq<Log>)

  datatype Cluster = Cluster(peers: seq<Peer>, boots: seq<nat>, ballots: map<Ask, Ballot>, sent: seq<AppendMsg>,
                             replies: set<AppendAck>, snaps: seq<SnapMsg>, snapReplies: set<SnapAck>, hist: History)

  function FullLog(s: Cluster, i: nat): Log {
    if i < |s.hist.full| then s.hist.full[i] else []
  }

  function SetFull(full: seq<Log>, i: nat, log: Log): seq<Log> {
    if i < |full| then full[i := log] else full
  }

  // ---- actions ----

  datatype Action =
    | DoElect(i: nat)
    | DeliverVote(ask: Ask)
    | CountVote(ask: Ask)
    | AdoptRefusal(ask: Ask)
    | DoSend(i: nat, j: nat)
    | DeliverAppend(idx: nat)
    | HandleReply(ack: AppendAck)
    | ClientStart(i: nat, command: Command)
    | DoApply(i: nat)
    | Crash(i: nat)
    | DoSnapshot(i: nat, index: int, snapshot: int)
    | SendSnap(i: nat, j: nat)
    | DeliverSnap(idx: nat)
    | HandleSnapReply(snapAck: SnapAck)

  predicate Up(s: Cluster, i: nat) {
    i < |s.peers| && i < |s.boots| && Shaped(s.peers[i])
  }

  predicate Enabled(s: Cluster, a: Action) {
    match a
    case DoElect(i) => Up(s, i) && s.peers[i].role == Follower
    case DeliverVote(ask) => ask in s.ballots && s.ballots[ask].Asked? && Up(s, ask.voter)
    case CountVote(ask) =>
      ask in s.ballots && s.ballots[ask].Answered? && Up(s, ask.cand) && s.boots[ask.cand] == s.ballots[ask].boot
    case AdoptRefusal(ask) =>
      ask in s.ballots && s.ballots[ask].Answered? && Up(s, ask.cand) && s.boots[ask.cand] == s.ballots[ask].boot
    case DoSend(i, j) =>
      Up(s, i) && s.peers[i].role == Leader && i != j && j < |s.peers| && j < |s.peers[i].nextIndex| &&
      s.peers[i].lastIncludedIndex < s.peers[i].nextIndex[j] <= s.peers[i].logLength
    case DeliverAppend(idx) =>
      idx < |s.sent| && Up(s, s.sent[idx].to) && Reaches(s.peers[s.sent[idx].to], s.sent[idx].args)
    case HandleReply(ack) =>
      ack in s.replies && Up(s, ack.msg.from) && s.boots[ack.msg.from] == ack.msg.boot &&
      ack.msg.to < |s.peers[ack.msg.from].nextIndex| && ack.msg.to < |s.peers[ack.msg.from].matchIndex| &&
      !ReplyStops(s.peers[ack.msg.from], ack.msg.to, ack.msg.args, ack.reply)
    case ClientStart(i, _) => Up(s, i) && s.peers[i].role == Leader
    case DoApply(i) =>
      Up(s, i) && s.peers[i].lastIncludedIndex - 1 <= s.peers[i].lastApplied < s.peers[i].commitIndex &&
      s.peers[i].lastApplied + 1 < s.peers[i].logLength
    case Crash(i) => Up(s, i)
    case DoSnapshot(i, index, _) => Up(s, i) && s.peers[i].lastIncludedIndex <= index < s.peers[i].logLength
    case SendSnap(i, j) =>
      Up(s, i) && s.peers[i].role == Leader && i != j && j < |s.peers| && j < |s.peers[i].nextIndex| &&
      s.peers[i].nextIndex[j] <= s.peers[i].lastIncludedIndex
    case DeliverSnap(idx) => idx < |s.snaps| && Up(s, s.snaps[idx].to)
    case HandleSnapReply(ack) =>
      ack in s.snapReplies && Up(s, ack.msg.from) && s.boots[ack.msg.from] == ack.msg.boot &&
      ack.msg.to < |s.peers[ack.msg.from].nextIndex|
  }

  /** The peer that takes the step. */
  function Actor(s: Cluster, a: Action): nat
    requires Enabled(s, a)
  {
    match a
    case DoElect(i) => i
    case DeliverVote(ask) => ask.voter
    case CountVote(ask) => ask.cand
    case AdoptRefusal(ask) => ask.cand
    case DoSend(i, _) => i
    case DeliverAppend(idx) => s.sent[idx].to
    case HandleReply(ack) => ack.msg.from
    case ClientStart(i, _) => i
    case DoApply(i) => i
    case Crash(i) => i
    case DoSnapshot(i, _, _) => i
    case SendSnap(i, _) => i
    case DeliverSnap(idx) => s.snaps[idx].to
    case HandleSnapReply(ack) => ack.msg.from
  }

  function Set(s: Cluster, i: nat, p: Peer): Cluster
    requires i < |s.peers|
  {
    s.(peers := s.peers[i := p])
  }

  /** The calls of a new candidacy: one to every other peer. */
  function Asks(s: Cluster, i: nat, args: VoteArgs): map<Ask, Ballot>
    requires i < |s.boots|
  {
    map v: nat | v < |s.peers| && v != i :: Ask(i, v, args.term) := Asked(args, s.boots[i])
  }

  /** The candidate and the peers whose votes it has counted. */
  function Tally(s: Cluster, c: nat, term: nat): set<nat> {
    {c} + set v: nat | v < |s.peers| && Ask(c, v, term) in s.ballots && s.ballots[Ask(c, v, term)].Counted?
  }

  function AfterElect(s: Cluster, i: nat): Cluster
    requires Up(s, i)
  {
    var p := s.peers[i];
    var (q, args) := Elect(p);
    var at := At(args.term, i);
    Set(s, i, q).(ballots := s.ballots + Asks(s, i, args),
                  hist := s.hist.(candidacies := s.hist.candidacies[at := FullLog(s, i)],
                                  votes := s.hist.votes[at := Vote(i, FullLog(s, i))]))
  }

  function AfterVote(s: Cluster, ask: Ask): Cluster
    requires Enabled(s, DeliverVote(ask))
  {
    var b, p := s.ballots[ask], s.peers[ask.voter];
    var (q, reply) := HandleVote(p, b.args);
    Set(s, ask.voter, q).(ballots := s.ballots[ask := Answered(b.args, b.boot, reply)],
                          hist := if reply.voteGranted
                                  then s.hist.(votes := s.hist.votes[At(b.args.term, ask.voter) := Vote(ask.cand, FullLog(s, ask.voter))])
                                  else s.hist)
  }

  /** The step in which a candidate becomes leader of its term for the first time. */
  function Crown(s: Cluster, c: nat, term: nat): Cluster
    requires c < |s.peers|
  {
    var log := FullLog(s, c);
    s.(hist := s.hist.(reigns := s.hist.reigns[term := Reign(c, log, log, Tally(s, c, term))],
                       acks := s.hist.acks[At(term, c) := |log| - 1]))
  }

  function AfterCount(s: Cluster, ask: Ask): Cluster
    requires Enabled(s, CountVote(ask))
  {
    var b, p := s.ballots[ask], s.peers[ask.cand];
    var q := HandleVoteReply(p, b.args, b.reply);
    if !b.reply.voteGranted then Set(s, ask.cand, q)
    else if p.currentTerm != b.args.term then Set(s, ask.cand, q).(ballots := s.ballots[ask := Discarded(b.args)])
    else
      var t := Set(s, ask.cand, q).(ballots := s.ballots[ask := Counted(b.args)]);
      if p.votes + 1 > p.peers / 2 && p.votedFor == p.me && b.args.term !in s.hist.reigns
      then Crown(t, ask.cand, b.args.term) else t
  }

  function AfterSend(s: Cluster, i: nat, j: nat): Cluster
    requires Enabled(s, DoSend(i, j))
  {
    s.(sent := s.sent + [AppendMsg(i, j, s.boots[i], MakeAppend(s.peers[i], j))])
  }

  /** What a message does to the full log of the peer that handles it. */
  function FullAfter(p: Peer, args: AppendArgs, full: Log): Log
    requires Shaped(p) && Reaches(p, args)
  {
    var (q, reply) := HandleAppend(p, args);
    if reply.success && args.entries != [] && 0 <= args.prevLogIndex < |full| then full[..args.prevLogIndex + 1] + args.entries
    else if 0 <= q.logLength <= |full| then full[..q.logLength]
    else full
  }

  function AfterAppend(s: Cluster, idx: nat): Cluster
    requires Enabled(s, DeliverAppend(idx))
  {
    var msg := s.sent[idx];
    var (q, reply) := HandleAppend(s.peers[msg.to], msg.args);
    var at, m := At(msg.args.term, msg.to), msg.args.prevLogIndex + |msg.args.entries|;
    Set(s, msg.to, q).(replies := s.replies + {AppendAck(msg, reply)},
                       hist := s.hist.(cursor := s.hist.cursor[at := idx + 1],
                                       full := SetFull(s.hist.full, msg.to, FullAfter(s.peers[msg.to], msg.args, FullLog(s, msg.to))),
                                       acks := if reply.success
                                               then s.hist.acks[at := if at in s.hist.acks then Max(s.hist.acks[at], m) else m]
                                               else s.hist.acks))
  }

  /** The snapshot a peer sends, with the log it stands for. */
  function MakeSnap(s: Cluster, i: nat, j: nat): SnapMsg
    requires i < |s.peers| && i < |s.boots|
  {
    var p, full := s.peers[i], FullLog(s, i);
    SnapMsg(i, j, s.boots[i], SnapshotArgs(p.currentTerm, p.me, p.lastIncludedIndex, p.lastIncludedTerm, p.snapshot),
            if p.lastIncludedIndex < |full| then full[..p.lastIncludedIndex + 1] else full)
  }

  /** A refusal of the present term that leads behind the snapshot is answered with the snapshot at once. */
  function AfterReply(s: Cluster, ack: AppendAck): Cluster
    requires Enabled(s, HandleReply(ack))
  {
    var i, j, p := ack.msg.from, ack.msg.to, s.peers[ack.msg.from];
    var t := Set(s, i, HandleAppendReply(p, j, ack.msg.args, ack.reply));
    if p.currentTerm == ack.msg.args.term && ack.reply.term <= ack.msg.args.term && !ack.reply.success && j < |t.peers[i].nextIndex| &&
       t.peers[i].nextIndex[j] <= p.lastIncludedIndex
    then t.(snaps := s.snaps + [MakeSnap(s, i, j)]) else t
  }

  /** An arriving snapshot leaves a full log that agrees with its last entry, and replaces any other. */
  function AfterSnap(s: Cluster, idx: nat): Cluster
    requires Enabled(s, DeliverSnap(idx))
  {
    var msg := s.snaps[idx];
    var p := s.peers[msg.to];
    var (q, term) := InstallSnapshot(p, msg.args);
    Set(s, msg.to, q).(snapReplies := s.snapReplies + {SnapAck(msg, term)},
                       hist := if msg.args.term < p.currentTerm || KeepsSuffix(p, msg.args) then s.hist
                               else s.hist.(full := SetFull(s.hist.full, msg.to, msg.prefix)))
  }

  function AfterStart(s: Cluster, i: nat, command: Command): Cluster
    requires Enabled(s, ClientStart(i, command))
  {
    var q := Start(s.peers[i], command).0;
    var term, full := q.currentTerm, FullLog(s, i) + [LogEntry(q.currentTerm, command)];
    var hist := s.hist.(full := SetFull(s.hist.full, i, full));
    Set(s, i, q).(hist := if term in s.hist.reigns
                          then hist.(reigns := s.hist.reigns[term := s.hist.reigns[term].(log := full)],
                                     acks := s.hist.acks[At(term, i) := |full| - 1])
                          else hist)
  }

  function AfterApply(s: Cluster, i: nat): Cluster
    requires Enabled(s, DoApply(i))
  {
    var p := s.peers[i];
    var (q, index) := Apply(p);
    Set(s, i, q).(hist := s.hist.(applied := s.hist.applied +
                                  {Application(i, index, p.log[index - p.lastIncludedIndex].command)}))
  }

  function Do(s: Cluster, a: Action): Cluster
    requires Enabled(s, a)
  {
    match a
    case DoElect(i) => AfterElect(s, i)
    case DeliverVote(ask) => AfterVote(s, ask)
    case CountVote(ask) => AfterCount(s, ask)
    case AdoptRefusal(ask) => Set(s, ask.cand, HandleRefusal(s.peers[ask.cand], s.ballots[ask].reply))
    case DoSend(i, j) => AfterSend(s, i, j)
    case DeliverAppend(idx) => AfterAppend(s, idx)
    case HandleReply(ack) => AfterReply(s, ack)
    case ClientStart(i, command) => AfterStart(s, i, command)
    case DoApply(i) => AfterApply(s, i)
    case Crash(i) => Set(s, i, Restart(s.peers[i])).(boots := s.boots[i := s.boots[i] + 1])
    case DoSnapshot(i, index, snapshot) => Set(s, i, TakeSnapshot(s.peers[i], index, snapshot))
    case SendSnap(i, j) => s.(snaps := s.snaps + [MakeSnap(s, i, j)])
    case DeliverSnap(idx) => AfterSnap(s, idx)
    case HandleSnapReply(ack) =>
      Set(s, ack.msg.from, HandleSnapshotReply(s.peers[ack.msg.from], ack.msg.to, ack.msg.args, ack.term))
  }

  /** A step changes at most the peer that takes it. */
  lemma OneActor(s: Cluster, a: Action)
    requires Enabled(s, a)
    ensures var s', i := Do(s, a), Actor(s, a);
      && i < |s.peers| == |s'.peers| && i < |s.boots| && s'.peers == s.peers[i := s'.peers[i]]
      && s'.boots == if a.Crash? then s.boots[i := s.boots[i] + 1] else s.boots
  {
    hide HandleAppend, HandleAppendReply, HandleVote, HandleVoteReply, HandleRefusal, Elect, MakeAppend, Tally, Asks, Start, Restart,
         Apply, InstallSnapshot, TakeSnapshot, HandleSnapshotReply, FullAfter, MakeSnap, KeepsSuffix;
  }

  /** Elections and commands aside, the record of elections stays; appends aside, the record of acknowledgements. */
  lemma HistoryKept(s: Cluster, a: Action)
    requires Enabled(s, a) && !a.DoElect? && !a.DeliverVote? && !a.CountVote? && !a.ClientStart?
    ensures var h := Do(s, a).hist;
      && Do(s, a).ballots == s.ballots
      && h == s.hist.(full := h.full, applied := h.applied, acks := if a.DeliverAppend? then h.acks else s.hist.acks,
                      cursor := if a.DeliverAppend? then h.cursor else s.hist.cursor)
      && s.hist.applied <= h.applied
  {
    hide HandleAppend, HandleAppendReply, HandleRefusal, MakeAppend, Restart, Apply, InstallSnapshot, TakeSnapshot,
         HandleSnapshotReply, FullAfter, MakeSnap, KeepsSuffix;
  }

  // ---- runs ----

  ghost predicate Init(s: Cluster) {
    && |s.boots| == |s.peers|
    && (forall i :: 0 <= i < |s.peers| ==> s.peers[i] == Fresh(i, |s.peers|))
    && s.ballots == map[] && s.sent == [] && s.replies == {} && s.snaps == [] && s.snapReplies == {}
    && s.hist == History(map[], map[], map[], map[], map[], {}, seq(|s.peers|, i => [ROOT]))
  }

  ghost predicate Next(s: Cluster, s': Cluster) {
    exists a :: Enabled(s, a) && s' == Do(s, a)
  }

  ghost predicate Run(run: seq<Cluster>) {
    run != [] && Init(run[0]) && forall k :: 0 <= k < |run| - 1 ==> Next(run[k], run[k + 1])
  }

  /** A leader's messages of one term reach each follower in the order they were sent, or not at all. */
  ghost predicate Ordered(s: Cluster, a: Action) {
    a.DeliverAppend? && a.idx < |s.sent| ==>
      var at := At(s.sent[a.idx].args.term, s.sent[a.idx].to);
      at in s.hist.cursor ==> s.hist.cursor[at] <= a.idx
  }
}
