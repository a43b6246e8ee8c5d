/** The data of snapshots: in every run what a peer holds, has saved and sends at a boundary is what some service gave for
    that boundary. */
module RaftSnapshots {
  import opened RaftPeer
  import opened RaftCluster
  import opened RaftElection
  import opened RaftCompaction
  import opened RaftLogs
  import opened RaftTraces
  import opened RaftRuns

  /** Snapshot data with the index up to which it stands. */
  datatype Snap = Snap(index: int, data: int)

  function Held(p: Peer): Snap {
    Snap(p.lastIncludedIndex, p.snapshot)
  }

  /** What a restart finds. */
  function Kept(p: Peer): Snap {
    Snap(p.saved.lastIncludedIndex, p.saved.snapshot)
  }

  function Sent(args: SnapshotArgs): Snap {
    Snap(args.lastIncludedIndex, args.snapdata)
  }

  /** Before any snapshot there is no data, for the root alone. */
  const NONE: Snap := Snap(0, 0)

  /** What services have given in the first k steps. */
  ghost function Given(steps: seq<Action>, k: nat): set<Snap>
    requires k <= |steps|
  {
    if k == 0 then {NONE}
    else Given(steps, k - 1) + if steps[k - 1].DoSnapshot? then {Snap(steps[k - 1].index, steps[k - 1].snapshot)} else {}
  }

  // ---- each handler ----

  /** A snapshot that is taken or installed replaces both, with the data given. */
  lemma SnapshotReplaces(p: Peer, index: int, data: int, args: SnapshotArgs)
    requires Shaped(p)
    ensures p.lastIncludedIndex <= index < p.logLength ==>
      var q := TakeSnapshot(p, index, data); Held(q) == Kept(q) == Held(Restart(q)) == Snap(index, data)
    ensures var q := InstallSnapshot(p, args).0;
      if args.term < p.currentTerm then q == p else Held(q) == Kept(q) == Held(Restart(q)) == Sent(args)
  {
  }

  /** Nothing else does. */
  ghost predicate SameSnap(p: Peer, q: Peer) {
    Held(q) == Held(p) && (Kept(p) == Held(p) ==> Kept(q) == Held(q))
  }

  lemma VoteSame(p: Peer, args: VoteArgs, reply: VoteReply)
    requires Shaped(p)
    ensures SameSnap(p, Elect(p).0) && SameSnap(p, HandleVote(p, args).0)
    ensures SameSnap(p, HandleVoteReply(p, args, reply)) && SameSnap(p, HandleRefusal(p, reply))
  {
    hide UpToDate;
  }

  lemma AppendSame(p: Peer, args: AppendArgs)
    requires Shaped(p) && Reaches(p, args)
    ensures SameSnap(p, HandleAppend(p, args).0)
  {
    hide FirstWithTerm;
  }

  lemma ReplySame(p: Peer, j: nat, args: AppendArgs, reply: AppendReply)
    requires Shaped(p) && j < |p.nextIndex| && j < |p.matchIndex|
    ensures SameSnap(p, HandleAppendReply(p, j, args, reply))
  {
    hide CommitScan, BackUp;
  }

  lemma OtherSame(p: Peer, j: nat, args: SnapshotArgs, term: nat, command: Command)
    ensures j < |p.nextIndex| ==> SameSnap(p, HandleSnapshotReply(p, j, args, term))
    ensures SameSnap(p, Start(p, command).0) && SameSnap(p, Apply(p).0)
    ensures Kept(p) == Held(p) ==> SameSnap(p, Restart(p))
  {
  }

  // ---- every action ----

  ghost predicate PeerGiven(p: Peer, given: set<Snap>) {
    Kept(p) == Held(p) && Held(p) in given
  }

  ghost predicate AllGiven(s: Cluster, given: set<Snap>) {
    && (forall i :: 0 <= i < |s.peers| ==> PeerGiven(s.peers[i], given))
    && (forall k :: 0 <= k < |s.snaps| ==> Sent(s.snaps[k].args) in given)
  }

  function After(given: set<Snap>, a: Action): set<Snap> {
    given + if a.DoSnapshot? then {Snap(a.index, a.snapshot)} else {}
  }

  lemma ActorGiven(s: Cluster, a: Action, given: set<Snap>)
    requires Enabled(s, a) && AllGiven(s, given)
    ensures var i := Actor(s, a); i < |Do(s, a).peers| && PeerGiven(Do(s, a).peers[i], After(given, a))
  {
    hide HandleAppend, HandleAppendReply, HandleVote, HandleVoteReply, HandleRefusal, Elect, MakeAppend, Tally, Asks, FullAfter,
         InstallSnapshot, TakeSnapshot, HandleSnapshotReply, MakeSnap, KeepsSuffix, ReplyStops, Start, Restart, Apply, Held, Kept, Sent;
    var p, none := s.peers[Actor(s, a)], SnapshotArgs(0, 0, 0, 0, 0);
    assert PeerGiven(p, given);
    match a
    case DoElect(_) => VoteSame(p, VoteArgs(0, 0, 0, 0), VoteReply(0, false));
    case DeliverVote(ask) => VoteSame(p, s.ballots[ask].args, VoteReply(0, false));
    case CountVote(ask) => VoteSame(p, s.ballots[ask].args, s.ballots[ask].reply);
    case AdoptRefusal(ask) => VoteSame(p, s.ballots[ask].args, s.ballots[ask].reply);
    case DeliverAppend(idx) => AppendSame(p, s.sent[idx].args);
    case HandleReply(ack) => ReplySame(p, ack.msg.to, ack.msg.args, ack.reply);
    case ClientStart(_, command) => OtherSame(p, 0, none, 0, command);
    case DoApply(_) => OtherSame(p, 0, none, 0, 0);
    case Crash(_) => OtherSame(p, 0, none, 0, 0);
    case HandleSnapReply(ack) => OtherSame(p, ack.msg.to, ack.msg.args, ack.term, 0);
    case DoSnapshot(_, index, data) => SnapshotReplaces(p, index, data, none);
    case DeliverSnap(idx) => SnapshotReplaces(p, -1, 0, s.snaps[idx].args);
    case DoSend(_, _) =>
    case SendSnap(_, _) =>
  }

  /** A snapshot that is sent is the sender's. */
  lemma SentIsHeld(s: Cluster, a: Action, k: nat)
    requires Enabled(s, a) && k < |Do(s, a).snaps|
    ensures var msg := Do(s, a).snaps[k]; msg in s.snaps || (Actor(s, a) < |s.peers| && Sent(msg.args) == Held(s.peers[Actor(s, a)]))
  {
    hide HandleAppend, HandleAppendReply, HandleVote, HandleVoteReply, HandleRefusal, Elect, MakeAppend, Tally, Asks, FullAfter,
         InstallSnapshot, TakeSnapshot, HandleSnapshotReply, KeepsSuffix, ReplyStops, Start, Restart, Apply;
  }

  lemma DoGiven(s: Cluster, a: Action, given: set<Snap>)
    requires Enabled(s, a) && AllGiven(s, given)
    ensures AllGiven(Do(s, a), After(given, a))
  {
    hide Do, Enabled, Held, Kept, Sent;
    OneActor(s, a);
    ActorGiven(s, a, given);
    forall k | 0 <= k < |Do(s, a).snaps| ensures Sent(Do(s, a).snaps[k].args) in After(given, a) {
      SentIsHeld(s, a, k);
    }
  }

  // ---- every run ----

  ghost predicate RunBy(run: seq<Cluster>, steps: seq<Action>) {
    && |run| == |steps| + 1 && Init(run[0])
    && forall k :: 0 <= k < |steps| ==> Enabled(run[k], steps[k]) && run[k + 1] == Do(run[k], steps[k])
  }

  lemma InitGiven(s: Cluster)
    requires Init(s)
    ensures AllGiven(s, {NONE})
  {
  }

  lemma {:induction false} RunGiven(run: seq<Cluster>, steps: seq<Action>, k: nat)
    requires RunBy(run, steps) && k <= |steps|
    ensures AllGiven(run[k], Given(steps, k))
  {
    hide AllGiven, Enabled, Do, Init;
    if k == 0 {
      InitGiven(run[0]);
    } else {
      RunGiven(run, steps, k - 1);
      DoGiven(run[k - 1], steps[k - 1], Given(steps, k - 1));
    }
  }

  lemma IsRun(run: seq<Cluster>, steps: seq<Action>)
    requires RunBy(run, steps)
    ensures Run(run)
  {
    hide Enabled, Do, Init;
    forall k | 0 <= k < |run| - 1 ensures Next(run[k], run[k + 1]) {
      assert run[k + 1] == Do(run[k], steps[k]);
    }
  }

  /** In every run, whatever crashes and whoever sent it: what a peer would come back with is the data that some service
      has given for the very index at which its log then begins, and the term there is the term of that entry. */
  lemma RestartFindsGiven(run: seq<Cluster>, steps: seq<Action>, k: nat, i: nat)
    requires RunBy(run, steps) && k <= |steps| && i < |run[k].peers|
    ensures var p, q := run[k].peers[i], Restart(run[k].peers[i]);
      && Held(q) == Held(p) && Held(q) in Given(steps, k)
      && q.lastIncludedIndex < |FullLog(run[k], i)| && FullLog(run[k], i)[q.lastIncludedIndex].term == q.lastIncludedTerm
  {
    hide RunBy, AllSound, Voting, PeerLogs, ReignLogs, CandidateLogs, VoterLogs, Messages;
    RunLength(run, steps);
    RunGiven(run, steps, k);
    IsRun(run, steps);
    RunFirm(run, k);
    assert PeerGiven(run[k].peers[i], Given(steps, k));
    SoundAt(run[k], i);
    KeepsFull(run[k], i);
  }

  lemma RunLength(run: seq<Cluster>, steps: seq<Action>)
    requires RunBy(run, steps)
    ensures |run| == |steps| + 1
  {
  }

  /** And what is under way is, too. */
  lemma SentIsGiven(run: seq<Cluster>, steps: seq<Action>, k: nat, m: nat)
    requires RunBy(run, steps) && k <= |steps| && m < |run[k].snaps|
    ensures Sent(run[k].snaps[m].args) in Given(steps, k)
  {
    hide RunBy;
    RunLength(run, steps);
    RunGiven(run, steps, k);
  }
}
