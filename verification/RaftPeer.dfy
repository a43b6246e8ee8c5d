/** One Raft peer as a value: its variables, what it saves, and the effect of each region of code
    that runs under its lock. */
module RaftPeer {

  /** Commands are never inspected. */
  type Command = int

  datatype LogEntry = LogEntry(term: nat, command: Command)
  type Log = seq<LogEntry>

  datatype Role = Follower | Leader

  /** What `persist` writes and `readPersist` restores. */
  datatype Saved = Saved(currentTerm: nat, votedFor: int, log: Log, lastIncludedIndex: nat, lastIncludedTerm: nat, snapshot: int)

  /** `votes` is the counter of the latest election this peer started. */
  datatype Peer = Peer(me: nat, peers: nat, currentTerm: nat, votedFor: int, role: Role, votes: nat,
                       log: Log, logLength: int, nextIndex: seq<int>, matchIndex: seq<int>,
                       commitIndex: int, lastApplied: int,
                       lastIncludedIndex: nat, lastIncludedTerm: nat, snapshot: int, saved: Saved)

  datatype VoteArgs = VoteArgs(term: nat, candidateId: nat, lastLogIndex: int, lastLogTerm: nat)
  datatype VoteReply = VoteReply(term: nat, voteGranted: bool)
  datatype AppendArgs = AppendArgs(term: nat, leaderId: nat, prevLogIndex: int, prevLogTerm: nat, entries: Log, leaderCommit: int)
  datatype AppendReply = AppendReply(term: nat, success: bool, xTerm: int, xLen: int, xIndex: int)
  datatype StartReply = StartReply(index: int, term: int, isLeader: bool)
  datatype SnapshotArgs = SnapshotArgs(term: nat, leaderId: nat, lastIncludedIndex: nat, lastIncludedTerm: nat, snapdata: int)

  function Min(a: int, b: int): int { if a > b then b else a }
  function Max(a: int, b: int): int { if a > b then a else b }

  /** The log is never empty; its first slot stands for everything up to the last snapshot. */
  predicate Shaped(p: Peer) {
    && p.log != []
    && p.logLength == |p.log| + p.lastIncludedIndex
    && p.log[0].term == p.lastIncludedTerm
  }

  function Persist(p: Peer): Peer {
    p.(saved := Saved(p.currentTerm, p.votedFor, p.log, p.lastIncludedIndex, p.lastIncludedTerm, p.snapshot))
  }

  const ROOT: LogEntry := LogEntry(0, 0)

  /** A peer created with nothing saved yet. */
  function Fresh(me: nat, peers: nat): Peer {
    Peer(me, peers, 0, -1, Follower, 0, [ROOT], 1, [], [], 0, 0, 0, 0, 0, Saved(0, -1, [ROOT], 0, 0, 0))
  }

  /** A peer created from what was saved: everything else starts over. */
  function Restart(p: Peer): Peer {
    var s := p.saved;
    Fresh(p.me, p.peers).(currentTerm := s.currentTerm, votedFor := s.votedFor, log := s.log,
                          logLength := |s.log| + s.lastIncludedIndex, lastIncludedIndex := s.lastIncludedIndex,
                          lastIncludedTerm := s.lastIncludedTerm, snapshot := s.snapshot, saved := s)
  }

  function LastTerm(p: Peer): nat
    requires Shaped(p)
  {
    p.log[p.logLength - p.lastIncludedIndex - 1].term
  }

  // ---- elections ----

  /** Become a candidate: next term, vote for oneself, ask everybody. */
  function Elect(p: Peer): (r: (Peer, VoteArgs))
    requires Shaped(p)
  {
    var p' := Persist(p.(currentTerm := p.currentTerm + 1, votedFor := p.me, votes := 1));
    (p', VoteArgs(p'.currentTerm, p.me, p.logLength - 1, LastTerm(p)))
  }

  /** The candidate's log is at least as up to date as this peer's. */
  predicate UpToDate(p: Peer, args: VoteArgs)
    requires Shaped(p)
  {
    args.lastLogTerm > LastTerm(p) || (args.lastLogTerm == LastTerm(p) && args.lastLogIndex >= p.logLength - 1)
  }

  function AdoptForVote(p: Peer, term: nat): Peer {
    if p.currentTerm < term then p.(role := Follower, currentTerm := term, votedFor := -1) else p
  }

  predicate Grants(p: Peer, args: VoteArgs)
    requires Shaped(p)
  {
    var q := AdoptForVote(p, args.term);
    q.currentTerm <= args.term && (q.votedFor == -1 || q.votedFor == args.candidateId) && UpToDate(q, args)
  }

  /** A granted vote is saved; a refused one leaves even a raised term unsaved. */
  function HandleVote(p: Peer, args: VoteArgs): (Peer, VoteReply)
    requires Shaped(p)
  {
    var q := AdoptForVote(p, args.term);
    if Grants(p, args) then (Persist(q.(currentTerm := args.term, votedFor := args.candidateId)), VoteReply(p.currentTerm, true))
    else (q, VoteReply(p.currentTerm, false))
  }

  function Promote(p: Peer): Peer {
    p.(role := Leader, nextIndex := seq(p.peers, i => p.logLength), matchIndex := seq(p.peers, i => -1))
  }

  /** A vote reply up to the promotion: stale ones demote, granted ones count, and a majority wins. */
  function TallyReply(p: Peer, args: VoteArgs, reply: VoteReply): (Peer, bool) {
    if p.currentTerm != args.term then (p.(role := Follower), false)
    else if !reply.voteGranted then (p, false)
    else
      var q := p.(votes := p.votes + 1);
      (q, q.votes > q.peers / 2 && q.votedFor == q.me)
  }

  /** The whole of it, if the winner is promoted at once. */
  function HandleVoteReply(p: Peer, args: VoteArgs, reply: VoteReply): Peer {
    var (q, won) := TallyReply(p, args, reply);
    if won then Promote(q) else q
  }

  /** The last part of handling a refusal, under its own lock: adopt a higher term. */
  function HandleRefusal(p: Peer, reply: VoteReply): Peer {
    if !reply.voteGranted && reply.term > p.currentTerm then Persist(p.(currentTerm := reply.term)).(role := Follower) else p
  }

  // ---- replication: the leader's side ----

  /** What the leader sends peer i: the whole suffix of its log from nextIndex[i], possibly empty. */
  function MakeAppend(p: Peer, i: nat): AppendArgs
    requires Shaped(p) && i < |p.nextIndex| && p.lastIncludedIndex < p.nextIndex[i] <= p.logLength
  {
    var next := p.nextIndex[i] - p.lastIncludedIndex;
    AppendArgs(p.currentTerm, p.me, p.nextIndex[i] - 1, p.log[next - 1].term,
               if p.logLength > p.nextIndex[i] then p.log[next..] else [], p.commitIndex)
  }

  /** The first position with the given term, or -1. */
  function FirstWithTerm(log: Log, term: int): (r: int)
    ensures -1 <= r < |log|
    ensures r >= 0 ==> log[r].term == term && forall i :: 0 <= i < r ==> log[i].term != term
    ensures r == -1 ==> forall i :: 0 <= i < |log| ==> log[i].term != term
  {
    FirstFrom(log, term, 0)
  }

  function FirstFrom(log: Log, term: int, i: nat): (r: int)
    requires i <= |log|
    ensures r == -1 || i <= r < |log|
    ensures r >= 0 ==> log[r].term == term && forall j :: i <= j < r ==> log[j].term != term
    ensures r == -1 ==> forall j :: i <= j < |log| ==> log[j].term != term
    decreases |log| - i
  {
    if i == |log| then -1 else if log[i].term == term then i else FirstFrom(log, term, i + 1)
  }

  /** Does peer j hold entry n, as far as the leader knows and as far as it may count it? */
  predicate Backs(p: Peer, n: int, j: nat)
    requires Shaped(p) && n < p.logLength && j < |p.matchIndex|
  {
    j == p.me || (p.matchIndex[j] >= n >= p.lastIncludedIndex && p.log[n - p.lastIncludedIndex].term == p.currentTerm)
  }

  function Backers(p: Peer, n: int): set<nat>
    requires Shaped(p) && n < p.logLength
  {
    set j | 0 <= j < |p.matchIndex| && Backs(p, n, j)
  }

  /** The highest entry above the commit index that a majority holds, or the commit index itself. */
  function CommitScan(p: Peer, n: int): int
    requires Shaped(p) && n < p.logLength
    decreases n - p.commitIndex
  {
    if n <= p.commitIndex then p.commitIndex
    else if |Backers(p, n)| > p.peers / 2 then n
    else CommitScan(p, n - 1)
  }

  /** To count entry n one would have to look in front of a log that was cut behind n. */
  predicate LooksBehind(p: Peer, n: int) {
    n < p.lastIncludedIndex && exists j :: 0 <= j < |p.matchIndex| && j != p.me && p.matchIndex[j] >= n
  }

  /** The scan from n down comes to such an entry before it finds a majority: the program stops there. */
  predicate ScanStops(p: Peer, n: int)
    requires Shaped(p) && n < p.logLength
    decreases n - p.commitIndex
  {
    n > p.commitIndex && (LooksBehind(p, n) || (|Backers(p, n)| <= p.peers / 2 && ScanStops(p, n - 1)))
  }

  function AdvanceCommit(p: Peer): Peer
    requires Shaped(p)
  {
    var n := CommitScan(p, p.logLength - 1);
    if n > p.commitIndex then p.(commitIndex := n, lastApplied := Max(p.lastApplied, p.lastIncludedIndex)) else p
  }

  /** Where to try next after a refusal: fast backup by conflicting term, or the follower's length. */
  function BackUp(p: Peer, reply: AppendReply): int {
    if reply.xTerm == -1 then reply.xLen
    else
      var j := FirstWithTerm(p.log, reply.xTerm);
      if j >= 0 then j + p.lastIncludedIndex + 1 else reply.xIndex
  }

  /** Peer i has accepted an append. */
  function Noted(p: Peer, i: nat, args: AppendArgs): Peer
    requires i < |p.nextIndex| && i < |p.matchIndex|
  {
    var m := args.prevLogIndex + |args.entries|;
    p.(matchIndex := p.matchIndex[i := m], nextIndex := p.nextIndex[i := m + 1])
  }

  function HandleAppendReply(p: Peer, i: nat, args: AppendArgs, reply: AppendReply): Peer
    requires Shaped(p) && i < |p.nextIndex| && i < |p.matchIndex|
  {
    if p.currentTerm != args.term then p
    else if args.term < reply.term then Persist(p.(currentTerm := reply.term)).(role := Follower)
    else if reply.success then
      var q := Noted(p, i, args);
      if args.entries != [] then AdvanceCommit(q) else q
    else p.(nextIndex := p.nextIndex[i := BackUp(p, reply)])
  }

  /** Handling the reply makes the program stop: only a scan can. */
  predicate ReplyStops(p: Peer, i: nat, args: AppendArgs, reply: AppendReply)
    requires Shaped(p) && i < |p.nextIndex| && i < |p.matchIndex|
  {
    && p.currentTerm == args.term && reply.term <= args.term && reply.success && args.entries != []
    && ScanStops(Noted(p, i, args), p.logLength - 1)
  }

  /** A client's command: appended and saved by a leader, refused by anyone else. */
  function Start(p: Peer, command: Command): (Peer, StartReply) {
    if p.role != Leader then (p, StartReply(-1, -1, false))
    else
      var q := Persist(p.(log := p.log + [LogEntry(p.currentTerm, command)], logLength := p.logLength + 1));
      (q, StartReply(q.logLength - 1, q.currentTerm, true))
  }

  // ---- replication: the follower's side ----

  /** The message is stale, or its previous entry is not hidden behind this peer's snapshot. */
  predicate Reaches(p: Peer, args: AppendArgs) {
    args.term < p.currentTerm || p.lastIncludedIndex <= args.prevLogIndex
  }

  function AdoptForAppend(p: Peer, term: nat): Peer {
    if term > p.currentTerm then Persist(p.(currentTerm := term, role := Follower)) else p
  }

  function CommitFrom(p: Peer, leaderCommit: int): Peer {
    if leaderCommit > p.commitIndex then
      p.(commitIndex := Min(leaderCommit, p.logLength - 1), lastApplied := Max(p.lastApplied, p.lastIncludedIndex))
    else p
  }

  /** Heartbeat or entries. On a match everything after the previous entry is replaced, on a conflict
      the conflicting entry and all after it are dropped. The reply carries the term held before. */
  function HandleAppend(p: Peer, args: AppendArgs): (Peer, AppendReply)
    requires Shaped(p) && Reaches(p, args)
  {
    var q := AdoptForAppend(p, args.term);
    if args.term < q.currentTerm then (q, AppendReply(p.currentTerm, false, 0, 0, 0))
    else if args.prevLogIndex > q.logLength - 1 then (q, AppendReply(p.currentTerm, false, -1, q.logLength, 0))
    else
      var c := args.prevLogIndex - q.lastIncludedIndex;
      var term := q.log[c].term;
      if args.prevLogTerm != term then
        var keep := if c == 0 then 1 else c;
        (Persist(q.(log := q.log[..keep], logLength := keep + q.lastIncludedIndex)),
         AppendReply(p.currentTerm, false, term, 0, FirstWithTerm(q.log, term) + q.lastIncludedIndex))
      else
        var r := if args.entries == [] then q
                 else Persist(q.(log := q.log[..c + 1] + args.entries,
                                 logLength := c + 1 + |args.entries| + q.lastIncludedIndex));
        (CommitFrom(r, args.leaderCommit), AppendReply(p.currentTerm, true, 0, 0, 0))
  }

  // ---- applying and snapshots ----

  /** One turn of the apply loop: the next committed entry, if any. */
  function Apply(p: Peer): (Peer, int)
  {
    if p.commitIndex > p.lastApplied then (p.(lastApplied := p.lastApplied + 1), p.lastApplied + 1) else (p, -1)
  }

  /** The service has snapshotted everything up to `index`: drop that part of the log. */
  function TakeSnapshot(p: Peer, index: int, snapshot: int): Peer
    requires Shaped(p) && p.lastIncludedIndex <= index < p.logLength
  {
    var c := index - p.lastIncludedIndex;
    Persist(p.(lastIncludedTerm := p.log[c].term, log := p.log[c..], lastIncludedIndex := index,
               logLength := |p.log[c..]| + index, snapshot := snapshot))
  }

  /** The follower's log agrees with the snapshot at its last entry, so the rest can be kept. */
  predicate KeepsSuffix(p: Peer, args: SnapshotArgs)
    requires Shaped(p)
  {
    && p.lastIncludedIndex <= args.lastIncludedIndex <= p.logLength - 1
    && p.log[args.lastIncludedIndex - p.lastIncludedIndex].term == args.lastIncludedTerm
  }

  function Rebased(p: Peer, args: SnapshotArgs): Peer
    requires Shaped(p)
  {
    var log := if KeepsSuffix(p, args) then p.log[args.lastIncludedIndex - p.lastIncludedIndex..]
               else [LogEntry(args.lastIncludedTerm, 0)];
    p.(log := log, lastIncludedIndex := args.lastIncludedIndex, lastIncludedTerm := args.lastIncludedTerm,
       lastApplied := Max(p.lastApplied, args.lastIncludedIndex), commitIndex := Max(p.commitIndex, args.lastIncludedIndex),
       snapshot := args.snapdata, logLength := |log| + args.lastIncludedIndex)
  }

  function InstallSnapshot(p: Peer, args: SnapshotArgs): (Peer, nat)
    requires Shaped(p)
  {
    if args.term < p.currentTerm then (p, p.currentTerm)
    else
      var q := if args.term > p.currentTerm then p.(currentTerm := args.term, votedFor := -1, role := Follower) else p;
      (Persist(Rebased(q, args)), p.currentTerm)
  }

  function HandleSnapshotReply(p: Peer, i: nat, args: SnapshotArgs, replyTerm: nat): Peer
    requires i < |p.nextIndex|
  {
    if p.currentTerm != args.term then p
    else
      var q := if replyTerm > p.currentTerm then Persist(p.(role := Follower, currentTerm := replyTerm)) else p;
      q.(nextIndex := q.nextIndex[i := q.lastIncludedIndex + 1])
  }

  // ---- when a scan stops ----

  /** A scan that stays at or above the snapshot does not stop. */
  lemma {:induction false} ScanGoesOn(p: Peer, n: int)
    requires Shaped(p) && n < p.logLength && p.lastIncludedIndex <= p.commitIndex + 1
    ensures !ScanStops(p, n)
    decreases n - p.commitIndex
  {
    if n > p.commitIndex {
      ScanGoesOn(p, n - 1);
    }
  }

  /** Behind the snapshot a leader counts itself at most. */
  lemma AloneBehind(p: Peer, n: int)
    requires Shaped(p) && n < p.logLength && n < p.lastIncludedIndex
    ensures |Backers(p, n)| <= 1
  {
    var b := Backers(p, n);
    if b != {} {
      assert b == {p.me};
    }
  }

  /** Someone else is known to be beyond the commit index. */
  predicate SomeoneAhead(p: Peer) {
    exists j :: 0 <= j < |p.matchIndex| && j != p.me && p.matchIndex[j] > p.commitIndex
  }

  /** With two peers or more, a scan stops exactly if the commit index lies two or more behind the snapshot, someone else
      is beyond it, and nothing from the snapshot on has a majority. */
  lemma {:induction false} ScanStopsIff(p: Peer, n: int)
    requires Shaped(p) && n < p.logLength && p.peers >= 2
    ensures ScanStops(p, n) <==>
      && p.commitIndex < n && p.commitIndex + 1 < p.lastIncludedIndex && SomeoneAhead(p)
      && forall k :: p.lastIncludedIndex <= k <= n ==> |Backers(p, k)| <= p.peers / 2
    decreases n - p.commitIndex
  {
    hide Backers, Shaped;
    if n > p.commitIndex {
      ScanStopsIff(p, n - 1);
      if n < p.lastIncludedIndex {
        AloneBehind(p, n);
        BehindIff(p, n);
      }
    }
  }

  lemma BehindIff(p: Peer, n: int)
    requires p.commitIndex < n < p.lastIncludedIndex
    ensures LooksBehind(p, n) ==> SomeoneAhead(p)
    ensures n == p.commitIndex + 1 && SomeoneAhead(p) ==> LooksBehind(p, n)
  {
  }
}
