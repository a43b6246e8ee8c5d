# Verification of the distributed-systems labs

A Dafny model of four components and proofs of what they are for. `dafny verify dfyconfig.toml` checks everything.

**The linearizability checker** (`src/porcupine`, `src/models/kv.go`). `checkSingle` is modelled as it is written: a
doubly linked list of call and return nodes that `lift` and `unlift` rewrite in place, a bitset of linearized
operations, a hashed memo cache, an undo stack. It is proved against the plain definition of linearizability
(`Linearizability.Linearizable`: some reordering of the operations that respects real time and that the model
accepts): sound, complete, terminating, never dereferencing nil, and recording for every operation a longest partial
linearization. Around it: entry lists, the parallel driver, partitioning by key, the visualizer's replay.
`CheckOperations.CheckOperations` puts it all together: on a key-value history the verdict is that of
linearizability against the *whole* map, although only single keys are ever searched; `Locality.MapLinearizableIff`
says what that is without the model.

**Raft** (`src/raft/raft.go`). A peer is a value (`RaftPeer`) with one function for every region of code that runs
under the lock, and an object (`RaftServer.Raft`) whose methods are proved to do to its fields what those functions do
to the value. A cluster (`RaftCluster`) is a transition system over those functions: messages are lost, delayed and
reordered, peers cut their logs with snapshots, send snapshots to peers that are behind, crash and restart from what
they saved. As history it keeps, for every peer, the log as it would be had it never been cut. Election Safety and Log
Matching hold in every run. Leader Completeness and State Machine Safety hold in every run without snapshots in which no
overtaken append is delivered: one that is not stale, carries entries, and ends at or before what its follower has
acknowledged of its term. Delivery in the order of sending is one way to meet that, and the condition is exactly the one
under which followers keep what they acknowledged (`RaftAcked`). Further modules are about one leader and one follower,
and about one peer: fast backup ends after few refusals, and exactly how long a peer whose log is cut by snapshots stays
in step with one that keeps everything, so that nobody can tell them apart.

The code meets these properties under conditions, and the model makes them explicit:

- In `RaftCluster` a vote reply is handled in one step (src/raft/raft.go:432-474). The code drops the lock in between and
  does not look at the term again. `RaftLate` is the same cluster with the steps the code takes: there Election Safety
  fails in a concrete run, and every leader has won its term if and only if every promotion finds the peer still in the
  term it won, or reigning in the term it is in. Then everything else holds there as well (`RaftLateRuns`).
- Each call has at most one reply, so the vote counter counts different peers.
- Line 837 of src/raft/raft.go cuts the log behind `PrevLogIndex` on every append that carries entries. If an old message
  overtakes a newer one this loses acknowledged entries: `RaftLimits.ReorderingBreaksSafety` is a run in which two peers
  apply different commands at one index, and `RaftAcked.AllKeepIffAllAhead` says exactly when followers keep what they
  acknowledged.
- A snapshot older than the peer's own makes it throw away a log that agrees with it (src/raft/raft.go:331-338);
  `RaftCompaction.InstallsAlikeIff` says exactly when an install is harmless.
- A restarted leader starts with commit index 0, and the scan for a majority (src/raft/raft.go:676-697) may go down to entries
  its snapshot covers, where it indexes in front of the log and the program stops. `RaftPeer.ScanStopsIff` says exactly
  when, and `RaftGuards.ReplyHandledIff` that this is the only append reply the cluster does not handle.

**The key-value server** (`src/kvsrv`). Server and clerk loops as methods, and a transition system of any number of
clerks over a network that loses requests and replies and delivers old copies of them late. Call numbers are unique. At
every moment of every run, each write has taken effect at most once and what has happened so far is linearizable, as
long as no copy of a write arrives after the write's `Clear`; `KvLimits` shows that this is exactly the condition, and
a run that is not linearizable without it.

**MapReduce** (`src/mr`, `src/main/mrsequential.go`). Map and reduce tasks and the sequential program as methods with
the loops of the source, a whole job, the coordinator as an object and as a transition system with its workers, and the
two together: whatever the workers did when, a finished job has printed the sequential program's lines.

Clocks, timers, randomness and the network are nondeterministic choices; RPC, encoding and files are values. Go's
`int64` times, terms and indices are unbounded integers here; bitset words are 64 bits wide. Commands, snapshots and
file contents are opaque. `sort.Sort` is `Sorting.Sort`, of which callers know only that it returns a sorted
permutation. `ihash` is an arbitrary function to the natural numbers.

## Model

| member | source | states |
|---|---|---|
| `Locality.LocalityTheorem` | src/porcupine/model.go:28-32 | A well-timed history is linearizable against the whole key-value map if and only if, for every key, the operations on that key are linearizable against the single-key model |
| `Locality.MergeLinearizations` | src/porcupine/model.go:28-32 | The hard direction: linearizations of every key, each by itself, can be merged into one order that respects real time across keys and that the map accepts |
| `Locality.AcceptsPerKey` | src/models/kv.go:40-57 | The map accepts a sequence exactly when, for every key, the single-key step accepts that key's subsequence; what that means is `KvModels.KvAcceptsIff` |
| `KvModels.KvAcceptsIff` | src/models/kv.go:40-57 | The single-key model accepts a sequence if and only if every get and every append with a return value returned the value that the writes before it left: what was put last, if anything, followed by all that was appended since, by either kind of append |
| `Locality.MapAcceptsIff` | src/models/kv.go:35-57 | The whole map accepts a sequence if and only if every get and every append with a return value returned the value that the earlier writes of its key left |
| `Locality.MapLinearizableIff` | src/models/kv.go:35-57 | So linearizability of a key-value history is: some order that respects real time in which everything returned is what the earlier writes of its key left |
| `KvModels.Partition` | src/models/kv.go:18-34 | One part per key in the order of the sorted keys, each holding exactly that key's operations in history order |
| `KvModels.Group` | src/models/kv.go:19-23 | The map built in one pass holds, for every key that occurs and no other, that key's operations in order |
| `Entries.MakeEntries` | src/porcupine/checker.go:48-60 | The sorted list has exactly one call before exactly one return per operation, and two operations precede one another in it exactly when they do in the history, ties included |
| `Events.Renumber` | src/porcupine/checker.go:92-106 | Same events in the same order; two new ids are equal exactly when the old ones were; the new ids are 0 to n-1 without gaps; calls of a paired history are numbered in order |
| `Events.ConvertEntries` | src/porcupine/checker.go:108-119 | Every event becomes the entry of its kind, dated by its position |
| `Events.ConvertedWellFormed` | src/porcupine/checker.go:92-119 | If every id is called once and returns once later, the renumbered list is one the checker can search, with exactly n operations |
| `Events.SameOperations` | src/porcupine/checker.go:92-119 | The list made from events stands for exactly the history the events denote: one operation per call, with the matching return, dated by positions |
| `Events.CheckEvents` | src/porcupine/checker.go:355-363 | Ok only if the history that the events of every partition denote is linearizable; Illegal if and only if that of a partition whose result was received is not, Unknown if and only if a timeout came before any such; if asked, distinct partial linearizations of those histories, among them a longest one for every operation unless a timeout cut that partition's search |
| `LinkedEntries.MakeLinkedEntries` | src/porcupine/checker.go:121-138 | A doubly linked list of fresh nodes in entry order, each call node carrying the node of its return |
| `LinkedEntries.InsertBefore` | src/porcupine/checker.go:70-81 | Only the pointers of the new node, the mark and the mark's old predecessor change, and they link the new node in |
| `LinkedEntries.Length` | src/porcupine/checker.go:83-90 | The number of nodes |
| `LinkedEntries.Lift` | src/porcupine/checker.go:159-167 | The heap afterwards holds exactly the links with both nodes taken out; no nil is dereferenced |
| `LinkedEntries.Unlift` | src/porcupine/checker.go:169-177 | The heap afterwards holds exactly the links there were before the matching lift |
| `LinkedEntries.UnliftUndoesLift` | src/porcupine/checker.go:159-177 | Lifting leaves a consistent chain of all present nodes but the two, and unlifting restores every pointer, also when call and return are adjacent |
| `Bitset.NewBitset` | src/porcupine/bitset.go:10-17 | Enough words for the bits, and the empty set |
| `Bitset.Clone` | src/porcupine/bitset.go:19-23 | A fresh array with the same words |
| `Bitset.Set` | src/porcupine/bitset.go:29-33 | The set denoted afterwards is the old one plus the position |
| `Bitset.Clear` | src/porcupine/bitset.go:35-39 | The set denoted afterwards is the old one minus the position |
| `Bitset.Popcnt` | src/porcupine/bitset.go:46-52 | The cardinality of the set denoted |
| `Bitset.Hash` | src/porcupine/bitset.go:54-60 | A function of the words alone, so equal bitsets hash alike |
| `Bitset.Equals` | src/porcupine/bitset.go:62-72 | For bitsets of one length, true exactly when they denote the same set; false for different lengths |
| `Bitset.EqualIffSameMembers` | src/porcupine/bitset.go:62-72 | Bitsets of one length are equal word for word exactly when they denote the same set |
| `SearchTrace.CacheContains` | src/porcupine/checker.go:145-152 | Looking into one hash bucket answers membership in the set of all (linearized set, state) pairs inserted so far |
| `SearchTrace.CacheInsert` | src/porcupine/checker.go:201-202 | Appending to the hash bucket adds exactly that pair to the set the cache stands for |
| `Search.ClosedCacheIsComplete` | src/porcupine/checker.go:197-213 | A cache that holds every move out of the start and out of its own members holds every configuration that any partial linearization reaches |
| `SearchState.PushSearched` | src/porcupine/checker.go:200-207 | Descending keeps: every cached configuration is on the stack or explored, and what has been tried at each level is recorded |
| `SearchState.PopSearched` | src/porcupine/checker.go:235-241 | Backtracking keeps it: the configuration left behind is fully explored |
| `SearchState.ExhaustedRefutes` | src/porcupine/checker.go:215-217 | When the stack is empty at a return entry, the history is not linearizable and every partial linearization has been visited |
| `SearchState.ExhaustedIsLongest` | src/porcupine/checker.go:218-234 | Then the recorded sequences are longest ones |
| `SearchTrace.RecordLongest` | src/porcupine/checker.go:219-234 | The loop replaces the record of an operation on the stack exactly when the stack is longer, and leaves the others |
| `Checker.CheckSingle` | src/porcupine/checker.go:179-253 | True only if the history is linearizable; if the kill flag is never seen set, true exactly if it is. Every record is a partial linearization containing its operation; on a true verdict, or a false one with `computePartial` and no kill, it is a longest one, and missing only if there is none. Terminates without dereferencing nil |
| `Parallel.CheckParallel` | src/porcupine/checker.go:274-353 | For any arrival order and timeout, with `seen` the partitions whose results the loop received: Illegal if and only if one of them is not linearizable, Unknown if and only if the loop timed out and all of them are; Ok only if every partition is linearizable; without a timeout everything was seen, unless a failure ended the loop early. Partial linearizations are given exactly if asked for; they are valid, and longest for every partition that was seen or whose search was not cut |
| `Parallel.Receive` | src/porcupine/checker.go:292-310 | When the loop ends its flag says exactly whether all received results were true, every received result is exact, and the rest is known to be pending; it ends by a timeout, with the last result, or with the first failure if no information is asked for |
| `Parallel.Collect` | src/porcupine/checker.go:322-337 | Every recorded sequence, none other, none twice |
| `ParallelRuns.VerdictIsExact` | src/porcupine/checker.go:280-310 | Over all interleavings of searches, receives, kill and timeout: Illegal if and only if the loop received the result of a partition that is not linearizable, Unknown if and only if it timed out without one, Ok only if every partition is linearizable |
| `ParallelRuns.NoPartitionsNeverReturns` | src/porcupine/checker.go:291-310 | With no partitions and no timeout the loop has no step to take |
| `CheckOperations.CheckOperations` | src/porcupine/checker.go:365-373 | Ok only if the history is linearizable against the whole map, Illegal only if it is not; Illegal if and only if a key whose result was received is not linearizable, Unknown if and only if a timeout came before any such; if asked, for every key in order distinct partial linearizations of its operations, among them a longest one for every operation unless a timeout cut that key's search |
| `CheckOperations.WholeVerdict` | src/porcupine/checker.go:365-373 | All prepared parts are linearizable exactly when the whole history is |
| `Visualization.CollectValues` | src/porcupine/visualization.go:37-53 | Every operation with its client, the times of its call and return and the description of its values, and the call and return values by operation id |
| `Visualization.Replay` | src/porcupine/visualization.go:63-79 | The states along a partial linearization; the panic on a refused step is unreachable |
| `Visualization.PickLargest` | src/porcupine/visualization.go:55-77 | The index kept for an operation is that of the first among the longest sequences containing it |
| `Visualization.ComputeVisualization` | src/porcupine/visualization.go:33-87 | Every operation as it is drawn; the sequences sorted by decreasing length, each replayed, with the index of the first among the longest ones per operation |
| `Visualization.ShownIsLongest` | src/porcupine/visualization.go:73-76 | What is shown for an operation is as long as any partial linearization that contains it |
| `RaftServer.Raft.constructor` | src/raft/raft.go:986-1020 | A fresh peer, or one restored from what was saved with everything else starting over |
| `RaftServer.Raft.Save` | src/raft/raft.go:175-186 | Term, vote, log and snapshot boundary as they are now are what a restart finds; `RaftRuns.CrashLosesNothing` says that this is enough |
| `RaftServer.Raft.ElectLauncher` | src/raft/raft.go:377-395 | `RaftPeer.Elect`: next term, vote for itself, both saved, and a request that describes its log |
| `RaftServer.Raft.RequestVoteHandler` | src/raft/raft.go:496-548 | `RaftPeer.HandleVote`: grants exactly when the term is current, no other vote is held and the candidate's log is up to date; saves only granted votes |
| `RaftServer.Raft.CountReply` | src/raft/raft.go:432-443 | `RaftPeer.TallyReply`: stale replies demote, granted votes are counted, and whether a majority is reached |
| `RaftServer.Raft.TakeOffice` | src/raft/raft.go:449-464 | `RaftPeer.Promote`: leader, with both index tables reset for every peer, whatever the term |
| `RaftServer.Raft.CountVote` | src/raft/raft.go:431-474 | `RaftPeer.HandleVoteReply`: the two together when nobody takes the lock in between; the steps apart are those of `RaftLate` |
| `RaftServer.Raft.AdoptRefusal` | src/raft/raft.go:476-483 | `RaftPeer.HandleRefusal`: a higher term in a refusal is adopted and saved |
| `RaftServer.Raft.HeartBeatLauncher` | src/raft/raft.go:566-635 | For every other peer the message of `RaftPeer.MakeAppend`, or a snapshot if the peer needs entries behind it |
| `RaftServer.Raft.CountBackers` | src/raft/raft.go:677-682 | The number of peers that hold the entry as far as the leader knows and may count it; the log is not indexed in front of its first entry unless some other peer is known to hold an entry behind the snapshot |
| `RaftServer.Raft.Advance` | src/raft/raft.go:675-698 | `RaftPeer.AdvanceCommit`: the highest entry above the commit index that a majority backs, else no change, whenever the scan does not make the program stop |
| `RaftServer.Raft.HeartbeatReply` | src/raft/raft.go:649-740 | `RaftPeer.HandleAppendReply`: all four outcomes of a reply, and whether a snapshot is sent, for every reply whose scan does not make the program stop |
| `RaftTerms.ReplyRaisesTerm` | src/raft/raft.go:658-666 | In every run, after a reply to an append, a reply to a snapshot or a refused vote of the term a peer is in, the peer is in the later of its own and the reply's term and has saved it; if that is a new term it is a follower with the log, vote and indices it had |
| `RaftTerms.RefusalRaisesTerm` | src/raft/raft.go:477-483 | A refused vote takes the peer to the later of the two terms even if it has left the term it asked in; a new term is saved and makes it a follower with log, vote and indices as they were |
| `RaftTerms.StaleReplyIgnored` | src/raft/raft.go:652-656 | A reply to an append or a snapshot of a term the peer has left changes nothing in the cluster |
| `RaftPeer.ScanStopsIff` | src/raft/raft.go:676-682 | With two peers or more the scan makes the program stop if and only if the commit index lies two or more entries behind the snapshot, some other peer is known to be beyond the commit index, and no entry from the snapshot on has a majority |
| `RaftGuards.FirstReplyStops` | src/raft/raft.go:676-682 | That happens: a leader of four peers or more, restarted from such a snapshot, stops at the first append that is accepted |
| `RaftServer.Raft.StartCommand` | src/raft/raft.go:869-889 | `RaftPeer.Start`: a leader appends and saves, anyone else refuses; `RaftClient.StartAnswers` says what the answer means |
| `RaftClient.StartAnswers` | src/raft/raft.go:869-889 | Exactly a leader takes a command, and anyone else changes nothing and names no index; the index and term in the answer are where the new log, saved, has the command, as its last entry |
| `RaftClient.SubmittedFound` | src/raft/raft.go:869-889 | In every run a full log, of any peer at any moment, that has an entry of the answer's term at the answer's index has the submitted command there |
| `RaftClient.SubmittedApplied` | src/raft/raft.go:957-983 | In every run, snapshots included, whatever a peer applies of the answer's term at the answer's index is the submitted command |
| `RaftClient.AppliesFull` | src/raft/raft.go:957-983 | In every run what a peer applies is the entry of its full log at the next index, although its own log has been cut |
| `RaftServer.Raft.HeartbeatHandler` | src/raft/raft.go:751-861 | `RaftPeer.HandleAppend`: all outcomes of a heartbeat, with the follower's new log, commit index and reply |
| `RaftTerms.CallsRaiseTerm` | src/raft/raft.go:310-773 | Every reply names the term its sender was in before the call; a vote request, an append that does not reach behind the snapshot, or a snapshot of a later term takes the peer to that term as a follower and is saved at once, except that a refused vote saves nothing; one of an earlier term changes nothing |
| `RaftExchange.MessageHolds` | src/raft/raft.go:584-603 | An append carries everything the leader has from the follower's next index on, the index and term just before, and how far the leader has committed |
| `RaftExchange.AcceptedIff` | src/raft/raft.go:765-860 | For a peer whose log may have been cut and an append that does not reach behind its snapshot: it is accepted if and only if it is not stale and the peer has the entry before it; then a heartbeat leaves the log alone, and entries replace everything after that entry; a commit index behind the leader's is raised as far as the leader's and the new log allow, beyond neither; a refusal leaves both indices alone |
| `RaftExchange.ExchangeSyncs` | src/raft/raft.go:669-672 | An append with entries to a peer of no later term that has the entry before them is accepted; after the reply both logs end at the same index and hold the same entries from the old next index on, and the leader's tables say exactly that |
| `RaftServer.Raft.ApplyOne` | src/raft/raft.go:957-983 | The next committed entry, if any, with its index and command |
| `RaftClient.AppliesNext` | src/raft/raft.go:957-983 | A turn of the apply loop takes the next entry exactly if it is committed, and never passes the commit index |
| `RaftServer.Raft.TakeServiceSnapshot` | src/raft/raft.go:231-250 | `RaftPeer.TakeSnapshot`: the log from the index on, saved with the new boundary; `RaftSnapshots.SnapshotReplaces` says what becomes of the data |
| `RaftServer.Raft.InstallSnapshotHandler` | src/raft/raft.go:310-356 | `RaftPeer.InstallSnapshot`: keeps the rest of a log that agrees with the snapshot's last entry, else starts over from it |
| `RaftSnapshots.SnapshotReplaces` | src/raft/raft.go:231-356 | After a snapshot is taken or installed, what the peer holds, has saved and would find after a restart is the data given, for the index given; a snapshot of an earlier term changes nothing |
| `RaftSnapshots.RestartFindsGiven` | src/raft/raft.go:189-227 | In every run, whatever crashes: what a peer would come back with is what it holds, and is data that some service has given for the very index at which its log then begins, or nothing at the root; the saved term is that of the entry there |
| `RaftSnapshots.SentIsGiven` | src/raft/raft.go:624-632 | Every snapshot under way is data that some service has given for the index it names, or nothing at the root |
| `RaftServer.Raft.SnapshotReply` | src/raft/raft.go:278-297 | `RaftPeer.HandleSnapshotReply`: adopts a higher term and continues right behind the snapshot |
| `RaftElection.VoteGrew` | src/raft/raft.go:496-548 | Granting never contradicts a vote given earlier in the term, in this life or one before a crash |
| `RaftElection.GrantedIff` | src/raft/raft.go:496-548 | Exactly when a vote is granted, in terms of the peer before the call, and what term, role and vote the peer is left with; `RaftElection.VoteGrew` and `RaftCommit.GrantAtLeast` say what that is worth |
| `RaftCommit.GrantAtLeast` | src/raft/raft.go:524-531 | Without snapshots, a vote goes only to a candidate whose log, when it stood, was at least as up to date as the voter's is |
| `RaftElection.PromotedIffMajority` | src/raft/raft.go:431-474 | After an answer to its vote request a peer leads if and only if it is still in the term of the request and it led already or the answer is a granted vote that makes its counted votes more than half of the peers while its own vote is its own; exactly in the latter case both index tables are reset for every peer; an answer to a request of another term takes the office away; besides role, counter and tables nothing is touched; `RaftElection.CountMajority` says that the votes are those of different peers |
| `RaftElection.OneWinner` | src/raft/raft.go:442-451 | Two majorities of one term elected the same candidate |
| `RaftElection.CountMajority` | src/raft/raft.go:442-443 | When the counter passes half the peers, a majority of different peers has voted for the candidate in this term |
| `RaftElection.DoVoting` | src/raft/raft.go:310-548 | Every action of the cluster, snapshots included, keeps the voting invariant |
| `RaftRuns.ElectionSafety` | src/raft/raft.go:431-474 | At most one peer is ever leader of a term, at any two moments of any run, although installing a snapshot may clear the vote |
| `RaftRuns.CrashLosesNothing` | src/raft/raft.go:175-223 | At any moment of any run a crashing peer comes back with its whole log, in a term no earlier than that of any vote it has given, and knows whom it voted for in that term |
| `RaftLogs.AppendMatches` | src/raft/raft.go:829-840 | An append that passes the check makes the follower's full log equal to the leader's up to the end of the message |
| `RaftLogs.AppendFull` | src/raft/raft.go:779-840 | What a heartbeat does to a log cut by a snapshot is the end of what it does to the full log |
| `RaftLogs.SnapPeerLog` | src/raft/raft.go:331-346 | An arriving snapshot leaves a full log that agrees with its last entry and replaces any other by a prefix of its sender's; either way the peer keeps the end of it |
| `RaftLogs.DoLogs` | src/raft/raft.go:231-840 | Every action keeps: each entry of a full log lies, with everything before it, on the full log of its term's leader; appends carry stretches and snapshots prefixes of such logs |
| `RaftRuns.LogMatching` | src/raft/raft.go:231-840 | Two full logs, of any two peers at any two moments of any run, snapshots included, with the same term at an index agree on everything up to it |
| `RaftRuns.KeptMatching` | src/raft/raft.go:231-840 | Hence what two peers have kept: with the same term at a global index they have the same entries up to it, from where both have kept any, and the same term at their boundaries |
| `RaftCommit.UpToDateHas` | src/raft/raft.go:524-531 | A log at least as up to date as one that has a possibly committed entry has that entry too |
| `RaftCommit.CrownInherits` | src/raft/raft.go:442-451 | A newly elected leader's log has every entry of earlier terms that is or may still be committed |
| `RaftCommit.AppendRetains` | src/raft/raft.go:800-840 | Whatever a message that reaches beyond what was acknowledged does to a follower's log, the log keeps every acknowledged entry that may be committed |
| `RaftCommit.DoSurviving` | src/raft/raft.go:751-861 | Every action that is not overtaken keeps the invariant that what may be committed survives |
| `RaftOrder.DoInOrder` | src/raft/raft.go:584-603 | With delivery in the order of sending, what may still be delivered reaches beyond what was acknowledged, after every action |
| `RaftApplied.MajorityChosen` | src/raft/raft.go:676-696 | The leader's count, itself included unconditionally, passes half the peers only for an entry of its own term that a majority holds |
| `RaftApplied.CommitsHighest` | src/raft/raft.go:669-698 | An accepted append of the present term moves the commit index to the highest entry that a majority holds by the leader's count, and to nothing less |
| `RaftApplied.CommittedStays` | src/raft/raft.go:800-840 | No message removes or changes anything a follower has committed |
| `RaftApplied.AppendCommit` | src/raft/raft.go:848-860 | A follower's commit index becomes the leader's when that is larger, which then lies within its log |
| `RaftApplied.DoCommitting` | src/raft/raft.go:669-698 | Every action that is not overtaken keeps: commit indices, in peers and in messages, are backed by a majority |
| `RaftRuns.LeaderCompleteness` | src/raft/raft.go:526-531 | In runs without snapshots in which no overtaken append is delivered: what any peer has committed at any moment is in the log of every leader of a later term, at any moment |
| `RaftRuns.CommittedAgree` | src/raft/raft.go:848-860 | In such runs any two peers at any two moments agree on all entries both have committed |
| `RaftRuns.StateMachineSafety` | src/raft/raft.go:957-983 | In such runs no two peers, in any of their lives, apply different commands at one index |
| `RaftRuns.OrderedIsAheadRun` | src/raft/raft.go:829-840 | Runs in which messages of one term reach a follower in the order they were sent, or not at all, are such runs |
| `RaftRuns.CommitInLog` | src/raft/raft.go:856-857 | In such runs applied index, commit index and log length are always in that order |
| `RaftGuards.ReplyHandledIff` | src/raft/raft.go:649-740 | In every run, snapshots and restarts included, a reply to an append of the present life is in range of both tables and can be handled if and only if its scan does not make the program stop |
| `RaftGuards.SnapReplyHandled` | src/raft/raft.go:278-297 | In every run a reply to a snapshot of the present life can be handled |
| `RaftGuards.MessageHandledIff` | src/raft/raft.go:310-356 | In every run a snapshot can be handled, and an append unless it is not stale and reaches behind the receiver's snapshot |
| `RaftGuards.NeverOutOfRange` | src/raft/raft.go:584-603 | In runs without snapshots and overtaken appends a leader can always send to every peer, every message and every reply can be handled, and what is committed can be applied: no index is out of range |
| `RaftRuns.KeepsAckedIffNotOvertaken` | src/raft/raft.go:829-840 | An accepted append with entries leaves the follower with all it has acknowledged in that term if and only if the message reaches beyond that |
| `RaftAcked.KeepIffAhead` | src/raft/raft.go:792-840 | One step: followers that have stayed in a term keep what they acknowledged of its leader's own entries if and only if the step does not deliver an overtaken append |
| `RaftAcked.AllKeepIffAllAhead` | src/raft/raft.go:792-840 | Over whole runs without snapshots: they keep it at every moment if and only if no overtaken append is ever delivered |
| `RaftLimits.ReorderingBreaksSafety` | src/raft/raft.go:829-840 | A run with one message overtaken by a later one in which two peers apply different commands at one index |
| `RaftLate.TimelyIffLeadersReign` | src/raft/raft.go:439-451 | After a promotion every leader has won its term if and only if the promoted peer is still in the term it won or already reigns in the one it is in |
| `RaftLate.AllReignIffAllTimely` | src/raft/raft.go:432-474 | Over whole runs of the code's own steps: every leader has won its term at every moment if and only if every promotion was such |
| `RaftLateRuns.TimelyElectionSafety` | src/raft/raft.go:432-474 | If every promotion was such, at most one peer ever leads a term, at any two moments |
| `RaftLateRuns.TimelyLogMatching` | src/raft/raft.go:432-474 | And full logs match as in `RaftRuns.LogMatching`, snapshots included |
| `RaftLateRuns.TimelyLeaderCompleteness` | src/raft/raft.go:432-474 | And, without snapshots and overtaken appends, leaders of later terms have what was committed |
| `RaftLateRuns.TimelyStateMachineSafety` | src/raft/raft.go:432-474 | And no two peers apply different commands at one index |
| `RaftLate.LatePromotionBreaksElectionSafety` | src/raft/raft.go:439-451 | A run of three peers in which one is promoted after it has voted in a later term, and leads that term together with the candidate it voted for |
| `RaftLate.CountNeverBlocked` | src/raft/raft.go:442-443 | At any moment of any run a reply that has passed the first check can be counted if and only if its candidate is still in the life that asked |
| `RaftBackup.RefusedRound` | src/raft/raft.go:704-723 | A refusal shortens the follower's log, or sends the leader back to its end; the index tried next is between 1 and the leader's log length |
| `RaftBackup.FewRefusals` | src/raft/raft.go:704-738 | At most two refusals per entry of the follower's log |
| `RaftBackup.BackupConverges` | src/raft/raft.go:779-827 | Backing up ends with the follower holding the leader's whole log and the leader knowing it |
| `RaftCompaction.ReplicationKeepsWhole` | src/raft/raft.go:793-840 | Heartbeats, replies, commands and applying keep: log not empty, length the sum of its parts, first term that of the snapshot, now and as saved |
| `RaftCompaction.ElectionsKeepWhole` | src/raft/raft.go:377-548 | Elections keep it |
| `RaftCompaction.SnapshotsKeepWhole` | src/raft/raft.go:231-356 | Taking and installing snapshots and their replies keep it |
| `RaftCompaction.AppendsAlikeIff` | src/raft/raft.go:751-861 | A heartbeat does the same to a compacted log as to the full log if and only if it does not conflict with the snapshot's own last entry and does not make a peer commit that has applied less than its snapshot covers |
| `RaftCompaction.AcceptsAlike` | src/raft/raft.go:779-827 | It is accepted or refused alike, with the same term, conflicting term and length in the reply |
| `RaftCompaction.RefusesAlike` | src/raft/raft.go:801-810 | The index in a refusal is the full log's, unless that lies behind the snapshot |
| `RaftCompaction.CommitsAlikeIff` | src/raft/raft.go:669-701 | An accepted append commits the same entries, and leaves the two in step unless it makes a peer commit that has applied less than its snapshot covers |
| `RaftCompaction.RefusedAlikeIff` | src/raft/raft.go:703-738 | A refusal sends both back to the same index if and only if it names no term, or one whose first entry is not behind the snapshot, or is not found and the follower's index happens to be that entry's |
| `RaftCompaction.VotesAlike` | src/raft/raft.go:496-548 | Votes are asked for and granted alike |
| `RaftCompaction.SendsAlike` | src/raft/raft.go:584-603 | The same message is sent to a peer that needs nothing behind the snapshot |
| `RaftCompaction.StartsAlike` | src/raft/raft.go:869-889 | A command gets the same index and extends both logs alike |
| `RaftCompaction.AppliesAlike` | src/raft/raft.go:957-983 | The same command is applied at the same index |
| `RaftCompaction.SnapshotInvisible` | src/raft/raft.go:231-250 | To the peer with the full log a snapshot is a save and nothing more |
| `RaftCompaction.KeepsIffAgrees` | src/raft/raft.go:331-334 | For a snapshot no older than its own a compacting peer keeps its log exactly if the full log agrees with the snapshot's last entry |
| `RaftCompaction.InstallsAlikeIff` | src/raft/raft.go:317-346 | A peer that keeps everything and decides by its own log stays in step with the compacting one if and only if the snapshot is stale, no older than the peer's own, or disagrees with the full log; the reply is the same in any case |
| `RaftCompaction.SnapshotStands` | src/raft/raft.go:624-632 | What is sent in a snapshot stands for the beginning of the full log |
| `RaftCompaction.SnapshotRepliesAlikeIff` | src/raft/raft.go:278-297 | A reply to a snapshot lets both go on at the same index if and only if it is stale or no other snapshot has come since |
| `RaftCompaction.RestartsAlike` | src/raft/raft.go:189-227 | A restart keeps the two in step |
| `RaftCompactionRuns.StepAlikeIff` | src/raft/raft.go:189-983 | Any step of a peer, snapshots taken, sent, acknowledged and installed and restarts included, gets the same answer as from the peer that keeps everything and decides by its own log, and leaves the two in step if and only if none of the named conditions parts them |
| `RaftCompactionRuns.TogetherIff` | src/raft/raft.go:189-983 | Over any run the two are in step at every moment if and only if no step parts them |
| `RaftCompactionRuns.RunsAlike` | src/raft/raft.go:189-983 | Until then the answers to the rest of the system are the same |
| `RaftCompactionRuns.FromTheStart` | src/raft/raft.go:189-1020 | Both for two new peers |
| `RaftCompactionRuns.ReadyKept` | src/raft/raft.go:189-983 | Every step, restarts included, keeps: what the snapshot covers has been applied, or nothing is committed that has not been; so no apply looks behind the snapshot |
| `KvServer.KVServer.constructor` | src/kvsrv/server.go:112-118 | Empty store, empty table |
| `KvServer.KVServer.Get` | src/kvsrv/server.go:31-49 | The key's value, empty if never written; `KvProtocol.AlwaysLinearizable` says that this is the last value written |
| `KvServer.KVServer.Put` | src/kvsrv/server.go:51-73 | A call already in the table repeats its reply and changes nothing; a new one stores the value, keeps and returns the value before |
| `KvServer.KVServer.Append` | src/kvsrv/server.go:75-97 | Likewise, with the value appended |
| `KvServer.KVServer.Clear` | src/kvsrv/server.go:25-29 | That call, and no other, leaves the table |
| `KvServer.ClerkGet` | src/kvsrv/client.go:31-52 | The value, after any number of failed calls |
| `KvServer.ClerkPutAppend` | src/kvsrv/client.go:55-77 | However calls fail, the store changes once, the value just before is returned, and the table is left as it was |
| `KvLimits.StaleUnchangedIff` | src/kvsrv/server.go:51-97 | A copy of a write, put or append, leaves the server as it is if and only if the write is still in the table |
| `KvLimits.StaleKeepsIff` | src/kvsrv/server.go:51-97 | In any state reached without late copies, a copy of a write keeps exactly-once if and only if the write's Clear has not been handled |
| `KvLimits.OnceIffTimely` | src/kvsrv/server.go:25-97 | Over whole runs: no call has taken effect twice if and only if no copy of a write arrived after its Clear |
| `KvLimits.LateCopyBreaksLinearizability` | src/kvsrv/server.go:51-73 | A run in which a copy of a put arrives after its Clear, all calls have returned, and their history is not linearizable |
| `KvProtocol.TakeKeeps` | src/kvsrv/server.go:25-97 | Every step of clerks, server and network but a late copy keeps the invariant that ties calls, table, store and the order of effects together |
| `KvProtocol.DropRead` | src/kvsrv/server.go:31-49 | Leaving a read out of a sequential run changes neither later results nor the store |
| `KvProtocol.ExactlyOnce` | src/kvsrv/client.go:55-77 | At every moment of every run without late copies: no call has two effects, a returned call has one, with the reply it returned; every effect returned the value just before it; the store is what the effects make it; the table holds exactly the writes that have taken effect and are not cleared |
| `KvProtocol.AlwaysLinearizable` | src/kvsrv/test_test.go:48-95 | At every moment of every run without late copies, what has happened so far is linearizable against the whole map: returned calls as they returned, calls that have taken effect as returning now |
| `KvProtocol.CompletedIsLinearizable` | src/kvsrv/test_test.go:48-95 | In particular, once all calls have returned, their history is |
| `MapReduce.Sequential` | src/main/mrsequential.go:42-90 | One line per key, in the order of keys, each the reduction of exactly that key's values over all files |
| `MapReduce.GroupReduce` | src/mr/worker.go:137-150 | Walking a sorted sequence gives one line per key, in the order of keys, from exactly that key's values |
| `MapReduce.DoReduce` | src/mr/worker.go:106-150 | The same for the contents of all the files of the task |
| `MapReduce.DoMap` | src/mr/worker.go:36-104 | A file for exactly the partitions that are not empty, holding that partition's pairs in emission order, and the list of those partitions, increasing for a single input file |
| `MapReduce.OutputDetermined` | src/main/mrsequential.go:74-90 | If reduce ignores the order of values, any two outputs for the same pairs are the same lines |
| `MapReduceJob.ListedIsPart` | src/mr/worker.go:112-128 | Whatever the commit order, the files of a reduce task hold exactly its partition of everything map emitted |
| `MapReduceJob.RunJob` | src/mr/worker.go:36-158 | All reduce tasks together print one line per key from exactly that key's values |
| `MapReduceJob.SameAsSequential` | src/main/mrsequential.go:42-90 | For any files, any number of partitions and any commit order, the job and the sequential program print the same lines |
| `Coordinator.Master.constructor` | src/mr/coordinator.go:187-222 | One idle map task per file, naming that file, and the given number of idle reduce tasks without files; `CoordinatorRuns.AnswersAreRight` says that workers are told so |
| `Coordinator.Master.Task` | src/mr/coordinator.go:85-146 | `Coordinator.Assign`: the first idle task of the present phase becomes busy and is returned; with none, the job is over or the worker asks again |
| `Coordinator.Master.CommitOK` | src/mr/coordinator.go:149-184 | `Coordinator.Commit`: the task is finished, its counter moves, a map task's files are listed with their reduce tasks |
| `Coordinator.Master.Done` | src/mr/coordinator.go:239-252 | True exactly when both counters say so; `CoordinatorRuns.CountersCount` says that this is when all tasks are finished, `JobRuns.DoneIsSequential` what has been printed then |
| `CoordinatorRuns.TakeKeeps` | src/mr/coordinator.go:85-184 | Every request and commit keeps the invariant about counters, phases, owners and files |
| `CoordinatorRuns.AlwaysInRange` | src/mr/coordinator.go:157-167 | No commit indexes outside the task lists |
| `CoordinatorRuns.CountersCount` | src/mr/coordinator.go:157-166 | The counters count finished tasks, and the job is done exactly when all tasks are finished |
| `CoordinatorRuns.OneOwner` | src/mr/coordinator.go:126-129 | No task has two workers |
| `CoordinatorRuns.AnswersAreRight` | src/mr/coordinator.go:99-136 | A map task comes with its own input file and the original number of partitions; a reduce task only after all maps, with each committed file for it listed once in commit order and the number of reduce tasks left; the end of the job only when everything is finished; a worker is sent away only while another is busy |
| `JobRuns.MapWorker` | src/mr/worker.go:36-104 | A map worker reads the files it was told, writes the partitions of what map makes of them and reports exactly those, in increasing order for a single file |
| `JobRuns.WorksFine` | src/mr/worker.go:36-158 | Every step of workers and coordinator keeps: what finished map tasks reported is on disk, and what finished reduce tasks printed reduces their partition of everything |
| `JobRuns.ReadsPart` | src/mr/worker.go:112-128 | The files a reduce worker was told of are all there and together hold exactly its partition of everything map emitted |
| `JobRuns.NeverMissing` | src/mr/worker.go:48-120 | No worker ever finds a file missing, and what a map worker reads is its task's own input file |
| `JobRuns.DoneIsReduced` | src/mr/coordinator.go:239-252 | In every run, when the coordinator says the job is done, one line has been printed for every key, from exactly that key's values |
| `JobRuns.DoneIsSequential` | src/main/mrsequential.go:42-90 | Those are the sequential program's lines, if reduce ignores the order of values |

## Left out

- Parallel.CheckParallel: needs a timeout or at least one partition, because the original waits for ever without either (`ParallelRuns.NoPartitionsNeverReturns`).
- CheckOperations.CheckOperations: histories whose operations return before they are called are not considered; the checker's own documentation does not admit them.
- Events.CheckEvents: histories in which a call has no return or two are not considered; the original fails on them. Partitioning of events is the caller's: the key-value model has none.
- RaftRuns.LeaderCompleteness: only for runs without snapshots and overtaken appends; that every overtaken append leads to a violation of safety is not claimed, only that it takes away what a follower acknowledged (`RaftAcked.AllKeepIffAllAhead`).
- RaftRuns.StateMachineSafety: as `RaftRuns.LeaderCompleteness`.
- RaftRuns.LogMatching: a step at which the code would index outside a log is not taken, because the peer would stop there: an append that is not stale and reaches behind the snapshot (src/raft/raft.go:793-794), a commit scan that does (src/raft/raft.go:679, exactly as in `RaftPeer.ScanStops`), an apply outside the log (src/raft/raft.go:964), a snapshot of an index outside it (src/raft/raft.go:236-237), and a send beyond its end (src/raft/raft.go:598).
- RaftCompactionRuns.RunsAlike: steps at which the code would index outside a log are not taken, and the first index of the conflicting term in a refusal and the contents of snapshots are not part of the answers. A restarted peer that has saved a snapshot skips to it at its next commit, whereas one that kept everything applies again from the beginning; from there on the two are not compared.
- RaftCompaction.AppendsAlikeIff: the reply's first index of the conflicting term may differ (`RaftCompaction.RefusesAlike`), and messages that are not stale and reach behind the snapshot are outside the guard.
- MapReduceJob.SameAsSequential: reduce functions that depend on the order of values are excluded; the original does not promise anything for them.
- JobRuns.DoneIsSequential: as `MapReduceJob.SameAsSequential`; at least one reduce task, because the original divides by their number.
- Liveness of Raft: timers and randomized timeouts are nondeterministic choices, and nothing is said about a leader being elected eventually.
- `Heart` and the reassignment of tasks after a missed heartbeat (src/mr/coordinator.go:255-285): commits carry no guard against duplicates, so the counters are not kept there.
- `ClearClients` (src/kvsrv/server.go:99-110): not started by the server.
- HTML output of the visualizer, and the descriptions of states.
- `src/labrpc`, `src/labgob`, `src/raft/persister.go`: a pool of messages and a record saved at once.
- `src/kvraft`, `src/shardctrler`, `src/shardkv`: empty handlers.
- The FNV hash of `ihash`, the JSON encoding of intermediate files, and atomic renames.
