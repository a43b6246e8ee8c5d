/** Fast log backup: a leader that keeps sending to a follower whose log has gone astray needs only so many
    refusals, although the index it tries next may move forwards as well as back. */
module RaftBackup {
  import opened RaftPeer

  /** A leader and follower j, neither with a snapshot, the follower's term no later than the leader's. */
  ghost predicate Stable(p: Peer, f: Peer, j: nat) {
    && Shaped(p) && Shaped(f) && f.currentTerm <= p.currentTerm
    && p.lastIncludedIndex == p.lastIncludedTerm == 0 && f.lastIncludedIndex == f.lastIncludedTerm == 0
    && j < |p.nextIndex| && j < |p.matchIndex|
    && 1 <= p.nextIndex[j] <= p.logLength
  }

  /** One heartbeat and its reply. */
  ghost function Round(p: Peer, f: Peer, j: nat): (Peer, Peer, AppendReply)
    requires Stable(p, f, j)
  {
    var args := MakeAppend(p, j);
    var (f', reply) := HandleAppend(f, args);
    (HandleAppendReply(p, j, args, reply), f', reply)
  }

  /** A refused round: the follower's log shrinks, or it stays and the leader steps back to its end. The index
      tried next is always one the leader can send from. */
  lemma RefusedRound(p: Peer, f: Peer, j: nat)
    requires Stable(p, f, j) && !Round(p, f, j).2.success
    ensures var (p', f', _) := Round(p, f, j);
      && Stable(p', f', j) && p'.log == p.log && p'.currentTerm == p.currentTerm
      && f'.log <= f.log
      && (|f'.log| < |f.log| || (|f'.log| == |f.log| == p'.nextIndex[j] < p.nextIndex[j]))
  {
    hide CommitScan;
  }

  /** An accepted round. */
  lemma AcceptedRound(p: Peer, f: Peer, j: nat)
    requires Stable(p, f, j) && Round(p, f, j).2.success
    ensures var (p', f', _) := Round(p, f, j);
      && p'.log == p.log && |p'.matchIndex| > j && p'.matchIndex[j] == |p.log| - 1
      && |p'.nextIndex| > j && p'.nextIndex[j] == |p.log|
      && var n := p.nextIndex[j];
         && 0 < n <= |p.log| && n <= |f.log| && f.log[n - 1].term == p.log[n - 1].term
         && f'.log == if n == |p.log| then f.log else f.log[..n] + p.log[n..]
  {
    hide CommitScan;
  }

  /** When the follower's log ends just before the index tried, the leader's next refusal is a conflict. */
  lemma AtTheEnd(p: Peer, f: Peer, j: nat)
    requires Stable(p, f, j) && p.nextIndex[j] == |f.log| && !Round(p, f, j).2.success
    ensures |Round(p, f, j).1.log| < |f.log|
  {
    hide CommitScan;
  }

  // ---- until success ----

  /** How many rounds are refused before one succeeds. */
  ghost function Refusals(p: Peer, f: Peer, j: nat): nat
    requires Stable(p, f, j)
    decreases |f.log|, p.nextIndex[j]
  {
    var (p', f', reply) := Round(p, f, j);
    if reply.success then 0 else
      RefusedRound(p, f, j);
      1 + Refusals(p', f', j)
  }

  /** Leader and follower after the successful round. */
  ghost function Settled(p: Peer, f: Peer, j: nat): (Peer, Peer)
    requires Stable(p, f, j)
    decreases |f.log|, p.nextIndex[j]
  {
    var (p', f', reply) := Round(p, f, j);
    if reply.success then (p', f') else
      RefusedRound(p, f, j);
      Settled(p', f', j)
  }

  /** At most two refusals for every entry of the follower's log. */
  lemma {:induction false} FewRefusals(p: Peer, f: Peer, j: nat)
    requires Stable(p, f, j)
    ensures Refusals(p, f, j) <= if p.nextIndex[j] == |f.log| then 2 * |f.log| - 1 else 2 * |f.log|
    decreases |f.log|, p.nextIndex[j]
  {
    hide Round, Shaped;
    if !Round(p, f, j).2.success {
      RefusedRound(p, f, j);
      var (p', f', _) := Round(p, f, j);
      if p.nextIndex[j] == |f.log| {
        AtTheEnd(p, f, j);
      }
      FewRefusals(p', f', j);
    }
  }

  /** Logs that agree up to wherever they agree on a term. */
  ghost predicate Match(a: Log, b: Log) {
    forall k: nat :: k < |a| && k < |b| && a[k].term == b[k].term ==> a[..k + 1] == b[..k + 1]
  }

  lemma Agreed(a: Log, b: Log, n: nat)
    requires Match(a, b) && 0 < n <= |a| && n <= |b| && a[n - 1].term == b[n - 1].term
    ensures a <= b[..n] + a[n..] && (n == |a| ==> a <= b)
  {
    assert a[..n - 1 + 1] == b[..n - 1 + 1];
    assert a == a[..n] + a[n..];
  }

  lemma PrefixMatches(a: Log, b: Log, c: Log)
    requires Match(a, b) && c <= b
    ensures Match(a, c)
  {
    forall k: nat | k < |a| && k < |c| && a[k].term == c[k].term ensures a[..k + 1] == c[..k + 1] {
      assert a[..k + 1] == b[..k + 1] == c[..k + 1];
    }
  }

  /** Backing up ends with the leader knowing that the follower holds its whole log, and with the follower
      holding it, whatever the two logs were before. */
  lemma {:induction false} BackupConverges(p: Peer, f: Peer, j: nat)
    requires Stable(p, f, j) && Match(p.log, f.log)
    ensures var (p', f') := Settled(p, f, j);
      && p'.log == p.log && p.log <= f'.log
      && j < |p'.matchIndex| && p'.matchIndex[j] == |p.log| - 1 && j < |p'.nextIndex| && p'.nextIndex[j] == |p.log|
    decreases |f.log|, p.nextIndex[j]
  {
    hide Round, Match, Shaped;
    var (p', f', reply) := Round(p, f, j);
    if reply.success {
      AcceptedRound(p, f, j);
      Agreed(p.log, f.log, p.nextIndex[j]);
    } else {
      RefusedRound(p, f, j);
      PrefixMatches(p.log, f.log, f'.log);
      BackupConverges(p', f', j);
    }
  }
}
