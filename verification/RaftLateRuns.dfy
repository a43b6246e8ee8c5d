/** Runs of the steps the code takes, promotions included, as long as promotions are timely: everything proved of the
    cluster in which a vote reply is one step holds here too. */
module RaftLateRuns {
  import opened RaftPeer
  import opened RaftCluster
  import opened RaftElection
  import opened RaftCompaction
  import opened RaftLogs
  import opened RaftCommit
  import opened RaftApplied
  import opened RaftTraces
  import opened RaftRuns
  import opened RaftLate

  // ---- counting a vote and taking office change no log ----

  lemma TouchLogKept(s: Cluster, t: Cluster, i: nat)
    requires PeerLogs(s) && Touches(s, t, i)
    ensures LogKept(s, i, t.peers[i])
  {
    hide Rooted, Compacts;
    KeepsFull(s, i);
  }

  /** Nothing is recorded. */
  ghost predicate Unrecorded(s: Cluster, t: Cluster) {
    t.hist == s.hist && t.sent == s.sent && t.replies == s.replies && t.snaps == s.snaps
  }

  lemma TouchLogs(s: Cluster, t: Cluster, i: nat)
    requires Voting(s) && Logs(s) && Touches(s, t, i) && Unrecorded(s, t)
    ensures Logs(t)
  {
    hide VotesKept, CandidaciesVoted, BallotsBacked, TallyCounts, ReignsElected, LeadersReign, PeerLogs, ReignLogs, CandidateLogs,
         VoterLogs, Messages, LogKept;
    TouchLogKept(s, t, i);
    KeptLogs(s, t, i);
  }

  lemma TouchFlat(s: Cluster, t: Cluster, i: nat)
    requires AllFlat(s) && Touches(s, t, i) && t.hist.full == s.hist.full
    ensures AllFlat(t)
  {
    FlatAt(s, i);
  }

  lemma TouchStill(s: Cluster, t: Cluster, i: nat)
    requires Touches(s, t, i) && Unrecorded(s, t)
    ensures Still(s, t)
  {
  }

  /** The same questions have been asked. */
  ghost predicate SameQuestions(s: Cluster, t: Cluster) {
    forall ask :: ask in t.ballots ==> ask in s.ballots && t.ballots[ask].args == s.ballots[ask].args
  }

  lemma TouchAsks(s: Cluster, t: Cluster)
    requires AsksTrue(s) && SameQuestions(s, t) && t.hist.candidacies == s.hist.candidacies
    ensures AsksTrue(t)
  {
    forall ask | ask in t.ballots ensures AskTrue(t, ask) {
      assert AskTrue(s, ask);
    }
  }

  lemma TouchSurviving(s: Cluster, t: Cluster, i: nat)
    requires Surviving(s) && Touches(s, t, i) && Unrecorded(s, t) && SameQuestions(s, t)
    ensures Surviving(t)
  {
    hide Touches, Acks, Retention, Inheritance, VotesWise, AsksTrue, Still, SameQuestions;
    TouchStill(s, t, i);
    TouchAsks(s, t);
    StillSurviving(s, t);
  }

  /** A peer that keeps its tables, or starts them over as leader of a term it has won. */
  ghost predicate TablesOk(s: Cluster, t: Cluster, i: nat)
    requires i < |s.peers| && i < |t.peers|
  {
    var p, q := s.peers[i], t.peers[i];
    || (q.nextIndex == p.nextIndex && q.matchIndex == p.matchIndex && q.role == p.role && t.hist == s.hist)
    || (q.nextIndex == seq(p.peers, i => p.logLength) && q.matchIndex == seq(p.peers, i => -1))
  }

  lemma TouchPeer(s: Cluster, t: Cluster, i: nat)
    requires Solid(s) && Acks(s) && Committing(s) && Touches(s, t, i) && Advances(s, t) && TablesOk(s, t, i)
    ensures PeerOk(t, i)
  {
    hide AllSound, AllFlat, Voting, Logs, Committing, CommitBacked, Acks, Advances;
    FlatAt(s, i);
    PeerOkAt(s, i);
    CommitKept(s, t, i);
    var p, q := s.peers[i], t.peers[i];
    if q.nextIndex == p.nextIndex && q.matchIndex == p.matchIndex && q.role == p.role && t.hist == s.hist {
      CountingKept(s, t, i);
    } else {
      forall j: nat ensures AckOf(t, q.currentTerm, j) >= -1 {
        AckFloor(s, q.currentTerm, j);
        AckAdvances(s, t, q.currentTerm, j);
      }
    }
  }

  lemma TouchCommitting(s: Cluster, t: Cluster, i: nat)
    requires Solid(s) && Acks(s) && Committing(s) && Touches(s, t, i) && Advances(s, t) && TablesOk(s, t, i)
    requires t.sent == s.sent && t.replies == s.replies && t.hist.applied == s.hist.applied
    requires forall term, j :: Reigns(t, term, j) && j != i ==> Reigns(s, term, j)
    ensures Committing(t)
  {
    hide Solid, Acks, Committing, Advances, PeerOk, TablesOk;
    TouchPeer(s, t, i);
    OnePeer(s, t, i);
  }

  // ---- counting ----

  lemma TalliedFacts(s: Cluster, ask: Ask)
    requires Enabled(s, CountVote(ask))
    ensures var t := Tallied(s, ask);
      Touches(s, t, ask.cand) && Unrecorded(s, t) && SameQuestions(s, t) && TablesOk(s, t, ask.cand)
  {
  }

  lemma TalliedFirm(s: Cluster, ask: Ask)
    requires Firm(s) && Enabled(s, CountVote(ask)) && s.ballots[ask].reply.voteGranted
    ensures Firm(Tallied(s, ask)) && Follows(s, Tallied(s, ask))
  {
    hide AllSound, Voting, Logs, Tallied, Touches, SameQuestions, TablesOk, Grew;
    TalliedVoting(s, ask);
    TalliedFacts(s, ask);
    TouchLogs(s, Tallied(s, ask), ask.cand);
    SameSize(s, ask);
    ExtendsSelf(s.hist.reigns);
  }

  lemma TalliedSafe(s: Cluster, ask: Ask)
    requires Safe(s) && Enabled(s, CountVote(ask)) && s.ballots[ask].reply.voteGranted
    ensures Safe(Tallied(s, ask)) && Advances(s, Tallied(s, ask))
  {
    hide AllSound, AllFlat, Voting, Logs, Acks, Retention, Inheritance, VotesWise, AsksTrue, Committing, Tallied, Touches,
         SameQuestions, TablesOk, Advances;
    var t := Tallied(s, ask);
    TalliedFirm(s, ask);
    TalliedFacts(s, ask);
    SameSize(s, ask);
    SameAdvances(s, t);
    TouchFlat(s, t, ask.cand);
    TouchSurviving(s, t, ask.cand);
    TouchCommitting(s, t, ask.cand);
  }

  // ---- taking office ----

  /** Whether or not it is the first time, the peer reigns in its term afterwards. */
  lemma InstalledReigning(s: Cluster, o: Office)
    requires Firm(s) && OfficeOk(s, o) && Up(s, o.cand)
    requires s.peers[o.cand].currentTerm == o.term || Reigns(s, s.peers[o.cand].currentTerm, o.cand)
    ensures Installed(s, o).hist == s.hist || Crowns(s, Installed(s, o), o.cand, o.term)
    ensures Installed(s, o).hist == s.hist ==> Unrecorded(s, Installed(s, o))
  {
    hide AllSound, VotesKept, CandidaciesVoted, BallotsBacked, TallyCounts, Logs, Promote;
    PromoteKeeps(s.peers[o.cand]);
  }

  lemma InstalledFacts(s: Cluster, o: Office)
    requires Up(s, o.cand)
    ensures var t := Installed(s, o);
      && Touches(s, t, o.cand) && SameQuestions(s, t) && TablesOk(s, t, o.cand) && t.hist.full == s.hist.full
      && t.sent == s.sent && t.replies == s.replies && t.hist.applied == s.hist.applied
      && forall term, j :: Reigns(t, term, j) && j != o.cand ==> Reigns(s, term, j)
  {
    InstalledTouches(s, o);
  }

  lemma InstalledLogs(s: Cluster, o: Office)
    requires Firm(s) && OfficeOk(s, o) && Up(s, o.cand)
    requires s.peers[o.cand].currentTerm == o.term || Reigns(s, s.peers[o.cand].currentTerm, o.cand)
    ensures Logs(Installed(s, o)) && Follows(s, Installed(s, o))
  {
    hide AllSound, Voting, Logs, Installed, Touches, SameQuestions, TablesOk, OfficeOk, Extends;
    var t := Installed(s, o);
    InstalledReigning(s, o);
    InstalledFacts(s, o);
    if t.hist == s.hist {
      TouchLogs(s, t, o.cand);
      ExtendsSelf(s.hist.reigns);
    } else {
      CrownLogs(s, t, o.cand, o.term);
      CrownExtends(s, t, o.cand, o.term);
    }
    InstalledSize(s, o);
  }

  lemma InstalledSize(s: Cluster, o: Office)
    requires Up(s, o.cand)
    ensures |Installed(s, o).peers| == |s.peers|
  {
  }

  lemma CrownExtends(s: Cluster, t: Cluster, c: nat, term: nat)
    requires Crowns(s, t, c, term)
    ensures Extends(s.hist.reigns, t.hist.reigns)
  {
  }

  lemma InstalledFirm(x: Late, o: Office)
    requires LateOk(x) && Logs(x.s) && Can(x, TakeOffice(o)) && Timely(x, TakeOffice(o))
    ensures Firm(Installed(x.s, o)) && Follows(x.s, Installed(x.s, o))
  {
    hide AllSound, VotesKept, CandidaciesVoted, BallotsBacked, TallyCounts, ReignsElected, LeadersReign, Logs, Installed, OfficeOk, Grew;
    InstalledKeeps(x.s, o);
    TimelyIffLeadersReign(x, o);
    InstalledLogs(x.s, o);
  }

  lemma InstalledCrowning(s: Cluster, o: Office)
    requires Solid(s) && OfficeOk(s, o) && Up(s, o.cand) && Crowns(s, Installed(s, o), o.cand, o.term)
    ensures Crowning(s, Installed(s, o), o.cand, o.term)
  {
    hide AllSound, AllFlat, VotesKept, CandidaciesVoted, BallotsBacked, TallyCounts, ReignsElected, LeadersReign, Logs, Promote;
    SolidParts(s);
    FlatAt(s, o.cand);
    CandidateLog(s, o.cand, o.term);
    PromoteKeeps(s.peers[o.cand]);
  }

  lemma CrowningAdvances(s: Cluster, t: Cluster, c: nat, term: nat)
    requires Crowning(s, t, c, term) && Acks(s)
    ensures Advances(s, t)
  {
    assert At(term, c) in s.hist.acks ==> AckOk(s, At(term, c));
  }

  lemma InstalledSafe(x: Late, o: Office)
    requires LateOk(x) && Safe(x.s) && Can(x, TakeOffice(o)) && Timely(x, TakeOffice(o))
    ensures Safe(Installed(x.s, o)) && Advances(x.s, Installed(x.s, o))
  {
    hide AllSound, AllFlat, Voting, Logs, Acks, Retention, Inheritance, VotesWise, AsksTrue, Committing, Installed, Touches,
         SameQuestions, TablesOk, Advances, OfficeOk, Crowning, Crowns;
    var s, t := x.s, Installed(x.s, o);
    InstalledFirm(x, o);
    InstalledReigning(s, o);
    InstalledFacts(s, o);
    TouchFlat(s, t, o.cand);
    if t.hist == s.hist {
      InstalledSize(s, o);
      SameAdvances(s, t);
      TouchSurviving(s, t, o.cand);
    } else {
      InstalledCrowning(s, o);
      CrowningAdvances(s, t, o.cand, o.term);
      CrownSurviving(s, t, o.cand, o.term);
    }
    TouchCommitting(s, t, o.cand);
  }

  // ---- every step ----

  lemma GoFirm(x: Late, step: Step)
    requires LateOk(x) && Logs(x.s) && Can(x, step) && Timely(x, step)
    ensures LateOk(Go(x, step)) && Logs(Go(x, step).s) && Follows(x.s, Go(x, step).s)
  {
    hide AllSound, Voting, Logs, Timely, OfficeOk, Enabled, Do, Counts, Installed, Tallied, Extends;
    GoOk(x, step);
    match step
    case Other(a) =>
      DoLogs(x.s, a);
      DoExtends(x.s, a);
    case PassTerm(ask) => ExtendsSelf(x.s.hist.reigns);
    case CountPassed(ask) => TalliedFirm(x.s, ask);
    case TakeOffice(o) => InstalledFirm(x, o);
  }

  /** No snapshot, and no overtaken append is delivered. */
  ghost predicate Orderly(x: Late, step: Step) {
    step.Other? ==> Uncut(step.a) && Ahead(x.s, step.a)
  }

  lemma GoSafe(x: Late, step: Step)
    requires LateOk(x) && Safe(x.s) && Can(x, step) && Timely(x, step) && Orderly(x, step)
    ensures Safe(Go(x, step).s) && Advances(x.s, Go(x, step).s)
  {
    hide Solid, Acks, Retention, Inheritance, VotesWise, AsksTrue, Committing, AllSound, Voting, Timely, OfficeOk, Enabled, Do, Counts,
         Installed, Tallied, Advances, Uncut, Ahead;
    match step
    case Other(a) =>
      DoSurviving(x.s, a);
      DoCommitting(x.s, a);
      DoAdvances(x.s, a);
    case PassTerm(ask) => FollowsItself(x.s);
    case CountPassed(ask) => TalliedSafe(x.s, ask);
    case TakeOffice(o) => InstalledSafe(x, o);
  }

  // ---- runs ----

  /** Every promotion is timely. */
  ghost predicate TimelyRun(run: seq<Late>, steps: seq<Step>) {
    LateRun(run, steps) && forall k :: 0 <= k < |steps| ==> Timely(run[k], steps[k])
  }

  ghost predicate OrderlyRun(run: seq<Late>, steps: seq<Step>) {
    TimelyRun(run, steps) && forall k :: 0 <= k < |steps| ==> Orderly(run[k], steps[k])
  }

  ghost function States(run: seq<Late>): (tr: seq<Cluster>)
    ensures |tr| == |run| && forall k :: 0 <= k < |run| ==> tr[k] == run[k].s
  {
    seq(|run|, k requires 0 <= k < |run| => run[k].s)
  }

  lemma {:induction false} LateFirm(run: seq<Late>, steps: seq<Step>, n: nat)
    requires TimelyRun(run, steps) && n < |run|
    ensures LateOk(run[n]) && Logs(run[n].s)
  {
    hide LateOk, Logs, Timely, Can, Go, Init;
    if n == 0 {
      InitLate(run[0]);
    } else {
      LateFirm(run, steps, n - 1);
      GoFirm(run[n - 1], steps[n - 1]);
    }
  }

  lemma InitLate(x: Late)
    requires Init(x.s) && x.offices == {}
    ensures LateOk(x) && Logs(x.s)
  {
    InitVoting(x.s);
    InitLogs(x.s);
  }

  lemma {:induction false} LateFollows(run: seq<Late>, steps: seq<Step>, a: nat, b: nat)
    requires TimelyRun(run, steps) && a <= b < |run|
    ensures Follows(run[a].s, run[b].s)
  {
    hide LateOk, Logs, Timely, Can, Go, Init, Follows;
    if a == b {
      FollowsItself(run[a].s);
    } else {
      LateFollows(run, steps, a, b - 1);
      LateFirm(run, steps, b - 1);
      GoFirm(run[b - 1], steps[b - 1]);
      FollowsOn(run[a].s, run[b - 1].s, run[b].s);
    }
  }

  lemma LateFirmly(run: seq<Late>, steps: seq<Step>)
    requires TimelyRun(run, steps)
    ensures Firmly(States(run))
  {
    hide TimelyRun, AllSound, Voting, Logs, OfficeOk, Follows;
    forall k | 0 <= k < |run| ensures Firm(run[k].s) {
      LateFirm(run, steps, k);
    }
    forall a, b | 0 <= a <= b < |run| ensures Follows(run[a].s, run[b].s) {
      LateFollows(run, steps, a, b);
    }
  }

  lemma {:induction false} LateSafe(run: seq<Late>, steps: seq<Step>, n: nat)
    requires OrderlyRun(run, steps) && n < |run|
    ensures LateOk(run[n]) && Safe(run[n].s)
  {
    hide LateOk, Safe, Timely, Orderly, Can, Go, Init;
    LateFirm(run, steps, n);
    if n == 0 {
      InitSafe(run[0].s);
    } else {
      LateSafe(run, steps, n - 1);
      GoSafe(run[n - 1], steps[n - 1]);
    }
  }

  lemma InitSafe(s: Cluster)
    requires Init(s)
    ensures Safe(s)
  {
    InitSurviving(s);
    InitCommitting(s);
  }

  lemma {:induction false} LateAdvances(run: seq<Late>, steps: seq<Step>, a: nat, b: nat)
    requires OrderlyRun(run, steps) && a <= b < |run|
    ensures Advances(run[a].s, run[b].s)
  {
    hide LateOk, Safe, Timely, Orderly, Can, Go, Init, Advances;
    if a == b {
      FollowsItself(run[a].s);
    } else {
      LateAdvances(run, steps, a, b - 1);
      LateSafe(run, steps, b - 1);
      GoSafe(run[b - 1], steps[b - 1]);
      AdvancesOn(run[a].s, run[b - 1].s, run[b].s);
    }
  }

  lemma LateSafely(run: seq<Late>, steps: seq<Step>)
    requires OrderlyRun(run, steps)
    ensures Safely(States(run))
  {
    hide TimelyRun, LateOk, Safe, Orderly, Follows, Advances;
    forall k | 0 <= k < |run| ensures Safe(run[k].s) {
      LateSafe(run, steps, k);
    }
    forall a, b | 0 <= a <= b < |run| ensures Follows(run[a].s, run[b].s) && Advances(run[a].s, run[b].s) {
      LateFollows(run, steps, a, b);
      LateAdvances(run, steps, a, b);
    }
  }

  // ---- the theorems ----

  /** If every promotion is timely, at most one peer ever leads a term. */
  lemma TimelyElectionSafety(run: seq<Late>, steps: seq<Step>, a: nat, b: nat, i: nat, j: nat)
    requires TimelyRun(run, steps) && Leads(States(run), a, i) && Leads(States(run), b, j)
    requires run[a].s.peers[i].currentTerm == run[b].s.peers[j].currentTerm
    ensures i == j
  {
    hide TimelyRun, Firmly;
    LateFirmly(run, steps);
    OneLeader(States(run), a, b, i, j);
  }

  /** Then full logs match, snapshots included. */
  lemma TimelyLogMatching(run: seq<Late>, steps: seq<Step>, a: nat, b: nat, i: nat, j: nat, k: nat)
    requires TimelyRun(run, steps) && a < |run| && b < |run| && i < |run[a].s.peers| && j < |run[b].s.peers|
    requires k < |FullLog(run[a].s, i)| && k < |FullLog(run[b].s, j)| && FullLog(run[a].s, i)[k].term == FullLog(run[b].s, j)[k].term
    ensures FullLog(run[a].s, i)[..k + 1] == FullLog(run[b].s, j)[..k + 1]
  {
    hide TimelyRun, Firmly, FullLog;
    LateFirmly(run, steps);
    FullMatching(States(run), a, b, i, j, k);
  }

  /** Without snapshots and overtaken appends, later leaders have what was committed. */
  lemma TimelyLeaderCompleteness(run: seq<Late>, steps: seq<Step>, a: nat, b: nat, i: nat, j: nat)
    requires OrderlyRun(run, steps) && a < |run| && i < |run[a].s.peers| && Leads(States(run), b, j)
    requires run[a].s.peers[i].currentTerm < run[b].s.peers[j].currentTerm
    ensures var p := run[a].s.peers[i]; 0 <= p.commitIndex < |p.log| && p.log[..p.commitIndex + 1] <= run[b].s.peers[j].log
  {
    hide OrderlyRun, Safely;
    LateSafely(run, steps);
    Completeness(States(run), a, b, i, j);
  }

  /** And no two peers apply different commands at one index. */
  lemma TimelyStateMachineSafety(run: seq<Late>, steps: seq<Step>, a: nat, b: nat, x: Application, y: Application)
    requires OrderlyRun(run, steps) && a < |run| && b < |run| && x in run[a].s.hist.applied && y in run[b].s.hist.applied
    requires x.index == y.index
    ensures x.command == y.command
  {
    hide OrderlyRun, Safely;
    LateSafely(run, steps);
    AppliedAgree(States(run), a, b, x, y);
  }
}
