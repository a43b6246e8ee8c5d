/** Vote replies as the code handles them: the term is checked under the lock, the vote is counted outside it, and the
    winner takes office under the lock again without another look at its term. Everything else is as in the cluster.
    A promotion is harmless exactly if the peer is still in the term it won, or reigns in the one it is in. What then
    follows for elections, logs and commitment is in `RaftLateRuns`. */
module RaftLate {
  import opened RaftPeer
  import opened RaftCluster
  import opened RaftElection
  import Limits = RaftLimits
  import opened Permutations

  /** A majority found, not yet acted on. `voters` is history: who is in it. */
  datatype Office = Office(cand: nat, term: nat, boot: nat, voters: set<nat>)

  /** Replies whose term has been checked, and offices won, by threads that do not hold the lock. */
  datatype Late = Late(s: Cluster, passed: set<Ask>, offices: set<Office>)

  datatype Step =
    | Other(a: Action)
    | PassTerm(ask: Ask)
    | CountPassed(ask: Ask)
    | TakeOffice(o: Office)

  /** A stale reply or a refusal ends in the first locked region, so it is still one action. */
  ghost predicate Can(x: Late, step: Step) {
    match step
    case Other(a) => Enabled(x.s, a) && (a.CountVote? ==> a.ask !in x.passed && !Counts(x.s, a.ask))
    case PassTerm(ask) => Counts(x.s, ask) && ask !in x.passed
    case CountPassed(ask) => ask in x.passed && Enabled(x.s, CountVote(ask)) && x.s.ballots[ask].reply.voteGranted
    case TakeOffice(o) => o in x.offices && Up(x.s, o.cand) && x.s.boots[o.cand] == o.boot
  }

  /** The counter is the candidacy's own: a peer that has gone on to another term leaves its new counter alone. */
  function Tallied(s: Cluster, ask: Ask): Cluster
    requires Enabled(s, CountVote(ask))
  {
    var b, p := s.ballots[ask], s.peers[ask.cand];
    var q := if p.currentTerm == b.args.term then p.(votes := p.votes + 1) else p;
    Set(s, ask.cand, q).(ballots := s.ballots[ask := Counted(b.args)])
  }

  function AfterPassed(x: Late, ask: Ask): Late
    requires Enabled(x.s, CountVote(ask))
  {
    var s := Tallied(x.s, ask);
    var voters, p := Tally(s, ask.cand, ask.term), s.peers[ask.cand];
    Late(s, x.passed - {ask},
         if |voters| > p.peers / 2 && p.votedFor == p.me
         then x.offices + {Office(ask.cand, ask.term, s.boots[ask.cand], voters)} else x.offices)
  }

  /** The term won, if the peer is still in it, has its leader now. */
  function Installed(s: Cluster, o: Office): Cluster
    requires Up(s, o.cand)
  {
    var t, log := Set(s, o.cand, Promote(s.peers[o.cand])), FullLog(s, o.cand);
    if s.peers[o.cand].currentTerm == o.term && o.term !in s.hist.reigns
    then t.(hist := s.hist.(reigns := s.hist.reigns[o.term := Reign(o.cand, log, log, o.voters)],
                            acks := s.hist.acks[At(o.term, o.cand) := |log| - 1]))
    else t
  }

  ghost function Go(x: Late, step: Step): Late
    requires Can(x, step)
  {
    match step
    case Other(a) => x.(s := Do(x.s, a))
    case PassTerm(ask) => x.(passed := x.passed + {ask})
    case CountPassed(ask) => AfterPassed(x, ask)
    case TakeOffice(o) => Late(Installed(x.s, o), x.passed, x.offices - {o})
  }

  ghost predicate LateRun(run: seq<Late>, steps: seq<Step>) {
    && |run| == |steps| + 1 && Init(run[0].s) && run[0].passed == {} && run[0].offices == {}
    && forall k :: 0 <= k < |steps| ==> Can(run[k], steps[k]) && run[k + 1] == Go(run[k], steps[k])
  }

  /** What a second look at the term would establish, or no harm done without it. */
  ghost predicate Timely(x: Late, step: Step) {
    step.TakeOffice? && step.o.cand < |x.s.peers| ==>
      var term := x.s.peers[step.o.cand].currentTerm;
      term == step.o.term || Reigns(x.s, term, step.o.cand)
  }

  // ---- what holds while promotions are timely ----

  /** The office was won by the votes of a majority. */
  ghost predicate OfficeOk(s: Cluster, o: Office) {
    Elected(s, o.term, Reign(o.cand, [], [], o.voters))
  }

  ghost predicate LateOk(x: Late) {
    AllSound(x.s) && Voting(x.s) && forall o :: o in x.offices ==> OfficeOk(x.s, o)
  }

  lemma OfficesGrew(x: Late, x': Late)
    requires (forall o :: o in x.offices ==> OfficeOk(x.s, o)) && Grew(x.s, x'.s) && x'.offices <= x.offices
    ensures forall o :: o in x'.offices ==> OfficeOk(x'.s, o)
  {
  }

  lemma DoGrew(s: Cluster, a: Action)
    requires AllSound(s) && Voting(s) && Enabled(s, a)
    ensures Grew(s, Do(s, a))
  {
    hide AllSound, BallotsBacked, TallyCounts, ReignsElected, LeadersReign, Elect, HandleVote, HandleVoteReply, Tally, Asks,
         AfterElect, AfterVote, BallotOk;
    match a
    case DoElect(i) =>
      NewCandidacy(s, i);
      ElectBallots(s, i);
    case DeliverVote(ask) =>
      BallotAt(s, ask);
      VoteGrew(s, ask);
    case CountVote(ask) =>
    case _ => QuietHistory(s, a);
  }

  lemma OtherOk(x: Late, a: Action)
    requires LateOk(x) && Can(x, Other(a))
    ensures LateOk(Go(x, Other(a)))
  {
    hide AllSound, Voting, Enabled, Do, OfficeOk, Grew, Counts;
    DoSound(x.s, a);
    DoVoting(x.s, a);
    DoGrew(x.s, a);
    OfficesGrew(x, Go(x, Other(a)));
  }

  lemma TallyGains(s: Cluster, t: Cluster, ask: Ask)
    requires |t.peers| == |s.peers| && ask.cand != ask.voter && ask.voter < |s.peers|
    requires ask in s.ballots && !s.ballots[ask].Counted? && t.ballots == s.ballots[ask := Counted(s.ballots[ask].args)]
    ensures |Tally(t, ask.cand, ask.term)| == |Tally(s, ask.cand, ask.term)| + 1
  {
    assert Tally(t, ask.cand, ask.term) == Tally(s, ask.cand, ask.term) + {ask.voter};
    assert ask.voter !in Tally(s, ask.cand, ask.term);
  }

  lemma TalliedTally(s: Cluster, ask: Ask, c: nat)
    requires TallyCounts(s) && Enabled(s, CountVote(ask)) && c < |s.peers| && BallotOk(s, ask, s.ballots[ask])
    ensures TallyOk(Tallied(s, ask), c)
  {
    hide Tally;
    var t := Tallied(s, ask);
    assert TallyOk(s, c);
    if c == ask.cand && s.peers[c].currentTerm == ask.term {
      TallyGains(s, t, ask);
    } else {
      TallySame(s, t, c, t.peers[c].currentTerm);
    }
  }

  /** A change of one peer's counters or tables alone. */
  ghost predicate Touched(p: Peer, q: Peer) {
    q == p.(votes := q.votes, role := q.role, nextIndex := q.nextIndex, matchIndex := q.matchIndex)
  }

  ghost predicate Touches(s: Cluster, t: Cluster, i: nat) {
    && i < |s.peers| == |t.peers| && t.boots == s.boots && t.peers == s.peers[i := t.peers[i]] && Touched(s.peers[i], t.peers[i])
    && t.hist.votes == s.hist.votes && t.hist.candidacies == s.hist.candidacies
  }

  lemma TouchKeeps(s: Cluster, t: Cluster, i: nat)
    requires AllSound(s) && VotesKept(s) && CandidaciesVoted(s) && Touches(s, t, i)
    ensures AllSound(t) && VotesKept(t) && CandidaciesVoted(t) && Grew(s, t)
  {
    SoundAt(s, i);
  }

  lemma BallotKept(s: Cluster, t: Cluster, x: Ask)
    requires BallotsBacked(s) && x in s.ballots && Grew(s, t)
    ensures BallotOk(t, x, s.ballots[x])
  {
    BallotGrew(s, t, x, s.ballots[x]);
  }

  lemma TalliedBallots(s: Cluster, t: Cluster, ask: Ask)
    requires BallotsBacked(s) && ask in s.ballots && s.ballots[ask].Answered? && s.ballots[ask].reply.voteGranted && Grew(s, t)
    requires t.ballots == s.ballots[ask := Counted(s.ballots[ask].args)]
    ensures BallotsBacked(t)
  {
    hide Grew;
    forall x | x in t.ballots ensures BallotOk(t, x, t.ballots[x]) {
      BallotKept(s, t, x);
    }
  }

  lemma TalliedTouches(s: Cluster, ask: Ask)
    requires Enabled(s, CountVote(ask)) && LeadersReign(s)
    ensures Touches(s, Tallied(s, ask), ask.cand) && Tallied(s, ask).hist == s.hist && LeadersReign(Tallied(s, ask))
    ensures ask in s.ballots && s.ballots[ask].Answered? && Tallied(s, ask).ballots == s.ballots[ask := Counted(s.ballots[ask].args)]
  {
  }

  lemma TalliedVoting(s: Cluster, ask: Ask)
    requires AllSound(s) && Voting(s) && Enabled(s, CountVote(ask)) && s.ballots[ask].reply.voteGranted
    ensures AllSound(Tallied(s, ask)) && Voting(Tallied(s, ask)) && Grew(s, Tallied(s, ask))
  {
    hide AllSound, VotesKept, CandidaciesVoted, BallotsBacked, ReignsElected, LeadersReign, Grew, TallyCounts, TallyOk, BallotOk,
         Enabled, Tallied, Touches;
    var t := Tallied(s, ask);
    TalliedTouches(s, ask);
    TouchKeeps(s, t, ask.cand);
    ReignsGrew(s, t);
    TalliedBallots(s, t, ask);
    BallotAt(s, ask);
    forall c | 0 <= c < |t.peers| ensures TallyOk(t, c) {
      SameSize(s, ask);
      TalliedTally(s, ask, c);
    }
    AllTallies(t);
  }

  lemma SameSize(s: Cluster, ask: Ask)
    requires Enabled(s, CountVote(ask))
    ensures |Tallied(s, ask).peers| == |s.peers| && Tallied(s, ask).hist == s.hist && ask in s.ballots && ask.cand < |s.peers|
  {
  }

  /** What is counted as a majority is one. */
  lemma PassedOk(x: Late, ask: Ask)
    requires LateOk(x) && Can(x, CountPassed(ask))
    ensures LateOk(Go(x, CountPassed(ask)))
  {
    hide AllSound, VotesKept, TallyCounts, ReignsElected, LeadersReign, Grew, OfficeOk, Tally, Tallied, BallotsBacked, CandidaciesVoted;
    var x', t := Go(x, CountPassed(ask)), Tallied(x.s, ask);
    TalliedVoting(x.s, ask);
    OfficesGrew(x, x.(s := t));
    SameSize(x.s, ask);
    BallotAt(x.s, ask);
    TallyVoted(t, ask.cand, ask.term);
    forall o | o in x'.offices && o !in x.offices ensures OfficeOk(t, o) {
      NewOffice(t, ask, o);
    }
  }

  lemma NewOffice(t: Cluster, ask: Ask, o: Office)
    requires AllSound(t) && ask.cand < |t.peers| && At(ask.term, ask.cand) in t.hist.candidacies
    requires o.cand == ask.cand && o.term == ask.term && o.voters <= Below(|t.peers|) && |o.voters| > t.peers[ask.cand].peers / 2
    requires forall v :: v in o.voters ==> HasVote(t, ask.term, v, ask.cand)
    ensures OfficeOk(t, o)
  {
    SoundAt(t, ask.cand);
  }

  /** A promotion, crowning or not, leaves votes, ballots and counters alone. */
  lemma InstalledTouches(s: Cluster, o: Office)
    requires Up(s, o.cand)
    ensures var t := Installed(s, o);
      && Touches(s, t, o.cand) && t.ballots == s.ballots && t.peers[o.cand].votes == s.peers[o.cand].votes
      && (t.hist.reigns == s.hist.reigns || (o.term in t.hist.reigns && o.term !in s.hist.reigns &&
            t.hist.reigns == s.hist.reigns[o.term := t.hist.reigns[o.term]] &&
            t.hist.reigns[o.term].leader == o.cand && t.hist.reigns[o.term].quorum == o.voters))
  {
    hide Promote;
    PromoteKeeps(s.peers[o.cand]);
  }

  lemma InstalledReigns(s: Cluster, t: Cluster, o: Office)
    requires ReignsElected(s) && OfficeOk(s, o) && Grew(s, t)
    requires t.hist.reigns == s.hist.reigns || (o.term in t.hist.reigns && t.hist.reigns == s.hist.reigns[o.term := t.hist.reigns[o.term]] &&
               t.hist.reigns[o.term].leader == o.cand && t.hist.reigns[o.term].quorum == o.voters)
    ensures ReignsElected(t)
  {
    forall x | x in t.hist.reigns ensures Elected(t, x, t.hist.reigns[x]) {
      if x in s.hist.reigns {
        assert Elected(s, x, s.hist.reigns[x]);
      }
    }
  }

  lemma InstalledTallies(s: Cluster, t: Cluster, i: nat)
    requires TallyCounts(s) && Touches(s, t, i) && t.ballots == s.ballots && t.peers[i].votes == s.peers[i].votes
    ensures TallyCounts(t)
  {
    forall c | 0 <= c < |t.peers| ensures TallyOk(t, c) {
      assert TallyOk(s, c);
      TallySame(s, t, c, t.peers[c].currentTerm);
    }
  }

  lemma InstalledKeeps(s: Cluster, o: Office)
    requires AllSound(s) && Voting(s) && OfficeOk(s, o)
    ensures Up(s, o.cand)
    ensures var t := Installed(s, o);
      && AllSound(t) && VotesKept(t) && CandidaciesVoted(t) && BallotsBacked(t) && TallyCounts(t) && ReignsElected(t) && Grew(s, t)
  {
    hide VotesKept, CandidaciesVoted, TallyCounts, ReignsElected, Installed, Touches, Grew, BallotOk, AllSound;
    SoundAt(s, o.cand);
    var t := Installed(s, o);
    InstalledTouches(s, o);
    TouchKeeps(s, t, o.cand);
    InstalledReigns(s, t, o);
    InstalledTallies(s, t, o.cand);
    forall x | x in t.ballots ensures BallotOk(t, x, t.ballots[x]) {
      BallotKept(s, t, x);
    }
  }

  lemma PromoteKeeps(p: Peer)
    ensures Promote(p) == p.(role := Leader, nextIndex := Promote(p).nextIndex, matchIndex := Promote(p).matchIndex)
  {
  }

  /** A promotion leaves every leader with a term it has won exactly if it is timely. */
  lemma TimelyIffLeadersReign(x: Late, o: Office)
    requires LateOk(x) && Can(x, TakeOffice(o))
    ensures LeadersReign(Go(x, TakeOffice(o)).s) <==> Timely(x, TakeOffice(o))
  {
    hide AllSound, VotesKept, CandidaciesVoted, BallotsBacked, TallyCounts, Promote;
    var s, term := x.s, x.s.peers[o.cand].currentTerm;
    PromoteKeeps(s.peers[o.cand]);
    assert OfficeOk(s, o);
    if term == o.term && term in s.hist.reigns {
      OneWinner(s, term, o.cand, o.voters);
    }
    var t := Installed(s, o);
    assert t.peers[o.cand].role == Leader && t.peers[o.cand].currentTerm == term;
  }

  lemma GoOk(x: Late, step: Step)
    requires LateOk(x) && Can(x, step) && Timely(x, step)
    ensures LateOk(Go(x, step))
  {
    hide AllSound, VotesKept, CandidaciesVoted, BallotsBacked, TallyCounts, ReignsElected, LeadersReign, Timely, OfficeOk, Grew,
         Enabled, Do, Counts, Installed, AfterPassed;
    match step
    case Other(a) => OtherOk(x, a);
    case PassTerm(ask) =>
    case CountPassed(ask) => PassedOk(x, ask);
    case TakeOffice(o) =>
      InstalledKeeps(x.s, o);
      TimelyIffLeadersReign(x, o);
      OfficesGrew(x, Go(x, step));
  }

  lemma {:induction false} RunOk(run: seq<Late>, steps: seq<Step>, n: nat)
    requires LateRun(run, steps) && n <= |steps| && forall k :: 0 <= k < n ==> Timely(run[k], steps[k])
    ensures LateOk(run[n])
  {
    hide AllSound, Voting, Timely, OfficeOk, Can, Go, Init;
    if n == 0 {
      InitVoting(run[0].s);
    } else {
      RunOk(run, steps, n - 1);
      GoOk(run[n - 1], steps[n - 1]);
    }
  }

  /** In every run: every leader has won its term at every moment exactly if every promotion was timely. */
  lemma {:induction false} AllReignIffAllTimely(run: seq<Late>, steps: seq<Step>)
    requires LateRun(run, steps)
    ensures (forall k :: 0 <= k < |run| ==> LeadersReign(run[k].s)) <==> (forall k :: 0 <= k < |steps| ==> Timely(run[k], steps[k]))
  {
    hide AllSound, VotesKept, CandidaciesVoted, BallotsBacked, TallyCounts, ReignsElected, LeadersReign, Timely, OfficeOk, Can, Go, Init;
    if forall k :: 0 <= k < |steps| ==> Timely(run[k], steps[k]) {
      forall k | 0 <= k < |run| ensures LeadersReign(run[k].s) {
        RunOk(run, steps, k);
      }
    }
    if forall k :: 0 <= k < |run| ==> LeadersReign(run[k].s) {
      forall k | 0 <= k < |steps| ensures Timely(run[k], steps[k]) {
        AllTimely(run, steps, k + 1);
      }
    }
  }

  lemma {:induction false} AllTimely(run: seq<Late>, steps: seq<Step>, n: nat)
    requires LateRun(run, steps) && n <= |steps| && forall k :: 0 <= k < |run| ==> LeadersReign(run[k].s)
    ensures forall k :: 0 <= k < n ==> Timely(run[k], steps[k])
  {
    hide AllSound, Voting, LeadersReign, Timely, OfficeOk, Can, Go, Init;
    if n > 0 {
      AllTimely(run, steps, n - 1);
      RunOk(run, steps, n - 1);
      assert LeadersReign(run[n - 1 + 1].s);
      if steps[n - 1].TakeOffice? {
        TimelyIffLeadersReign(run[n - 1], steps[n - 1].o);
      } else {
        AlwaysTimely(run[n - 1], steps[n - 1]);
      }
    }
  }

  lemma AlwaysTimely(x: Late, step: Step)
    requires !step.TakeOffice?
    ensures Timely(x, step)
  {
  }

  // ---- the guard of counting excludes nothing ----

  /** Every call was made in a term its candidate has saved. */
  ghost predicate Polled(s: Cluster) {
    AllSound(s) && forall ask :: ask in s.ballots ==> ask.cand < |s.peers| && ask.term <= s.peers[ask.cand].saved.currentTerm
  }

  /** Saved terms never fall. */
  lemma ActorSaves(s: Cluster, a: Action)
    requires AllSound(s) && Enabled(s, a)
    ensures var i := Actor(s, a);
      i < |s.peers| && i < |Do(s, a).peers| && s.peers[i].saved.currentTerm <= Do(s, a).peers[i].saved.currentTerm
  {
    hide AllSound, HandleVote, HandleVoteReply, Tally, Asks;
    var i := Actor(s, a);
    SoundAt(s, i);
    match a
    case DoElect(_) =>
    case DeliverVote(ask) => VoteSaves(s.peers[i], i, |s.peers|, s.ballots[ask].args);
    case CountVote(ask) => ReplySaves(s.peers[i], s.ballots[ask].args, s.ballots[ask].reply);
    case _ =>
      QuietPeer(s, a);
      OneActor(s, a);
  }

  /** A new call is made in a new term. */
  lemma DoBallots(s: Cluster, a: Action, ask: Ask)
    requires Polled(s) && Enabled(s, a) && ask in Do(s, a).ballots
    ensures ask in s.ballots || (a.DoElect? && ask.cand == a.i && ask.term == Do(s, a).peers[a.i].saved.currentTerm)
  {
    hide HandleVote, HandleVoteReply, Tally, AllSound;
    match a
    case DoElect(i) => SoundAt(s, i);
    case DeliverVote(_) =>
    case CountVote(_) =>
    case ClientStart(i, command) => StartRecords(s, i, command);
    case _ =>
      hide Do, Enabled;
      HistoryKept(s, a);
  }

  lemma DoPolled(s: Cluster, a: Action)
    requires Polled(s) && Enabled(s, a)
    ensures Polled(Do(s, a))
  {
    hide Do, Enabled, AllSound, Ready;
    DoSound(s, a);
    OneActor(s, a);
    ActorSaves(s, a);
    forall ask | ask in Do(s, a).ballots
      ensures ask.cand < |s.peers| && ask.term <= Do(s, a).peers[ask.cand].saved.currentTerm
    {
      DoBallots(s, a, ask);
    }
  }

  ghost predicate Ready(s: Cluster, ask: Ask) {
    ask in s.ballots && s.ballots[ask].Answered? && s.ballots[ask].reply.voteGranted
  }

  ghost predicate AllReady(x: Late) {
    Polled(x.s) && forall ask :: ask in x.passed ==> Ready(x.s, ask)
  }

  lemma TouchPolled(s: Cluster, t: Cluster, i: nat)
    requires Polled(s) && Touches(s, t, i) && t.ballots.Keys <= s.ballots.Keys
    ensures Polled(t)
  {
    SoundAt(s, i);
  }

  lemma OtherReady(x: Late, a: Action)
    requires AllReady(x) && Can(x, Other(a))
    ensures AllReady(Go(x, Other(a)))
  {
    hide Polled, Do, Enabled;
    DoPolled(x.s, a);
    forall ask | ask in x.passed ensures Ready(Do(x.s, a), ask) {
      assert Ready(x.s, ask);
      StaysReady(x.s, a, ask);
    }
  }

  /** Only counting itself ends a granted reply. */
  lemma StaysReady(s: Cluster, a: Action, ask: Ask)
    requires Polled(s) && Enabled(s, a) && Ready(s, ask) && (a.CountVote? ==> a.ask != ask)
    ensures Ready(Do(s, a), ask)
  {
    hide AllSound, HandleVote, HandleVoteReply, Tally;
    match a
    case DoElect(i) => SoundAt(s, i);
    case DeliverVote(_) =>
    case CountVote(_) =>
    case ClientStart(i, command) => StartRecords(s, i, command);
    case _ =>
      hide Do, Enabled;
      HistoryKept(s, a);
  }

  lemma GoReady(x: Late, step: Step)
    requires AllReady(x) && Can(x, step)
    ensures AllReady(Go(x, step))
  {
    hide Polled, Do, Enabled, Tally, Touches;
    match step
    case Other(a) => OtherReady(x, a);
    case PassTerm(ask) => PassedReady(x.s, ask);
    case CountPassed(ask) =>
      TalliedSame(x.s, ask);
      TouchPolled(x.s, Tallied(x.s, ask), ask.cand);
    case TakeOffice(o) =>
      InstalledTouches(x.s, o);
      TouchPolled(x.s, Installed(x.s, o), o.cand);
  }

  lemma PassedReady(s: Cluster, ask: Ask)
    requires Counts(s, ask)
    ensures Ready(s, ask)
  {
  }

  lemma TalliedSame(s: Cluster, ask: Ask)
    requires Enabled(s, CountVote(ask))
    ensures Touches(s, Tallied(s, ask), ask.cand) && Tallied(s, ask).ballots.Keys == s.ballots.Keys
  {
  }

  lemma {:induction false} RunReady(run: seq<Late>, steps: seq<Step>, n: nat)
    requires LateRun(run, steps) && n <= |steps|
    ensures AllReady(run[n])
  {
    hide Can, Go, Ready;
    if n == 0 {
      InitVoting(run[0].s);
    } else {
      RunReady(run, steps, n - 1);
      GoReady(run[n - 1], steps[n - 1]);
    }
  }

  /** A reply that has passed the check can be counted exactly while its candidate is still in the life that asked. */
  lemma CountNeverBlocked(run: seq<Late>, steps: seq<Step>, n: nat, ask: Ask)
    requires LateRun(run, steps) && n <= |steps| && ask in run[n].passed
    ensures ask in run[n].s.ballots && run[n].s.ballots[ask].Answered? && ask.cand < |run[n].s.boots|
    ensures Can(run[n], CountPassed(ask)) <==> run[n].s.boots[ask.cand] == run[n].s.ballots[ask].boot
  {
    hide LateRun;
    LateLength(run, steps);
    RunReady(run, steps, n);
    assert Ready(run[n].s, ask);
    SoundAt(run[n].s, ask.cand);
  }

  lemma LateLength(run: seq<Late>, steps: seq<Step>)
    requires LateRun(run, steps)
    ensures |run| == |steps| + 1
  {
  }

  // ---- a promotion that comes too late ----

  ghost predicate Reached(x: Late) {
    exists run, steps :: LateRun(run, steps) && run[|steps|] == x
  }

  lemma Take(x: Late, step: Step)
    requires Reached(x) && Can(x, step)
    ensures Reached(Go(x, step))
  {
    hide Init, Can, Go;
    var run, steps :| LateRun(run, steps) && run[|steps|] == x;
    var run', steps' := run + [Go(x, step)], steps + [step];
    assert LateRun(run', steps') && run'[|steps'|] == Go(x, step);
  }

  /** Peer c stands for election and asks peer v. */
  lemma StandForOffice(x: Late, c: nat, v: nat) returns (x': Late)
    requires Reached(x) && x.s.boots == [0, 0, 0] && |x.s.peers| == 3 && Up(x.s, c) && x.s.peers[c].role == Follower && v < 3 && c != v
    ensures Reached(x') && x' == x.(s := x'.s) && x'.s.boots == x.s.boots && x'.s.peers == x.s.peers[c := Elect(x.s.peers[c]).0]
    ensures var args := Elect(x.s.peers[c]).1;
      Ask(c, v, args.term) in x'.s.ballots && x'.s.ballots[Ask(c, v, args.term)] == Asked(args, 0)
  {
    hide Reached, AfterElect;
    Take(x, Other(DoElect(c)));
    x' := x.(s := AfterElect(x.s, c));
    Limits.Stood(x.s, c, v);
  }

  /** Peer v votes and its vote is counted, the second of three. */
  lemma Support(x: Late, ask: Ask) returns (x': Late, o: Office)
    requires Reached(x) && x.s.boots == [0, 0, 0] && |x.s.peers| == 3 && ask !in x.passed && ask.cand != ask.voter
    requires ask in x.s.ballots && Up(x.s, ask.cand) && Up(x.s, ask.voter) && x.s.peers[ask.cand].currentTerm == ask.term
    requires var p := x.s.peers[ask.cand]; p.me == p.votedFor == ask.cand && p.peers == 3
    requires x.s.ballots[ask] == Asked(x.s.ballots[ask].args, 0) && x.s.ballots[ask].args.term == ask.term
    requires Grants(x.s.peers[ask.voter], x.s.ballots[ask].args)
    ensures Reached(x') && x'.s.boots == x.s.boots && x'.passed == x.passed && x'.offices == x.offices + {o}
    ensures o.cand == ask.cand && o.term == ask.term && o.boot == 0
    ensures var p := x.s.peers[ask.cand];
      x'.s.peers == x.s.peers[ask.voter := HandleVote(x.s.peers[ask.voter], x.s.ballots[ask].args).0][ask.cand := p.(votes := p.votes + 1)]
  {
    hide Reached, Tally;
    Take(x, Other(DeliverVote(ask)));
    var x1 := x.(s := AfterVote(x.s, ask));
    Take(x1, PassTerm(ask));
    var x2 := x1.(passed := x1.passed + {ask});
    Take(x2, CountPassed(ask));
    x' := AfterPassed(x2, ask);
    var t := Tallied(x2.s, ask);
    TallyHas(t, ask);
    o := Office(ask.cand, ask.term, 0, Tally(t, ask.cand, ask.term));
    assert x2.passed - {ask} == x.passed;
  }

  lemma TallyHas(t: Cluster, ask: Ask)
    requires ask.voter < |t.peers| && ask in t.ballots && t.ballots[ask].Counted? && ask.cand != ask.voter
    ensures |Tally(t, ask.cand, ask.term)| >= 2
  {
    assert {ask.cand, ask.voter} <= Tally(t, ask.cand, ask.term);
    SubsetCardinality({ask.cand, ask.voter}, Tally(t, ask.cand, ask.term));
  }

  lemma Enter(x: Late, o: Office) returns (x': Late)
    requires Reached(x) && x.s.boots == [0, 0, 0] && o in x.offices && Up(x.s, o.cand) && o.boot == 0
    ensures Reached(x') && x'.s.boots == x.s.boots && x'.offices == x.offices - {o}
    ensures x'.s.peers == x.s.peers[o.cand := Promote(x.s.peers[o.cand])]
  {
    hide Reached;
    Take(x, TakeOffice(o));
    x' := Go(x, TakeOffice(o));
  }

  lemma FromThree() returns (x: Late)
    ensures Reached(x) && x == Late(Limits.Three(), {}, {})
  {
    x := Late(Limits.Three(), {}, {});
    var steps: seq<Step> := [];
    assert LateRun([x], steps) && [x][|steps|] == x;
  }

  /** A peer without entries that stands for election or has voted. */
  function Bare(me: nat, term: nat, vote: nat, votes: nat): Peer {
    Peer(me, 3, term, vote, Follower, votes, [ROOT], 1, [], [], 0, 0, 0, 0, 0, Saved(term, vote, [ROOT], 0, 0, 0))
  }

  lemma Values()
    ensures Elect(Fresh(0, 3)) == (Bare(0, 1, 0, 1), VoteArgs(1, 0, 0, 0)) && Elect(Fresh(2, 3)).0 == Bare(2, 1, 2, 1)
    ensures Elect(Bare(2, 1, 2, 1)) == (Bare(2, 2, 2, 1), VoteArgs(2, 2, 0, 0))
    ensures Grants(Fresh(1, 3), VoteArgs(1, 0, 0, 0)) && Grants(Bare(0, 1, 0, 2), VoteArgs(2, 2, 0, 0))
    ensures HandleVote(Bare(0, 1, 0, 2), VoteArgs(2, 2, 0, 0)).0 == Bare(0, 2, 2, 2)
  {
  }

  /** Peer 0 has a majority for term 1 but has not taken office when it votes for peer 2 in term 2. Peer 2 takes
      office, then peer 0 does: both lead term 2. */
  lemma LatePromotionBreaksElectionSafety() returns (run: seq<Late>, steps: seq<Step>)
    ensures LateRun(run, steps)
    ensures var peers := run[|steps|].s.peers;
      |peers| == 3 && peers[0].role == peers[2].role == Leader && peers[0].currentTerm == peers[2].currentTerm == 2
  {
    hide Reached, Elect, HandleVote, Grants, Promote, LateRun;
    Values();
    var x := FromThree();
    x := StandForOffice(x, 0, 1);
    var o, o2;
    x, o := Support(x, Ask(0, 1, 1));
    x := StandForOffice(x, 2, 0);
    x := StandForOffice(x, 2, 0);
    x, o2 := Support(x, Ask(2, 0, 2));
    assert x.s.peers[0] == Bare(0, 2, 2, 2) && x.s.peers[2] == Bare(2, 2, 2, 2);
    PromoteKeeps(x.s.peers[0]);
    PromoteKeeps(x.s.peers[2]);
    x := Enter(x, o2);
    x := Enter(x, o);
    run, steps := Path(x);
    LateLength(run, steps);
  }

  lemma Path(x: Late) returns (run: seq<Late>, steps: seq<Step>)
    requires Reached(x)
    ensures LateRun(run, steps) && run[|steps|] == x
  {
    run, steps :| LateRun(run, steps) && run[|steps|] == x;
  }
}
