/** Voting: at most one server wins a term. Holds in every run, crashes included, with no assumption
    on the channel plumbing or on message order. */
module RaftVotes {
  import opened FiniteSets
  import opened RaftModel
  import opened RaftCluster

  ghost predicate VotedFor(aux: Aux, voter: nat, term: nat, candidate: int)
  {
    Pair(voter, term) in aux.votes && aux.votes[Pair(voter, term)].candidate == candidate
  }

  /** Recorded votes are never changed. */
  ghost predicate VotesKept(aux: Aux, aux': Aux)
  {
    forall p :: p in aux.votes ==> p in aux'.votes && aux'.votes[p] == aux.votes[p]
  }

  /** A server's term and vote are persisted, its vote field is its recorded vote in its term, and
      every vote its round has counted was cast for it. */
  ghost predicate VoterOk(aux: Aux, s: Server, i: nat, n: nat)
  {
    s.saved.term == s.term && s.saved.votedFor == s.votedFor &&
    (s.votedFor == NONE ==> Pair(i, s.term) !in aux.votes) &&
    (s.votedFor != NONE ==> VotedFor(aux, i, s.term, s.votedFor)) &&
    s.round.args.term <= s.term && (s.round.open ==> s.round.args.candidateId == i) &&
    forall v :: v in s.round.granted ==> v < n && VotedFor(aux, v, s.round.args.term, i)
  }

  ghost predicate BallotOk(aux: Aux, m: Msg, n: nat)
  {
    (m.VoteReq? ==> m.vargs.term >= 1) &&
    (m.VoteRep? && m.vreply.voteGranted ==> m.voter < n && VotedFor(aux, m.voter, m.vargs.term, m.vargs.candidateId))
  }

  ghost predicate WinOk(aux: Aux, w: Win, n: nat)
  {
    |w.voters| > n / 2 && forall v :: v in w.voters ==> v < n && VotedFor(aux, v, w.term, w.server)
  }

  ghost predicate VoteInv(c: Cluster)
  {
    var n := |c.servers|;
    Shaped(c) &&
    (forall i: nat :: i < n ==> VoterOk(c.aux, c.servers[i], i, n)) &&
    (forall p :: p in c.aux.votes ==> p.server < n && 1 <= p.term <= c.servers[p.server].term) &&
    (forall m :: m in c.net ==> BallotOk(c.aux, m, n)) &&
    (forall w :: w in c.aux.wins ==> WinOk(c.aux, w, n))
  }

  lemma VoteInvInit(n: nat)
    ensures VoteInv(Init(n))
  {
    InitShaped(n);
  }

  /** One server changes, votes and messages are added: what is to be shown of the new parts. */
  lemma Update(c: Cluster, c': Cluster, i: nat)
    requires VoteInv(c) && i < |c.servers| == |c'.servers| && Shaped(c')
    requires c'.servers == c.servers[i := c'.servers[i]] && c'.servers[i].term >= c.servers[i].term
    requires VotesKept(c.aux, c'.aux) && VoterOk(c'.aux, c'.servers[i], i, |c.servers|)
    requires forall p :: p in c'.aux.votes && p !in c.aux.votes ==> p == Pair(i, c'.servers[i].term) && p.term >= 1
    requires forall m :: m in c'.net && m !in c.net ==> BallotOk(c'.aux, m, |c.servers|)
    requires forall w :: w in c'.aux.wins && w !in c.aux.wins ==> WinOk(c'.aux, w, |c.servers|)
    ensures VoteInv(c')
  {
    forall j: nat | j < |c'.servers|
      ensures VoterOk(c'.aux, c'.servers[j], j, |c'.servers|)
    {
      if j != i {
        assert VoterOk(c.aux, c.servers[j], j, |c.servers|);
      }
    }
    forall m | m in c'.net
      ensures BallotOk(c'.aux, m, |c'.servers|)
    {
      if m in c.net { assert BallotOk(c.aux, m, |c.servers|); }
    }
    forall w | w in c'.aux.wins
      ensures WinOk(c'.aux, w, |c'.servers|)
    {
      if w in c.aux.wins { assert WinOk(c.aux, w, |c.servers|); }
    }
  }

  lemma TermRaised(c: Cluster, i: nat, term: nat)
    requires VoteInv(c) && i < |c.servers|
    ensures VoterOk(c.aux, UpdateTerm(c.servers[i], term), i, |c.servers|)
  {
    assert VoterOk(c.aux, c.servers[i], i, |c.servers|);
  }

  lemma ElectKeeps(c: Cluster, i: nat)
    requires VoteInv(c) && Enabled(c, Elect(i))
    ensures VoteInv(DoElect(c, i))
  {
    NextShaped(c, Elect(i));
    assert VoterOk(c.aux, c.servers[i], i, |c.servers|);
    Update(c, DoElect(c, i), i);
  }

  lemma VoteReqKeeps(c: Cluster, i: nat, m: Msg)
    requires VoteInv(c) && Enabled(c, OnVoteReq(i, m))
    ensures VoteInv(DoVoteReq(c, i, m))
  {
    hide Shaped, HandleVote, VoterOk, BallotOk, VotesKept;
    NextShaped(c, OnVoteReq(i, m));
    Voted(c, i, m);
    Update(c, DoVoteReq(c, i, m), i);
  }

  /** A vote is recorded as it is persisted, and only where there was none. */
  lemma Voted(c: Cluster, i: nat, m: Msg)
    requires VoteInv(c) && Enabled(c, OnVoteReq(i, m))
    ensures var c', (s', r) := DoVoteReq(c, i, m), HandleVote(c.servers[i], m.vargs);
            VoterOk(c'.aux, s', i, |c.servers|) && s'.term >= c.servers[i].term && VotesKept(c.aux, c'.aux) &&
            BallotOk(c'.aux, VoteRep(i, m.vargs, r), |c.servers|) &&
            forall p :: p in c'.aux.votes && p !in c.aux.votes ==> p == Pair(i, s'.term) && p.term >= 1
  {
    hide Shaped, LogNewer, WinOk;
    assert BallotOk(c.aux, m, |c.servers|);
    TermRaised(c, i, m.vargs.term);
  }

  lemma VoteRepKeeps(c: Cluster, i: nat, m: Msg)
    requires VoteInv(c) && Enabled(c, OnVoteRep(i, m))
    ensures VoteInv(DoVoteRep(c, i, m))
  {
    hide Shaped, CountVote;
    NextShaped(c, OnVoteRep(i, m));
    CountedOk(c, i, m);
    Update(c, DoVoteRep(c, i, m), i);
  }

  lemma CountedOk(c: Cluster, i: nat, m: Msg)
    requires VoteInv(c) && Enabled(c, OnVoteRep(i, m))
    ensures var s, s' := c.servers[i], CountVote(c.servers[i], m.voter, m.vreply);
            VoterOk(c.aux, s', i, |c.servers|) && s'.term >= s.term && (s'.round.open ==> s'.round.args.term == m.vargs.term)
  {
    hide Shaped;
    assert VoterOk(c.aux, c.servers[i], i, |c.servers|) && BallotOk(c.aux, m, |c.servers|);
  }

  ghost predicate SameBallot(s: Server, s': Server)
  {
    s'.term == s.term && s'.votedFor == s.votedFor && s'.round == s.round &&
    s'.saved.term == s.saved.term && s'.saved.votedFor == s.saved.votedFor
  }

  lemma AppendBallot(s: Server, a: AppendArgs)
    requires s.saved.term == s.term && s.saved.votedFor == s.votedFor
    ensures SameBallot(UpdateTerm(s, a.term), HandleAppend(s, a).0)
  {
    hide Spliced, MatchLength, NextHint;
  }

  lemma AppendKeeps(c: Cluster, i: nat, m: Msg)
    requires VoteInv(c) && Enabled(c, OnAppReq(i, m))
    ensures VoteInv(DoAppReq(c, i, m))
  {
    hide HandleAppend, NewlyApplied, Shaped;
    NextShaped(c, OnAppReq(i, m));
    assert VoterOk(c.aux, c.servers[i], i, |c.servers|);
    TermRaised(c, i, m.aargs.term);
    AppendBallot(c.servers[i], m.aargs);
    Update(c, DoAppReq(c, i, m), i);
  }

  lemma ReplyBallot(s: Server, peer: nat, a: AppendArgs, r: AppendReply)
    requires peer < |s.nextIndex| == |s.matchIndex|
    ensures var s' := CountAppend(s, peer, a, r); SameBallot(s, s') || (s' == StepDown(s, r.term) && r.term > s.term)
  {
    hide CommitPoint;
  }

  lemma AppRepKeeps(c: Cluster, i: nat, m: Msg)
    requires VoteInv(c) && Enabled(c, OnAppRep(i, m))
    ensures VoteInv(DoAppRep(c, i, m))
  {
    hide CountAppend, NewlyApplied;
    NextShaped(c, OnAppRep(i, m));
    assert VoterOk(c.aux, c.servers[i], i, |c.servers|);
    ReplyBallot(c.servers[i], m.from, m.aargs, m.areply);
    Update(c, DoAppRep(c, i, m), i);
  }

  /** The steps that neither vote nor read a vote or a term. */
  predicate Other(step: Step)
  {
    step.TakeOffice? || step.Leave? || step.Reenter? || step.SendRound? || step.ClientStart? || step.Crash?
  }

  /** The server's ballot after such a step: nothing but the round may change, and that only ends. */
  lemma OtherBallot(c: Cluster, step: Step)
    requires Shaped(c) && Enabled(c, step) && Other(step)
    requires var s := c.servers[step.i]; s.saved.term == s.term && s.saved.votedFor == s.votedFor
    ensures var c', s := Next(c, step), c.servers[step.i];
            |c'.servers| == |c.servers| && c'.servers == c.servers[step.i := c'.servers[step.i]] &&
            c'.aux.votes == c.aux.votes && c'.aux.wins == c.aux.wins && (forall m :: m in c'.net && m !in c.net ==> m.AppReq?) &&
            var s' := c'.servers[step.i];
            s'.saved.term == s.term == s'.term && s'.saved.votedFor == s.votedFor == s'.votedFor &&
            (s'.round == NO_ROUND || (s'.round == s.round.(open := s'.round.open) && (s'.round.open ==> s.round.open)))
  {
  }

  lemma OtherKeeps(c: Cluster, step: Step)
    requires VoteInv(c) && Enabled(c, step) && Other(step)
    ensures VoteInv(Next(c, step))
  {
    assert VoterOk(c.aux, c.servers[step.i], step.i, |c.servers|);
    hide Shaped, Next, Enabled, WinOk;
    NextShaped(c, step);
    OtherBallot(c, step);
    Update(c, Next(c, step), step.i);
  }

  lemma VoteInvNext(c: Cluster, step: Step)
    requires VoteInv(c) && Enabled(c, step)
    ensures VoteInv(Next(c, step))
  {
    hide VoteInv;
    match step
    case Elect(i) => ElectKeeps(c, i);
    case OnVoteReq(i, m) => VoteReqKeeps(c, i, m);
    case OnVoteRep(i, m) => VoteRepKeeps(c, i, m);
    case OnAppReq(i, m) => AppendKeeps(c, i, m);
    case OnAppRep(i, m) => AppRepKeeps(c, i, m);
    case _ => OtherKeeps(c, step);
  }

  // ---------------------------------------------------------------- runs

  /** The states of a run from the initial cluster of `n` servers, one more than its steps. */
  ghost predicate IsRun(n: nat, states: seq<Cluster>, steps: seq<Step>)
  {
    |states| == |steps| + 1 && states[0] == Init(n) &&
    forall k :: 0 <= k < |steps| ==> Shaped(states[k]) && Enabled(states[k], steps[k]) && states[k + 1] == Next(states[k], steps[k])
  }

  lemma {:induction false} VoteInvAlong(n: nat, states: seq<Cluster>, steps: seq<Step>, k: nat)
    requires IsRun(n, states, steps) && k < |states|
    ensures VoteInv(states[k]) && |states[k].servers| == n
  {
    if k == 0 {
      VoteInvInit(n);
      InitShaped(n);
    } else {
      VoteInvAlong(n, states, steps, k - 1);
      VoteInvNext(states[k - 1], steps[k - 1]);
      NextShaped(states[k - 1], steps[k - 1]);
    }
  }

  lemma SameWinner(c: Cluster, a: Win, b: Win)
    requires VoteInv(c) && a in c.aux.wins && b in c.aux.wins && a.term == b.term
    ensures a.server == b.server
  {
    assert WinOk(c.aux, a, |c.servers|) && WinOk(c.aux, b, |c.servers|);
    var v := Meet(|c.servers|, a.voters, b.voters);
    assert VotedFor(c.aux, v, a.term, a.server) && VotedFor(c.aux, v, b.term, b.server);
  }

  /** Election safety: over every run, at most one server ever counts more than half of the votes in a
      round it opened for a given term. */
  lemma ElectionSafety(n: nat, states: seq<Cluster>, steps: seq<Step>, k: nat, a: Win, b: Win)
    requires IsRun(n, states, steps) && k < |states|
    requires a in states[k].aux.wins && b in states[k].aux.wins && a.term == b.term
    ensures a.server == b.server
  {
    VoteInvAlong(n, states, steps, k);
    SameWinner(states[k], a, b);
  }

  /** A round that has enough votes for an office has been recorded as won. */
  ghost predicate WonOk(c: Cluster)
  {
    forall i: nat :: i < |c.servers| && Enabled(c, TakeOffice(i)) ==>
      Win(c.servers[i].round.args.term, i, c.servers[i].round.granted) in c.aux.wins
  }

  lemma WonUpdate(c: Cluster, c': Cluster, i: nat)
    requires WonOk(c) && i < |c.servers| == |c'.servers| && c'.servers == c.servers[i := c'.servers[i]] && c.aux.wins <= c'.aux.wins
    requires var r, r' := c.servers[i].round, c'.servers[i].round;
             r' == r || !r'.open || |r'.granted| <= 1 || Win(r'.args.term, i, r'.granted) in c'.aux.wins
    ensures WonOk(c')
  {
    forall p: nat | p < |c'.servers| && Enabled(c', TakeOffice(p))
      ensures Win(c'.servers[p].round.args.term, p, c'.servers[p].round.granted) in c'.aux.wins
    {
      if p != i || c'.servers[i].round == c.servers[i].round {
        assert Enabled(c, TakeOffice(p));
      }
    }
  }

  lemma WonByVote(c: Cluster, i: nat, m: Msg)
    requires VoteInv(c) && WonOk(c) && Enabled(c, OnVoteRep(i, m))
    ensures WonOk(DoVoteRep(c, i, m)) && c.aux.wins <= DoVoteRep(c, i, m).aux.wins
  {
    hide VoteInv, CountVote, Shaped;
    assert Shaped(c) by { VotersOk(c, i); }
    var c' := DoVoteRep(c, i, m);
    CountedOk(c, i, m);
    forall p: nat | p < |c'.servers| && Enabled(c', TakeOffice(p))
      ensures Win(c'.servers[p].round.args.term, p, c'.servers[p].round.granted) in c'.aux.wins
    {
      if p != i {
        assert Enabled(c, TakeOffice(p));
      }
    }
  }

  lemma RoundKept(c: Cluster, step: Step)
    requires Shaped(c) && Enabled(c, step) && (step.Elect? || step.OnVoteReq? || step.OnAppReq? || step.OnAppRep?)
    requires var s := c.servers[step.i]; s.saved.term == s.term && s.saved.votedFor == s.votedFor
    ensures var c', i := Next(c, step), step.i;
            |c'.servers| == |c.servers| && c'.servers == c.servers[i := c'.servers[i]] && c'.aux.wins == c.aux.wins &&
            var r, r' := c.servers[i].round, c'.servers[i].round; r' == r || !r'.open || |r'.granted| <= 1
  {
    hide HandleAppend, CountAppend, NewlyApplied, LogNewer;
    match step
    case OnAppReq(i, m) => AppendBallot(c.servers[i], m.aargs);
    case OnAppRep(i, m) => ReplyBallot(c.servers[i], m.from, m.aargs, m.areply);
    case _ =>
  }

  lemma WonNext(c: Cluster, step: Step)
    requires VoteInv(c) && WonOk(c) && Enabled(c, step)
    ensures WonOk(Next(c, step)) && c.aux.wins <= Next(c, step).aux.wins
  {
    hide VoteInv, WonOk, Shaped;
    VotersOk(c, step.i);
    if step.OnVoteRep? {
      WonByVote(c, step.i, step.m);
    } else {
      hide Next;
      if Other(step) {
        OtherBallot(c, step);
      } else {
        RoundKept(c, step);
      }
      WonUpdate(c, Next(c, step), step.i);
    }
  }

  lemma VotersOk(c: Cluster, i: nat)
    requires VoteInv(c) && i < |c.servers|
    ensures Shaped(c) && VoterOk(c.aux, c.servers[i], i, |c.servers|)
  {
  }

  lemma {:induction false} WonAlong(n: nat, states: seq<Cluster>, steps: seq<Step>, k: nat, l: nat)
    requires IsRun(n, states, steps) && k <= l < |states|
    ensures WonOk(states[l]) && states[k].aux.wins <= states[l].aux.wins
  {
    hide WonOk, Next, Shaped, Enabled;
    if l == 0 {
      assert WonOk(Init(n)) by { NothingWon(n); }
    } else {
      WonAlong(n, states, steps, if k < l then k else l - 1, l - 1);
      VoteInvAlong(n, states, steps, l - 1);
      WonNext(states[l - 1], steps[l - 1]);
    }
  }

  lemma NothingWon(n: nat)
    ensures WonOk(Init(n))
  {
  }

  /** So no two servers ever have enough votes for the same term, at whatever times they have them. */
  lemma OneWinner(n: nat, states: seq<Cluster>, steps: seq<Step>, k: nat, l: nat, i: nat, j: nat)
    requires IsRun(n, states, steps) && k <= l < |states| && Enabled(states[k], TakeOffice(i)) && Enabled(states[l], TakeOffice(j))
    requires states[k].servers[i].round.args.term == states[l].servers[j].round.args.term
    ensures i == j
  {
    hide IsRun;
    WonAlong(n, states, steps, k, k);
    WonAlong(n, states, steps, k, l);
    var a, b := states[k].servers[i].round, states[l].servers[j].round;
    ElectionSafety(n, states, steps, l, Win(a.args.term, i, a.granted), Win(b.args.term, j, b.granted));
  }

  /** No server votes for two candidates in one term: in every run, any two granted replies of one voter for
      one term name the same candidate, restarts from persisted state included. */
  lemma OneVotePerTerm(n: nat, states: seq<Cluster>, steps: seq<Step>, k: nat, a: Msg, b: Msg)
    requires IsRun(n, states, steps) && k < |states| && a in states[k].net && b in states[k].net && a.VoteRep? && b.VoteRep?
    requires a.vreply.voteGranted && b.vreply.voteGranted && a.voter == b.voter && a.vargs.term == b.vargs.term
    ensures a.vargs.candidateId == b.vargs.candidateId
  {
    hide IsRun;
    VoteInvAlong(n, states, steps, k);
    assert BallotOk(states[k].aux, a, |states[k].servers|) && BallotOk(states[k].aux, b, |states[k].servers|);
  }

  /** A recorded vote stays as it is for ever, and a server's vote field is its recorded vote. */
  lemma VotesAreFinal(c: Cluster, step: Step)
    requires VoteInv(c) && Enabled(c, step)
    ensures VotesKept(c.aux, Next(c, step).aux)
    ensures forall i: nat :: i < |c.servers| && Next(c, step).servers[i].votedFor != NONE ==>
              VotedFor(Next(c, step).aux, i, Next(c, step).servers[i].term, Next(c, step).servers[i].votedFor)
  {
    hide Next, Enabled, Shaped;
    NextShaped(c, step);
    VoteInvNext(c, step);
    KeptNext(c, step);
    var c' := Next(c, step);
    forall i: nat | i < |c.servers|
      ensures c'.servers[i].votedFor != NONE ==> VotedFor(c'.aux, i, c'.servers[i].term, c'.servers[i].votedFor)
    {
      assert VoterOk(c'.aux, c'.servers[i], i, |c'.servers|);
    }
  }

  lemma KeptNext(c: Cluster, step: Step)
    requires VoteInv(c) && Enabled(c, step)
    ensures VotesKept(c.aux, Next(c, step).aux)
  {
    hide VoteInv, VotesKept, RecordVote, HandleAppend, CountAppend, CountVote, NewlyApplied, Shaped;
    VotersOk(c, step.i);
    SameVotes(c.aux, Next(c, step).aux);
    if step.Elect? {
      RecordKeeps(c.aux, step.i, c.servers[step.i].term + 1, Vote(step.i, c.servers[step.i].log, c.servers[step.i].log));
    } else if step.OnVoteReq? {
      hide VoterOk, HandleVote;
      RecordKeeps(c.aux, step.i, step.m.vargs.term, Vote(step.m.vargs.candidateId, c.servers[step.i].log, step.m.vlog));
    } else if Other(step) {
      OtherBallot(c, step);
    } else {
      assert Next(c, step).aux.votes == c.aux.votes;
    }
  }

  lemma SameVotes(aux: Aux, aux': Aux)
    ensures aux'.votes == aux.votes ==> VotesKept(aux, aux')
  {
  }

  lemma RecordKeeps(aux: Aux, i: nat, term: nat, v: Vote)
    ensures VotesKept(aux, RecordVote(aux, i, term, v))
  {
  }

  /** Terms never decrease, crashes included. */
  lemma TermsGrow(c: Cluster, step: Step, i: nat)
    requires VoteInv(c) && Enabled(c, step) && i < |c.servers|
    ensures i < |Next(c, step).servers| && Next(c, step).servers[i].term >= c.servers[i].term
  {
    NextShaped(c, step);
    assert VoterOk(c.aux, c.servers[i], i, |c.servers|);
    if step.OnAppReq? && step.i == i {
      AppendBallot(c.servers[i], step.m.aargs);
    } else if step.OnAppRep? && step.i == i {
      ReplyBallot(c.servers[i], step.m.from, step.m.aargs, step.m.areply);
    }
  }
}
