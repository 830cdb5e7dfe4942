/** State machine safety over runs, with the exact condition under which a step keeps it. */
module RaftSafety {
  import opened FiniteSets
  import opened RaftModel
  import opened RaftCluster
  import opened RaftVotes
  import opened RaftLogs
  import opened RaftQuorum
  import opened RaftCommit

  // ---------------------------------------------------------------- the exact condition

  /** What a crash restores still holds every choosable entry that the server has accepted. */
  ghost predicate SavedKeeps(c: Cluster, i: nat)
    requires i < |c.servers|
  {
    forall t: nat, j: nat :: j < Acc(c, i, t) && Own(c, t, j) && Choosable(c, t, j) ==> Has(c.servers[i].saved.log, c.aux.hist[t], j)
  }

  /** The step takes no choosable entry from a server that has accepted it. Only two kinds of step can: a
      crash, and an accepted request that is older than one accepted before. */
  ghost predicate Spares(c: Cluster, step: Step)
    requires Enabled(c, step)
  {
    match step
    case Crash(i) => SavedKeeps(c, i)
    case OnAppReq(i, m) => HandleAppend(c.servers[i], m.aargs).1.success ==> NoneCut(c, i, m)
    case _ => true
  }

  lemma CrashStep(c: Cluster, i: nat)
    requires CommitInv(c) && Shaped(c) && Enabled(c, Crash(i))
    ensures StepOf(c, DoCrash(c, i), i) && AcceptsOk(DoCrash(c, i))
  {
    hide LogInv, AllKeep, AllPass, VotesOk, ServersOk, MsgsOk, ApplicationsOk;
    var c' := DoCrash(c, i);
    InvVotes(c);
    assert VoterOk(c.aux, c.servers[i], i, |c.servers|);
    forall p | p in c'.aux.accepted
      ensures AcceptedOk(c', p)
    {
      assert AcceptedOk(c, p);
    }
  }

  lemma SameChoosable(c: Cluster, c': Cluster, t: nat, j: nat)
    requires |c'.servers| == |c.servers| && (forall q: nat :: Acc(c', q, t) >= Acc(c, q, t))
    requires forall q: nat :: q < |c.servers| && c.servers[q].term <= t ==> c'.servers[q].term <= t
    requires Choosable(c, t, j)
    ensures Choosable(c', t, j)
  {
    var qs :| MayStore(c, t, j, qs);
    assert MayStore(c', t, j, qs);
  }

  lemma CrashKeepsCommit(c: Cluster, i: nat)
    requires CommitInv(c) && Shaped(c) && Enabled(c, Crash(i)) && SavedKeeps(c, i)
    ensures CommitInv(DoCrash(c, i))
  {
    hide LogInv, AllKeep, AllPass, VotesOk, ServersOk, MsgsOk, ApplicationsOk, AcceptsOk, Choosable;
    var c' := DoCrash(c, i);
    LogInvNext(c, Crash(i));
    CrashStep(c, i);
    forall t: nat, j: nat
      ensures Keeps(c', i, t, j)
    {
      if j < Acc(c', i, t) && Own(c', t, j) && Choosable(c', t, j) {
        ChoosableBack(c, c', t, j);
      }
    }
    AllKeepFrame(c, c', i);
    PassesSameHist(c, c', i);
    InvVotes(c);
    VotesOkFrame(c, c');
    ServersOkFrame(c, c', i);
    MsgsOkFrame(c, c', i);
    ApplicationsOkFrame(c, c', i);
  }

  /** A crash keeps the invariant exactly if it spares the choosable entries. */
  lemma CrashIff(c: Cluster, i: nat)
    requires CommitInv(c) && Shaped(c) && Enabled(c, Crash(i))
    ensures CommitInv(DoCrash(c, i)) <==> SavedKeeps(c, i)
  {
    hide LogInv, AllPass, VotesOk, ServersOk, MsgsOk, ApplicationsOk, AcceptsOk, Choosable;
    var c' := DoCrash(c, i);
    if SavedKeeps(c, i) {
      CrashKeepsCommit(c, i);
    }
    if CommitInv(c') {
      InvVotes(c);
      assert VoterOk(c.aux, c.servers[i], i, |c.servers|);
      forall t: nat, j: nat | j < Acc(c, i, t) && Own(c, t, j) && Choosable(c, t, j)
        ensures Has(c.servers[i].saved.log, c.aux.hist[t], j)
      {
        SameChoosable(c, c', t, j);
        assert Keeps(c', i, t, j);
      }
    }
  }

  lemma CutIsLost(c: Cluster, i: nat, m: Msg, j: nat)
    requires CommitInv(c) && Shaped(c) && Enabled(c, OnAppReq(i, m)) && Guarded(c, OnAppReq(i, m))
    requires HandleAppend(c.servers[i], m.aargs).1.success
    requires |m.full| <= j < Acc(c, i, m.aargs.term) && Choosable(c, m.aargs.term, j)
    ensures !AllKeep(DoAppReq(c, i, m))
  {
    hide LogInv, AllPass, VotesOk, ServersOk, MsgsOk, ApplicationsOk, AcceptsOk, Choosable, HandleAppend, NewlyApplied;
    var c', u := DoAppReq(c, i, m), m.aargs.term;
    AcceptStep(c, i, m);
    RequestIn(c, m);
    AcceptedInHistory(c, i, u);
    OwnAbove(c, u, j);
    SameChoosable(c, c', u, j);
    assert !Keeps(c', i, u, j);
  }

  lemma OwnAbove(c: Cluster, u: nat, j: nat)
    requires LogInv(c) && u in c.aux.hist && u in c.aux.elected && c.aux.elected[u].base <= j < |c.aux.hist[u]|
    ensures Own(c, u, j)
  {
    hide VoteInv, WinOk, Anchored;
    assert HistOk(c, u);
  }

  /** An accepted request keeps the invariant exactly if it spares the choosable entries. */
  lemma AcceptIff(c: Cluster, i: nat, m: Msg)
    requires CommitInv(c) && Shaped(c) && Enabled(c, OnAppReq(i, m)) && Guarded(c, OnAppReq(i, m))
    requires HandleAppend(c.servers[i], m.aargs).1.success
    ensures CommitInv(DoAppReq(c, i, m)) <==> NoneCut(c, i, m)
  {
    hide LogInv, AllKeep, AllPass, VotesOk, ServersOk, MsgsOk, ApplicationsOk, AcceptsOk, Choosable, HandleAppend;
    if NoneCut(c, i, m) {
      AcceptKeepsCommit(c, i, m);
    } else {
      var j: nat :| |m.full| <= j < Acc(c, i, m.aargs.term) && Choosable(c, m.aargs.term, j);
      CutIsLost(c, i, m, j);
    }
  }

  /** Every guarded step keeps the invariant exactly if it spares the choosable entries. */
  lemma CommitInvNextIff(c: Cluster, step: Step)
    requires CommitInv(c) && Shaped(c) && Enabled(c, step) && Guarded(c, step) && Counted(c, step)
    ensures CommitInv(Next(c, step)) <==> Spares(c, step)
  {
    hide CommitInv, Shaped, HandleAppend, SavedKeeps, NoneCut, Counted;
    match step
    case Elect(i) => ElectKeepsCommit(c, i);
    case OnVoteReq(i, m) => VoteReqKeepsCommit(c, i, m);
    case OnVoteRep(i, m) => VoteRepKeepsCommit(c, i, m);
    case TakeOffice(i) => TakeOfficeKeepsCommit(c, i);
    case Leave(i) => LeaveKeepsCommit(c, i);
    case Reenter(i) => ReenterKeepsCommit(c, i);
    case SendRound(i) => SendKeepsCommit(c, i);
    case OnAppReq(i, m) =>
      if HandleAppend(c.servers[i], m.aargs).1.success {
        AcceptIff(c, i, m);
      } else {
        RejectKeepsCommit(c, i, m);
      }
    case OnAppRep(i, m) => AppRepKeepsCommit(c, i, m);
    case ClientStart(i, command) => StartKeepsCommit(c, i, command);
    case Crash(i) => CrashIff(c, i);
  }

  // ---------------------------------------------------------------- runs

  /** A run that meets the leader guards, in which servers out of office commit nothing and no step takes a
      choosable entry from a server that has accepted it. */
  ghost predicate IsSafeRun(n: nat, states: seq<Cluster>, steps: seq<Step>)
  {
    IsGuardedRun(n, states, steps) &&
    forall k :: 0 <= k < |steps| ==> Counted(states[k], steps[k]) && Spares(states[k], steps[k])
  }

  lemma {:induction false} CommitInvAlong(n: nat, states: seq<Cluster>, steps: seq<Step>, k: nat)
    requires IsSafeRun(n, states, steps) && k < |states|
    ensures CommitInv(states[k])
  {
    hide CommitInv, Next, Init, Enabled, Guarded, Counted, Spares, Shaped;
    if k == 0 {
      CommitInvInit(n);
    } else {
      CommitInvAlong(n, states, steps, k - 1);
      assert Guarded(states[k - 1], steps[k - 1]);
      CommitInvNextIff(states[k - 1], steps[k - 1]);
    }
  }

  /** State machine safety: no two servers ever apply different commands at the same index. */
  lemma StateMachineSafety(n: nat, states: seq<Cluster>, steps: seq<Step>, k: nat, a: Application, b: Application)
    requires IsSafeRun(n, states, steps) && k < |states|
    requires a in states[k].aux.applied && b in states[k].aux.applied && a.index == b.index
    ensures a.content == b.content
  {
    CommitInvAlong(n, states, steps, k);
    AppliedAgree(states[k], a, b);
  }

  /** Leader completeness over runs: an entry committed in term `t` is in the log of the leader of every
      later term. */
  lemma CommittedInLaterLeaders(n: nat, states: seq<Cluster>, steps: seq<Step>, k: nat, t: nat, j: nat, u: nat)
    requires IsSafeRun(n, states, steps) && k < |states|
    requires Chosen(states[k], t, j) && t < u && u in states[k].aux.hist
    ensures Has(states[k].aux.hist[u], states[k].aux.hist[t], j)
  {
    hide LogInv, AllKeep, VotesOk, ServersOk, MsgsOk, ApplicationsOk, AcceptsOk, IsSafeRun, Choosable;
    CommitInvAlong(n, states, steps, k);
    ChosenChoosable(states[k], t, j);
    assert Passes(states[k], t, u, j);
  }

  /** Where the commit rule looks after counting the reply `m`. */
  ghost predicate PointInLog(s: Server, m: Msg)
    requires m.AppRep?
  {
    m.from < |s.matchIndex| && 0 <= CommitPoint(s.matchIndex[m.from := m.aargs.prevLogIndex + |m.aargs.entries|]) < |s.log|
  }

  lemma AcceptedBound(c: Cluster, q: nat, t: nat)
    requires AcceptsOk(c) && t in c.aux.hist
    ensures Acc(c, q, t) <= |c.aux.hist[t]|
  {
    if Pair(q, t) in c.aux.accepted {
      assert AcceptedOk(c, Pair(q, t));
    }
  }

  lemma ReplyInLog(c: Cluster, i: nat, m: Msg)
    requires Enabled(c, OnAppRep(i, m)) && c.servers[i].role == Leader && m.areply.success && CommitInv(c)
    ensures PointInLog(c.servers[i], m)
  {
    hide CommitPoint, AllKeep, AllPass, VotesOk, ApplicationsOk, ServerBacked, CandidateOk, VoteInv, HistOk, RequestOk,
         AcceptedOk, Anchored;
    var s := c.servers[i];
    LeaderReply(c, i, m);
    assert LeaderOk(c, i) && MsgOk(c, m) && ServerOk(c.aux, s, i);
    var matchIndex := s.matchIndex[m.from := m.aargs.prevLogIndex + |m.aargs.entries|];
    forall q | 0 <= q < |matchIndex|
      ensures 0 <= matchIndex[q] < |s.log|
    {
      AcceptedBound(c, q, s.term);
    }
    CommitPointMember(matchIndex);
  }

  /** In every run, a leader that counts a successful reply looks only at entries it has. */
  lemma CommitPointInLog(n: nat, states: seq<Cluster>, steps: seq<Step>, k: nat)
    requires IsSafeRun(n, states, steps) && k < |steps| && steps[k].OnAppRep? && steps[k].m.areply.success
    requires states[k].servers[steps[k].i].role == Leader
    ensures PointInLog(states[k].servers[steps[k].i], steps[k].m)
  {
    hide PointInLog, CommitInv, Next, Init, Shaped, Guarded, Counted, Spares;
    CommitInvAlong(n, states, steps, k);
    ReplyInLog(states[k], steps[k].i, steps[k].m);
  }

  // ---------------------------------------------------------------- conditions that can be checked

  /** A crash comes when everything is persisted, and a request that is accepted is not older than one the
      follower has accepted from the same leader in the same term. */
  predicate Ordered(c: Cluster, step: Step)
    requires Enabled(c, step)
  {
    match step
    case Crash(i) => c.servers[i].saved.log == c.servers[i].log
    case OnAppReq(i, m) =>
      HandleAppend(c.servers[i], m.aargs).1.success ==> |m.full| >= AcceptedLength(c.aux, i, m.aargs.term)
    case _ => true
  }

  lemma OrderedSpares(c: Cluster, step: Step)
    requires CommitInv(c) && Enabled(c, step) && Ordered(c, step)
    ensures Spares(c, step)
  {
    hide LogInv, AllPass, VotesOk, ServersOk, MsgsOk, ApplicationsOk, AcceptsOk, Choosable, HandleAppend;
    if step.Crash? {
      forall t: nat, j: nat | j < Acc(c, step.i, t) && Own(c, t, j) && Choosable(c, t, j)
        ensures Has(c.servers[step.i].saved.log, c.aux.hist[t], j)
      {
        assert Keeps(c, step.i, t, j);
      }
    }
  }

  ghost predicate IsOrderedRun(n: nat, states: seq<Cluster>, steps: seq<Step>)
  {
    IsGuardedRun(n, states, steps) &&
    forall k :: 0 <= k < |steps| ==> Counted(states[k], steps[k]) && Ordered(states[k], steps[k])
  }

  /** So the theorems hold of all runs that meet the conditions, crashes and rejected old requests included. */
  lemma OrderedRunIsSafe(n: nat, states: seq<Cluster>, steps: seq<Step>)
    requires IsOrderedRun(n, states, steps)
    ensures IsSafeRun(n, states, steps)
  {
    hide Counted, Ordered, Spares, Guarded, Enabled, Next, Init, Shaped, CommitInv;
    forall k: nat | k < |steps|
      ensures Spares(states[k], steps[k])
    {
      OrderedUpTo(n, states, steps, k);
      OrderedSpares(states[k], steps[k]);
    }
  }

  lemma {:induction false} OrderedUpTo(n: nat, states: seq<Cluster>, steps: seq<Step>, k: nat)
    requires IsOrderedRun(n, states, steps) && k < |states|
    ensures CommitInv(states[k])
  {
    hide CommitInv, Next, Init, Enabled, Guarded, Counted, Ordered, Shaped, Spares;
    if k == 0 {
      CommitInvInit(n);
    } else {
      OrderedUpTo(n, states, steps, k - 1);
      assert Guarded(states[k - 1], steps[k - 1]) && Ordered(states[k - 1], steps[k - 1]);
      OrderedSpares(states[k - 1], steps[k - 1]);
      CommitInvNextIff(states[k - 1], steps[k - 1]);
    }
  }
}
