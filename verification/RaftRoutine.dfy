/** Which routine of a server runs, and how it learns that it should end. Holds in every run. */
module RaftRoutine {
  import opened RaftModel
  import opened RaftCluster
  import opened RaftVotes

  /** At most one of the candidate and the leader routine runs, it fits the role, and if the server has stepped
      down meanwhile, the signal that ends the routine is in the channel. */
  ghost predicate RoutineOk(s: Server)
  {
    (s.round.open ==> s.office == NONE && s.role != Leader) && (s.office != NONE ==> s.role != Candidate) &&
    ((s.round.open || s.office != NONE) && s.role == Follower ==> s.signal)
  }

  ghost predicate RoutinesOk(c: Cluster)
  {
    forall i: nat :: i < |c.servers| ==> RoutineOk(c.servers[i])
  }

  lemma AppendRoutine(s: Server, a: AppendArgs)
    requires RoutineOk(s)
    ensures RoutineOk(HandleAppend(s, a).0)
  {
    hide Spliced, MatchLength, NextHint;
  }

  lemma ReplyRoutine(s: Server, peer: nat, a: AppendArgs, r: AppendReply)
    requires RoutineOk(s) && peer < |s.nextIndex| == |s.matchIndex|
    ensures RoutineOk(CountAppend(s, peer, a, r))
  {
    hide CommitPoint;
  }

  lemma VotingRoutine(s: Server, a: VoteArgs, from: nat, r: VoteReply)
    requires RoutineOk(s) && s.log != []
    ensures s.role != Leader && s.office == NONE ==> RoutineOk(BeginRound(s))
    ensures RoutineOk(HandleVote(s, a).0) && RoutineOk(CountVote(s, from, r))
  {
    hide LogNewer;
  }

  lemma OfficeRoutine(s: Server, i: nat, n: nat, command: Content)
    requires RoutineOk(s) && s.me < n == |s.matchIndex|
    ensures s.round.open ==> RoutineOk(Promote(s, n))
    ensures s.role == Leader ==> RoutineOk(EnterOffice(s, n))
    ensures RoutineOk(TakeSignal(s)) && RoutineOk(HandleStart(s, command)) && RoutineOk(Boot(i, n, s.saved))
  {
  }

  lemma RoutinesNext(c: Cluster, step: Step)
    requires Shaped(c) && Enabled(c, step) && RoutinesOk(c)
    ensures RoutinesOk(Next(c, step))
  {
    hide BeginRound, HandleVote, CountVote, Promote, EnterOffice, TakeSignal, HandleAppend, CountAppend, HandleStart, Boot, NewlyApplied;
    var s, n := c.servers[step.i], |c.servers|;
    assert RoutineOk(s) && ServerShaped(s, step.i, n);
    VotingRoutine(s, VoteArgs(0, 0, 0, 0), 0, VoteReply(0, false));
    OfficeRoutine(s, step.i, n, Nil);
    match step
    case OnVoteReq(_, m) => VotingRoutine(s, m.vargs, 0, VoteReply(0, false));
    case OnVoteRep(_, m) => VotingRoutine(s, m.vargs, m.voter, m.vreply);
    case OnAppReq(_, m) => AppendRoutine(s, m.aargs);
    case OnAppRep(_, m) => ReplyRoutine(s, m.from, m.aargs, m.areply);
    case ClientStart(_, command) => OfficeRoutine(s, step.i, n, command);
    case _ =>
  }

  lemma {:induction false} RoutinesAlong(n: nat, states: seq<Cluster>, steps: seq<Step>, k: nat)
    requires IsRun(n, states, steps) && k < |states|
    ensures RoutinesOk(states[k])
  {
    hide Next, Enabled, Shaped, RoutineOk;
    if k == 0 {
      assert forall i: nat :: i < n ==> RoutineOk(Boot(i, n, Saved(0, NONE, [PLACEHOLDER]))) by { BootRoutine(n); }
    } else {
      RoutinesAlong(n, states, steps, k - 1);
      RoutinesNext(states[k - 1], steps[k - 1]);
    }
  }

  lemma BootRoutine(n: nat)
    ensures forall i: nat :: i < n ==> RoutineOk(Boot(i, n, Saved(0, NONE, [PLACEHOLDER])))
  {
  }

  /** No step-down is lost: in every run, a server that is a follower while its candidate or leader routine still
      runs can leave the routine, and is then in the follower routine. */
  lemma SignalWaits(n: nat, states: seq<Cluster>, steps: seq<Step>, k: nat, i: nat)
    requires IsRun(n, states, steps) && k < |states| && i < |states[k].servers|
    requires var s := states[k].servers[i]; s.role == Follower && (s.round.open || s.office != NONE)
    ensures Shaped(states[k]) && Enabled(states[k], Leave(i))
    ensures var s' := Next(states[k], Leave(i)).servers[i]; s'.role == Follower && !s'.round.open && s'.office == NONE && !s'.signal
  {
    hide IsRun;
    VoteInvAlong(n, states, steps, k);
    RoutinesAlong(n, states, steps, k);
    assert RoutineOk(states[k].servers[i]);
  }
}
