/** What is committed is applied: the commands that servers hand to the service, over runs. */
module RaftApply {
  import opened RaftModel
  import opened RaftCluster
  import opened RaftVotes
  import opened RaftLogs
  import opened RaftCommit
  import opened RaftSafety
  import opened RaftOutcomes

  ghost predicate AppliedAt(c: Cluster, i: nat, j: int)
  {
    exists x :: Application(i, j, x) in c.aux.applied
  }

  /** The server has applied everything it counts as committed, and every index up to the last one it applied. */
  ghost predicate AppliesAll(c: Cluster, i: nat)
    requires i < |c.servers|
  {
    0 <= c.servers[i].commitIndex <= c.servers[i].lastApplied && forall j :: 1 <= j <= c.servers[i].lastApplied ==> AppliedAt(c, i, j)
  }

  ghost predicate ApplyInv(c: Cluster)
  {
    Shaped(c) && forall i: nat :: i < |c.servers| ==> AppliesAll(c, i)
  }

  /** What a step may do to the commit state of its server: nothing, or commit inside the log and apply it. */
  ghost predicate Commits(s: Server, s': Server)
  {
    (s'.commitIndex == s.commitIndex && s'.lastApplied == s.lastApplied) ||
    (0 <= s'.commitIndex < |s'.log| && s'.lastApplied == RaftOutcomes.Larger(s.lastApplied, s'.commitIndex))
  }

  lemma AppendCommits(s: Server, a: AppendArgs)
    requires 0 <= s.commitIndex <= s.lastApplied
    ensures Commits(s, HandleAppend(s, a).0)
    ensures !HandleAppend(s, a).1.success ==> HandleAppend(s, a).0.lastApplied == s.lastApplied
  {
    hide HandleAppend;
    AppendOutcome(s, a);
  }

  lemma ReplyCommits(s: Server, peer: nat, a: AppendArgs, r: AppendReply)
    requires 0 <= s.commitIndex <= s.lastApplied && peer < |s.nextIndex| == |s.matchIndex|
    ensures Commits(s, CountAppend(s, peer, a, r))
  {
    hide CommitPoint;
  }

  /** One server's step that records what it applies. */
  lemma AppliesNext(c: Cluster, c': Cluster, i: nat)
    requires ApplyInv(c) && Shaped(c') && i < |c.servers| == |c'.servers| && c'.servers == c.servers[i := c'.servers[i]]
    requires Commits(c.servers[i], c'.servers[i]) && c.aux.applied <= c'.aux.applied
    requires NewlyApplied(i, c.servers[i], c'.servers[i]) <= c'.aux.applied
    ensures ApplyInv(c')
  {
    forall p: nat | p < |c'.servers|
      ensures AppliesAll(c', p)
    {
      assert AppliesAll(c, p);
      forall j | 1 <= j <= c'.servers[p].lastApplied
        ensures AppliedAt(c', p, j)
      {
        if j <= c.servers[p].lastApplied {
          assert AppliedAt(c, p, j);
        } else {
          assert Application(i, j, c'.servers[i].log[j].content) in NewlyApplied(i, c.servers[i], c'.servers[i]);
        }
      }
    }
  }

  lemma NothingApplied(i: nat, s: Server, s': Server)
    requires s'.lastApplied <= s.lastApplied
    ensures NewlyApplied(i, s, s') == {}
  {
  }

  lemma QuietNext(c: Cluster, step: Step)
    requires ApplyInv(c) && Enabled(c, step) && !step.OnAppReq? && !step.OnAppRep? && !step.Crash?
    ensures ApplyInv(Next(c, step))
  {
    hide LogNewer, Shaped, NewlyApplied;
    NextShaped(c, step);
    var c' := Next(c, step);
    assert c'.servers[step.i].commitIndex == c.servers[step.i].commitIndex && c'.servers[step.i].lastApplied == c.servers[step.i].lastApplied;
    NothingApplied(step.i, c.servers[step.i], c'.servers[step.i]);
    AppliesNext(c, c', step.i);
  }

  lemma RequestNext(c: Cluster, i: nat, m: Msg)
    requires ApplyInv(c) && Enabled(c, OnAppReq(i, m))
    ensures ApplyInv(DoAppReq(c, i, m))
  {
    hide HandleAppend, NewlyApplied, Shaped;
    NextShaped(c, OnAppReq(i, m));
    assert AppliesAll(c, i);
    AppendCommits(c.servers[i], m.aargs);
    if !HandleAppend(c.servers[i], m.aargs).1.success {
      NothingApplied(i, c.servers[i], HandleAppend(c.servers[i], m.aargs).0);
    }
    AppliesNext(c, DoAppReq(c, i, m), i);
  }

  lemma ReplyNext(c: Cluster, i: nat, m: Msg)
    requires ApplyInv(c) && Enabled(c, OnAppRep(i, m))
    ensures ApplyInv(DoAppRep(c, i, m))
  {
    hide CountAppend, NewlyApplied;
    NextShaped(c, OnAppRep(i, m));
    assert AppliesAll(c, i);
    ReplyCommits(c.servers[i], m.from, m.aargs, m.areply);
    AppliesNext(c, DoAppRep(c, i, m), i);
  }

  lemma CrashNext(c: Cluster, i: nat)
    requires ApplyInv(c) && Enabled(c, Crash(i))
    ensures ApplyInv(DoCrash(c, i))
  {
    NextShaped(c, Crash(i));
    var c' := DoCrash(c, i);
    forall p: nat | p < |c'.servers|
      ensures AppliesAll(c', p)
    {
      assert AppliesAll(c, p);
      assert forall j :: AppliedAt(c, p, j) ==> AppliedAt(c', p, j);
    }
  }

  lemma ApplyInvNext(c: Cluster, step: Step)
    requires ApplyInv(c) && Enabled(c, step)
    ensures ApplyInv(Next(c, step))
  {
    hide ApplyInv;
    match step
    case OnAppReq(i, m) => RequestNext(c, i, m);
    case OnAppRep(i, m) => ReplyNext(c, i, m);
    case Crash(i) => CrashNext(c, i);
    case _ => QuietNext(c, step);
  }

  /** In every run, crashes included, a server has applied a command at every index up to its commit index. */
  lemma {:induction false} CommittedIsApplied(n: nat, states: seq<Cluster>, steps: seq<Step>, k: nat)
    requires IsRun(n, states, steps) && k < |states|
    ensures ApplyInv(states[k])
  {
    hide ApplyInv, Next, Enabled, Shaped;
    if k == 0 {
      assert ApplyInv(Init(n)) by { NothingCommitted(n); }
    } else {
      CommittedIsApplied(n, states, steps, k - 1);
      ApplyInvNext(states[k - 1], steps[k - 1]);
    }
  }

  lemma NothingCommitted(n: nat)
    ensures ApplyInv(Init(n))
  {
    InitShaped(n);
  }

  /** So a follower that accepts a request has applied a command at every index that the leader had committed and
      the request reaches. */
  lemma FollowerApplies(n: nat, states: seq<Cluster>, steps: seq<Step>, k: nat, j: nat)
    requires IsRun(n, states, steps) && k < |steps| && steps[k].OnAppReq?
    requires HandleAppend(states[k].servers[steps[k].i], steps[k].m.aargs).1.success
    requires 1 <= j <= steps[k].m.aargs.leaderCommit && j <= steps[k].m.aargs.prevLogIndex + |steps[k].m.aargs.entries|
    ensures AppliedAt(states[k + 1], steps[k].i, j)
  {
    hide HandleAppend;
    var i := steps[k].i;
    CommittedIsApplied(n, states, steps, k);
    CommittedIsApplied(n, states, steps, k + 1);
    assert AppliesAll(states[k], i) && AppliesAll(states[k + 1], i);
    AppendOutcome(states[k].servers[i], steps[k].m.aargs);
  }

  /** The entries that a request says are committed are the only ones ever applied at their indexes. */
  lemma RequestIsLaw(c: Cluster, m: Msg, a: Application)
    requires CommitInv(c) && m in c.net && m.AppReq? && a in c.aux.applied && 1 <= a.index <= m.aargs.leaderCommit
    ensures m.aargs.leaderCommit < |m.full| && a.content == m.full[a.index].content
  {
    hide LogInv, AllKeep, AllPass, VotesOk, ServersOk, AcceptsOk, Store;
    assert MsgOk(c, m) && ApplicationOk(c, a);
    var t: nat, k: nat :| Backs(c, m.full, m.aargs.leaderCommit, t, k) && t <= m.aargs.term;
    var u: nat, l: nat :| Chosen(c, u, l) && 0 <= a.index <= l && c.aux.hist[u][a.index].content == a.content;
    var last := m.aargs.leaderCommit;
    assert m.full[a.index] == m.full[..last + 1][a.index] == c.aux.hist[t][..last + 1][a.index];
    if t <= u {
      ChosenAgree(c, t, k, u, l, a.index);
    } else {
      ChosenAgree(c, u, l, t, k, a.index);
    }
  }

  lemma Caught(c: Cluster, i: nat, m: Msg, j: nat)
    requires CommitInv(c) && m in c.net && m.AppReq? && 1 <= j <= m.aargs.leaderCommit && AppliedAt(c, i, j)
    ensures j < |m.full| && Application(i, j, m.full[j].content) in c.aux.applied
  {
    var x :| Application(i, j, x) in c.aux.applied;
    RequestIsLaw(c, m, Application(i, j, x));
  }

  /** Replication: when a leader sends a round of requests and a follower accepts the one for it, then the follower
      has applied, at every index the leader had committed when it sent the round, the command in the leader's log. */
  lemma FollowerCatchesUp(n: nat, states: seq<Cluster>, steps: seq<Step>, sent: nat, taken: nat, follower: nat, j: nat)
    requires IsSafeRun(n, states, steps) && sent < taken < |steps| && steps[sent].SendRound?
    requires var s := states[sent + 1].servers[steps[sent].i];
             follower < |s.nextIndex| && follower != steps[sent].i && 1 <= s.nextIndex[follower] <= |s.log| &&
             steps[taken] == OnAppReq(follower, AppReq(follower, s.beat, ArgsFor(s, follower), s.log)) &&
             HandleAppend(states[taken].servers[follower], ArgsFor(s, follower)).1.success
    requires 1 <= j <= states[sent].servers[steps[sent].i].commitIndex
    ensures j < |states[sent].servers[steps[sent].i].log|
    ensures Application(follower, j, states[sent].servers[steps[sent].i].log[j].content) in states[taken + 1].aux.applied
  {
    hide HandleAppend, CommitInv, Counted, Spares, Guarded, Shaped;
    var i := steps[sent].i;
    var s0, s := states[sent].servers[i], states[sent + 1].servers[i];
    assert Enabled(states[sent], steps[sent]) && states[sent + 1] == Next(states[sent], steps[sent]);
    assert s == s0.(beat := s0.beat + 1);
    var m := steps[taken].m;
    assert Enabled(states[taken], steps[taken]);
    RequestOutcome(s, follower);
    CommitInvAlong(n, states, steps, taken);
    CommitInvAlong(n, states, steps, taken + 1);
    LeaderCommitBound(states[taken], m);
    FollowerApplies(n, states, steps, taken, j);
    assert m in states[taken + 1].net;
    Caught(states[taken + 1], follower, m, j);
  }

  lemma LeaderCommitBound(c: Cluster, m: Msg)
    requires CommitInv(c) && m in c.net && m.AppReq?
    ensures m.aargs.leaderCommit < |m.full| == m.aargs.prevLogIndex + 1 + |m.aargs.entries|
  {
    hide LogInv;
    assert MsgOk(c, m);
    RequestIn(c, m);
  }
}
