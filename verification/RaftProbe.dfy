/** How a leader finds the point where a follower's log agrees with its own. */
module RaftProbe {
  import opened FiniteSets
  import opened RaftModel
  import opened RaftCluster
  import opened RaftVotes
  import opened RaftLogs
  import opened RaftCommit

  /** A log as the protocol keeps it: the placeholder first, then terms from 1 on that never decrease. */
  ghost predicate Tidy(log: Log)
  {
    log != [] && log[0].term == 0 && (forall j :: 1 <= j < |log| ==> log[j].term >= 1) &&
    forall i, j :: 0 <= i < j < |log| ==> log[i].term <= log[j].term
  }

  lemma ServersAreTidy(c: Cluster, i: nat)
    requires LogInv(c) && i < |c.servers|
    ensures Tidy(c.servers[i].log)
  {
    hide LogInv;
    var log := c.servers[i].log;
    ServerAnchored(c, i);
    forall i, j | 0 <= i < j < |log|
      ensures log[i].term <= log[j].term
    {
      TermsOrdered(c, log, i, j);
    }
    forall j: nat | 1 <= j < |log|
      ensures log[j].term >= 1
    {
      assert AnchoredAt(c.aux.hist, log, j);
      HistPositive(c, log[j].term);
    }
  }

  /** The follower takes a request whose previous entry is `next - 1`. */
  predicate Agrees(leader: Log, follower: Log, next: nat)
    requires 1 <= next <= |leader|
  {
    next - 1 < |follower| && follower[next - 1].term == leader[next - 1].term
  }

  /** Every rejection lowers the next index and keeps it at 1 or above. */
  lemma RejectionLowers(leader: Log, follower: Log, next: nat)
    requires Tidy(leader) && Tidy(follower) && 1 <= next <= |leader| && !Agrees(leader, follower, next)
    ensures 1 <= NextHint(follower, next - 1) < next
  {
    var prev := next - 1;
    if prev < |follower| {
      var k := RunStart(follower, prev);
      assert follower[k].term == follower[prev].term;
    }
  }

  /** The number of rejections before a request is accepted, both logs staying as they are. */
  ghost function Rejections(leader: Log, follower: Log, next: nat): nat
    requires Tidy(leader) && Tidy(follower) && 1 <= next <= |leader|
    decreases next
  {
    if Agrees(leader, follower, next) then 0
    else
      RejectionLowers(leader, follower, next);
      1 + Rejections(leader, follower, NextHint(follower, next - 1))
  }

  /** The terms, other than the placeholder's, that occur in a log. */
  ghost function Terms(log: Log): set<nat>
  {
    set j | 0 <= j < |log| && log[j].term != 0 :: log[j].term
  }

  /** Within the follower's log, each rejection skips one of its terms for good. */
  lemma {:induction false} SkipsTerms(leader: Log, follower: Log, next: nat)
    requires Tidy(leader) && Tidy(follower) && 1 <= next <= |leader| && next <= |follower|
    ensures Rejections(leader, follower, next) <= |Terms(follower[..next])|
    decreases next
  {
    if !Agrees(leader, follower, next) {
      RejectionLowers(leader, follower, next);
      var k, w := RunStart(follower, next - 1), follower[next - 1].term;
      SkipsTerms(leader, follower, k);
      assert w in Terms(follower[..next]) by { assert follower[..next][next - 1].term == w; }
      assert w !in Terms(follower[..k]);
      assert Terms(follower[..k]) + {w} <= Terms(follower[..next]) by {
        forall t | t in Terms(follower[..k])
          ensures t in Terms(follower[..next])
        {
          var j :| 0 <= j < k && follower[..k][j].term == t;
          assert follower[..next][j].term == t;
        }
      }
      SubsetSize(Terms(follower[..k]) + {w}, Terms(follower[..next]));
    }
  }

  /** From any starting point a request is accepted after at most one rejection more than the follower's
      log has distinct terms. */
  lemma ProbeBound(leader: Log, follower: Log, next: nat)
    requires Tidy(leader) && Tidy(follower) && 1 <= next <= |leader|
    ensures Rejections(leader, follower, next) <= 1 + |Terms(follower)|
  {
    if next <= |follower| {
      SkipsTerms(leader, follower, next);
      PrefixTerms(follower, next);
    } else {
      RejectionLowers(leader, follower, next);
      SkipsTerms(leader, follower, |follower|);
      assert follower[..|follower|] == follower;
    }
  }

  lemma PrefixTerms(log: Log, k: nat)
    requires k <= |log|
    ensures |Terms(log[..k])| <= |Terms(log)|
  {
    forall t | t in Terms(log[..k])
      ensures t in Terms(log)
    {
      var j :| 0 <= j < k && log[..k][j].term == t && t != 0;
      assert log[j].term == t;
    }
    SubsetSize(Terms(log[..k]), Terms(log));
  }

  // ---------------------------------------------------------------- the exchange of requests and replies

  /** A leader and a follower of a term not above its own, with logs as the protocol keeps them. */
  ghost predicate Probing(s: Server, f: Server, peer: nat)
  {
    Tidy(s.log) && Tidy(f.log) && f.term <= s.term && peer < |s.nextIndex| == |s.matchIndex| && 1 <= s.nextIndex[peer] <= |s.log|
  }

  /** One request, its handling and the handling of the reply. */
  function Exchange(s: Server, f: Server, peer: nat): (Server, Server)
    requires peer < |s.nextIndex| == |s.matchIndex| && 1 <= s.nextIndex[peer] <= |s.log|
  {
    var a := ArgsFor(s, peer);
    var (f', r) := HandleAppend(f, a);
    (CountAppend(s, peer, a, r), f')
  }

  /** A rejected request leaves both logs and moves the next index to the follower's hint. */
  lemma Rejected(s: Server, f: Server, peer: nat)
    requires Probing(s, f, peer)
    ensures var next := s.nextIndex[peer];
            HandleAppend(f, ArgsFor(s, peer)).1.success <==> Agrees(s.log, f.log, next)
    ensures var next, (s', f') := s.nextIndex[peer], Exchange(s, f, peer);
            !Agrees(s.log, f.log, next) ==>
              Probing(s', f', peer) && s'.log == s.log && f'.log == f.log && s'.nextIndex[peer] == NextHint(f.log, next - 1) < next
  {
    hide MatchLength, Spliced, Tidy, NextHint;
    if !Agrees(s.log, f.log, s.nextIndex[peer]) {
      RejectionLowers(s.log, f.log, s.nextIndex[peer]);
    }
  }

  /** How many requests the follower rejects, one after the other, before it takes one. */
  ghost function RejectedRequests(s: Server, f: Server, peer: nat): nat
    requires Probing(s, f, peer)
    decreases s.nextIndex[peer]
  {
    if HandleAppend(f, ArgsFor(s, peer)).1.success then 0
    else
      Rejected(s, f, peer);
      var (s', f') := Exchange(s, f, peer);
      1 + RejectedRequests(s', f', peer)
  }

  lemma {:induction false} RequestsAreProbes(s: Server, f: Server, peer: nat)
    requires Probing(s, f, peer)
    ensures RejectedRequests(s, f, peer) == Rejections(s.log, f.log, s.nextIndex[peer])
    decreases s.nextIndex[peer]
  {
    hide HandleAppend, Exchange, Agrees, NextHint;
    Rejected(s, f, peer);
    if !Agrees(s.log, f.log, s.nextIndex[peer]) {
      var (s', f') := Exchange(s, f, peer);
      RequestsAreProbes(s', f', peer);
    }
  }

  /** A leader's requests are rejected at most once more than the follower's log has distinct terms. */
  lemma RequestBound(s: Server, f: Server, peer: nat)
    requires Probing(s, f, peer)
    ensures RejectedRequests(s, f, peer) <= 1 + |Terms(f.log)|
  {
    RequestsAreProbes(s, f, peer);
    ProbeBound(s.log, f.log, s.nextIndex[peer]);
  }

  // ---------------------------------------------------------------- the next index over runs

  ghost predicate NextOk(s: Server)
  {
    s.role == Leader ==> forall p :: 0 <= p < |s.nextIndex| ==> 1 <= s.nextIndex[p] <= |s.log|
  }

  ghost predicate ReplyOk(aux: Aux, m: Msg)
  {
    m.AppRep? ==>
      m.aargs.term in aux.hist && m.aargs.prevLogIndex + 1 + |m.aargs.entries| <= |aux.hist[m.aargs.term]| &&
      (!m.areply.success && m.areply.nextIndex != -1 ==> 1 <= m.areply.nextIndex <= |aux.hist[m.aargs.term]|)
  }

  ghost predicate NextInv(c: Cluster)
  {
    LogInv(c) && (forall i: nat :: i < |c.servers| ==> NextOk(c.servers[i])) && forall m :: m in c.net ==> ReplyOk(c.aux, m)
  }

  /** One server changes, histories grow and a message is added. */
  lemma NextUpdate(c: Cluster, c': Cluster, i: nat)
    requires NextInv(c) && LogInv(c') && i < |c.servers| == |c'.servers| && c'.servers == c.servers[i := c'.servers[i]]
    requires forall t :: t in c.aux.hist ==> t in c'.aux.hist && |c.aux.hist[t]| <= |c'.aux.hist[t]|
    requires NextOk(c'.servers[i]) && forall m :: m in c'.net && m !in c.net ==> ReplyOk(c'.aux, m)
    ensures NextInv(c')
  {
    hide LogInv;
    forall m | m in c'.net
      ensures ReplyOk(c'.aux, m)
    {
      if m in c.net { assert ReplyOk(c.aux, m); }
    }
    forall j: nat | j < |c'.servers|
      ensures NextOk(c'.servers[j])
    {
      if j != i { assert NextOk(c.servers[j]); }
    }
  }

  /** The reply to a request of term `t` points into the history of `t`. */
  lemma NewReplyOk(c: Cluster, i: nat, m: Msg)
    requires LogInv(c) && Enabled(c, OnAppReq(i, m))
    ensures ReplyOk(c.aux, AppRep(i, m.beat, m.aargs, HandleAppend(c.servers[i], m.aargs).1))
  {
    hide LogInv, MatchLength, Spliced;
    var s, a := c.servers[i], m.aargs;
    RequestIn(c, m);
    RequestPrev(c, m);
    ServersAreTidy(c, i);
    if |s.log| > a.prevLogIndex && s.log[a.prevLogIndex].term != a.prevLogTerm {
      var k := RunStart(s.log, a.prevLogIndex);
      assert s.log[k].term == s.log[a.prevLogIndex].term;
    }
  }

  lemma RequestPrev(c: Cluster, m: Msg)
    requires LogInv(c) && m in c.net && m.AppReq?
    ensures m.aargs.prevLogIndex == 0 ==> m.aargs.prevLogTerm == 0
  {
    hide VoteInv, HistOk;
    RequestFull(c, m);
    assert RequestOk(c.aux, m);
  }

  lemma OfficeNext(c: Cluster, i: nat)
    requires NextInv(c) && Shaped(c) && Enabled(c, TakeOffice(i)) && Guarded(c, TakeOffice(i))
    ensures NextInv(DoTakeOffice(c, i))
  {
    hide LogInv;
    LogInvNext(c, TakeOffice(i));
    TermIsFree(c, i);
    NextUpdate(c, DoTakeOffice(c, i), i);
  }

  lemma StartNext(c: Cluster, i: nat, command: Content)
    requires NextInv(c) && Shaped(c) && Enabled(c, ClientStart(i, command))
    ensures NextInv(DoStart(c, i, command))
  {
    hide LogInv;
    LogInvNext(c, ClientStart(i, command));
    assert NextOk(c.servers[i]);
    if c.servers[i].role == Leader { LeaderLog(c, i); }
    NextUpdate(c, DoStart(c, i, command), i);
  }

  lemma RequestNext(c: Cluster, i: nat, m: Msg)
    requires NextInv(c) && Shaped(c) && Enabled(c, OnAppReq(i, m)) && Guarded(c, OnAppReq(i, m))
    ensures NextInv(DoAppReq(c, i, m))
  {
    hide LogInv, HandleAppend, NewlyApplied;
    LogInvNext(c, OnAppReq(i, m));
    NewReplyOk(c, i, m);
    RequestEffect(c, i, m);
    AppendOffice(c.servers[i], m.aargs);
    assert NextOk(c.servers[i]);
    NextUpdate(c, DoAppReq(c, i, m), i);
  }

  lemma AppendOffice(s: Server, a: AppendArgs)
    ensures var s' := HandleAppend(s, a).0;
            s'.nextIndex == s.nextIndex && (s'.role == Leader ==> s.role == Leader) && (a.term < s.term ==> s' == s)
    ensures s.role == Leader && a.term > s.term && !s.signal ==> HandleAppend(s, a).0.role != Leader
  {
    hide Spliced, MatchLength, NextHint;
  }

  lemma ReplyNext(c: Cluster, i: nat, m: Msg)
    requires NextInv(c) && Shaped(c) && Enabled(c, OnAppRep(i, m))
    ensures NextInv(DoAppRep(c, i, m))
  {
    hide LogInv, CommitPoint, NewlyApplied;
    var s := c.servers[i];
    LogInvNext(c, OnAppRep(i, m));
    assert NextOk(s) && ReplyOk(c.aux, m);
    if s.role == Leader {
      LeaderReply(c, i, m);
      LeaderLog(c, i);
    }
    NextUpdate(c, DoAppRep(c, i, m), i);
  }

  lemma OtherNext(c: Cluster, step: Step)
    requires NextInv(c) && Shaped(c) && Enabled(c, step) && Guarded(c, step)
    requires step.Elect? || step.OnVoteReq? || step.OnVoteRep? || step.Leave? || step.Reenter? || step.SendRound? || step.Crash?
    ensures NextInv(Next(c, step))
  {
    hide LogInv, LogNewer;
    LogInvNext(c, step);
    assert NextOk(c.servers[step.i]);
    NextUpdate(c, Next(c, step), step.i);
  }

  lemma NextInvNext(c: Cluster, step: Step)
    requires NextInv(c) && Shaped(c) && Enabled(c, step) && Guarded(c, step)
    ensures NextInv(Next(c, step))
  {
    hide NextInv;
    match step
    case TakeOffice(i) => OfficeNext(c, i);
    case ClientStart(i, command) => StartNext(c, i, command);
    case OnAppReq(i, m) => RequestNext(c, i, m);
    case OnAppRep(i, m) => ReplyNext(c, i, m);
    case _ => OtherNext(c, step);
  }

  lemma {:induction false} NextInvAlong(n: nat, states: seq<Cluster>, steps: seq<Step>, k: nat)
    requires IsGuardedRun(n, states, steps) && k < |states|
    ensures NextInv(states[k])
  {
    hide NextInv, Next, Enabled, Guarded, Shaped;
    if k == 0 {
      NextInvInit(n);
    } else {
      NextInvAlong(n, states, steps, k - 1);
      assert Guarded(states[k - 1], steps[k - 1]);
      NextInvNext(states[k - 1], steps[k - 1]);
    }
  }

  lemma NextInvInit(n: nat)
    ensures NextInv(Init(n))
  {
    hide LogInv;
    LogInvInit(n);
  }

  /** In every guarded run, crashes included, a leader's next index for every follower points into its log
      or just past it, so the request it builds never reads outside the log. */
  lemma NextIndexInLog(n: nat, states: seq<Cluster>, steps: seq<Step>, k: nat, i: nat, peer: nat)
    requires IsGuardedRun(n, states, steps) && k < |states| && i < |states[k].servers| && states[k].servers[i].role == Leader
    requires peer < |states[k].servers[i].nextIndex|
    ensures 1 <= states[k].servers[i].nextIndex[peer] <= |states[k].servers[i].log|
  {
    hide LogInv, IsGuardedRun;
    NextInvAlong(n, states, steps, k);
    assert NextOk(states[k].servers[i]);
  }

  /** So in every guarded run a leader's requests to a server that is not ahead in term are rejected at most
      that often. */
  lemma RequestBoundInRuns(n: nat, states: seq<Cluster>, steps: seq<Step>, k: nat, i: nat, peer: nat)
    requires IsGuardedRun(n, states, steps) && k < |states| && i < |states[k].servers| && peer < |states[k].servers|
    requires states[k].servers[i].role == Leader && states[k].servers[peer].term <= states[k].servers[i].term
    ensures Probing(states[k].servers[i], states[k].servers[peer], peer)
    ensures RejectedRequests(states[k].servers[i], states[k].servers[peer], peer) <= 1 + |Terms(states[k].servers[peer].log)|
  {
    hide LogInv, IsGuardedRun, RejectedRequests, Tidy;
    NextInvAlong(n, states, steps, k);
    InvVotes(states[k]);
    ServersAreTidy(states[k], i);
    ServersAreTidy(states[k], peer);
    NextIndexInLog(n, states, steps, k, i, peer);
    RequestBound(states[k].servers[i], states[k].servers[peer], peer);
  }
}
