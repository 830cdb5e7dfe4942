/** Log matching. Every log in the cluster, in messages and on disk is a chain of prefixes of leaders'
    logs. Holds in every run whose steps meet the leader guards, crashes included. */
module RaftLogs {
  import opened FiniteSets
  import opened RaftModel
  import opened RaftCluster
  import opened RaftVotes

  /** A leader that learns of a larger term steps down: no earlier signal is left in its channel. */
  predicate Demotes(s: Server, term: nat)
  {
    s.role == Leader && term > s.term ==> !s.signal
  }

  /** The leader guards: a server takes office only in the term of its round, a larger term always demotes
      a leader, and rounds of requests are sent only by a leader. */
  predicate Guarded(c: Cluster, step: Step)
    requires Enabled(c, step)
  {
    var s := c.servers[step.i];
    match step
    case TakeOffice(_) => s.term == s.round.args.term
    case SendRound(_) => s.role == Leader
    case OnVoteReq(_, m) => Demotes(s, m.vargs.term)
    case OnAppReq(_, m) => Demotes(s, m.aargs.term)
    case _ => true
  }

  /** Up to the entry at `j`, the log is the log of the leader of that entry's term. */
  ghost predicate AnchoredAt(hist: map<nat, Log>, log: Log, j: nat)
    requires j < |log|
  {
    log[j].term in hist && j < |hist[log[j].term]| && log[..j + 1] == hist[log[j].term][..j + 1]
  }

  ghost predicate Anchored(hist: map<nat, Log>, log: Log)
  {
    log != [] && log[0] == PLACEHOLDER && forall j: nat :: 1 <= j < |log| ==> AnchoredAt(hist, log, j)
  }

  ghost predicate TermsUpTo(log: Log, term: nat)
  {
    forall j :: 0 <= j < |log| ==> log[j].term <= term
  }

  /** The log of term `t`'s leader: what it had when elected, then entries of its own term. */
  ghost predicate HistOk(c: Cluster, t: nat)
    requires t in c.aux.hist
  {
    t >= 1 && t in c.aux.elected &&
    var e, log := c.aux.elected[t], c.aux.hist[t];
    WinOk(c.aux, Win(t, e.leader, e.voters), |c.servers|) && e.leader < |c.servers| && t <= c.servers[e.leader].term &&
    1 <= e.base <= |log| && Anchored(c.aux.hist, log) &&
    (forall j :: 0 <= j < e.base ==> log[j].term < t) && (forall j :: e.base <= j < |log| ==> log[j].term == t)
  }

  ghost predicate ServerOk(aux: Aux, s: Server, i: nat)
  {
    Anchored(aux.hist, s.log) && Anchored(aux.hist, s.saved.log) && TermsUpTo(s.log, s.term) && TermsUpTo(s.saved.log, s.term) &&
    (s.role == Leader ==> s.term in aux.hist && s.term in aux.elected && aux.elected[s.term].leader == i && s.log == aux.hist[s.term]) &&
    (s.role == Leader ==> s.office == s.term || s.office == NONE) &&
    (s.round.open && s.round.args.term in aux.elected ==> aux.elected[s.round.args.term].leader != i)
  }

  /** A request describes the sender's log at send time, which is part of its term's history. */
  ghost predicate RequestOk(aux: Aux, m: Msg)
  {
    (m.AppRep? ==> m.aargs.term in aux.hist && m.aargs.term in aux.elected && m.aargs.leaderId == aux.elected[m.aargs.term].leader) &&
    (m.AppReq? ==>
      var a, t := m.aargs, m.aargs.term;
      t in aux.hist && t in aux.elected && a.leaderId == aux.elected[t].leader && m.dst != a.leaderId &&
      m.full <= aux.hist[t] && |m.full| >= aux.elected[t].base && m.full != [] &&
      a.prevLogIndex < |m.full| && a.prevLogTerm == m.full[a.prevLogIndex].term && a.entries == m.full[a.prevLogIndex + 1..])
  }

  ghost predicate LogInv(c: Cluster)
  {
    Shaped(c) && VoteInv(c) && c.aux.elected.Keys == c.aux.hist.Keys &&
    (forall t :: t in c.aux.hist ==> HistOk(c, t)) &&
    (forall i: nat :: i < |c.servers| ==> ServerOk(c.aux, c.servers[i], i)) &&
    (forall m :: m in c.net ==> RequestOk(c.aux, m))
  }

  // ---------------------------------------------------------------- logs

  lemma AnchoredPrefix(hist: map<nat, Log>, log: Log, k: nat)
    requires Anchored(hist, log) && 1 <= k <= |log|
    ensures Anchored(hist, log[..k])
  {
    forall j: nat | 1 <= j < k
      ensures AnchoredAt(hist, log[..k], j)
    {
      assert AnchoredAt(hist, log, j);
      assert log[..k][..j + 1] == log[..j + 1];
    }
  }

  /** The log matching property: equal terms at an index mean equal logs up to it. */
  lemma LogsMatch(hist: map<nat, Log>, a: Log, b: Log, j: nat)
    requires Anchored(hist, a) && Anchored(hist, b) && j < |a| && j < |b| && a[j].term == b[j].term
    ensures a[..j + 1] == b[..j + 1]
  {
    if j > 0 {
      assert AnchoredAt(hist, a, j) && AnchoredAt(hist, b, j);
    } else {
      assert a[..1] == [PLACEHOLDER] == b[..1];
    }
  }

  /** Although only terms are compared, accepting a request leaves exactly the sender's log. */
  lemma SplicedIsFull(hist: map<nat, Log>, log: Log, full: Log, a: AppendArgs)
    requires Anchored(hist, log) && Anchored(hist, full) && a.prevLogIndex < |full|
    requires a.prevLogTerm == full[a.prevLogIndex].term && a.entries == full[a.prevLogIndex + 1..] && Accepts(log, a)
    ensures Spliced(log, a) == full
    ensures var at := a.prevLogIndex + 1 + MatchLength(log, a.prevLogIndex + 1, a.entries);
            at <= |log| && at <= |full| && log[..at] == full[..at]
  {
    hide *;
    var k := MatchLength(log, a.prevLogIndex + 1, a.entries);
    var at := a.prevLogIndex + 1 + k;
    AgreeAtEnd(log, full, a, k);
    LogsMatch(hist, log, full, at - 1);
    SplicedIs(log, a);
    Rejoin(log, full, a.prevLogIndex, k);
  }

  lemma AgreeAtEnd(log: Log, full: Log, a: AppendArgs, k: nat)
    requires a.prevLogIndex < |full| && a.prevLogTerm == full[a.prevLogIndex].term && a.entries == full[a.prevLogIndex + 1..]
    requires Accepts(log, a) && k == MatchLength(log, a.prevLogIndex + 1, a.entries)
    ensures a.prevLogIndex + k < |log| && a.prevLogIndex + k < |full|
    ensures log[a.prevLogIndex + k].term == full[a.prevLogIndex + k].term
  {
    hide MatchLength;
    if k > 0 {
      assert a.entries[k - 1] == full[a.prevLogIndex + k];
      assert a.entries[k - 1].term == log[a.prevLogIndex + 1 + (k - 1)].term;
    }
  }

  lemma Rejoin(log: Log, full: Log, p: nat, k: nat)
    requires p + k < |full| && p + k < |log| && log[..p + k + 1] == full[..p + k + 1]
    ensures log[..p + 1 + k] + full[p + 1..][k..] == full
  {
    assert full[p + 1..][k..] == full[p + 1 + k..];
  }

  lemma SplicedIs(log: Log, a: AppendArgs)
    requires Accepts(log, a)
    ensures var k := MatchLength(log, a.prevLogIndex + 1, a.entries);
            Spliced(log, a) == log[..a.prevLogIndex + 1 + k] + a.entries[k..]
  {
    hide MatchLength;
  }

  // ---------------------------------------------------------------- growing histories

  ghost predicate HistGrows(aux: Aux, aux': Aux)
  {
    VotesKept(aux, aux') &&
    (forall t :: t in aux.hist ==> t in aux'.hist && aux.hist[t] <= aux'.hist[t]) &&
    (forall t :: t in aux.elected ==> t in aux'.elected && aux'.elected[t] == aux.elected[t])
  }

  lemma AnchoredGrows(aux: Aux, aux': Aux, log: Log)
    requires HistGrows(aux, aux') && Anchored(aux.hist, log)
    ensures Anchored(aux'.hist, log)
  {
    forall j: nat | 1 <= j < |log|
      ensures AnchoredAt(aux'.hist, log, j)
    {
      assert AnchoredAt(aux.hist, log, j);
    }
  }

  lemma WinGrows(aux: Aux, aux': Aux, w: Win, n: nat)
    requires VotesKept(aux, aux') && WinOk(aux, w, n)
    ensures WinOk(aux', w, n)
  {
  }

  /** One server changes, histories grow and requests are added: what is to be shown of the new parts. */
  lemma Update(c: Cluster, c': Cluster, i: nat)
    requires LogInv(c) && VoteInv(c') && i < |c.servers| == |c'.servers|
    requires c'.servers == c.servers[i := c'.servers[i]] && c'.servers[i].term >= c.servers[i].term
    requires HistGrows(c.aux, c'.aux) && c'.aux.elected.Keys == c'.aux.hist.Keys && ServerOk(c'.aux, c'.servers[i], i)
    requires forall t :: t in c'.aux.hist && (t !in c.aux.hist || c'.aux.hist[t] != c.aux.hist[t]) ==>
               t == c.servers[i].term && HistOk(c', t)
    requires forall t :: t in c'.aux.elected && t !in c.aux.elected ==> t == c.servers[i].term && c'.aux.elected[t].leader == i
    requires forall j: nat :: j < |c.servers| && j != i && c.servers[j].role == Leader ==>
               c.servers[j].term in c.aux.hist && c'.aux.hist[c.servers[j].term] == c.aux.hist[c.servers[j].term]
    requires forall m :: m in c'.net && m !in c.net ==> RequestOk(c'.aux, m)
    ensures LogInv(c')
  {
    forall t | t in c'.aux.hist
      ensures HistOk(c', t)
    {
      if t in c.aux.hist && c'.aux.hist[t] == c.aux.hist[t] {
        assert HistOk(c, t);
        AnchoredGrows(c.aux, c'.aux, c.aux.hist[t]);
        WinGrows(c.aux, c'.aux, Win(t, c.aux.elected[t].leader, c.aux.elected[t].voters), |c.servers|);
      }
    }
    forall j: nat | j < |c'.servers|
      ensures ServerOk(c'.aux, c'.servers[j], j)
    {
      if j != i {
        var s := c.servers[j];
        assert ServerOk(c.aux, s, j);
        AnchoredGrows(c.aux, c'.aux, s.log);
        AnchoredGrows(c.aux, c'.aux, s.saved.log);
      }
    }
    forall m | m in c'.net
      ensures RequestOk(c'.aux, m)
    {
      if m in c.net { assert RequestOk(c.aux, m); }
    }
  }

  /** The same for a step that leaves the histories alone. */
  lemma UpdateSame(c: Cluster, c': Cluster, i: nat)
    requires LogInv(c) && VoteInv(c') && i < |c.servers| == |c'.servers|
    requires c'.servers == c.servers[i := c'.servers[i]] && c'.servers[i].term >= c.servers[i].term
    requires c'.aux.hist == c.aux.hist && c'.aux.elected == c.aux.elected && VotesKept(c.aux, c'.aux)
    requires ServerOk(c.aux, c'.servers[i], i) && forall m :: m in c'.net && m !in c.net ==> RequestOk(c.aux, m)
    ensures LogInv(c')
  {
    hide VoteInv, HistOk, Anchored, TermsUpTo, VotesKept;
    LeaderTerms(c);
    forall m | m in c'.net && m !in c.net
      ensures RequestOk(c'.aux, m)
    {
      assert RequestOk(c.aux, m);
    }
    Update(c, c', i);
  }

  // ---------------------------------------------------------------- steps

  lemma ElectKeeps(c: Cluster, i: nat)
    requires LogInv(c) && Enabled(c, Elect(i))
    ensures LogInv(DoElect(c, i))
  {
    hide VoteInv, HistOk;
    NextShaped(c, Elect(i));
    VoteInvNext(c, Elect(i));
    RoundIsNew(c, i);
    assert ServerOk(c.aux, c.servers[i], i);
    Update(c, DoElect(c, i), i);
  }

  /** A server has not been elected in a term it has not reached. */
  lemma RoundIsNew(c: Cluster, i: nat)
    requires LogInv(c) && i < |c.servers|
    ensures forall t :: t in c.aux.elected && t in c.aux.hist && c.aux.elected[t].leader == i ==> t <= c.servers[i].term
  {
    forall t | t in c.aux.elected && t in c.aux.hist && c.aux.elected[t].leader == i
      ensures t <= c.servers[i].term
    {
      assert HistOk(c, t);
    }
  }

  lemma VoteReqKeeps(c: Cluster, i: nat, m: Msg)
    requires LogInv(c) && Enabled(c, OnVoteReq(i, m)) && Guarded(c, OnVoteReq(i, m))
    ensures LogInv(DoVoteReq(c, i, m))
  {
    hide VoteInv, HandleVote, ServerOk, RequestOk, HistOk;
    NextShaped(c, OnVoteReq(i, m));
    VoteInvNext(c, OnVoteReq(i, m));
    KeptNext(c, OnVoteReq(i, m));
    VoterStays(c, i, m);
    BallotIsNoRequest(c.aux, i, m.vargs, HandleVote(c.servers[i], m.vargs).1);
    UpdateSame(c, DoVoteReq(c, i, m), i);
  }

  lemma BallotIsNoRequest(aux: Aux, voter: nat, a: VoteArgs, r: VoteReply)
    ensures RequestOk(aux, VoteRep(voter, a, r))
  {
  }

  lemma VoterStays(c: Cluster, i: nat, m: Msg)
    requires LogInv(c) && Enabled(c, OnVoteReq(i, m)) && Guarded(c, OnVoteReq(i, m))
    ensures var s' := HandleVote(c.servers[i], m.vargs).0; ServerOk(c.aux, s', i) && s'.term >= c.servers[i].term
  {
    hide VoteInv, HistOk, LogNewer, Anchored;
    assert ServerOk(c.aux, c.servers[i], i);
  }

  lemma VoteRepKeeps(c: Cluster, i: nat, m: Msg)
    requires LogInv(c) && Enabled(c, OnVoteRep(i, m))
    ensures LogInv(DoVoteRep(c, i, m))
  {
    hide VoteInv, HistOk;
    NextShaped(c, OnVoteRep(i, m));
    VoteInvNext(c, OnVoteRep(i, m));
    assert ServerOk(c.aux, c.servers[i], i);
    UpdateSame(c, DoVoteRep(c, i, m), i);
  }

  /** A guarded promotion is the first of its term. */
  lemma TermIsFree(c: Cluster, i: nat)
    requires LogInv(c) && Enabled(c, TakeOffice(i)) && Guarded(c, TakeOffice(i))
    ensures c.servers[i].term !in c.aux.hist && c.servers[i].term >= 1
    ensures WinOk(c.aux, Win(c.servers[i].term, i, c.servers[i].round.granted), |c.servers|)
  {
    hide Anchored, TermsUpTo;
    var s, t := c.servers[i], c.servers[i].term;
    assert VoterOk(c.aux, s, i, |c.servers|) && ServerOk(c.aux, s, i);
    var v0 :| v0 in s.round.granted;
    assert VotedFor(c.aux, v0, t, i);
    if t in c.aux.hist {
      assert HistOk(c, t);
      var e := c.aux.elected[t];
      var v := Meet(|c.servers|, e.voters, s.round.granted);
      assert false;
    }
  }

  lemma EntriesAreOlder(aux: Aux, s: Server)
    requires Anchored(aux.hist, s.log) && TermsUpTo(s.log, s.term) && s.term !in aux.hist && s.term >= 1
    ensures forall j :: 0 <= j < |s.log| ==> s.log[j].term < s.term
  {
    forall j | 0 <= j < |s.log|
      ensures s.log[j].term < s.term
    {
      if j > 0 { assert AnchoredAt(aux.hist, s.log, j); }
    }
  }

  lemma OfficeOk(c: Cluster, i: nat)
    requires LogInv(c) && Enabled(c, TakeOffice(i)) && Guarded(c, TakeOffice(i)) && HistGrows(c.aux, DoTakeOffice(c, i).aux)
    requires c.servers[i].term !in c.aux.hist && c.servers[i].term >= 1
    requires WinOk(c.aux, Win(c.servers[i].term, i, c.servers[i].round.granted), |c.servers|)
    ensures var c', t := DoTakeOffice(c, i), c.servers[i].term; t in c'.aux.hist && HistOk(c', t) && ServerOk(c'.aux, c'.servers[i], i)
  {
    hide VoteInv, Anchored, WinOk, HistGrows;
    var s, c' := c.servers[i], DoTakeOffice(c, i);
    assert ServerOk(c.aux, s, i);
    EntriesAreOlder(c.aux, s);
    AnchoredGrows(c.aux, c'.aux, s.log);
    AnchoredGrows(c.aux, c'.aux, s.saved.log);
    WinGrows(c.aux, c'.aux, Win(s.term, i, s.round.granted), |c.servers|);
  }

  lemma TakeOfficeKeeps(c: Cluster, i: nat)
    requires LogInv(c) && Enabled(c, TakeOffice(i)) && Guarded(c, TakeOffice(i))
    ensures LogInv(DoTakeOffice(c, i))
  {
    hide VoteInv, WinOk, ServerOk, HistOk, RequestOk;
    var c' := DoTakeOffice(c, i);
    NextShaped(c, TakeOffice(i));
    VoteInvNext(c, TakeOffice(i));
    TermIsFree(c, i);
    assert HistGrows(c.aux, c'.aux);
    OfficeOk(c, i);
    LeaderTerms(c);
    Update(c, c', i);
  }

  lemma LeaderTerms(c: Cluster)
    requires LogInv(c)
    ensures forall j: nat :: j < |c.servers| && c.servers[j].role == Leader ==> c.servers[j].term in c.aux.hist
  {
    hide VoteInv, Anchored, HistOk, RequestOk;
    forall j: nat | j < |c.servers| && c.servers[j].role == Leader
      ensures c.servers[j].term in c.aux.hist
    {
      assert ServerOk(c.aux, c.servers[j], j);
    }
  }

  lemma SendKeeps(c: Cluster, i: nat)
    requires LogInv(c) && Enabled(c, SendRound(i)) && Guarded(c, SendRound(i))
    ensures LogInv(DoSend(c, i))
  {
    hide VoteInv, Anchored, WinOk, TermsUpTo;
    NextShaped(c, SendRound(i));
    VoteInvNext(c, SendRound(i));
    assert ServerOk(c.aux, c.servers[i], i) && HistOk(c, c.servers[i].term);
    UpdateSame(c, DoSend(c, i), i);
  }

  lemma RoutineKeeps(c: Cluster, step: Step)
    requires LogInv(c) && Enabled(c, step) && (step.Leave? || step.Reenter?)
    ensures LogInv(Next(c, step))
  {
    hide VoteInv, HistOk, Anchored, TermsUpTo;
    NextShaped(c, step);
    VoteInvNext(c, step);
    assert ServerOk(c.aux, c.servers[step.i], step.i);
    UpdateSame(c, Next(c, step), step.i);
  }

  lemma StartOk(c: Cluster, i: nat, command: Content)
    requires LogInv(c) && Enabled(c, ClientStart(i, command)) && c.servers[i].role == Leader && HistGrows(c.aux, DoStart(c, i, command).aux)
    ensures var c', t := DoStart(c, i, command), c.servers[i].term;
            t in c'.aux.hist && HistOk(c', t) && ServerOk(c'.aux, c'.servers[i], i)
  {
    hide VoteInv, Anchored, WinOk, HistGrows;
    var s, c' := c.servers[i], DoStart(c, i, command);
    assert ServerOk(c.aux, s, i) && HistOk(c, s.term);
    AnchoredAppend(c.aux, c'.aux, s.log, s.term, command);
    WinGrows(c.aux, c'.aux, Win(s.term, i, c.aux.elected[s.term].voters), |c.servers|);
  }

  lemma StartKeeps(c: Cluster, i: nat, command: Content)
    requires LogInv(c) && Enabled(c, ClientStart(i, command))
    ensures LogInv(DoStart(c, i, command))
  {
    hide VoteInv, Anchored, WinOk;
    var s, c' := c.servers[i], DoStart(c, i, command);
    NextShaped(c, ClientStart(i, command));
    VoteInvNext(c, ClientStart(i, command));
    assert ServerOk(c.aux, s, i);
    if s.role == Leader {
      assert HistGrows(c.aux, c'.aux);
      StartOk(c, i, command);
      forall j: nat | j < |c.servers| && j != i && c.servers[j].role == Leader
        ensures c.servers[j].term in c.aux.hist && c.servers[j].term != s.term
      {
        assert ServerOk(c.aux, c.servers[j], j);
      }
    }
    Update(c, c', i);
  }

  lemma AnchoredAppend(aux: Aux, aux': Aux, log: Log, term: nat, command: Content)
    requires HistGrows(aux, aux') && Anchored(aux.hist, log)
    requires term in aux'.hist && aux'.hist[term] == log + [LogEntry(command, term)]
    ensures Anchored(aux'.hist, log + [LogEntry(command, term)])
  {
    var log' := log + [LogEntry(command, term)];
    AnchoredGrows(aux, aux', log);
    forall j: nat | 1 <= j < |log'|
      ensures AnchoredAt(aux'.hist, log', j)
    {
      if j < |log| {
        assert AnchoredAt(aux'.hist, log, j);
        assert log'[..j + 1] == log[..j + 1];
      }
    }
  }

  lemma CrashKeeps(c: Cluster, i: nat)
    requires LogInv(c) && Enabled(c, Crash(i))
    ensures LogInv(DoCrash(c, i))
  {
    hide Anchored, HistOk;
    NextShaped(c, Crash(i));
    VoteInvNext(c, Crash(i));
    assert ServerOk(c.aux, c.servers[i], i) && VoterOk(c.aux, c.servers[i], i, |c.servers|);
    UpdateSame(c, DoCrash(c, i), i);
  }

  lemma AppRepKeeps(c: Cluster, i: nat, m: Msg)
    requires LogInv(c) && Enabled(c, OnAppRep(i, m))
    ensures LogInv(DoAppRep(c, i, m))
  {
    hide VoteInv, Anchored, HistOk, CommitPoint, NewlyApplied;
    NextShaped(c, OnAppRep(i, m));
    VoteInvNext(c, OnAppRep(i, m));
    assert ServerOk(c.aux, c.servers[i], i);
    UpdateSame(c, DoAppRep(c, i, m), i);
  }

  /** A leader handles replies of its own term only: earlier ones belong to routines it has left. */
  lemma LeaderReply(c: Cluster, i: nat, m: Msg)
    requires m.AppRep? && i < |c.servers| && c.servers[i].role == Leader && Enabled(c, OnAppRep(i, m)) && LogInv(c)
    ensures m.aargs.term == c.servers[i].term
  {
    hide VoteInv, Anchored, WinOk;
    assert RequestOk(c.aux, m) && ServerOk(c.aux, c.servers[i], i) && HistOk(c, m.aargs.term);
  }

  lemma RequestFull(c: Cluster, m: Msg)
    requires LogInv(c) && m in c.net && m.AppReq?
    ensures m.full != [] && Anchored(c.aux.hist, m.full) && TermsUpTo(m.full, m.aargs.term)
  {
    hide VoteInv, WinOk, Anchored;
    var t := m.aargs.term;
    assert RequestOk(c.aux, m) && HistOk(c, t);
    assert m.full == c.aux.hist[t][..|m.full|];
    AnchoredPrefix(c.aux.hist, c.aux.hist[t], |m.full|);
  }

  lemma AcceptEffect(hist: map<nat, Log>, s: Server, full: Log, a: AppendArgs)
    requires Anchored(hist, s.log) && Anchored(hist, full) && TermsUpTo(full, a.term) && s.term == a.term && a.prevLogIndex < |full|
    requires a.prevLogTerm == full[a.prevLogIndex].term && a.entries == full[a.prevLogIndex + 1..] && Accepts(s.log, a)
    ensures var s' := FollowCommit(Splice(s, a), a.leaderCommit);
            s'.log == full && s'.term == a.term && Anchored(hist, s'.saved.log) && TermsUpTo(s'.saved.log, s'.term)
  {
    hide MatchLength, Anchored, TermsUpTo, Spliced, Accepts;
    SplicedIsFull(hist, s.log, full, a);
    var at := a.prevLogIndex + 1 + MatchLength(s.log, a.prevLogIndex + 1, a.entries);
    AnchoredPrefix(hist, full, at);
    TermsPrefix(full, at, a.term);
  }

  lemma TermsPrefix(log: Log, k: nat, term: nat)
    requires TermsUpTo(log, term) && k <= |log|
    ensures TermsUpTo(log[..k], term)
  {
  }

  /** What a request does to the follower's log. */
  lemma RequestEffect(c: Cluster, i: nat, m: Msg)
    requires LogInv(c) && Enabled(c, OnAppReq(i, m)) && Guarded(c, OnAppReq(i, m))
    ensures Anchored(c.aux.hist, m.full) && m.full != [] && TermsUpTo(m.full, m.aargs.term)
    ensures var s, (s', r) := c.servers[i], HandleAppend(c.servers[i], m.aargs);
            (r.success ==> s'.log == m.full && s'.term == m.aargs.term && Anchored(c.aux.hist, s'.saved.log) &&
                           TermsUpTo(s'.saved.log, s'.term)) &&
            (!r.success ==> s' == UpdateTerm(s, m.aargs.term))
    ensures c.servers[i].role == Leader ==> c.servers[i].term != m.aargs.term
  {
    hide VoteInv, MatchLength, NextHint, Anchored, TermsUpTo, HistOk, Splice, FollowCommit;
    var s, a := c.servers[i], m.aargs;
    assert RequestOk(c.aux, m) && ServerOk(c.aux, s, i);
    RequestFull(c, m);
    var s1 := UpdateTerm(s, a.term);
    if s1.term <= a.term && Accepts(s1.log, a) {
      AcceptEffect(c.aux.hist, s1, m.full, a);
    }
  }

  lemma AppReqKeeps(c: Cluster, i: nat, m: Msg)
    requires LogInv(c) && Enabled(c, OnAppReq(i, m)) && Guarded(c, OnAppReq(i, m))
    ensures LogInv(DoAppReq(c, i, m))
  {
    hide VoteInv, Anchored, HistOk, TermsUpTo, HandleAppend, NewlyApplied;
    var s, s' := c.servers[i], HandleAppend(c.servers[i], m.aargs).0;
    NextShaped(c, OnAppReq(i, m));
    VoteInvNext(c, OnAppReq(i, m));
    assert ServerOk(c.aux, s, i);
    RequestEffect(c, i, m);
    FollowerAfter(c, i, m);
    UpdateSame(c, DoAppReq(c, i, m), i);
  }

  lemma FollowerAfter(c: Cluster, i: nat, m: Msg)
    requires LogInv(c) && Enabled(c, OnAppReq(i, m)) && Guarded(c, OnAppReq(i, m))
    ensures var s, s' := c.servers[i], HandleAppend(c.servers[i], m.aargs).0;
            ServerOk(c.aux, s', i) && s'.term >= s.term
  {
    hide VoteInv, Anchored, TermsUpTo, HandleAppend;
    var s, s' := c.servers[i], HandleAppend(c.servers[i], m.aargs).0;
    assert ServerOk(c.aux, s, i);
    RequestEffect(c, i, m);
    AppendRole(s, m.aargs);
    TermsRaised(s.log, s.term, s'.term);
    TermsRaised(s.saved.log, s.term, s'.term);
  }

  lemma AppendRole(s: Server, a: AppendArgs)
    ensures var s1, s' := UpdateTerm(s, a.term), HandleAppend(s, a).0;
            s'.term == s1.term && s'.role == s1.role && s'.round == s1.round
  {
    hide Spliced, MatchLength, NextHint;
  }

  lemma TermsRaised(log: Log, term: nat, term': nat)
    ensures TermsUpTo(log, term) && term <= term' ==> TermsUpTo(log, term')
  {
  }

  lemma LogInvInit(n: nat)
    ensures LogInv(Init(n))
  {
    VoteInvInit(n);
    InitShaped(n);
    forall i: nat | i < n
      ensures ServerOk(Init(n).aux, Init(n).servers[i], i)
    {
    }
  }

  /** Every guarded step, crashes included, keeps log matching. */
  lemma LogInvNext(c: Cluster, step: Step)
    requires LogInv(c) && Enabled(c, step) && Guarded(c, step)
    ensures LogInv(Next(c, step))
  {
    hide LogInv;
    match step
    case Elect(i) => ElectKeeps(c, i);
    case OnVoteReq(i, m) => VoteReqKeeps(c, i, m);
    case OnVoteRep(i, m) => VoteRepKeeps(c, i, m);
    case TakeOffice(i) => TakeOfficeKeeps(c, i);
    case SendRound(i) => SendKeeps(c, i);
    case OnAppReq(i, m) => AppReqKeeps(c, i, m);
    case OnAppRep(i, m) => AppRepKeeps(c, i, m);
    case ClientStart(i, command) => StartKeeps(c, i, command);
    case Crash(i) => CrashKeeps(c, i);
    case _ => RoutineKeeps(c, step);
  }

  // ---------------------------------------------------------------- runs

  ghost predicate IsGuardedRun(n: nat, states: seq<Cluster>, steps: seq<Step>)
  {
    IsRun(n, states, steps) && forall k :: 0 <= k < |steps| ==> Guarded(states[k], steps[k])
  }

  lemma {:induction false} LogInvAlong(n: nat, states: seq<Cluster>, steps: seq<Step>, k: nat)
    requires IsGuardedRun(n, states, steps) && k < |states|
    ensures LogInv(states[k])
  {
    hide LogInv, Next, Init, Enabled, Guarded;
    if k == 0 {
      LogInvInit(n);
    } else {
      LogInvAlong(n, states, steps, k - 1);
      assert Guarded(states[k - 1], steps[k - 1]);
      LogInvNext(states[k - 1], steps[k - 1]);
    }
  }

  /** The logs in a cluster: the servers', the persisted ones and those that requests were made from. */
  ghost predicate IsLogOf(c: Cluster, log: Log)
  {
    (exists i: nat :: i < |c.servers| && (log == c.servers[i].log || log == c.servers[i].saved.log)) ||
    (exists m :: m in c.net && m.AppReq? && log == m.full)
  }

  lemma LogIsAnchored(c: Cluster, log: Log)
    requires LogInv(c) && IsLogOf(c, log)
    ensures Anchored(c.aux.hist, log)
  {
    hide VoteInv, HistOk, Anchored;
    if i: nat :| i < |c.servers| && (log == c.servers[i].log || log == c.servers[i].saved.log) {
      assert ServerOk(c.aux, c.servers[i], i);
    } else {
      var m :| m in c.net && m.AppReq? && log == m.full;
      RequestFull(c, m);
    }
  }

  /** Log matching over every guarded run, crashes included: two logs with equal terms at an index are
      equal up to it. */
  lemma LogMatching(n: nat, states: seq<Cluster>, steps: seq<Step>, k: nat, a: Log, b: Log, j: nat)
    requires IsGuardedRun(n, states, steps) && k < |states| && IsLogOf(states[k], a) && IsLogOf(states[k], b)
    requires j < |a| && j < |b| && a[j].term == b[j].term
    ensures a[..j + 1] == b[..j + 1]
  {
    hide LogInv, IsGuardedRun, IsLogOf, Anchored;
    LogInvAlong(n, states, steps, k);
    LogIsAnchored(states[k], a);
    LogIsAnchored(states[k], b);
    LogsMatch(states[k].aux.hist, a, b, j);
  }

  /** A request that succeeds leaves the follower with exactly the log the sender had when it sent. */
  lemma SuccessCopiesLog(n: nat, states: seq<Cluster>, steps: seq<Step>, k: nat)
    requires IsGuardedRun(n, states, steps) && k < |steps| && steps[k].OnAppReq?
    requires HandleAppend(states[k].servers[steps[k].i], steps[k].m.aargs).1.success
    ensures states[k + 1].servers[steps[k].i].log == steps[k].m.full
  {
    hide LogInv, HandleAppend;
    LogInvAlong(n, states, steps, k);
    assert Guarded(states[k], steps[k]);
    RequestEffect(states[k], steps[k].i, steps[k].m);
  }

  /** At most one leader per term, in every guarded run. */
  lemma OneLeaderPerTerm(n: nat, states: seq<Cluster>, steps: seq<Step>, k: nat, i: nat, j: nat)
    requires IsGuardedRun(n, states, steps) && k < |states| && i < |states[k].servers| && j < |states[k].servers|
    requires states[k].servers[i].role == Leader && states[k].servers[j].role == Leader
    requires states[k].servers[i].term == states[k].servers[j].term
    ensures i == j
  {
    LogInvAlong(n, states, steps, k);
    var c := states[k];
    assert ServerOk(c.aux, c.servers[i], i) && ServerOk(c.aux, c.servers[j], j);
  }
}
