/** Committed entries are not lost: the invariant behind state machine safety and what each kind of step
    does to it. */
module RaftCommit {
  import opened FiniteSets
  import opened RaftModel
  import opened RaftCluster
  import opened RaftVotes
  import opened RaftLogs
  import opened RaftQuorum

  /** A server that has lost its office commits nothing when it handles a reply. */
  predicate Counted(c: Cluster, step: Step)
    requires Shaped(c) && Enabled(c, step)
  {
    step.OnAppRep? && c.servers[step.i].role != Leader ==>
      var s, m := c.servers[step.i], step.m;
      var s' := CountAppend(s, m.from, m.aargs, m.areply);
      s'.commitIndex == s.commitIndex && s'.lastApplied == s.lastApplied
  }

  function Acc(c: Cluster, q: nat, t: nat): nat
  {
    AcceptedLength(c.aux, q, t)
  }

  /** `log` contains the first `j + 1` entries of `h`. */
  ghost predicate Has(log: Log, h: Log, j: nat)
  {
    j < |log| && j < |h| && log[..j + 1] == h[..j + 1]
  }

  /** The entry at `j` was appended by the leader of term `t` itself. */
  ghost predicate Own(c: Cluster, t: nat, j: nat)
  {
    t in c.aux.hist && j < |c.aux.hist[t]| && c.aux.hist[t][j].term == t
  }

  ghost predicate Quorum(n: nat, qs: set<nat>)
  {
    (forall q :: q in qs ==> q < n) && |qs| >= n - n / 2
  }

  /** Enough servers have accepted, or could still accept, the leader's log up to `j` in term `t`. */
  ghost predicate MayStore(c: Cluster, t: nat, j: nat, qs: set<nat>)
  {
    Quorum(|c.servers|, qs) && forall q :: q in qs ==> Acc(c, q, t) > j || c.servers[q].term <= t
  }

  ghost predicate Choosable(c: Cluster, t: nat, j: nat)
  {
    exists qs :: MayStore(c, t, j, qs)
  }

  ghost predicate Store(c: Cluster, t: nat, j: nat, qs: set<nat>)
  {
    Quorum(|c.servers|, qs) && forall q :: q in qs ==> Acc(c, q, t) > j
  }

  /** An entry of the leader's own term that a quorum has accepted. */
  ghost predicate Chosen(c: Cluster, t: nat, j: nat)
  {
    Own(c, t, j) && exists qs :: Store(c, t, j, qs)
  }

  lemma ChosenChoosable(c: Cluster, t: nat, j: nat)
    requires Chosen(c, t, j)
    ensures Own(c, t, j) && Choosable(c, t, j)
  {
    var qs :| Store(c, t, j, qs);
    assert MayStore(c, t, j, qs);
  }

  // ---------------------------------------------------------------- the invariant

  ghost predicate AcceptedOk(c: Cluster, p: Pair)
    requires p in c.aux.accepted
  {
    p.server < |c.servers| && p.term in c.aux.hist && c.aux.accepted[p] <= |c.aux.hist[p.term]| && p.term <= c.servers[p.server].term
  }

  /** A choosable entry that a server has accepted is in that server's log. */
  ghost predicate Keeps(c: Cluster, p: nat, t: nat, j: nat)
    requires p < |c.servers|
  {
    j < Acc(c, p, t) && Own(c, t, j) && Choosable(c, t, j) ==> Has(c.servers[p].log, c.aux.hist[t], j)
  }

  /** A choosable entry is in the log of every later leader. */
  ghost predicate Passes(c: Cluster, t: nat, u: nat, j: nat)
  {
    t < u && u in c.aux.hist && Own(c, t, j) && Choosable(c, t, j) ==> Has(c.aux.hist[u], c.aux.hist[t], j)
  }

  predicate UpToDate(cand: Log, voter: Log)
    requires cand != [] && voter != []
  {
    LastTerm(cand) > LastTerm(voter) || (LastTerm(cand) == LastTerm(voter) && |cand| >= |voter|)
  }

  ghost predicate TermsBelow(log: Log, term: nat)
  {
    forall j :: 0 <= j < |log| ==> log[j].term < term
  }

  ghost predicate VoteKeeps(c: Cluster, p: Pair, t: nat, j: nat)
    requires p in c.aux.votes
  {
    t < p.term && j < Acc(c, p.server, t) && Own(c, t, j) && Choosable(c, t, j) ==>
      Has(c.aux.votes[p].voterLog, c.aux.hist[t], j)
  }

  /** The candidate's request as recorded with its own vote. */
  ghost predicate RequestedWith(aux: Aux, candidate: nat, term: nat, log: Log)
  {
    Pair(candidate, term) in aux.votes && aux.votes[Pair(candidate, term)].candidate == candidate &&
    aux.votes[Pair(candidate, term)].candLog == log
  }

  /** What is known of a vote: the logs compared, and that the voter's log held what it had accepted. */
  ghost predicate VoteOk(c: Cluster, p: Pair)
    requires p in c.aux.votes
  {
    var v := c.aux.votes[p];
    Anchored(c.aux.hist, v.voterLog) && Anchored(c.aux.hist, v.candLog) && UpToDate(v.candLog, v.voterLog) &&
    TermsBelow(v.candLog, p.term) && RequestedWith(c.aux, v.candidate, p.term, v.candLog)
  }

  /** `t`, `k` show that the log is committed up to `index`. */
  ghost predicate Backs(c: Cluster, log: Log, index: int, t: nat, k: nat)
  {
    Chosen(c, t, k) && 0 <= index <= k && Has(log, c.aux.hist[t], index)
  }

  ghost predicate Backed(c: Cluster, log: Log, index: int, term: nat)
  {
    index <= 0 || exists t: nat, k: nat :: Backs(c, log, index, t, k) && t <= term
  }

  ghost predicate ServerBacked(c: Cluster, i: nat)
    requires i < |c.servers|
  {
    var s := c.servers[i];
    0 <= s.lastApplied &&
    (s.commitIndex <= 0 ||
     exists t: nat, k: nat :: Backs(c, s.log, s.commitIndex, t, k) && t <= s.term && (t == s.term ==> Acc(c, i, t) > s.commitIndex))
  }

  ghost predicate LeaderOk(c: Cluster, i: nat)
    requires i < |c.servers|
  {
    var s := c.servers[i];
    s.role == Leader ==>
      Acc(c, i, s.term) == |s.log| && |s.matchIndex| == |c.servers| &&
      s.matchIndex[i] == |s.log| - 1 &&
      forall q :: 0 <= q < |s.matchIndex| ==> s.matchIndex[q] == 0 || 0 <= s.matchIndex[q] < Acc(c, q, s.term)
  }

  /** A candidate's log is still the one its round was opened with, as long as the term has no leader. */
  ghost predicate CandidateOk(c: Cluster, i: nat)
    requires i < |c.servers|
  {
    var s := c.servers[i];
    s.round.open && s.term == s.round.args.term && s.term !in c.aux.hist ==>
      RequestedWith(c.aux, i, s.term, s.log)
  }

  ghost predicate MsgOk(c: Cluster, m: Msg)
  {
    match m
    case VoteReq(a, log) =>
      log != [] && RequestedWith(c.aux, a.candidateId, a.term, log) && a.lastLogIndex == |log| - 1 && a.lastLogTerm == LastTerm(log) &&
      Anchored(c.aux.hist, log) && TermsBelow(log, a.term)
    case VoteRep(_, _, _) => true
    case AppReq(_, _, a, full) => a.leaderCommit < |full| && Backed(c, full, a.leaderCommit, a.term)
    case AppRep(from, _, a, r) => from != a.leaderId && (r.success ==> Acc(c, from, a.term) >= a.prevLogIndex + 1 + |a.entries|)
  }

  ghost predicate ApplicationOk(c: Cluster, a: Application)
  {
    exists t: nat, k: nat :: Chosen(c, t, k) && 0 <= a.index <= k && c.aux.hist[t][a.index].content == a.content
  }

  ghost predicate AcceptsOk(c: Cluster)
  {
    forall p :: p in c.aux.accepted ==> AcceptedOk(c, p)
  }

  ghost predicate AllKeep(c: Cluster)
  {
    forall p: nat, t: nat, j: nat :: p < |c.servers| ==> Keeps(c, p, t, j)
  }

  ghost predicate AllPass(c: Cluster)
  {
    forall t: nat, u: nat, j: nat :: Passes(c, t, u, j)
  }

  ghost predicate VotesOk(c: Cluster)
  {
    (forall p :: p in c.aux.votes ==> VoteOk(c, p)) &&
    (forall p, t: nat, j: nat :: p in c.aux.votes ==> VoteKeeps(c, p, t, j))
  }

  ghost predicate ServersOk(c: Cluster)
  {
    forall i: nat :: i < |c.servers| ==> ServerBacked(c, i) && LeaderOk(c, i) && CandidateOk(c, i)
  }

  ghost predicate MsgsOk(c: Cluster)
  {
    forall m :: m in c.net ==> MsgOk(c, m)
  }

  ghost predicate ApplicationsOk(c: Cluster)
  {
    forall a :: a in c.aux.applied ==> ApplicationOk(c, a)
  }

  ghost predicate CommitInv(c: Cluster)
  {
    LogInv(c) && AcceptsOk(c) && AllKeep(c) && AllPass(c) && VotesOk(c) && ServersOk(c) && MsgsOk(c) && ApplicationsOk(c)
  }

  /** Two chosen entries are on one line of history. */
  lemma ChosenAgree(c: Cluster, t: nat, k: nat, u: nat, l: nat, j: nat)
    requires CommitInv(c) && Chosen(c, t, k) && Chosen(c, u, l) && j <= k && j <= l && t <= u
    ensures c.aux.hist[t][j] == c.aux.hist[u][j]
  {
    hide LogInv, AllKeep, VotesOk, ServersOk, Choosable;
    if t < u {
      ChosenChoosable(c, t, k);
      assert Passes(c, t, u, k);
      assert c.aux.hist[u][..k + 1][j] == c.aux.hist[t][..k + 1][j];
    }
  }

  lemma AppliedAgree(c: Cluster, a: Application, b: Application)
    requires CommitInv(c) && a in c.aux.applied && b in c.aux.applied && a.index == b.index
    ensures a.content == b.content
  {
    hide LogInv, AllKeep, AllPass, VotesOk, ServersOk;
    assert ApplicationOk(c, a) && ApplicationOk(c, b);
    var t: nat, k: nat :| Chosen(c, t, k) && 0 <= a.index <= k && c.aux.hist[t][a.index].content == a.content;
    var u: nat, l: nat :| Chosen(c, u, l) && 0 <= b.index <= l && c.aux.hist[u][b.index].content == b.content;
    if t <= u {
      ChosenAgree(c, t, k, u, l, a.index);
    } else {
      ChosenAgree(c, u, l, t, k, a.index);
    }
  }

  // ---------------------------------------------------------------- what never goes back

  /** Terms, histories and accepted lengths only grow, and a server accepts more of a term's log only
      while it has not passed that term. */
  ghost predicate Evolves(c: Cluster, c': Cluster)
  {
    |c'.servers| == |c.servers| && HistGrows(c.aux, c'.aux) &&
    (forall q: nat :: q < |c.servers| ==> c.servers[q].term <= c'.servers[q].term) &&
    (forall q: nat, t: nat :: Acc(c, q, t) <= Acc(c', q, t)) &&
    (forall q: nat, t: nat :: q < |c.servers| && Acc(c, q, t) < Acc(c', q, t) ==> c.servers[q].term <= t)
  }

  lemma ChoosableBack(c: Cluster, c': Cluster, t: nat, j: nat)
    requires Evolves(c, c') && Choosable(c', t, j)
    ensures Choosable(c, t, j)
  {
    var qs :| MayStore(c', t, j, qs);
    forall q | q in qs
      ensures Acc(c, q, t) > j || c.servers[q].term <= t
    {
      assert Acc(c', q, t) > j || c'.servers[q].term <= t;
    }
    assert MayStore(c, t, j, qs);
  }

  lemma OwnForward(c: Cluster, c': Cluster, t: nat, j: nat)
    requires Evolves(c, c') && Own(c, t, j)
    ensures Own(c', t, j) && c'.aux.hist[t][..j + 1] == c.aux.hist[t][..j + 1]
  {
  }

  lemma ChosenForward(c: Cluster, c': Cluster, t: nat, k: nat)
    requires Evolves(c, c') && Chosen(c, t, k)
    ensures Chosen(c', t, k)
  {
    OwnForward(c, c', t, k);
    var qs :| Store(c, t, k, qs);
    assert Store(c', t, k, qs);
  }

  lemma BacksForward(c: Cluster, c': Cluster, log: Log, index: int, t: nat, k: nat)
    requires Evolves(c, c') && Backs(c, log, index, t, k)
    ensures Backs(c', log, index, t, k)
  {
    ChosenForward(c, c', t, k);
    assert c'.aux.hist[t][..index + 1] == c.aux.hist[t][..index + 1];
  }

  lemma BackedForward(c: Cluster, c': Cluster, log: Log, index: int, term: nat)
    requires Evolves(c, c') && Backed(c, log, index, term)
    ensures Backed(c', log, index, term)
  {
    if index > 0 {
      var t: nat, k: nat :| Backs(c, log, index, t, k) && t <= term;
      BacksForward(c, c', log, index, t, k);
    }
  }

  // ---------------------------------------------------------------- frames

  /** One server's step: the others keep their state and what they have accepted. */
  ghost predicate StepOf(c: Cluster, c': Cluster, i: nat)
  {
    Evolves(c, c') && i < |c.servers| && c'.servers == c.servers[i := c'.servers[i]] &&
    (forall q: nat, t: nat :: q != i ==> Acc(c', q, t) == Acc(c, q, t)) &&
    c.net <= c'.net && c.aux.applied <= c'.aux.applied
  }

  lemma AcceptedInHistory(c: Cluster, p: nat, t: nat)
    requires AcceptsOk(c) && Acc(c, p, t) > 0
    ensures p < |c.servers| && t in c.aux.hist && Acc(c, p, t) <= |c.aux.hist[t]| && t <= c.servers[p].term
  {
    assert AcceptedOk(c, Pair(p, t));
  }

  lemma KeepsFrame(c: Cluster, c': Cluster, p: nat, t: nat, j: nat)
    requires AcceptsOk(c) && Evolves(c, c') && p < |c.servers| && Keeps(c, p, t, j)
    requires Acc(c', p, t) == Acc(c, p, t) && c'.servers[p].log == c.servers[p].log
    ensures Keeps(c', p, t, j)
  {
    hide Choosable, AcceptsOk;
    if j < Acc(c', p, t) && Own(c', t, j) && Choosable(c', t, j) {
      AcceptedInHistory(c, p, t);
      ChoosableBack(c, c', t, j);
      OwnForward(c, c', t, j);
    }
  }

  lemma AllKeepFrame(c: Cluster, c': Cluster, i: nat)
    requires AcceptsOk(c) && AllKeep(c) && StepOf(c, c', i)
    requires forall t: nat, j: nat :: Keeps(c', i, t, j)
    ensures AllKeep(c')
  {
    hide Keeps, AcceptsOk;
    forall p: nat, t: nat, j: nat | p < |c'.servers|
      ensures Keeps(c', p, t, j)
    {
      if p != i {
        assert Keeps(c, p, t, j);
        KeepsFrame(c, c', p, t, j);
      }
    }
  }

  lemma PassesFrame(c: Cluster, c': Cluster, t: nat, u: nat, j: nat)
    requires Evolves(c, c') && Passes(c, t, u, j) && u in c.aux.hist && Own(c, t, j)
    ensures Passes(c', t, u, j)
  {
    hide Choosable;
    if t < u && Own(c', t, j) && Choosable(c', t, j) {
      ChoosableBack(c, c', t, j);
      OwnForward(c, c', t, j);
      assert c'.aux.hist[u][..j + 1] == c.aux.hist[u][..j + 1];
    }
  }

  lemma VoteKeepsFrame(c: Cluster, c': Cluster, p: Pair, t: nat, j: nat)
    requires AcceptsOk(c) && Evolves(c, c') && p in c.aux.votes && p.server < |c.servers| && p.term <= c.servers[p.server].term
    requires VoteKeeps(c, p, t, j)
    ensures p in c'.aux.votes && VoteKeeps(c', p, t, j)
  {
    hide Choosable, AcceptsOk;
    if t < p.term && j < Acc(c', p.server, t) && Own(c', t, j) && Choosable(c', t, j) {
      assert Acc(c', p.server, t) == Acc(c, p.server, t);
      AcceptedInHistory(c, p.server, t);
      ChoosableBack(c, c', t, j);
      OwnForward(c, c', t, j);
    }
  }

  lemma VoteOkFrame(c: Cluster, c': Cluster, p: Pair)
    requires Evolves(c, c') && p in c.aux.votes && VoteOk(c, p)
    ensures p in c'.aux.votes && VoteOk(c', p)
  {
    hide Anchored;
    AnchoredGrows(c.aux, c'.aux, c.aux.votes[p].voterLog);
    AnchoredGrows(c.aux, c'.aux, c.aux.votes[p].candLog);
  }

  lemma VotesOkFrame(c: Cluster, c': Cluster)
    requires VoteInv(c) && AcceptsOk(c) && VotesOk(c) && Evolves(c, c')
    requires forall p :: p in c'.aux.votes && p !in c.aux.votes ==> VoteOk(c', p) && forall t: nat, j: nat :: VoteKeeps(c', p, t, j)
    ensures VotesOk(c')
  {
    hide VoteOk, VoteKeeps, AcceptsOk;
    forall p | p in c'.aux.votes
      ensures VoteOk(c', p)
    {
      if p in c.aux.votes { VoteOkFrame(c, c', p); }
    }
    forall p, t: nat, j: nat | p in c'.aux.votes
      ensures VoteKeeps(c', p, t, j)
    {
      if p in c.aux.votes {
        assert VoteKeeps(c, p, t, j);
        VoteKeepsFrame(c, c', p, t, j);
      }
    }
  }

  lemma ServerBackedFrame(c: Cluster, c': Cluster, p: nat)
    requires Evolves(c, c') && p < |c.servers| && ServerBacked(c, p)
    requires c'.servers[p].log == c.servers[p].log && c'.servers[p].commitIndex == c.servers[p].commitIndex
    requires c'.servers[p].lastApplied == c.servers[p].lastApplied
    ensures ServerBacked(c', p)
  {
    hide Backs;
    var s, s' := c.servers[p], c'.servers[p];
    if s'.commitIndex > 0 {
      var t: nat, k: nat :| Backs(c, s.log, s.commitIndex, t, k) && t <= s.term && (t == s.term ==> Acc(c, p, t) > s.commitIndex);
      BacksForward(c, c', s.log, s.commitIndex, t, k);
    }
  }

  lemma ServersOkFrame(c: Cluster, c': Cluster, i: nat)
    requires ServersOk(c) && StepOf(c, c', i)
    requires ServerBacked(c', i) && LeaderOk(c', i) && CandidateOk(c', i)
    ensures ServersOk(c')
  {
    hide ServerBacked;
    forall p: nat | p < |c'.servers|
      ensures ServerBacked(c', p) && LeaderOk(c', p) && CandidateOk(c', p)
    {
      if p != i {
        assert ServerBacked(c, p) && LeaderOk(c, p) && CandidateOk(c, p);
        ServerBackedFrame(c, c', p);
      }
    }
  }

  lemma MsgOkFrame(c: Cluster, c': Cluster, m: Msg)
    requires Evolves(c, c') && MsgOk(c, m)
    ensures MsgOk(c', m)
  {
    hide Anchored, Backed;
    match m
    case VoteReq(_, log) => AnchoredGrows(c.aux, c'.aux, log);
    case AppReq(_, _, a, full) => BackedForward(c, c', full, a.leaderCommit, a.term);
    case _ =>
  }

  lemma MsgsOkFrame(c: Cluster, c': Cluster, i: nat)
    requires MsgsOk(c) && StepOf(c, c', i)
    requires forall m :: m in c'.net && m !in c.net ==> MsgOk(c', m)
    ensures MsgsOk(c')
  {
    hide MsgOk;
    forall m | m in c'.net
      ensures MsgOk(c', m)
    {
      if m in c.net { MsgOkFrame(c, c', m); }
    }
  }

  lemma ApplicationOkFrame(c: Cluster, c': Cluster, a: Application)
    requires Evolves(c, c') && ApplicationOk(c, a)
    ensures ApplicationOk(c', a)
  {
    var t: nat, k: nat :| Chosen(c, t, k) && 0 <= a.index <= k && c.aux.hist[t][a.index].content == a.content;
    ChosenForward(c, c', t, k);
    assert c'.aux.hist[t][a.index] == c.aux.hist[t][a.index];
  }

  lemma ApplicationsOkFrame(c: Cluster, c': Cluster, i: nat)
    requires ApplicationsOk(c) && StepOf(c, c', i)
    requires forall a :: a in c'.aux.applied && a !in c.aux.applied ==> ApplicationOk(c', a)
    ensures ApplicationsOk(c')
  {
    hide ApplicationOk;
    forall a | a in c'.aux.applied
      ensures ApplicationOk(c', a)
    {
      if a in c.aux.applied { ApplicationOkFrame(c, c', a); }
    }
  }

  // ---------------------------------------------------------------- steps that leave logs alone

  /** Only votes, wins and messages are added; the server's log and commit index stay. */
  ghost predicate Quiet(c: Cluster, c': Cluster, i: nat)
  {
    i < |c.servers| == |c'.servers| && c'.servers == c.servers[i := c'.servers[i]] && c.net <= c'.net &&
    c'.aux == c.aux.(votes := c'.aux.votes, wins := c'.aux.wins) && VotesKept(c.aux, c'.aux) &&
    var s, s' := c.servers[i], c'.servers[i];
    s'.term >= s.term && s'.log == s.log && s'.commitIndex == s.commitIndex && s'.lastApplied == s.lastApplied
  }

  lemma QuietStepOf(c: Cluster, c': Cluster, i: nat)
    requires Quiet(c, c', i)
    ensures StepOf(c, c', i)
  {
  }

  lemma QuietKeeps(c: Cluster, c': Cluster, i: nat)
    requires CommitInv(c) && LogInv(c') && Quiet(c, c', i)
    requires LeaderOk(c', i) && CandidateOk(c', i)
    requires forall p :: p in c'.aux.votes && p !in c.aux.votes ==> VoteOk(c', p) && forall t: nat, j: nat :: VoteKeeps(c', p, t, j)
    requires forall m :: m in c'.net && m !in c.net ==> MsgOk(c', m)
    ensures CommitInv(c')
  {
    hide LogInv, Keeps, Passes, VoteOk, VoteKeeps, MsgOk, ServerBacked, LeaderOk, CandidateOk;
    QuietStepOf(c, c', i);
    assert AcceptsOk(c') by { QuietAccepts(c, c', i); }
    forall t: nat, j: nat ensures Keeps(c', i, t, j) {
      assert Keeps(c, i, t, j);
      KeepsFrame(c, c', i, t, j);
    }
    AllKeepFrame(c, c', i);
    assert AllPass(c') by { QuietPasses(c, c', i); }
    InvVotes(c);
    VotesOkFrame(c, c');
    assert ServerBacked(c, i);
    ServerBackedFrame(c, c', i);
    ServersOkFrame(c, c', i);
    MsgsOkFrame(c, c', i);
    ApplicationsOkFrame(c, c', i);
  }

  lemma InvVotes(c: Cluster)
    requires LogInv(c)
    ensures VoteInv(c) && Shaped(c)
  {
  }

  lemma QuietAccepts(c: Cluster, c': Cluster, i: nat)
    requires AcceptsOk(c) && Quiet(c, c', i)
    ensures AcceptsOk(c')
  {
    forall p | p in c'.aux.accepted
      ensures AcceptedOk(c', p)
    {
      assert AcceptedOk(c, p);
    }
  }

  lemma QuietPasses(c: Cluster, c': Cluster, i: nat)
    requires AllPass(c) && Quiet(c, c', i)
    ensures AllPass(c')
  {
    QuietStepOf(c, c', i);
    forall t: nat, u: nat, j: nat
      ensures Passes(c', t, u, j)
    {
      assert Passes(c, t, u, j);
      if u in c.aux.hist && Own(c, t, j) {
        PassesFrame(c, c', t, u, j);
      }
    }
  }

  lemma ElectKeepsCommit(c: Cluster, i: nat)
    requires CommitInv(c) && Enabled(c, Elect(i)) && Shaped(c)
    ensures CommitInv(DoElect(c, i))
  {
    hide LogInv, AllKeep, AllPass, VotesOk, ServersOk, MsgsOk, ApplicationsOk, AcceptsOk, VoteKeeps, Anchored, TermsUpTo;
    var s, c' := c.servers[i], DoElect(c, i);
    var p := Pair(i, s.term + 1);
    LogInvNext(c, Elect(i));
    ServerAnchored(c, i);
    assert c'.aux.votes == c.aux.votes[p := Vote(i, s.log, s.log)];
    NewVoterLog(c, c', i, p);
    assert TermsBelow(s.log, s.term + 1) by { UpToIsBelow(s.log, s.term); }
    assert VoteOk(c', p);
    QuietKeeps(c, c', i);
  }

  lemma UpToIsBelow(log: Log, term: nat)
    requires TermsUpTo(log, term)
    ensures TermsBelow(log, term + 1)
  {
  }

  /** A fresh vote's record: what the voter has accepted so far is in its log. */
  lemma NewVoterLog(c: Cluster, c': Cluster, i: nat, p: Pair)
    requires CommitInv(c) && Quiet(c, c', i) && p in c'.aux.votes && p.server == i && c'.aux.votes[p].voterLog == c.servers[i].log
    ensures forall t: nat, j: nat :: VoteKeeps(c', p, t, j)
  {
    hide LogInv, AllPass, Choosable, AcceptsOk;
    QuietStepOf(c, c', i);
    forall t: nat, j: nat
      ensures VoteKeeps(c', p, t, j)
    {
      assert Keeps(c, i, t, j);
      KeepsFrame(c, c', i, t, j);
    }
  }

  lemma ServerAnchored(c: Cluster, i: nat)
    requires LogInv(c) && i < |c.servers|
    ensures Anchored(c.aux.hist, c.servers[i].log) && TermsUpTo(c.servers[i].log, c.servers[i].term)
    ensures VoterOk(c.aux, c.servers[i], i, |c.servers|)
    ensures forall t :: t > c.servers[i].term ==> Pair(i, t) !in c.aux.votes
  {
    assert ServerOk(c.aux, c.servers[i], i);
  }

  /** The server keeps its role's bookkeeping, or has become a follower. */
  lemma SameOffice(c: Cluster, c': Cluster, i: nat)
    requires CommitInv(c) && Quiet(c, c', i) && c'.servers[i].matchIndex == c.servers[i].matchIndex
    requires c'.servers[i].role != Leader || (c.servers[i].role == Leader && c'.servers[i].term == c.servers[i].term)
    requires var r, r' := c.servers[i].round, c'.servers[i].round;
             r'.open && c'.servers[i].term == r'.args.term ==> r.open && r'.args == r.args && c'.servers[i].term == c.servers[i].term
    ensures LeaderOk(c', i) && CandidateOk(c', i)
  {
    hide LogInv, AllKeep, AllPass, VotesOk, AcceptsOk, ServerBacked;
    QuietStepOf(c, c', i);
    assert LeaderOk(c, i) && CandidateOk(c, i);
  }

  lemma VoteReqKeepsCommit(c: Cluster, i: nat, m: Msg)
    requires CommitInv(c) && Enabled(c, OnVoteReq(i, m)) && Guarded(c, OnVoteReq(i, m)) && Shaped(c)
    ensures CommitInv(DoVoteReq(c, i, m))
  {
    hide LogInv, AllKeep, AllPass, VotesOk, ServersOk, MsgsOk, ApplicationsOk, AcceptsOk, VoteKeeps, Anchored, TermsUpTo, VoteOk, LogNewer,
      LeaderOk, CandidateOk;
    var s, c' := c.servers[i], DoVoteReq(c, i, m);
    LogInvNext(c, OnVoteReq(i, m));
    ServerAnchored(c, i);
    SameOffice(c, c', i);
    var p := Pair(i, m.vargs.term);
    if p in c'.aux.votes && p !in c.aux.votes {
      assert c'.aux.votes == c.aux.votes[p := Vote(m.vargs.candidateId, s.log, m.vlog)] && LogNewer(s.log, m.vargs);
      NewVoterLog(c, c', i, p);
      GrantedVoteOk(c, c', i, m);
    }
    QuietKeeps(c, c', i);
  }

  lemma GrantedVoteOk(c: Cluster, c': Cluster, i: nat, m: Msg)
    requires CommitInv(c) && i < |c.servers| && m in c.net && m.VoteReq? && c.servers[i].log != [] && LogNewer(c.servers[i].log, m.vargs)
    requires c'.aux.hist == c.aux.hist && VotesKept(c.aux, c'.aux)
    requires Pair(i, m.vargs.term) in c'.aux.votes
    requires c'.aux.votes[Pair(i, m.vargs.term)] == Vote(m.vargs.candidateId, c.servers[i].log, m.vlog)
    ensures VoteOk(c', Pair(i, m.vargs.term))
  {
    hide LogInv, AllKeep, AllPass, VotesOk, ServersOk, ApplicationsOk, AcceptsOk, Anchored, TermsUpTo;
    ServerAnchored(c, i);
    assert MsgOk(c, m);
  }

  lemma VoteRepKeepsCommit(c: Cluster, i: nat, m: Msg)
    requires CommitInv(c) && Enabled(c, OnVoteRep(i, m)) && Shaped(c)
    ensures CommitInv(DoVoteRep(c, i, m))
  {
    hide LogInv, AllKeep, AllPass, VotesOk, ServersOk, MsgsOk, ApplicationsOk, AcceptsOk, LeaderOk, CandidateOk;
    LogInvNext(c, OnVoteRep(i, m));
    SameOffice(c, DoVoteRep(c, i, m), i);
    QuietKeeps(c, DoVoteRep(c, i, m), i);
  }

  lemma SendKeepsCommit(c: Cluster, i: nat)
    requires CommitInv(c) && Enabled(c, SendRound(i)) && Guarded(c, SendRound(i)) && Shaped(c)
    ensures CommitInv(DoSend(c, i))
  {
    hide LogInv, AllKeep, AllPass, VotesOk, ServersOk, MsgsOk, ApplicationsOk, AcceptsOk, LeaderOk, CandidateOk, Backed;
    LogInvNext(c, SendRound(i));
    SameOffice(c, DoSend(c, i), i);
    LogBacked(c, DoSend(c, i), i);
    QuietKeeps(c, DoSend(c, i), i);
  }

  lemma LeaveKeepsCommit(c: Cluster, i: nat)
    requires CommitInv(c) && Enabled(c, Leave(i)) && Shaped(c)
    ensures CommitInv(DoLeave(c, i))
  {
    hide LogInv, AllKeep, AllPass, VotesOk, ServersOk, MsgsOk, ApplicationsOk, AcceptsOk, LeaderOk, CandidateOk;
    LogInvNext(c, Leave(i));
    SameOffice(c, DoLeave(c, i), i);
    QuietKeeps(c, DoLeave(c, i), i);
  }

  /** Starting the leader routine again only lowers match indexes. */
  lemma ReenterKeepsCommit(c: Cluster, i: nat)
    requires CommitInv(c) && Enabled(c, Reenter(i)) && Shaped(c)
    ensures CommitInv(DoReenter(c, i))
  {
    hide LogInv, AllKeep, AllPass, VotesOk, MsgsOk, ApplicationsOk, AcceptsOk, ServerBacked;
    LogInvNext(c, Reenter(i));
    LeaderLog(c, i);
    assert LeaderOk(c, i);
    QuietKeeps(c, DoReenter(c, i), i);
  }

  lemma LogBacked(c: Cluster, c': Cluster, i: nat)
    requires CommitInv(c) && Quiet(c, c', i) && c.servers[i].log != []
    ensures c.servers[i].commitIndex < |c.servers[i].log|
    ensures Backed(c', c.servers[i].log, c.servers[i].commitIndex, c.servers[i].term)
  {
    hide LogInv, AllKeep, AllPass, VotesOk, AcceptsOk, Chosen, LeaderOk, CandidateOk;
    QuietStepOf(c, c', i);
    assert ServerBacked(c, i);
    assert Backed(c, c.servers[i].log, c.servers[i].commitIndex, c.servers[i].term);
    BackedForward(c, c', c.servers[i].log, c.servers[i].commitIndex, c.servers[i].term);
  }

  lemma RejectKeepsCommit(c: Cluster, i: nat, m: Msg)
    requires CommitInv(c) && Enabled(c, OnAppReq(i, m)) && Guarded(c, OnAppReq(i, m)) && Shaped(c)
    requires !HandleAppend(c.servers[i], m.aargs).1.success
    ensures CommitInv(DoAppReq(c, i, m))
  {
    hide LogInv, AllKeep, AllPass, VotesOk, ServersOk, MsgsOk, ApplicationsOk, AcceptsOk, LeaderOk, CandidateOk, HandleAppend;
    LogInvNext(c, OnAppReq(i, m));
    RequestEffect(c, i, m);
    RequestIn(c, m);
    ServerAnchored(c, i);
    SameOffice(c, DoAppReq(c, i, m), i);
    QuietKeeps(c, DoAppReq(c, i, m), i);
  }

  // ---------------------------------------------------------------- taking office

  /** Terms never decrease along a log. */
  lemma TermsOrdered(c: Cluster, log: Log, a: nat, b: nat)
    requires LogInv(c) && Anchored(c.aux.hist, log) && a <= b < |log|
    ensures log[a].term <= log[b].term
  {
    hide VoteInv, WinOk;
    if b > 0 {
      var w := log[b].term;
      assert AnchoredAt(c.aux.hist, log, b) && HistOk(c, w);
      assert log[a] == log[..b + 1][a] == c.aux.hist[w][a];
    }
  }

  lemma LastAnchored(c: Cluster, log: Log)
    requires LogInv(c) && Anchored(c.aux.hist, log) && LastTerm(log) >= 1
    ensures |log| >= 2 && LastTerm(log) in c.aux.hist && log <= c.aux.hist[LastTerm(log)]
  {
    hide VoteInv, HistOk;
    assert log[0].term == 0;
    assert AnchoredAt(c.aux.hist, log, |log| - 1);
    assert log[..|log|] == log;
  }

  /** An entry of an older term lies within what the leader had when it was elected. */
  lemma OlderIsBase(c: Cluster, u: nat, j: nat)
    requires LogInv(c) && u in c.aux.hist && j < |c.aux.hist[u]|
    ensures u in c.aux.elected
    ensures c.aux.hist[u][j].term < u <==> j < c.aux.elected[u].base
  {
    assert HistOk(c, u);
  }

  /** A log at least as up to date as one that holds a choosable entry holds it too. */
  lemma UpToDateHas(c: Cluster, cand: Log, voter: Log, t: nat, j: nat)
    requires LogInv(c) && AllPass(c) && Anchored(c.aux.hist, cand) && Anchored(c.aux.hist, voter)
    requires cand != [] && voter != [] && UpToDate(cand, voter)
    requires Own(c, t, j) && Choosable(c, t, j) && Has(voter, c.aux.hist[t], j) && t >= 1
    ensures Has(cand, c.aux.hist[t], j)
  {
    hide LogInv, Anchored, Choosable;
    assert voter[j] == voter[..j + 1][j] == c.aux.hist[t][j];
    TermsOrdered(c, voter, j, |voter| - 1);
    var w := LastTerm(cand);
    LastAnchored(c, cand);
    if w == LastTerm(voter) {
      LastAnchored(c, voter);
      assert cand[..j + 1] == voter[..j + 1];
    } else {
      assert Passes(c, t, w, j);
      assert c.aux.hist[w][j] == c.aux.hist[w][..j + 1][j] == c.aux.hist[t][j];
      OlderIsBase(c, w, j);
      OlderIsBase(c, w, |cand| - 1);
      assert cand[..j + 1] == c.aux.hist[w][..j + 1];
    }
  }

  /** Leader completeness: whoever is elected holds every choosable entry of every earlier term. */
  lemma LeaderComplete(c: Cluster, i: nat, t: nat, j: nat)
    requires CommitInv(c) && Enabled(c, TakeOffice(i)) && Guarded(c, TakeOffice(i))
    requires t < c.servers[i].term && Own(c, t, j) && Choosable(c, t, j)
    ensures Has(c.servers[i].log, c.aux.hist[t], j)
  {
    hide LogInv, AllKeep, AllPass, MsgsOk, ApplicationsOk, AcceptsOk, LeaderOk, ServerBacked, Anchored;
    var s, u := c.servers[i], c.servers[i].term;
    TermIsFree(c, i);
    var qs :| MayStore(c, t, j, qs);
    var v := Meet(|c.servers|, qs, s.round.granted);
    assert VotedFor(c.aux, v, u, i);
    var p := Pair(v, u);
    VoterTerm(c, p);
    assert VoteOk(c, p) && VoteKeeps(c, p, t, j) && CandidateOk(c, i);
    HistPositive(c, t);
    AnchoredNonEmpty(c.aux.hist, c.aux.votes[p].candLog);
    AnchoredNonEmpty(c.aux.hist, c.aux.votes[p].voterLog);
    UpToDateHas(c, c.aux.votes[p].candLog, c.aux.votes[p].voterLog, t, j);
  }

  lemma VoterTerm(c: Cluster, p: Pair)
    requires LogInv(c) && p in c.aux.votes
    ensures p.server < |c.servers| && p.term <= c.servers[p.server].term
  {
  }

  lemma HistPositive(c: Cluster, t: nat)
    requires LogInv(c) && t in c.aux.hist
    ensures t >= 1
  {
    assert HistOk(c, t);
  }

  lemma AnchoredNonEmpty(hist: map<nat, Log>, log: Log)
    requires Anchored(hist, log)
    ensures log != []
  {
  }

  lemma TakeOfficeStep(c: Cluster, i: nat)
    requires CommitInv(c) && Enabled(c, TakeOffice(i)) && Guarded(c, TakeOffice(i)) && Shaped(c)
    ensures StepOf(c, DoTakeOffice(c, i), i) && AcceptsOk(DoTakeOffice(c, i))
    ensures LeaderOk(DoTakeOffice(c, i), i)
    ensures c.servers[i].term !in c.aux.hist
  {
    hide LogInv, AllKeep, AllPass, MsgsOk, ApplicationsOk, ServersOk, VotesOk, AcceptsOk, Evolves;
    var s, c' := c.servers[i], DoTakeOffice(c, i);
    TermIsFree(c, i);
    ElectedKeys(c);
    if Acc(c, i, s.term) > 0 {
      AcceptedInHistory(c, i, s.term);
      assert false;
    }
    AcceptAccepts(c, c', i, s.term, |s.log|);
  }

  lemma ElectedKeys(c: Cluster)
    requires LogInv(c)
    ensures c.aux.elected.Keys == c.aux.hist.Keys
  {
  }

  lemma TakeOfficeKeepsCommit(c: Cluster, i: nat)
    requires CommitInv(c) && Enabled(c, TakeOffice(i)) && Guarded(c, TakeOffice(i)) && Shaped(c)
    ensures CommitInv(DoTakeOffice(c, i))
  {
    hide LogInv, VoteOk, VoteKeeps, MsgOk, ServerBacked, LeaderOk, ApplicationsOk, MsgsOk, VotesOk, AcceptsOk;
    var s, c' := c.servers[i], DoTakeOffice(c, i);
    LogInvNext(c, TakeOffice(i));
    TakeOfficeStep(c, i);
    assert AllKeep(c') by { TakeOfficeAllKeep(c, i); }
    assert AllPass(c') by { TakeOfficeAllPass(c, i); }
    InvVotes(c);
    VotesOkFrame(c, c');
    assert ServerBacked(c, i);
    ServerBackedFrame(c, c', i);
    ServersOkFrame(c, c', i);
    MsgsOkFrame(c, c', i);
    ApplicationsOkFrame(c, c', i);
  }

  lemma TakeOfficeAllKeep(c: Cluster, i: nat)
    requires CommitInv(c) && Enabled(c, TakeOffice(i)) && Guarded(c, TakeOffice(i)) && Shaped(c)
    requires StepOf(c, DoTakeOffice(c, i), i)
    ensures AllKeep(DoTakeOffice(c, i))
  {
    hide LogInv, Choosable, AllPass, MsgsOk, ApplicationsOk, ServersOk, VotesOk, AcceptsOk, Has, Promote;
    var s, c' := c.servers[i], DoTakeOffice(c, i);
    NothingOwn(c, i);
    forall t: nat, j: nat
      ensures Keeps(c', i, t, j)
    {
      assert Keeps(c, i, t, j);
      if t != s.term {
        assert Acc(c', i, t) == Acc(c, i, t);
        assert c'.servers[i].log == s.log by { PromoteLog(s, |c.servers|); }
        KeepsFrame(c, c', i, t, j);
      }
    }
    AllKeepFrame(c, c', i);
  }

  lemma PromoteLog(s: Server, n: nat)
    requires s.me < n
    ensures Promote(s, n).log == s.log
  {
  }

  /** A new leader has appended nothing of its own yet. */
  lemma NothingOwn(c: Cluster, i: nat)
    requires CommitInv(c) && Enabled(c, TakeOffice(i)) && Guarded(c, TakeOffice(i)) && Shaped(c)
    ensures forall j: nat :: !Own(DoTakeOffice(c, i), c.servers[i].term, j)
  {
    hide LogInv, AllKeep, AllPass, MsgsOk, ApplicationsOk, ServersOk, VotesOk, AcceptsOk;
    TermIsFree(c, i);
    ServerAnchored(c, i);
    EntriesAreOlder(c.aux, c.servers[i]);
  }

  lemma TakeOfficeAllPass(c: Cluster, i: nat)
    requires CommitInv(c) && Enabled(c, TakeOffice(i)) && Guarded(c, TakeOffice(i)) && Shaped(c)
    requires StepOf(c, DoTakeOffice(c, i), i) && c.servers[i].term !in c.aux.hist
    ensures AllPass(DoTakeOffice(c, i))
  {
    hide LogInv, Choosable, AllKeep, MsgsOk, ApplicationsOk, ServersOk, VotesOk, AcceptsOk, Promote;
    var u0, c' := c.servers[i].term, DoTakeOffice(c, i);
    NothingOwn(c, i);
    forall t: nat, u: nat, j: nat
      ensures Passes(c', t, u, j)
    {
      assert Passes(c, t, u, j);
      if t < u && u in c'.aux.hist && Own(c', t, j) && Choosable(c', t, j) {
        assert t != u0;
        assert Own(c, t, j);
        if u == u0 {
          ChoosableBack(c, c', t, j);
          LeaderComplete(c, i, t, j);
        } else {
          PassesFrame(c, c', t, u, j);
        }
      }
    }
  }

  // ---------------------------------------------------------------- accepting a request

  /** The request leaves every choosable entry of its term that the follower has accepted. */
  ghost predicate NoneCut(c: Cluster, i: nat, m: Msg)
    requires m.AppReq?
  {
    forall j: nat :: |m.full| <= j < Acc(c, i, m.aargs.term) ==> !Choosable(c, m.aargs.term, j)
  }

  lemma PassesSameHist(c: Cluster, c': Cluster, i: nat)
    requires AllPass(c) && StepOf(c, c', i) && c'.aux.hist == c.aux.hist
    ensures AllPass(c')
  {
    hide Choosable;
    forall t: nat, u: nat, j: nat
      ensures Passes(c', t, u, j)
    {
      assert Passes(c, t, u, j);
      if u in c.aux.hist && Own(c, t, j) {
        PassesFrame(c, c', t, u, j);
      }
    }
  }

  /** Whatever a server applies in a step is backed by its commit index. */
  lemma NewApplicationsOk(c': Cluster, i: nat, s: Server)
    requires i < |c'.servers| && ServerBacked(c', i)
    requires c'.servers[i].lastApplied <= s.lastApplied || c'.servers[i].lastApplied <= c'.servers[i].commitIndex
    requires 0 <= s.lastApplied
    ensures forall a :: a in NewlyApplied(i, s, c'.servers[i]) ==> ApplicationOk(c', a)
  {
    var s' := c'.servers[i];
    forall a | a in NewlyApplied(i, s, s')
      ensures ApplicationOk(c', a)
    {
      var j := a.index;
      var t: nat, k: nat :| Backs(c', s'.log, s'.commitIndex, t, k) && t <= s'.term;
      assert s'.log[j] == s'.log[..s'.commitIndex + 1][j] == c'.aux.hist[t][j];
    }
  }

  /** The effect of an accepted request on the cluster. */
  lemma AcceptStep(c: Cluster, i: nat, m: Msg)
    requires CommitInv(c) && Enabled(c, OnAppReq(i, m)) && Guarded(c, OnAppReq(i, m)) && Shaped(c)
    requires HandleAppend(c.servers[i], m.aargs).1.success
    ensures var c', u := DoAppReq(c, i, m), m.aargs.term;
            StepOf(c, c', i) && AcceptsOk(c') && Acc(c', i, u) == Larger(Acc(c, i, u), |m.full|) && c'.aux.hist == c.aux.hist &&
            c'.servers[i].log == m.full && c'.servers[i].term == u && c'.servers[i].role != Leader && c'.aux.votes == c.aux.votes &&
            (forall t: nat :: t != u ==> Acc(c', i, t) == Acc(c, i, t)) && u in c.aux.hist
  {
    hide LogInv, AllKeep, AllPass, MsgsOk, ApplicationsOk, ServersOk, VotesOk, HandleAppend, NewlyApplied, Anchored, TermsUpTo;
    var c', u := DoAppReq(c, i, m), m.aargs.term;
    RequestEffect(c, i, m);
    AppendRole(c.servers[i], m.aargs);
    RequestIn(c, m);
    AcceptAccepts(c, c', i, u, |m.full|);
  }

  function Larger(a: nat, b: nat): nat
  {
    if a < b then b else a
  }

  /** Recording that server `i` holds `len` entries of term `u`'s log. */
  lemma AcceptAccepts(c: Cluster, c': Cluster, i: nat, u: nat, len: nat)
    requires AcceptsOk(c) && i < |c.servers| == |c'.servers| && u in c'.aux.hist && len <= |c'.aux.hist[u]|
    requires HistGrows(c.aux, c'.aux) && c'.aux.accepted == RecordAccept(c.aux, i, u, len).accepted
    requires c'.servers == c.servers[i := c'.servers[i]] && c.servers[i].term <= u == c'.servers[i].term
    ensures AcceptsOk(c') && Acc(c', i, u) == Larger(Acc(c, i, u), len) && Evolves(c, c')
    ensures forall q: nat, t: nat :: (q != i || t != u) ==> Acc(c', q, t) == Acc(c, q, t)
  {
    hide HistGrows;
    forall p | p in c'.aux.accepted
      ensures AcceptedOk(c', p)
    {
      if p in c.aux.accepted { AcceptedStays(c, c', i, p, u, len); }
    }
  }

  lemma AcceptedStays(c: Cluster, c': Cluster, i: nat, p: Pair, u: nat, len: nat)
    requires AcceptsOk(c) && i < |c.servers| == |c'.servers| && u in c'.aux.hist && len <= |c'.aux.hist[u]|
    requires HistGrows(c.aux, c'.aux) && c'.aux.accepted == RecordAccept(c.aux, i, u, len).accepted
    requires c'.servers == c.servers[i := c'.servers[i]] && c.servers[i].term <= u == c'.servers[i].term
    requires p in c.aux.accepted
    ensures p in c'.aux.accepted && AcceptedOk(c', p)
  {
    assert AcceptedOk(c, p);
  }

  lemma RequestIn(c: Cluster, m: Msg)
    requires LogInv(c) && m in c.net && m.AppReq?
    ensures m.aargs.term in c.aux.hist && m.aargs.term in c.aux.elected && m.full <= c.aux.hist[m.aargs.term]
    ensures |m.full| >= c.aux.elected[m.aargs.term].base && m.full != []
    ensures m.aargs.prevLogIndex + 1 + |m.aargs.entries| == |m.full| && m.dst != m.aargs.leaderId
  {
    assert RequestOk(c.aux, m);
  }

  /** A choosable entry of an earlier term is in every request of a later leader. */
  lemma RequestHas(c: Cluster, m: Msg, t: nat, j: nat)
    requires LogInv(c) && AllPass(c) && m in c.net && m.AppReq? && t < m.aargs.term && Own(c, t, j) && Choosable(c, t, j)
    ensures Has(m.full, c.aux.hist[t], j)
  {
    hide LogInv, Choosable;
    var u := m.aargs.term;
    RequestIn(c, m);
    assert Passes(c, t, u, j);
    assert c.aux.hist[u][j] == c.aux.hist[u][..j + 1][j] == c.aux.hist[t][..j + 1][j];
    OlderIsBase(c, u, j);
    assert m.full[..j + 1] == c.aux.hist[u][..j + 1];
  }

  lemma AcceptAllKeep(c: Cluster, c': Cluster, i: nat, m: Msg)
    requires CommitInv(c) && m in c.net && m.AppReq? && StepOf(c, c', i) && c'.aux.hist == c.aux.hist
    requires var u := m.aargs.term;
             Acc(c', i, u) == Larger(Acc(c, i, u), |m.full|) && c'.servers[i].log == m.full && c'.servers[i].term == u &&
             (forall t: nat :: t != u ==> Acc(c', i, t) == Acc(c, i, t))
    requires NoneCut(c, i, m)
    ensures AllKeep(c')
  {
    hide LogInv, Choosable, MsgsOk, ApplicationsOk, ServersOk, VotesOk, AcceptsOk, AllPass;
    var u := m.aargs.term;
    RequestIn(c, m);
    forall t: nat, j: nat
      ensures Keeps(c', i, t, j)
    {
      if j < Acc(c', i, t) && Own(c', t, j) && Choosable(c', t, j) {
        if t == u {
          ChoosableBack(c, c', t, j);
          assert m.full[..j + 1] == c.aux.hist[u][..j + 1];
        } else {
          AcceptedInHistory(c, i, t);
          ChoosableBack(c, c', t, j);
          RequestHas(c, m, t, j);
        }
      }
    }
    AllKeepFrame(c, c', i);
  }

  /** What a follower has committed stays in its log when it takes over a leader's log. */
  lemma AcceptBacked(c: Cluster, c': Cluster, i: nat, m: Msg)
    requires CommitInv(c) && m in c.net && m.AppReq? && StepOf(c, c', i) && c'.aux.hist == c.aux.hist
    requires var u := m.aargs.term;
             Acc(c', i, u) == Larger(Acc(c, i, u), |m.full|) && c'.servers[i].log == m.full && c'.servers[i].term == u
    requires c.servers[i].term <= m.aargs.term && NoneCut(c, i, m)
    requires c'.servers[i].commitIndex == c.servers[i].commitIndex ||
             (c'.servers[i].commitIndex == m.aargs.leaderCommit && m.aargs.leaderCommit > c.servers[i].commitIndex)
    requires 0 <= c'.servers[i].lastApplied
    ensures ServerBacked(c', i)
  {
    hide LogInv, Choosable, Chosen, ApplicationsOk, VotesOk, AcceptsOk, AllPass, AllKeep, LeaderOk, CandidateOk;
    var s, s', u := c.servers[i], c'.servers[i], m.aargs.term;
    RequestIn(c, m);
    assert MsgOk(c, m);
    if s'.commitIndex > 0 {
      if s'.commitIndex == s.commitIndex {
        assert ServerBacked(c, i);
        var t: nat, k: nat :| Backs(c, s.log, s.commitIndex, t, k) && t <= s.term && (t == s.term ==> Acc(c, i, t) > s.commitIndex);
        OldCommitStays(c, i, m, t, k);
        BacksForward(c, c', m.full, s.commitIndex, t, k);
      } else {
        var t: nat, k: nat :| Backs(c, m.full, m.aargs.leaderCommit, t, k) && t <= u;
        BacksForward(c, c', m.full, m.aargs.leaderCommit, t, k);
      }
    }
  }

  lemma OldCommitStays(c: Cluster, i: nat, m: Msg, t: nat, k: nat)
    requires CommitInv(c) && m in c.net && m.AppReq? && i < |c.servers| && c.servers[i].term <= m.aargs.term
    requires NoneCut(c, i, m) && c.servers[i].commitIndex > 0
    requires var s := c.servers[i];
             Backs(c, s.log, s.commitIndex, t, k) && t <= s.term && (t == s.term ==> Acc(c, i, t) > s.commitIndex)
    ensures Backs(c, m.full, c.servers[i].commitIndex, t, k)
  {
    hide LogInv, Choosable, ApplicationsOk, VotesOk, AcceptsOk, AllPass, AllKeep, ServersOk, MsgsOk;
    var s, u := c.servers[i], m.aargs.term;
    RequestIn(c, m);
    if t < u {
      ChosenChoosable(c, t, k);
      RequestHas(c, m, t, k);
      assert m.full[..s.commitIndex + 1] == m.full[..k + 1][..s.commitIndex + 1];
      assert c.aux.hist[t][..s.commitIndex + 1] == c.aux.hist[t][..k + 1][..s.commitIndex + 1];
    } else {
      ChosenBelow(c, t, k, s.commitIndex);
      assert m.full[..s.commitIndex + 1] == c.aux.hist[u][..s.commitIndex + 1];
    }
  }

  /** What is chosen makes everything before it choosable. */
  lemma ChosenBelow(c: Cluster, t: nat, k: nat, j: nat)
    requires Chosen(c, t, k) && j <= k
    ensures Choosable(c, t, j)
  {
    var qs :| Store(c, t, k, qs);
    assert MayStore(c, t, j, qs);
  }

  lemma FollowCommitCases(s: Server, a: AppendArgs)
    requires HandleAppend(s, a).1.success && 0 <= s.lastApplied && a.leaderCommit < |HandleAppend(s, a).0.log|
    ensures var s' := HandleAppend(s, a).0;
            (s'.commitIndex == s.commitIndex || (s'.commitIndex == a.leaderCommit && a.leaderCommit > s.commitIndex)) &&
            0 <= s'.lastApplied && (s'.lastApplied <= s.lastApplied || s'.lastApplied <= s'.commitIndex)
  {
    hide Spliced, MatchLength, NextHint;
  }

  lemma AcceptKeepsCommit(c: Cluster, i: nat, m: Msg)
    requires CommitInv(c) && Enabled(c, OnAppReq(i, m)) && Guarded(c, OnAppReq(i, m)) && Shaped(c)
    requires HandleAppend(c.servers[i], m.aargs).1.success && NoneCut(c, i, m)
    ensures CommitInv(DoAppReq(c, i, m))
  {
    hide LogInv, HandleAppend, NewlyApplied, AllKeep, AllPass, VotesOk, AcceptsOk, ApplicationOk, LeaderOk, CandidateOk, ServerBacked, MsgOk;
    var s, c' := c.servers[i], DoAppReq(c, i, m);
    LogInvNext(c, OnAppReq(i, m));
    AcceptStep(c, i, m);
    AcceptAllKeep(c, c', i, m);
    PassesSameHist(c, c', i);
    InvVotes(c);
    VotesOkFrame(c, c');
    assert MsgOk(c, m) && ServerBacked(c, i);
    AcceptOffice(c, c', i, m);
    FollowCommitCases(s, m.aargs);
    AcceptBacked(c, c', i, m);
    ServersOkFrame(c, c', i);
    RequestIn(c, m);
    AcceptReplyOk(c', i, m, HandleAppend(s, m.aargs).1);
    MsgsOkFrame(c, c', i);
    NewApplicationsOk(c', i, s);
    ApplicationsOkFrame(c, c', i);
  }

  lemma AcceptReplyOk(c': Cluster, i: nat, m: Msg, r: AppendReply)
    requires m.AppReq? && Acc(c', i, m.aargs.term) >= |m.full| == m.aargs.prevLogIndex + 1 + |m.aargs.entries| && i != m.aargs.leaderId
    ensures MsgOk(c', AppRep(i, m.beat, m.aargs, r))
  {
  }

  lemma AcceptOffice(c: Cluster, c': Cluster, i: nat, m: Msg)
    requires m.AppReq? && i < |c.servers| == |c'.servers| && MsgOk(c, m) && ServerBacked(c, i)
    requires c'.aux.hist == c.aux.hist && m.aargs.term in c.aux.hist && c'.servers[i].term == m.aargs.term && c'.servers[i].role != Leader
    ensures LeaderOk(c', i) && CandidateOk(c', i) && m.aargs.leaderCommit < |m.full| && 0 <= c.servers[i].lastApplied
  {
  }

  // ---------------------------------------------------------------- replies and commits

  /** Only the leader's bookkeeping, its commit index and what it applies change. */
  ghost predicate Tallies(c: Cluster, c': Cluster, i: nat)
  {
    i < |c.servers| == |c'.servers| && c'.servers == c.servers[i := c'.servers[i]] && c'.net == c.net &&
    c'.aux == c.aux.(applied := c'.aux.applied) && c.aux.applied <= c'.aux.applied &&
    c'.servers[i].term >= c.servers[i].term && c'.servers[i].log == c.servers[i].log
  }

  lemma TalliesKeeps(c: Cluster, c': Cluster, i: nat)
    requires CommitInv(c) && LogInv(c') && Tallies(c, c', i)
    requires ServerBacked(c', i) && LeaderOk(c', i) && CandidateOk(c', i)
    requires forall a :: a in c'.aux.applied && a !in c.aux.applied ==> ApplicationOk(c', a)
    ensures CommitInv(c')
  {
    hide LogInv, Keeps, Passes, VoteOk, VoteKeeps, MsgOk, ServerBacked, LeaderOk, CandidateOk, ApplicationOk;
    assert StepOf(c, c', i);
    assert AcceptsOk(c') by {
      forall p | p in c'.aux.accepted ensures AcceptedOk(c', p) { assert AcceptedOk(c, p); }
    }
    forall t: nat, j: nat ensures Keeps(c', i, t, j) {
      assert Keeps(c, i, t, j);
      KeepsFrame(c, c', i, t, j);
    }
    AllKeepFrame(c, c', i);
    PassesSameHist(c, c', i);
    InvVotes(c);
    VotesOkFrame(c, c');
    ServersOkFrame(c, c', i);
    MsgsOkFrame(c, c', i);
    ApplicationsOkFrame(c, c', i);
  }

  /** The commit rule: an entry of the leader's own term at the commit point is chosen. */
  lemma CommitPointChosen(c: Cluster, i: nat, matchIndex: seq<int>, point: int)
    requires LogInv(c) && i < |c.servers| == |matchIndex| && c.servers[i].role == Leader && point == CommitPoint(matchIndex)
    requires forall q :: 0 <= q < |matchIndex| ==> matchIndex[q] == 0 || 0 <= matchIndex[q] < Acc(c, q, c.servers[i].term)
    requires 0 <= point < |c.servers[i].log| && c.servers[i].log[point].term >= c.servers[i].term
    ensures Chosen(c, c.servers[i].term, point) && point >= 1 && Has(c.servers[i].log, c.aux.hist[c.servers[i].term], point)
  {
    hide VoteInv, CommitPoint;
    var s := c.servers[i];
    assert ServerOk(c.aux, s, i) && HistOk(c, s.term);
    var qs := Reaching(matchIndex, point);
    CommitPointReached(matchIndex);
    assert point >= 1;
    assert Store(c, s.term, point, qs);
  }

  lemma AppRepKeepsCommit(c: Cluster, i: nat, m: Msg)
    requires CommitInv(c) && Shaped(c) && Enabled(c, OnAppRep(i, m)) && Counted(c, OnAppRep(i, m))
    ensures CommitInv(DoAppRep(c, i, m))
  {
    hide LogInv, CountAppend, NewlyApplied, AllKeep, AllPass, VotesOk, AcceptsOk, ServersOk, MsgsOk, ApplicationsOk,
         LeaderOk, CandidateOk, ServerBacked, ApplicationOk;
    var s, c' := c.servers[i], DoAppRep(c, i, m);
    LogInvNext(c, OnAppRep(i, m));
    ReplyEffect(c, i, m);
    TalliesKeeps(c, c', i);
  }

  lemma ReplyEffect(c: Cluster, i: nat, m: Msg)
    requires CommitInv(c) && Shaped(c) && Enabled(c, OnAppRep(i, m)) && Counted(c, OnAppRep(i, m))
    ensures var c' := DoAppRep(c, i, m);
            Tallies(c, c', i) && ServerBacked(c', i) && LeaderOk(c', i) && CandidateOk(c', i) &&
            forall a :: a in c'.aux.applied && a !in c.aux.applied ==> ApplicationOk(c', a)
  {
    hide LogInv, AllKeep, AllPass, VotesOk, AcceptsOk, ApplicationsOk, ServerBacked, ApplicationOk, LeaderOk, CandidateOk, MsgsOk,
         CountAppend, NewlyApplied, Counted;
    var s, c' := c.servers[i], DoAppRep(c, i, m);
    assert ServerBacked(c, i);
    ReplyOffice(c, i, m);
    ReplyBacked(c, i, m);
    BackedApplied(c, i);
    NewApplicationsOk(c', i, s);
  }

  lemma ReplyOffice(c: Cluster, i: nat, m: Msg)
    requires CommitInv(c) && Shaped(c) && Enabled(c, OnAppRep(i, m))
    ensures var c' := DoAppRep(c, i, m); Tallies(c, c', i) && LeaderOk(c', i) && CandidateOk(c', i)
  {
    hide LogInv, AllKeep, AllPass, VotesOk, AcceptsOk, ApplicationsOk, ServerBacked, CommitPoint, NewlyApplied;
    assert LeaderOk(c, i) && CandidateOk(c, i) && MsgOk(c, m);
    if c.servers[i].role == Leader { LeaderReply(c, i, m); }
  }

  lemma BackedApplied(c: Cluster, i: nat)
    requires i < |c.servers| && ServerBacked(c, i)
    ensures 0 <= c.servers[i].lastApplied
  {
  }

  lemma ReplyBacked(c: Cluster, i: nat, m: Msg)
    requires CommitInv(c) && Shaped(c) && Enabled(c, OnAppRep(i, m)) && Counted(c, OnAppRep(i, m))
    ensures var c', s := DoAppRep(c, i, m), c.servers[i];
            var s' := c'.servers[i];
            ServerBacked(c', i) && (s'.lastApplied <= s.lastApplied || s'.lastApplied <= s'.commitIndex)
  {
    hide LogInv, AllKeep, AllPass, VotesOk, AcceptsOk, ApplicationsOk, CommitPoint, NewlyApplied, Chosen;
    var s, c' := c.servers[i], DoAppRep(c, i, m);
    var s' := c'.servers[i];
    assert ServerBacked(c, i) && LeaderOk(c, i) && MsgOk(c, m);
    if s.role == Leader { LeaderReply(c, i, m); }
    assert Evolves(c, c');
    if s'.commitIndex == s.commitIndex && s'.lastApplied == s.lastApplied {
      ServerBackedFrame(c, c', i);
    } else {
      var matchIndex := s.matchIndex[m.from := m.aargs.prevLogIndex + |m.aargs.entries|];
      var point := CommitPoint(matchIndex);
      CommitPointChosen(c, i, matchIndex, point);
      assert Backs(c, s.log, point, s.term, point);
      BacksForward(c, c', s.log, point, s.term, point);
    }
  }

  // ---------------------------------------------------------------- client commands

  lemma StartStep(c: Cluster, i: nat, command: Content)
    requires CommitInv(c) && Enabled(c, ClientStart(i, command)) && Shaped(c) && c.servers[i].role == Leader
    ensures var s, c' := c.servers[i], DoStart(c, i, command);
            StepOf(c, c', i) && AcceptsOk(c') && s.term in c.aux.hist && s.log == c.aux.hist[s.term] &&
            c'.servers[i].log == s.log + [LogEntry(command, s.term)] == c'.aux.hist[s.term] &&
            c'.aux.hist == c.aux.hist[s.term := c'.servers[i].log] && Acc(c', i, s.term) == |s.log| + 1 &&
            (forall t: nat :: t != s.term ==> Acc(c', i, t) == Acc(c, i, t)) && c'.aux.votes == c.aux.votes && c'.net == c.net &&
            c'.aux.applied == c.aux.applied
  {
    hide LogInv, AllKeep, AllPass, VotesOk, MsgsOk, ApplicationsOk, ServerBacked, CandidateOk, AcceptsOk, Evolves;
    var s, c' := c.servers[i], DoStart(c, i, command);
    LeaderLog(c, i);
    assert LeaderOk(c, i);
    AcceptAccepts(c, c', i, s.term, |s.log| + 1);
  }

  lemma LeaderLog(c: Cluster, i: nat)
    requires LogInv(c) && i < |c.servers| && c.servers[i].role == Leader
    ensures c.servers[i].term in c.aux.hist && c.servers[i].log == c.aux.hist[c.servers[i].term]
  {
    assert ServerOk(c.aux, c.servers[i], i);
  }

  /** Once a later term has a leader, no server that voted for it can accept more in this term, so a
      new entry of this term is not choosable. */
  lemma TooLate(c: Cluster, c': Cluster, i: nat, u: nat)
    requires LogInv(c) && AcceptsOk(c) && StepOf(c, c', i) && u in c.aux.hist && c.servers[i].term < u
    requires c.servers[i].term in c.aux.hist && c'.servers[i].term == c.servers[i].term
    ensures !Choosable(c', c.servers[i].term, |c.aux.hist[c.servers[i].term]|)
  {
    hide AcceptsOk;
    var t := c.servers[i].term;
    var j := |c.aux.hist[t]|;
    if Choosable(c', t, j) {
      var qs :| MayStore(c', t, j, qs);
      assert HistOk(c, u);
      var v := Meet(|c.servers|, qs, c.aux.elected[u].voters);
      assert VotedFor(c.aux, v, u, c.aux.elected[u].leader);
      VoterTerm(c, Pair(v, u));
      assert v != i && Acc(c, v, t) > j;
      AcceptedInHistory(c, v, t);
      assert false;
    }
  }

  lemma StartAllKeep(c: Cluster, c': Cluster, i: nat, e: LogEntry)
    requires AllKeep(c) && AcceptsOk(c) && StepOf(c, c', i) && c.servers[i].log != []
    requires var s := c.servers[i];
             s.term in c.aux.hist && c'.servers[i].log == s.log + [e] == c'.aux.hist[s.term] &&
             c'.aux.hist == c.aux.hist[s.term := c'.servers[i].log] &&
             (forall t: nat :: t != s.term ==> Acc(c', i, t) == Acc(c, i, t))
    ensures AllKeep(c')
  {
    hide Choosable, AcceptsOk;
    var s := c.servers[i];
    forall t: nat, j: nat
      ensures Keeps(c', i, t, j)
    {
      if t != s.term && j < Acc(c', i, t) && Own(c', t, j) && Choosable(c', t, j) {
        assert Keeps(c, i, t, j);
        ChoosableBack(c, c', t, j);
        assert c'.servers[i].log[..j + 1] == s.log[..j + 1];
      }
    }
    AllKeepFrame(c, c', i);
  }

  lemma StartAllPass(c: Cluster, c': Cluster, i: nat, e: LogEntry)
    requires LogInv(c) && AllPass(c) && AcceptsOk(c) && StepOf(c, c', i) && c'.servers[i].term == c.servers[i].term
    requires var s := c.servers[i];
             s.term in c.aux.hist && s.log == c.aux.hist[s.term] && c'.aux.hist == c.aux.hist[s.term := s.log + [e]]
    ensures AllPass(c')
  {
    hide Choosable, AcceptsOk, LogInv;
    var t0 := c.servers[i].term;
    forall t: nat, u: nat, j: nat
      ensures Passes(c', t, u, j)
    {
      assert Passes(c, t, u, j);
      if t < u && u in c'.aux.hist && Own(c', t, j) {
        if Own(c, t, j) {
          PassesFrame(c, c', t, u, j);
        } else {
          assert t == t0 && j == |c.aux.hist[t0]|;
          TooLate(c, c', i, u);
        }
      }
    }
  }

  lemma StartBacked(c: Cluster, c': Cluster, i: nat, e: LogEntry)
    requires StepOf(c, c', i) && ServerBacked(c, i) && c'.servers[i].log == c.servers[i].log + [e]
    requires c'.servers[i].commitIndex == c.servers[i].commitIndex && c'.servers[i].term == c.servers[i].term
    requires c'.servers[i].lastApplied == c.servers[i].lastApplied
    ensures ServerBacked(c', i)
  {
    hide Chosen;
    var s, s' := c.servers[i], c'.servers[i];
    if s.commitIndex > 0 {
      var t: nat, k: nat :| Backs(c, s.log, s.commitIndex, t, k) && t <= s.term && (t == s.term ==> Acc(c, i, t) > s.commitIndex);
      assert s'.log[..s.commitIndex + 1] == s.log[..s.commitIndex + 1];
      assert Backs(c, s'.log, s.commitIndex, t, k);
      BacksForward(c, c', s'.log, s.commitIndex, t, k);
    }
  }

  lemma StartKeepsCommit(c: Cluster, i: nat, command: Content)
    requires CommitInv(c) && Enabled(c, ClientStart(i, command)) && Shaped(c)
    ensures CommitInv(DoStart(c, i, command))
  {
    hide LogInv, AllKeep, AllPass, VotesOk, AcceptsOk, ServerBacked, CandidateOk, MsgsOk, ApplicationsOk;
    var s, c' := c.servers[i], DoStart(c, i, command);
    if s.role == Leader {
      LogInvNext(c, ClientStart(i, command));
      StartStep(c, i, command);
      StartAllKeep(c, c', i, LogEntry(command, s.term));
      StartAllPass(c, c', i, LogEntry(command, s.term));
      InvVotes(c);
      VotesOkFrame(c, c');
      assert ServerBacked(c, i) && LeaderOk(c, i);
      StartBacked(c, c', i, LogEntry(command, s.term));
      assert LeaderOk(c', i);
      assert CandidateOk(c', i) by { NotCandidate(c', i); }
      ServersOkFrame(c, c', i);
      MsgsOkFrame(c, c', i);
      ApplicationsOkFrame(c, c', i);
    } else {
      assert c' == c;
    }
  }

  lemma NotCandidate(c: Cluster, i: nat)
    requires i < |c.servers| && c.servers[i].term in c.aux.hist
    ensures CandidateOk(c, i)
  {
  }

  // ---------------------------------------------------------------- the initial cluster

  lemma CommitInvInit(n: nat)
    ensures CommitInv(Init(n))
  {
    hide LogInv;
    LogInvInit(n);
    InitShaped(n);
  }
}
