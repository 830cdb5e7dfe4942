/** Building runs of the cluster that meet all assumptions but one, a few steps at a time. */
module RaftRuns {
  import opened RaftModel
  import opened RaftCluster
  import opened RaftVotes
  import opened RaftLogs
  import opened RaftCommit
  import opened RaftSafety

  /** The assumptions of the theorems, one by one. */
  datatype Clause = Promotion | DemotionOnVote | DemotionOnAppend | Sending | Counting | Persisting | InOrder

  predicate Meets(c: Cluster, step: Step, clause: Clause)
    requires Shaped(c) && Enabled(c, step)
  {
    var s := c.servers[step.i];
    match clause
    case Promotion => step.TakeOffice? ==> s.term == s.round.args.term
    case DemotionOnVote => step.OnVoteReq? ==> Demotes(s, step.m.vargs.term)
    case DemotionOnAppend => step.OnAppReq? ==> Demotes(s, step.m.aargs.term)
    case Sending => step.SendRound? ==> s.role == Leader
    case Counting => Counted(c, step)
    case Persisting => step.Crash? ==> Ordered(c, step)
    case InOrder => step.OnAppReq? ==> Ordered(c, step)
  }

  /** Together they are what the theorems ask. */
  lemma AllClauses(c: Cluster, step: Step)
    requires Shaped(c) && Enabled(c, step)
    ensures (forall k :: Meets(c, step, k)) <==> Guarded(c, step) && Counted(c, step) && Ordered(c, step)
  {
    hide Counted, HandleAppend;
    if forall k :: Meets(c, step, k) {
      assert Meets(c, step, Promotion) && Meets(c, step, DemotionOnVote) && Meets(c, step, DemotionOnAppend) && Meets(c, step, Sending);
      assert Meets(c, step, Counting) && Meets(c, step, Persisting) && Meets(c, step, InOrder);
    }
  }

  /** Log matching assumes the leader guards only; state machine safety assumes everything. */
  predicate IsGuard(k: Clause)
  {
    k.Promotion? || k.DemotionOnVote? || k.DemotionOnAppend? || k.Sending?
  }

  /** A step that meets every assumption of the theorem that assumes `w`, except, perhaps, `w` itself. */
  ghost predicate Allowed(c: Cluster, step: Step, w: Clause)
  {
    Shaped(c) && Enabled(c, step) && forall k :: k != w && (IsGuard(w) ==> IsGuard(k)) ==> Meets(c, step, k)
  }

  lemma Proper(c: Cluster, step: Step, w: Clause)
    requires Shaped(c) && Enabled(c, step) && Guarded(c, step) && Counted(c, step) && Ordered(c, step)
    ensures Allowed(c, step, w)
  {
    hide Meets, Guarded, Counted, Ordered;
    AllClauses(c, step);
  }

  /** The steps lead from `c` to `c'`, all of them allowed. */
  ghost predicate Leads(c: Cluster, steps: seq<Step>, c': Cluster, w: Clause)
    decreases steps
  {
    if steps == [] then c' == c
    else Allowed(c, steps[0], w) && Leads(Next(c, steps[0]), steps[1..], c', w)
  }

  lemma {:induction false} LeadsOn(a: Cluster, p: seq<Step>, b: Cluster, step: Step, w: Clause)
    requires Leads(a, p, b, w) && Allowed(b, step, w)
    ensures Leads(a, p + [step], Next(b, step), w)
    decreases p
  {
    hide Next, Meets, Shaped, Enabled;
    if p == [] {
      assert p + [step] == [step];
      assert Leads(Next(b, step), [step][1..], Next(b, step), w);
    } else {
      LeadsOn(Next(a, p[0]), p[1..], b, step, w);
      assert (p + [step])[1..] == p[1..] + [step];
    }
  }

  ghost predicate Reaches(c: Cluster, c': Cluster, w: Clause)
  {
    exists steps :: Leads(c, steps, c', w)
  }

  lemma ReachesNext(a: Cluster, b: Cluster, step: Step, w: Clause)
    requires Reaches(a, b, w) && Allowed(b, step, w)
    ensures Reaches(a, Next(b, step), w) && Shaped(Next(b, step))
  {
    hide Next, Leads, Meets, Enabled;
    var steps :| Leads(a, steps, b, w);
    LeadsOn(a, steps, b, step, w);
    NextShaped(b, step);
  }

  /** The states passed through. */
  ghost function Trace(c: Cluster, steps: seq<Step>, c': Cluster, w: Clause): (states: seq<Cluster>)
    requires Leads(c, steps, c', w)
    ensures |states| == |steps| + 1 && states[0] == c && states[|steps|] == c'
    decreases steps
  {
    if steps == [] then [c] else [c] + Trace(Next(c, steps[0]), steps[1..], c', w)
  }

  lemma {:induction false} TraceSteps(c: Cluster, steps: seq<Step>, c': Cluster, w: Clause, k: nat)
    requires Leads(c, steps, c', w) && k < |steps|
    ensures var states := Trace(c, steps, c', w);
            Allowed(states[k], steps[k], w) && states[k + 1] == Next(states[k], steps[k])
    decreases steps
  {
    hide Next, Meets, Shaped, Enabled;
    if k > 0 {
      TraceSteps(Next(c, steps[0]), steps[1..], c', w, k - 1);
    }
  }

  /** So whatever is reached is reached by a run of the cluster. */
  lemma ReachedByRun(n: nat, c: Cluster, w: Clause) returns (states: seq<Cluster>, steps: seq<Step>)
    requires Reaches(Init(n), c, w)
    ensures IsRun(n, states, steps) && states[|steps|] == c
    ensures forall k :: 0 <= k < |steps| ==> Allowed(states[k], steps[k], w)
  {
    hide Init, Next, Leads, Trace, Meets, Enabled;
    steps :| Leads(Init(n), steps, c, w);
    states := Trace(Init(n), steps, c, w);
    forall k: nat | k < |steps|
      ensures Allowed(states[k], steps[k], w) && states[k + 1] == Next(states[k], steps[k])
    {
      TraceSteps(Init(n), steps, c, w, k);
    }
  }

  lemma StartOf(n: nat, w: Clause) returns (c: Cluster)
    ensures c == Init(n) && Reaches(c, c, w) && Shaped(c) && |c.servers| == n
    ensures forall i :: 0 <= i < n ==> Resting(c.servers[i], 0, [PLACEHOLDER])
    ensures forall q: nat, t: nat :: Acc(c, q, t) == 0
  {
    c := Init(n);
    InitShaped(n);
    assert Leads(c, [], c, w);
  }

  // ---------------------------------------------------------------- what is known of a server

  /** Neither a leader nor in the leader routine, nothing committed. */
  ghost predicate Plain(s: Server, term: nat, log: Log)
  {
    s.role != Leader && s.office == NONE && s.term == term && s.log == log && s.commitIndex == 0 && s.lastApplied == 0
  }

  /** In the follower routine, with no signal left over. */
  ghost predicate Resting(s: Server, term: nat, log: Log)
  {
    Plain(s, term, log) && s.role == Follower && !s.signal && !s.round.open
  }

  /** A leader of this term, nothing committed. */
  ghost predicate Leading(s: Server, term: nat, log: Log, next: seq<int>, matched: seq<int>)
  {
    s.role == Leader && s.term == term == s.office && s.log == log && s.commitIndex == 0 && s.lastApplied == 0 &&
    s.nextIndex == next && s.matchIndex == matched
  }

  /** Only server `i` changes; what is accepted changes at most for `i` in term `t`. */
  ghost predicate Only(c: Cluster, c': Cluster, i: nat, t: nat)
  {
    |c'.servers| == |c.servers| && i < |c.servers| && c'.servers == c.servers[i := c'.servers[i]] && c.net <= c'.net &&
    c.aux.applied <= c'.aux.applied && forall q: nat, u: nat :: q != i || u != t ==> Acc(c', q, u) == Acc(c, q, u)
  }

  /** The server has learnt of the term: it has stepped down and been signalled unless it was a follower, and
      its routine goes on. */
  ghost predicate Informed(s: Server, s': Server, term: nat)
  {
    s'.term == term && s'.log == s.log && s'.role == Follower && s'.signal == (s.signal || s.role != Follower) &&
    s'.commitIndex == s.commitIndex && s'.lastApplied == s.lastApplied && s'.office == s.office && s'.beat == s.beat &&
    s'.matchIndex == s.matchIndex && s'.nextIndex == s.nextIndex && s'.round == s.round
  }

  /** The server's channel takes a signal, should one be sent. */
  predicate Open(s: Server)
  {
    s.role != Follower ==> !s.signal
  }

  // ---------------------------------------------------------------- elections

  /** Server `i` opens a round for the next term. */
  lemma Ask(a: Cluster, c: Cluster, i: nat, term: nat, log: Log, w: Clause) returns (c': Cluster)
    requires Reaches(a, c, w) && Shaped(c) && i < |c.servers| && Plain(c.servers[i], term, log)
    ensures Reaches(a, c', w) && Shaped(c') && Only(c, c', i, term + 1) && c'.aux.accepted == c.aux.accepted
    ensures var s' := c'.servers[i];
            Plain(s', term + 1, log) && s'.round == Round(true, VoteArgs(term + 1, i, |log| - 1, LastTerm(log)), {i}) &&
            s'.signal == c.servers[i].signal && s'.role == (if c.servers[i].round.open then c.servers[i].role else Candidate) &&
            VoteReq(s'.round.args, log) in c'.net
  {
    hide Reaches;
    c' := Next(c, Elect(i));
    Proper(c, Elect(i), w);
    ReachesNext(a, c, Elect(i), w);
  }

  /** Server `v` learns of the round of `i`. */
  lemma Hear(a: Cluster, c: Cluster, i: nat, v: nat, args: VoteArgs, log: Log, w: Clause) returns (c': Cluster)
    requires Reaches(a, c, w) && Shaped(c) && v < |c.servers| && args.candidateId == i != v && VoteReq(args, log) in c.net
    requires c.servers[v].term < args.term && Open(c.servers[v])
    ensures Reaches(a, c', w) && Shaped(c') && Only(c, c', v, args.term) && c'.aux.accepted == c.aux.accepted
    ensures Informed(c.servers[v], c'.servers[v], args.term)
    ensures var s := c.servers[v]; VoteRep(v, args, VoteReply(s.term, LogNewer(s.log, args))) in c'.net
  {
    hide Reaches, LogNewer;
    var step := OnVoteReq(v, VoteReq(args, log));
    c' := Next(c, step);
    Proper(c, step, w);
    ReachesNext(a, c, step, w);
  }

  /** Server `v` votes for `i`, and `i` counts the vote. */
  lemma GetVote(a: Cluster, c: Cluster, i: nat, v: nat, log: Log, w: Clause) returns (c': Cluster)
    requires Reaches(a, c, w) && Shaped(c) && i < |c.servers| && v < |c.servers| && i != v && Open(c.servers[v])
    requires var s := c.servers[i];
             s.round.open && s.round.args.candidateId == i && s.term == s.round.args.term && VoteReq(s.round.args, log) in c.net &&
             c.servers[v].term < s.term && c.servers[v].log != [] && LogNewer(c.servers[v].log, s.round.args)
    ensures Reaches(a, c', w) && Shaped(c') && |c'.servers| == |c.servers| && c.net <= c'.net
    ensures c'.aux.accepted == c.aux.accepted && c.aux.applied <= c'.aux.applied
    ensures c'.servers == c.servers[v := c'.servers[v]][i := c'.servers[i]]
    ensures var s := c.servers[i]; c'.servers[i] == s.(round := s.round.(granted := s.round.granted + {v}))
    ensures Informed(c.servers[v], c'.servers[v], c.servers[i].term)
  {
    hide Reaches, LogNewer;
    var args := c.servers[i].round.args;
    var c1 := Hear(a, c, i, v, args, log, w);
    var step := OnVoteRep(i, VoteRep(v, args, VoteReply(c.servers[v].term, true)));
    c' := Next(c1, step);
    Proper(c1, step, w);
    ReachesNext(a, c1, step, w);
  }

  /** Server `i` takes office. */
  lemma Office(a: Cluster, c: Cluster, i: nat, term: nat, log: Log, w: Clause) returns (c': Cluster)
    requires Reaches(a, c, w) && Shaped(c) && i < |c.servers| && Plain(c.servers[i], term, log)
    requires var s := c.servers[i]; s.round.open && |s.round.granted| > 1 && |s.round.granted| > |c.servers| / 2 && s.round.args.term == term
    ensures Reaches(a, c', w) && Shaped(c') && Only(c, c', i, term) && c'.servers[i].signal == c.servers[i].signal
    ensures var n := |c.servers|; Leading(c'.servers[i], term, log, seq(n, _ => |log|), seq(n, _ => 0)[i := |log| - 1])
  {
    hide Reaches;
    c' := Next(c, TakeOffice(i));
    Proper(c, TakeOffice(i), w);
    ReachesNext(a, c, TakeOffice(i), w);
  }

  /** Server `i`, which has stepped down, reads the signal and leaves the leader routine. */
  lemma Quit(a: Cluster, c: Cluster, i: nat, w: Clause) returns (c': Cluster)
    requires Reaches(a, c, w) && Shaped(c) && i < |c.servers| && c.servers[i].signal && c.servers[i].office != NONE
    ensures Reaches(a, c', w) && Shaped(c') && Only(c, c', i, c.servers[i].term) && c'.aux.accepted == c.aux.accepted
    ensures c'.servers[i] == TakeSignal(c.servers[i])
  {
    hide Reaches;
    c' := Next(c, Leave(i));
    Proper(c, Leave(i), w);
    ReachesNext(a, c, Leave(i), w);
  }

  // ---------------------------------------------------------------- commands and requests

  lemma Take(a: Cluster, c: Cluster, i: nat, x: Content, term: nat, log: Log, next: seq<int>, matched: seq<int>, w: Clause)
    returns (c': Cluster)
    requires Reaches(a, c, w) && Shaped(c) && i < |c.servers| == |matched| && Leading(c.servers[i], term, log, next, matched)
    ensures Reaches(a, c', w) && Shaped(c') && Only(c, c', i, term) && c'.servers[i].signal == c.servers[i].signal
    ensures Leading(c'.servers[i], term, log + [LogEntry(x, term)], next, matched[i := matched[i] + 1])
  {
    hide Reaches;
    c' := Next(c, ClientStart(i, x));
    Proper(c, ClientStart(i, x), w);
    ReachesNext(a, c, ClientStart(i, x), w);
  }

  function Request(i: nat, term: nat, log: Log, next: nat): AppendArgs
    requires 1 <= next <= |log|
  {
    AppendArgs(term, i, next - 1, log[next - 1].term, log[next..], 0)
  }

  predicate InLog(next: seq<int>, log: Log)
  {
    forall p :: 0 <= p < |next| ==> 1 <= next[p] <= |log|
  }

  /** A request of this round to `v` is under way. */
  predicate Posted(c: Cluster, beat: nat, i: nat, v: nat, term: nat, log: Log, next: seq<int>)
    requires v < |next| && 1 <= next[v] <= |log|
  {
    AppReq(v, beat, Request(i, term, log, next[v]), log) in c.net
  }

  /** The leader `i` sends a round of requests. */
  lemma Post(a: Cluster, c: Cluster, i: nat, term: nat, log: Log, next: seq<int>, matched: seq<int>, w: Clause)
    returns (c': Cluster)
    requires Reaches(a, c, w) && Shaped(c) && i < |c.servers| == |next| && InLog(next, log)
    requires Leading(c.servers[i], term, log, next, matched)
    ensures Reaches(a, c', w) && Shaped(c') && Only(c, c', i, term) && c'.aux == c.aux
    ensures c'.servers[i] == c.servers[i].(beat := c.servers[i].beat + 1)
    ensures forall v :: 0 <= v < |next| && v != i ==> Posted(c', c'.servers[i].beat, i, v, term, log, next)
  {
    hide Reaches;
    c' := Next(c, SendRound(i));
    Proper(c, SendRound(i), w);
    ReachesNext(a, c, SendRound(i), w);
    forall v | 0 <= v < |next| && v != i
      ensures Posted(c', c'.servers[i].beat, i, v, term, log, next)
    {
      assert ArgsFor(c'.servers[i], v) == Request(i, term, log, next[v]);
    }
  }

  /** A server that a request of this term finds as it should, with nothing committed. */
  ghost predicate Ready(f: Server, term: nat)
  {
    f.commitIndex == 0 && f.lastApplied == 0 && (f.term < term || (f.term == term && f.role != Leader)) && Open(f)
  }

  /** What a request leaves alone; a server of an earlier term steps down and is signalled. */
  ghost predicate Served(f: Server, f': Server, term: nat, log: Log)
  {
    f'.role != Leader && f'.term == term && f'.log == log && f'.commitIndex == 0 && f'.lastApplied == 0 &&
    f'.office == f.office && f'.beat == f.beat && f'.round == f.round && f'.matchIndex == f.matchIndex && f'.nextIndex == f.nextIndex &&
    f'.signal == (f.signal || (f.term < term && f.role != Follower)) && (f.term < term || f.role == Follower ==> f'.role == Follower)
  }

  /** Server `v` takes over the log of a request. */
  lemma Receive(a: Cluster, c: Cluster, v: nat, beat: nat, args: AppendArgs, log: Log, w: Clause) returns (c': Cluster)
    requires Reaches(a, c, w) && Shaped(c) && v < |c.servers| && AppReq(v, beat, args, log) in c.net && args.leaderCommit == 0
    requires var f := c.servers[v]; Ready(f, args.term) && Accepts(f.log, args) && Spliced(f.log, args) == log
    requires Acc(c, v, args.term) <= |log|
    ensures Reaches(a, c', w) && Shaped(c') && Only(c, c', v, args.term) && Served(c.servers[v], c'.servers[v], args.term, log)
    ensures AppRep(v, beat, args, AppendReply(c.servers[v].term, true, 0)) in c'.net
    ensures var f, at := c.servers[v], args.prevLogIndex + 1;
            c'.servers[v].saved.term == args.term && c'.servers[v].saved.log == f.log[..at + MatchLength(f.log, at, args.entries)]
  {
    hide Reaches, Spliced, MatchLength;
    var step := OnAppReq(v, AppReq(v, beat, args, log));
    c' := Next(c, step);
    Proper(c, step, w);
    ReachesNext(a, c, step, w);
    assert NewlyApplied(v, c.servers[v], c'.servers[v]) == {};
  }

  /** Server `v` rejects a request. */
  lemma Reject(a: Cluster, c: Cluster, v: nat, beat: nat, args: AppendArgs, log: Log, hint: int, w: Clause) returns (c': Cluster)
    requires Reaches(a, c, w) && Shaped(c) && v < |c.servers| && AppReq(v, beat, args, log) in c.net
    requires var f := c.servers[v]; Ready(f, args.term) && !Accepts(f.log, args) && NextHint(f.log, args.prevLogIndex) == hint
    ensures Reaches(a, c', w) && Shaped(c') && Only(c, c', v, args.term) && c'.aux.accepted == c.aux.accepted
    ensures Served(c.servers[v], c'.servers[v], args.term, c.servers[v].log)
    ensures AppRep(v, beat, args, AppendReply(c.servers[v].term, false, hint)) in c'.net
  {
    hide Reaches, NextHint;
    var step := OnAppReq(v, AppReq(v, beat, args, log));
    c' := Next(c, step);
    Proper(c, step, w);
    ReachesNext(a, c, step, w);
  }

  /** Server `v` rejects the leader's last request, and the leader follows the hint. */
  lemma Refuse(a: Cluster, c: Cluster, i: nat, v: nat, hint: int, term: nat, log: Log, next: seq<int>, matched: seq<int>, w: Clause)
    returns (c': Cluster)
    requires Reaches(a, c, w) && Shaped(c) && i < |c.servers| == |next| == |matched| && v < |c.servers| && i != v && 1 <= next[v] <= |log|
    requires Leading(c.servers[i], term, log, next, matched)
    requires Posted(c, c.servers[i].beat, i, v, term, log, next)
    requires var f := c.servers[v];
             Ready(f, term) && !Accepts(f.log, Request(i, term, log, next[v])) && NextHint(f.log, next[v] - 1) == hint >= 0
    ensures Reaches(a, c', w) && Shaped(c') && |c'.servers| == |c.servers| && c.net <= c'.net
    ensures c'.aux.accepted == c.aux.accepted && c.aux.applied <= c'.aux.applied
    ensures c'.servers == c.servers[v := c'.servers[v]][i := c'.servers[i]]
    ensures c'.servers[i] == c.servers[i].(nextIndex := next[v := hint])
    ensures Served(c.servers[v], c'.servers[v], term, c.servers[v].log)
  {
    hide Reaches, NextHint;
    var args, beat := Request(i, term, log, next[v]), c.servers[i].beat;
    var c1 := Reject(a, c, v, beat, args, log, hint, w);
    var step := OnAppRep(i, AppRep(v, beat, args, AppendReply(c.servers[v].term, false, hint)));
    c' := Next(c1, step);
    Proper(c1, step, w);
    ReachesNext(a, c1, step, w);
    assert NewlyApplied(i, c1.servers[i], c'.servers[i]) == {};
  }

  /** The leader counts a success of its last round that commits nothing yet. */
  lemma Tally(a: Cluster, c: Cluster, i: nat, v: nat, args: AppendArgs, r: AppendReply,
              term: nat, log: Log, next: seq<int>, matched: seq<int>, w: Clause)
    returns (c': Cluster)
    requires Reaches(a, c, w) && Shaped(c) && i < |c.servers| == |next| == |matched| && v < |c.servers| && log != []
    requires Leading(c.servers[i], term, log, next, matched) && AppRep(v, c.servers[i].beat, args, r) in c.net
    requires args.leaderId == i && args.term == term && r.success && r.term <= term && args.entries != [] && log[0].term < term
    requires CommitPoint(matched[v := args.prevLogIndex + |args.entries|]) == 0
    ensures Reaches(a, c', w) && Shaped(c') && Only(c, c', i, term) && c'.aux.accepted == c.aux.accepted
    ensures var m := args.prevLogIndex + |args.entries|;
            c'.servers[i] == c.servers[i].(nextIndex := next[v := m + 1], matchIndex := matched[v := m])
  {
    hide Reaches, CommitPoint;
    var step := OnAppRep(i, AppRep(v, c.servers[i].beat, args, r));
    c' := Next(c, step);
    Proper(c, step, w);
    ReachesNext(a, c, step, w);
    assert NewlyApplied(i, c.servers[i], c'.servers[i]) == {};
  }

  /** The leader counts a success of its last round that commits, and applies the entry at index 1. */
  lemma Commit(a: Cluster, c: Cluster, i: nat, v: nat, args: AppendArgs, r: AppendReply,
               term: nat, log: Log, next: seq<int>, matched: seq<int>, w: Clause)
    returns (c': Cluster)
    requires Reaches(a, c, w) && Shaped(c) && i < |c.servers| == |next| == |matched| && v < |c.servers|
    requires Leading(c.servers[i], term, log, next, matched) && AppRep(v, c.servers[i].beat, args, r) in c.net
    requires args.leaderId == i && args.term == term && r.success && r.term <= term && args.entries != []
    requires var p := CommitPoint(matched[v := args.prevLogIndex + |args.entries|]); 1 <= p < |log| && log[p].term >= term
    ensures Reaches(a, c', w) && Shaped(c') && Only(c, c', i, term) && c'.aux.accepted == c.aux.accepted
    ensures Application(i, 1, log[1].content) in c'.aux.applied
  {
    hide Reaches, CommitPoint;
    var step := OnAppRep(i, AppRep(v, c.servers[i].beat, args, r));
    c' := Next(c, step);
    Proper(c, step, w);
    ReachesNext(a, c, step, w);
    assert Application(i, 1, log[1].content) in NewlyApplied(i, c.servers[i], c'.servers[i]);
  }

  // ---------------------------------------------------------------- three and five servers

  ghost predicate Votes(s: Server, i: nat, term: nat, log: Log)
  {
    s.term <= term && Open(s) && s.log != [] && log != [] && LogNewer(s.log, VoteArgs(term + 1, i, |log| - 1, LastTerm(log)))
  }

  /** Server `i` of three wins the term after `term` with the vote of `v`. */
  lemma WinThree(a: Cluster, c: Cluster, i: nat, v: nat, term: nat, log: Log, w: Clause) returns (c': Cluster)
    requires Reaches(a, c, w) && Shaped(c) && |c.servers| == 3 && i < 3 && v < 3 && i != v
    requires Plain(c.servers[i], term, log) && Votes(c.servers[v], i, term, log)
    ensures Reaches(a, c', w) && Shaped(c') && |c'.servers| == 3 && c.net <= c'.net && c.aux.applied <= c'.aux.applied
    ensures c'.servers == c.servers[v := c'.servers[v]][i := c'.servers[i]] && c'.servers[i].signal == c.servers[i].signal
    ensures forall q: nat, u: nat :: q != i || u != term + 1 ==> Acc(c', q, u) == Acc(c, q, u)
    ensures Leading(c'.servers[i], term + 1, log, [|log|, |log|, |log|], [0, 0, 0][i := |log| - 1])
    ensures Informed(c.servers[v], c'.servers[v], term + 1)
    ensures VoteReq(VoteArgs(term + 1, i, |log| - 1, LastTerm(log)), log) in c'.net
  {
    hide Reaches, LogNewer;
    var c1 := Ask(a, c, i, term, log, w);
    var c2 := GetVote(a, c1, i, v, log, w);
    assert c2.servers[i].round.granted == {i, v};
    c' := Office(a, c2, i, term + 1, log, w);
    assert seq(3, _ => |log|) == [|log|, |log|, |log|] && seq(3, _ => 0) == [0, 0, 0];
  }

  /** Server `i` of five wins the term after `term` with the votes of `u` and `v`. */
  lemma WinFive(a: Cluster, c: Cluster, i: nat, u: nat, v: nat, term: nat, log: Log, w: Clause) returns (c': Cluster)
    requires Reaches(a, c, w) && Shaped(c) && |c.servers| == 5 && i < 5 && u < 5 && v < 5 && i != u && i != v && u != v
    requires Plain(c.servers[i], term, log) && Votes(c.servers[u], i, term, log) && Votes(c.servers[v], i, term, log)
    ensures Reaches(a, c', w) && Shaped(c') && |c'.servers| == 5 && c.net <= c'.net && c.aux.applied <= c'.aux.applied
    ensures c'.servers == c.servers[u := c'.servers[u]][v := c'.servers[v]][i := c'.servers[i]]
    ensures c'.servers[i].signal == c.servers[i].signal
    ensures forall q: nat, t: nat :: q != i || t != term + 1 ==> Acc(c', q, t) == Acc(c, q, t)
    ensures var k := |log|; Leading(c'.servers[i], term + 1, log, [k, k, k, k, k], [0, 0, 0, 0, 0][i := k - 1])
    ensures Informed(c.servers[u], c'.servers[u], term + 1) && Informed(c.servers[v], c'.servers[v], term + 1)
    ensures VoteReq(VoteArgs(term + 1, i, |log| - 1, LastTerm(log)), log) in c'.net
  {
    hide Reaches, LogNewer;
    var c1 := Ask(a, c, i, term, log, w);
    var c2 := GetVote(a, c1, i, u, log, w);
    var c3 := GetVote(a, c2, i, v, log, w);
    assert c3.servers[i].round.granted == {i, u, v};
    c' := Office(a, c3, i, term + 1, log, w);
    var k := |log|;
    assert seq(5, _ => k) == [k, k, k, k, k] && seq(5, _ => 0) == [0, 0, 0, 0, 0];
  }
}
