/** A cluster of servers and the messages between them, as a system of steps. Each step is one
    lock-protected region of one server. Messages are never removed from the network, so they can be
    lost, delayed, reordered and delivered again. */
module RaftCluster {
  import opened RaftModel

  /** Requests carry, besides what is sent, the sender's whole log at send time; no handler reads it. The round
      of an append request stands for the channel on which its reply is awaited. */
  datatype Msg =
    | VoteReq(vargs: VoteArgs, vlog: Log)
    | VoteRep(voter: nat, vargs: VoteArgs, vreply: VoteReply)
    | AppReq(dst: nat, beat: nat, aargs: AppendArgs, full: Log)
    | AppRep(from: nat, beat: nat, aargs: AppendArgs, areply: AppendReply)

  datatype Vote = Vote(candidate: nat, voterLog: Log, candLog: Log)

  datatype Election = Election(leader: nat, voters: set<nat>, base: nat)

  datatype Win = Win(term: nat, server: nat, voters: set<nat>)

  datatype Pair = Pair(server: nat, term: nat)

  datatype Application = Application(server: nat, index: int, content: Content)

  /** What happened so far; no step depends on it. `votes`: each server's vote in each term, with the
      logs compared. `wins`: rounds whose tally passed half. `elected`: promotions. `hist`: the log of
      each term's leader. `accepted`: how much of it each server has taken over. `applied`: all
      applied commands. */
  datatype Aux = Aux(
    votes: map<Pair, Vote>, wins: set<Win>, elected: map<nat, Election>, hist: map<nat, Log>,
    accepted: map<Pair, nat>, applied: set<Application>)

  datatype Cluster = Cluster(servers: seq<Server>, net: set<Msg>, aux: Aux)

  datatype Step =
    | Elect(i: nat)
    | OnVoteReq(i: nat, m: Msg)
    | OnVoteRep(i: nat, m: Msg)
    | TakeOffice(i: nat)
    | Leave(i: nat)
    | Reenter(i: nat)
    | SendRound(i: nat)
    | OnAppReq(i: nat, m: Msg)
    | OnAppRep(i: nat, m: Msg)
    | ClientStart(i: nat, command: Content)
    | Crash(i: nat)

  function Init(n: nat): Cluster
  {
    Cluster(seq(n, i requires 0 <= i < n => Boot(i, n, Saved(0, NONE, [PLACEHOLDER]))), {}, Aux(map[], {}, map[], map[], map[], {}))
  }

  ghost predicate Shaped(c: Cluster)
  {
    forall i: nat :: i < |c.servers| ==> ServerShaped(c.servers[i], i, |c.servers|)
  }

  /** What the code requires of a step, whatever the history. A server without an open round and without office
      is in the follower routine or between routines. A reply is read only from the channel of the last round;
      the term tells rounds from before a restart apart. Votes are compared with half of the servers when another
      server's vote has been counted. */
  predicate Enabled(c: Cluster, step: Step)
  {
    step.i < |c.servers| &&
    var s := c.servers[step.i];
    match step
    case Elect(i) => s.role != Leader && s.office == NONE
    case OnVoteReq(i, m) => m in c.net && m.VoteReq? && m.vargs.candidateId != i
    case OnVoteRep(i, m) =>
      m in c.net && m.VoteRep? && s.round.open && s.round.args == m.vargs && m.vargs.candidateId == i
    case TakeOffice(i) => s.round.open && |s.round.granted| > 1 && |s.round.granted| > |c.servers| / 2
    case Leave(i) => s.signal && (s.round.open || s.office != NONE)
    case Reenter(i) => s.role == Leader && s.office == NONE
    case SendRound(i) => s.office != NONE && forall p :: 0 <= p < |s.nextIndex| && p != i ==> 1 <= s.nextIndex[p] <= |s.log|
    case OnAppReq(i, m) => m in c.net && m.AppReq? && m.dst == i
    case OnAppRep(i, m) =>
      m in c.net && m.AppRep? && m.from < |c.servers| && m.aargs.leaderId == i &&
      s.office != NONE && m.aargs.term >= s.office && m.beat == s.beat
    case ClientStart(i, _) => true
    case Crash(i) => true
  }

  function Put(c: Cluster, i: nat, s: Server): Cluster
    requires i < |c.servers|
  {
    c.(servers := c.servers[i := s])
  }

  function Send(c: Cluster, m: Msg): Cluster
  {
    c.(net := c.net + {m})
  }

  function RecordVote(aux: Aux, i: nat, term: nat, v: Vote): Aux
  {
    if Pair(i, term) in aux.votes then aux else aux.(votes := aux.votes[Pair(i, term) := v])
  }

  function AcceptedLength(aux: Aux, i: nat, term: nat): nat
  {
    if Pair(i, term) in aux.accepted then aux.accepted[Pair(i, term)] else 0
  }

  function RecordAccept(aux: Aux, i: nat, term: nat, len: nat): Aux
  {
    if len <= AcceptedLength(aux, i, term) then aux else aux.(accepted := aux.accepted[Pair(i, term) := len])
  }

  /** The commands applied when server `i` goes from `s` to `s'`. */
  function NewlyApplied(i: nat, s: Server, s': Server): set<Application>
  {
    set j | s.lastApplied < j <= s'.lastApplied && 0 <= j < |s'.log| :: Application(i, j, s'.log[j].content)
  }

  function RecordApplied(aux: Aux, i: nat, s: Server, s': Server): Aux
  {
    aux.(applied := aux.applied + NewlyApplied(i, s, s'))
  }

  function DoElect(c: Cluster, i: nat): Cluster
    requires Shaped(c) && Enabled(c, Elect(i))
  {
    var s := c.servers[i];
    var s' := BeginRound(s);
    Send(Put(c, i, s').(aux := RecordVote(c.aux, i, s'.term, Vote(i, s.log, s.log))), VoteReq(s'.round.args, s.log))
  }

  function DoVoteReq(c: Cluster, i: nat, m: Msg): Cluster
    requires Shaped(c) && Enabled(c, OnVoteReq(i, m))
  {
    var s := c.servers[i];
    var (s', r) := HandleVote(s, m.vargs);
    var aux := if r.voteGranted then RecordVote(c.aux, i, m.vargs.term, Vote(m.vargs.candidateId, s.log, m.vlog)) else c.aux;
    Send(Put(c, i, s').(aux := aux), VoteRep(i, m.vargs, r))
  }

  function DoVoteRep(c: Cluster, i: nat, m: Msg): Cluster
    requires Shaped(c) && Enabled(c, OnVoteRep(i, m))
  {
    var s' := CountVote(c.servers[i], m.voter, m.vreply);
    var won := s'.round.open && |s'.round.granted| > |c.servers| / 2;
    var aux := if won then c.aux.(wins := c.aux.wins + {Win(m.vargs.term, i, s'.round.granted)}) else c.aux;
    Put(c, i, s').(aux := aux)
  }

  function DoTakeOffice(c: Cluster, i: nat): Cluster
    requires Shaped(c) && Enabled(c, TakeOffice(i))
  {
    var s := c.servers[i];
    var aux := c.aux.(elected := c.aux.elected[s.term := Election(i, s.round.granted, |s.log|)],
                      hist := c.aux.hist[s.term := s.log]);
    Put(c, i, Promote(s, |c.servers|)).(aux := RecordAccept(aux, i, s.term, |s.log|))
  }

  function DoLeave(c: Cluster, i: nat): Cluster
    requires Shaped(c) && Enabled(c, Leave(i))
  {
    Put(c, i, TakeSignal(c.servers[i]))
  }

  /** A leader that has read an old signal starts its routine again. */
  function DoReenter(c: Cluster, i: nat): Cluster
    requires Shaped(c) && Enabled(c, Reenter(i))
  {
    Put(c, i, EnterOffice(c.servers[i], |c.servers|))
  }

  /** A round of requests to all others, and a new channel for the replies. */
  function DoSend(c: Cluster, i: nat): Cluster
    requires Shaped(c) && Enabled(c, SendRound(i))
  {
    var s' := c.servers[i].(beat := c.servers[i].beat + 1);
    Put(c, i, s').(net := c.net + Requests(s', i))
  }

  function Requests(s: Server, i: nat): set<Msg>
    requires forall p :: 0 <= p < |s.nextIndex| && p != i ==> 1 <= s.nextIndex[p] <= |s.log|
  {
    set p | 0 <= p < |s.nextIndex| && p != i :: AppReq(p, s.beat, ArgsFor(s, p), s.log)
  }

  function DoAppReq(c: Cluster, i: nat, m: Msg): Cluster
    requires Shaped(c) && Enabled(c, OnAppReq(i, m))
  {
    var s := c.servers[i];
    var (s', r) := HandleAppend(s, m.aargs);
    var aux := if r.success then RecordAccept(RecordApplied(c.aux, i, s, s'), i, m.aargs.term, |s'.log|) else c.aux;
    Send(Put(c, i, s').(aux := aux), AppRep(i, m.beat, m.aargs, r))
  }

  function DoAppRep(c: Cluster, i: nat, m: Msg): Cluster
    requires Shaped(c) && Enabled(c, OnAppRep(i, m))
  {
    var s := c.servers[i];
    var s' := CountAppend(s, m.from, m.aargs, m.areply);
    Put(c, i, s').(aux := RecordApplied(c.aux, i, s, s'))
  }

  function DoStart(c: Cluster, i: nat, command: Content): Cluster
    requires Shaped(c) && Enabled(c, ClientStart(i, command))
  {
    var s := c.servers[i];
    var s' := HandleStart(s, command);
    var aux := if s.role == Leader
               then RecordAccept(c.aux.(hist := c.aux.hist[s.term := s'.log]), i, s.term, |s'.log|) else c.aux;
    Put(c, i, s').(aux := aux)
  }

  function DoCrash(c: Cluster, i: nat): Cluster
    requires Shaped(c) && Enabled(c, Crash(i))
  {
    Put(c, i, Boot(i, |c.servers|, c.servers[i].saved))
  }

  function Next(c: Cluster, step: Step): Cluster
    requires Shaped(c) && Enabled(c, step)
  {
    match step
    case Elect(i) => DoElect(c, i)
    case OnVoteReq(i, m) => DoVoteReq(c, i, m)
    case OnVoteRep(i, m) => DoVoteRep(c, i, m)
    case TakeOffice(i) => DoTakeOffice(c, i)
    case Leave(i) => DoLeave(c, i)
    case Reenter(i) => DoReenter(c, i)
    case SendRound(i) => DoSend(c, i)
    case OnAppReq(i, m) => DoAppReq(c, i, m)
    case OnAppRep(i, m) => DoAppRep(c, i, m)
    case ClientStart(i, command) => DoStart(c, i, command)
    case Crash(i) => DoCrash(c, i)
  }

  ghost predicate ServerShaped(s: Server, i: nat, n: nat)
  {
    s.me == i && s.log != [] && s.saved.log != [] && |s.nextIndex| == n && |s.matchIndex| == n
  }

  lemma VotingShaped(s: Server, i: nat, n: nat, a: VoteArgs, from: nat, r: VoteReply)
    requires ServerShaped(s, i, n)
    ensures ServerShaped(BeginRound(s), i, n) && ServerShaped(HandleVote(s, a).0, i, n)
    ensures ServerShaped(CountVote(s, from, r), i, n) && ServerShaped(Boot(i, n, s.saved), i, n)
  {
  }

  lemma AppendShaped(s: Server, i: nat, n: nat, a: AppendArgs)
    requires ServerShaped(s, i, n)
    ensures ServerShaped(HandleAppend(s, a).0, i, n)
  {
    hide MatchLength, NextHint;
    var s1 := UpdateTerm(s, a.term);
    assert ServerShaped(s1, i, n);
    if Accepts(s1.log, a) {
      assert ServerShaped(Splice(s1, a), i, n);
    }
  }

  lemma LeadShaped(s: Server, i: nat, n: nat, peer: nat, a: AppendArgs, r: AppendReply, command: Content)
    requires ServerShaped(s, i, n) && peer < n && i < n
    ensures ServerShaped(CountAppend(s, peer, a, r), i, n)
    ensures ServerShaped(HandleStart(s, command), i, n) && ServerShaped(Promote(s, n), i, n)
    ensures ServerShaped(EnterOffice(s, n), i, n) && ServerShaped(TakeSignal(s), i, n)
  {
    hide CommitPoint;
  }

  lemma NextShaped(c: Cluster, step: Step)
    requires Shaped(c) && Enabled(c, step)
    ensures Shaped(Next(c, step)) && |Next(c, step).servers| == |c.servers|
  {
    hide BeginRound, HandleVote, CountVote, Promote, EnterOffice, TakeSignal, HandleAppend, CountAppend, HandleStart, Boot;
    var i, n := step.i, |c.servers|;
    var s := c.servers[i];
    VotingShaped(s, i, n, VoteArgs(0, 0, 0, 0), 0, VoteReply(0, false));
    LeadShaped(s, i, n, 0, AppendArgs(0, 0, 0, 0, [], 0), AppendReply(0, false, 0), Nil);
    match step
    case OnVoteReq(_, m) => VotingShaped(s, i, n, m.vargs, 0, VoteReply(0, false));
    case OnVoteRep(_, m) => VotingShaped(s, i, n, m.vargs, m.voter, m.vreply);
    case OnAppReq(_, m) => AppendShaped(s, i, n, m.aargs);
    case OnAppRep(_, m) => LeadShaped(s, i, n, m.from, m.aargs, m.areply, Nil);
    case ClientStart(_, command) => LeadShaped(s, i, n, 0, AppendArgs(0, 0, 0, 0, [], 0), AppendReply(0, false, 0), command);
    case _ =>
  }

  lemma InitShaped(n: nat)
    ensures Shaped(Init(n)) && |Init(n).servers| == n
  {
  }
}
