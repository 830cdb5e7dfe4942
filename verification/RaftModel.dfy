/** One Raft server as a value, and what each of its lock-protected regions does to it. */
module RaftModel {

  datatype Content = Nil | Command(text: string)

  datatype LogEntry = LogEntry(content: Content, term: nat)

  /** Index 0 holds a placeholder of term 0. */
  type Log = seq<LogEntry>

  datatype Role = Leader | Candidate | Follower

  datatype VoteArgs = VoteArgs(term: nat, candidateId: nat, lastLogIndex: int, lastLogTerm: nat)

  datatype VoteReply = VoteReply(term: nat, voteGranted: bool)

  datatype AppendArgs = AppendArgs(term: nat, leaderId: nat, prevLogIndex: nat, prevLogTerm: nat, entries: Log, leaderCommit: int)

  datatype AppendReply = AppendReply(term: nat, success: bool, nextIndex: int)

  /** What survives a crash. */
  datatype Saved = Saved(term: nat, votedFor: int, log: Log)

  /** A voting round: the request it sent and the servers whose votes it has counted. */
  datatype Round = Round(open: bool, args: VoteArgs, granted: set<nat>)

  /** `office` is the term in which the leader routine that is running was entered, or `NONE`; `beat` numbers
      its rounds of requests; `signal` says that the step-down channel is full. */
  datatype Server = Server(
    me: nat, term: nat, votedFor: int, log: Log,
    commitIndex: int, lastApplied: int,
    nextIndex: seq<int>, matchIndex: seq<int>,
    role: Role, round: Round, office: int, beat: nat, signal: bool, saved: Saved)

  const NONE: int := -1

  const PLACEHOLDER: LogEntry := LogEntry(Nil, 0)

  const NO_ROUND: Round := Round(false, VoteArgs(0, 0, 0, 0), {})

  function Persist(s: Server): Server
  {
    s.(saved := Saved(s.term, s.votedFor, s.log))
  }

  /** `Make`, starting from what was persisted. */
  function Boot(me: nat, n: nat, saved: Saved): Server
  {
    Server(me, saved.term, saved.votedFor, saved.log, 0, 0, seq(n, _ => 0), seq(n, _ => 0), Follower, NO_ROUND,
           NONE, 0, false, saved)
  }

  function LastTerm(log: Log): nat
    requires log != []
  {
    log[|log| - 1].term
  }

  /** The voter's check that the candidate's log is at least as up to date as its own. */
  predicate LogNewer(log: Log, a: VoteArgs)
    requires log != []
  {
    if a.lastLogTerm > LastTerm(log) then true
    else if a.lastLogTerm == LastTerm(log) then a.lastLogIndex + 1 >= |log|
    else false
  }

  /** A larger term is adopted. A candidate or leader also steps down and is signalled, unless an earlier
      signal is still in the channel. */
  function UpdateTerm(s: Server, term: nat): Server
  {
    if term > s.term then Persist(Signalled(s).(term := term, votedFor := NONE)) else s
  }

  function Signalled(s: Server): Server
  {
    if s.role != Follower && !s.signal then s.(role := Follower, signal := true) else s
  }

  function HandleVote(s: Server, a: VoteArgs): (Server, VoteReply)
    requires s.log != []
  {
    var s1 := UpdateTerm(s, a.term);
    if a.term < s1.term then (s1, VoteReply(s.term, false))
    else if s1.votedFor != NONE && s1.votedFor != a.candidateId then (s1, VoteReply(s.term, false))
    else if !LogNewer(s1.log, a) then (s1, VoteReply(s.term, false))
    else (Persist(s1.(votedFor := a.candidateId)), VoteReply(s.term, true))
  }

  /** How many of the entries agree in term with the log from index `at` on. */
  function MatchLength(log: Log, at: nat, entries: Log): (k: nat)
    ensures k <= |entries| && (k == 0 || at + k <= |log|)
    ensures forall i :: 0 <= i < k ==> entries[i].term == log[at + i].term
    ensures k < |entries| && at + k < |log| ==> entries[k].term != log[at + k].term
    decreases |entries|
  {
    if entries == [] || at >= |log| || entries[0].term != log[at].term then 0
    else
      var k := MatchLength(log, at + 1, entries[1..]);
      assert forall i :: 1 <= i < k + 1 ==> entries[i] == entries[1..][i - 1];
      k + 1
  }

  /** The first index of the run of entries with the same term that ends at `at`. */
  function RunStart(log: Log, at: nat): (k: nat)
    requires at < |log|
    ensures k <= at && forall i :: k <= i <= at ==> log[i].term == log[at].term
    ensures k > 0 ==> log[k - 1].term != log[at].term
  {
    if at > 0 && log[at - 1].term == log[at].term then RunStart(log, at - 1) else at
  }

  /** Where the leader should try next after a rejection. */
  function NextHint(log: Log, prev: nat): int
  {
    if |log| <= prev then |log| else RunStart(log, prev)
  }

  predicate Accepts(log: Log, a: AppendArgs)
  {
    a.prevLogIndex < |log| && log[a.prevLogIndex].term == a.prevLogTerm
  }

  /** The log after accepting: agreeing entries are kept, everything after them is replaced. */
  function Spliced(log: Log, a: AppendArgs): (r: Log)
    requires Accepts(log, a)
    ensures |r| > a.prevLogIndex
  {
    var k := MatchLength(log, a.prevLogIndex + 1, a.entries);
    log[..a.prevLogIndex + 1 + k] + a.entries[k..]
  }

  /** `applyLog`: everything up to the commit index counts as applied. */
  function ApplyLog(s: Server): Server
  {
    if s.lastApplied < s.commitIndex then s.(lastApplied := s.commitIndex) else s
  }

  function Min(a: int, b: int): int
  {
    if a < b then a else b
  }

  /** Accepting: the truncated log is persisted before the new entries are added. */
  function Splice(s: Server, a: AppendArgs): Server
    requires Accepts(s.log, a)
  {
    var k := MatchLength(s.log, a.prevLogIndex + 1, a.entries);
    Persist(s.(log := s.log[..a.prevLogIndex + 1 + k])).(log := Spliced(s.log, a))
  }

  /** A follower commits as far as the leader has and its own log reaches. */
  function FollowCommit(s: Server, leaderCommit: int): Server
  {
    if leaderCommit > s.commitIndex then ApplyLog(s.(commitIndex := Min(|s.log| - 1, leaderCommit))) else s
  }

  function HandleAppend(s: Server, a: AppendArgs): (Server, AppendReply)
  {
    var s1 := UpdateTerm(s, a.term);
    if s1.term > a.term then (s1, AppendReply(s.term, false, -1))
    else if !Accepts(s1.log, a) then (s1, AppendReply(s.term, false, NextHint(s1.log, a.prevLogIndex)))
    else (FollowCommit(Splice(s1, a), a.leaderCommit), AppendReply(s.term, true, 0))
  }

  /** A client command is appended only at a leader. */
  function HandleStart(s: Server, c: Content): Server
    requires s.me < |s.matchIndex|
  {
    if s.role == Leader then
      var s1 := Persist(s.(log := s.log + [LogEntry(c, s.term)]));
      s1.(matchIndex := s1.matchIndex[s1.me := s1.matchIndex[s1.me] + 1])
    else s
  }

  /** Opening a voting round for the next term. A round that follows another leaves the role as it is. */
  function BeginRound(s: Server): Server
    requires s.log != []
  {
    var s1 := Persist(s.(role := if s.round.open then s.role else Candidate, term := s.term + 1, votedFor := s.me));
    s1.(round := Round(true, VoteArgs(s1.term, s.me, |s.log| - 1, LastTerm(s.log)), {s.me}))
  }

  /** The candidate or leader routine reads the signal and ends; what follows depends on the role. */
  function TakeSignal(s: Server): Server
  {
    s.(signal := false, round := s.round.(open := false), office := NONE)
  }

  /** A larger term in a reply ends the candidacy or leadership. */
  function StepDown(s: Server, term: nat): Server
  {
    Persist(s.(term := term, votedFor := NONE, role := Follower, round := s.round.(open := false), office := NONE))
  }

  /** A vote reply to the open round. */
  function CountVote(s: Server, from: nat, r: VoteReply): Server
  {
    if s.term < r.term then StepDown(s, r.term)
    else if r.voteGranted then s.(round := s.round.(granted := s.round.granted + {from}))
    else s
  }

  /** The start of the leader routine. */
  function EnterOffice(s: Server, n: nat): Server
    requires s.me < n
  {
    s.(office := s.term, beat := s.beat + 1,
       nextIndex := seq(n, _ => |s.log|), matchIndex := seq(n, _ => 0)[s.me := |s.log| - 1])
  }

  /** Taking office, with the start of the leader routine. */
  function Promote(s: Server, n: nat): Server
    requires s.me < n
  {
    EnterOffice(s.(role := Leader, round := s.round.(open := false)), n)
  }

  function ArgsFor(s: Server, peer: nat): AppendArgs
    requires peer < |s.nextIndex| && 1 <= s.nextIndex[peer] <= |s.log|
  {
    var next := s.nextIndex[peer];
    AppendArgs(s.term, s.me, next - 1, s.log[next - 1].term, s.log[next..], s.commitIndex)
  }

  // ---------------------------------------------------------------- the commit rule

  function Insert(x: int, s: seq<int>): (r: seq<int>)
    ensures multiset(r) == multiset(s) + multiset{x}
  {
    if s == [] || x <= s[0] then [x] + s
    else
      assert s == [s[0]] + s[1..];
      [s[0]] + Insert(x, s[1..])
  }

  /** The integers in ascending order. */
  function SortInts(s: seq<int>): (r: seq<int>)
    ensures multiset(r) == multiset(s) && |r| == |s|
  {
    if s == [] then []
    else
      assert s == [s[0]] + s[1..];
      var r := Insert(s[0], SortInts(s[1..]));
      assert |multiset(r)| == |multiset(s)|;
      r
  }

  /** The element in the middle of the sorted match indexes. */
  function CommitPoint(matchIndex: seq<int>): int
    requires matchIndex != []
  {
    SortInts(matchIndex)[|matchIndex| / 2]
  }

  function Matched(s: Server, peer: nat, m: int): Server
    requires peer < |s.nextIndex| == |s.matchIndex|
  {
    s.(matchIndex := s.matchIndex[peer := m], nextIndex := s.nextIndex[peer := m + 1])
  }

  /** The leader commits at the middle match index, but only entries of its own term. */
  function LeadCommit(s: Server): Server
    requires s.matchIndex != []
  {
    var point := CommitPoint(s.matchIndex);
    if 0 <= point < |s.log| && s.log[point].term >= s.term then ApplyLog(s.(commitIndex := point)) else s
  }

  /** An append reply at the leader. */
  function CountAppend(s: Server, peer: nat, a: AppendArgs, r: AppendReply): Server
    requires peer < |s.nextIndex| == |s.matchIndex|
  {
    if r.term > s.term then StepDown(s, r.term)
    else if r.success then
      if a.entries == [] then s else LeadCommit(Matched(s, peer, a.prevLogIndex + |a.entries|))
    else if r.nextIndex != -1 then s.(nextIndex := s.nextIndex[peer := r.nextIndex])
    else s
  }
}
