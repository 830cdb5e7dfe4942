/** What each handler does to a server, field by field, in the terms of the messages alone. */
module RaftOutcomes {
  import opened RaftModel
  import opened RaftQuorum

  function Larger(a: int, b: int): int
  {
    if a < b then b else a
  }

  /** Log, commit state and the leader's bookkeeping are as before. */
  ghost predicate SameLog(s: Server, s': Server)
  {
    s'.me == s.me && s'.log == s.log && s'.commitIndex == s.commitIndex && s'.lastApplied == s.lastApplied
  }

  ghost predicate SameOffice(s: Server, s': Server)
  {
    s'.nextIndex == s.nextIndex && s'.matchIndex == s.matchIndex && s'.round == s.round && s'.office == s.office && s'.beat == s.beat
  }

  /** A larger term in a request: a candidate or leader becomes a follower and is signalled, unless an old signal
      is still in its channel. */
  ghost predicate Informed(s: Server, s': Server, term: nat)
  {
    s'.term == Larger(s.term, term) &&
    if term > s.term && s.role != Follower && !s.signal then s'.role == Follower && s'.signal
    else s'.role == s.role && s'.signal == s.signal
  }

  /** A vote is granted exactly if the term is not old, the vote of the term is free or the candidate's own, and
      the candidate's log ends in a later term or is at least as long in the same. */
  lemma VoteOutcome(s: Server, a: VoteArgs)
    requires s.log != []
    ensures var (s', r) := HandleVote(s, a);
            r.term == s.term && Informed(s, s', a.term) && SameLog(s, s') && SameOffice(s, s') &&
            (r.voteGranted <==>
              a.term >= s.term && (a.term > s.term || s.votedFor == -1 || s.votedFor == a.candidateId) &&
              (a.lastLogTerm > s.log[|s.log| - 1].term || (a.lastLogTerm == s.log[|s.log| - 1].term && a.lastLogIndex >= |s.log| - 1))) &&
            s'.votedFor == (if r.voteGranted then a.candidateId else if a.term > s.term then -1 else s.votedFor) &&
            s'.saved == if r.voteGranted || a.term > s.term then Saved(s'.term, s'.votedFor, s.log) else s.saved
  {
  }

  /** The index with which a rejecting follower answers: its length, or the first of the run of equal terms that
      the request conflicts with. */
  ghost predicate Hint(log: Log, prev: nat, k: int)
  {
    if |log| <= prev then k == |log|
    else 0 <= k <= prev && (forall i :: k <= i <= prev ==> log[i].term == log[prev].term) && (k > 0 ==> log[k - 1].term != log[prev].term)
  }

  /** A request is accepted exactly if its term is not old and the log has its previous entry. An accepted request
      is committed as far as the leader has committed and the request reaches, and what is committed is applied. */
  lemma AppendOutcome(s: Server, a: AppendArgs)
    requires 0 <= s.commitIndex <= s.lastApplied
    ensures var (s', r) := HandleAppend(s, a);
            r.term == s.term && Informed(s, s', a.term) && SameOffice(s, s') &&
            s'.votedFor == (if a.term > s.term then -1 else s.votedFor) &&
            (r.success <==> a.term >= s.term && a.prevLogIndex < |s.log| && s.log[a.prevLogIndex].term == a.prevLogTerm)
    ensures var (s', r) := HandleAppend(s, a);
            !r.success ==>
              SameLog(s, s') && (if a.term < s.term then r.nextIndex == -1 else Hint(s.log, a.prevLogIndex, r.nextIndex))
    ensures var (s', r) := HandleAppend(s, a);
            r.success ==>
              |s'.log| == a.prevLogIndex + 1 + |a.entries| &&
              s'.commitIndex == (if a.leaderCommit <= s.commitIndex then s.commitIndex
                                 else if a.leaderCommit < |s'.log| - 1 then a.leaderCommit else |s'.log| - 1) &&
              s'.lastApplied == Larger(s.lastApplied, s'.commitIndex)
  {
    hide MatchLength;
  }

  /** `r` is the old log up to the request's previous entry, then the old entries as long as their terms are those of
      the request, namely `k` of them, then the request's own. */
  ghost predicate TakesOver(log: Log, a: AppendArgs, r: Log, k: int)
  {
    var at := a.prevLogIndex + 1;
    0 <= k <= |a.entries| && at + k <= |log| && r == log[..at + k] + a.entries[k..] &&
    (forall i :: 0 <= i < k ==> a.entries[i].term == log[at + i].term) &&
    (k < |a.entries| && at + k < |log| ==> a.entries[k].term != log[at + k].term)
  }

  lemma AppendedLog(s: Server, a: AppendArgs)
    requires HandleAppend(s, a).1.success
    ensures exists k :: TakesOver(s.log, a, HandleAppend(s, a).0.log, k)
  {
    hide TakesOver, HandleAppend, Spliced, MatchLength;
    LogIsSpliced(s, a);
    SplicedTakesOver(s.log, a);
  }

  lemma LogIsSpliced(s: Server, a: AppendArgs)
    requires HandleAppend(s, a).1.success
    ensures Accepts(s.log, a) && HandleAppend(s, a).0.log == Spliced(s.log, a)
  {
    hide Spliced, MatchLength, NextHint;
  }

  lemma SplicedTakesOver(log: Log, a: AppendArgs)
    requires Accepts(log, a)
    ensures TakesOver(log, a, Spliced(log, a), MatchLength(log, a.prevLogIndex + 1, a.entries))
  {
    hide MatchLength;
  }

  /** A larger term in a reply ends round and office at once. */
  ghost predicate SteppedDown(s: Server, s': Server, term: nat)
  {
    s'.term == term && s'.votedFor == -1 && s'.role == Follower && !s'.round.open && s'.office == NONE && s'.signal == s.signal &&
    s'.saved == Saved(term, -1, s.log) && SameLog(s, s') && s'.nextIndex == s.nextIndex && s'.matchIndex == s.matchIndex
  }

  lemma VoteReplyOutcome(s: Server, from: nat, r: VoteReply)
    ensures var s' := CountVote(s, from, r);
            if r.term > s.term then SteppedDown(s, s', r.term)
            else s' == s.(round := s'.round) && s'.round.open == s.round.open && s'.round.args == s.round.args &&
                 forall v :: v in s'.round.granted <==> v in s.round.granted || (v == from && r.voteGranted)
  {
  }

  /** A success moves the follower's match index to the last entry of the request and the next index behind it,
      and commits the largest index that enough servers have reached if its entry is of the leader's term. A
      rejection moves the next index to the hint; an empty success changes nothing. */
  lemma AppendReplyOutcome(s: Server, peer: nat, a: AppendArgs, r: AppendReply)
    requires peer < |s.nextIndex| == |s.matchIndex| && 0 <= s.commitIndex <= s.lastApplied
    ensures var s', last := CountAppend(s, peer, a, r), a.prevLogIndex + |a.entries|;
            if r.term > s.term then SteppedDown(s, s', r.term)
            else
              s' == s.(nextIndex := s'.nextIndex, matchIndex := s'.matchIndex, commitIndex := s'.commitIndex, lastApplied := s'.lastApplied) &&
              s'.nextIndex == (if r.success && a.entries != [] then s.nextIndex[peer := last + 1]
                               else if !r.success && r.nextIndex != -1 then s.nextIndex[peer := r.nextIndex] else s.nextIndex) &&
              s'.matchIndex == (if r.success && a.entries != [] then s.matchIndex[peer := last] else s.matchIndex) &&
              s'.lastApplied == Larger(s.lastApplied, s'.commitIndex)
    ensures var s', last := CountAppend(s, peer, a, r), a.prevLogIndex + |a.entries|;
            if r.term <= s.term && r.success && a.entries != [] then
              forall x :: Reached(s.matchIndex[peer := last], x) && 0 <= x < |s.log| ==>
                s'.commitIndex == if s.log[x].term >= s.term then x else s.commitIndex
            else s'.commitIndex == s.commitIndex
  {
    hide CommitPoint, CountAtLeast;
    if r.term <= s.term && r.success && a.entries != [] {
      var m := s.matchIndex[peer := a.prevLogIndex + |a.entries|];
      forall x | Reached(m, x)
        ensures CommitPoint(m) == x
      {
        CommitPointIs(m, x);
      }
    }
  }

  /** At least n - n/2 of n servers have reached `x`, and fewer the next index. */
  ghost predicate Reached(matchIndex: seq<int>, x: int)
  {
    CountAtLeast(matchIndex, x) >= |matchIndex| - |matchIndex| / 2 > CountAtLeast(matchIndex, x + 1)
  }

  lemma StartOutcome(s: Server, command: Content)
    requires s.me < |s.matchIndex|
    ensures var s' := HandleStart(s, command);
            if s.role != Leader then s' == s
            else s'.log == s.log + [LogEntry(command, s.term)] && s'.saved == Saved(s.term, s.votedFor, s'.log) &&
                 s'.matchIndex == s.matchIndex[s.me := s.matchIndex[s.me] + 1] &&
                 s' == s.(log := s'.log, saved := s'.saved, matchIndex := s'.matchIndex)
  {
  }

  /** A round asks for the next term with the end of the log, and counts the candidate's own vote. */
  lemma RoundOutcome(s: Server)
    requires s.log != []
    ensures var s' := BeginRound(s);
            s'.term == s.term + 1 && s'.votedFor == s.me && s'.saved == Saved(s.term + 1, s.me, s.log) && SameLog(s, s') &&
            s'.round == Round(true, VoteArgs(s.term + 1, s.me, |s.log| - 1, s.log[|s.log| - 1].term), {s.me}) &&
            s'.role == (if s.round.open then s.role else Candidate) && s'.signal == s.signal && s'.office == s.office &&
            s'.nextIndex == s.nextIndex && s'.matchIndex == s.matchIndex && s'.beat == s.beat
  {
  }

  /** A restarted server knows what it persisted and nothing else. */
  lemma BootOutcome(me: nat, n: nat, saved: Saved)
    ensures var s := Boot(me, n, saved);
            s.me == me && s.term == saved.term && s.votedFor == saved.votedFor && s.log == saved.log && s.saved == saved &&
            s.commitIndex == 0 && s.lastApplied == 0 && s.role == Follower && !s.round.open && s.office == NONE && !s.signal &&
            |s.nextIndex| == n == |s.matchIndex| && forall p :: 0 <= p < n ==> s.nextIndex[p] == 0 && s.matchIndex[p] == 0
  {
  }

  /** A new leader starts behind its log with every follower, and knows only of its own entries. */
  lemma OfficeOutcome(s: Server, n: nat)
    requires s.me < n
    ensures var s' := Promote(s, n);
            s'.role == Leader && s'.office == s.term == s'.term && !s'.round.open && s'.beat > s.beat && SameLog(s, s') &&
            s'.signal == s.signal && s'.votedFor == s.votedFor && s'.saved == s.saved && |s'.nextIndex| == n == |s'.matchIndex| &&
            forall p :: 0 <= p < n ==> s'.nextIndex[p] == |s.log| && s'.matchIndex[p] == if p == s.me then |s.log| - 1 else 0
  {
  }

  /** The request for a follower: everything from its next index on, the entry before, and the commit index. */
  lemma RequestOutcome(s: Server, peer: nat)
    requires peer < |s.nextIndex| && 1 <= s.nextIndex[peer] <= |s.log|
    ensures var a := ArgsFor(s, peer);
            a.term == s.term && a.leaderId == s.me && a.leaderCommit == s.commitIndex && a.prevLogIndex + 1 == s.nextIndex[peer] &&
            a.prevLogTerm == s.log[a.prevLogIndex].term && s.log[..a.prevLogIndex + 1] + a.entries == s.log
  {
  }
}
