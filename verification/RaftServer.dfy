/** The server object: handlers that update its fields in place, each tied to the value model. */
module RaftServer {
  import opened RaftModel
  import opened RaftCluster

  datatype ApplyMsg = ApplyMsg(content: Content, index: int)

  /** The messages are the commands of the log after `from` up to `upTo`, each with its index, in order. */
  ghost predicate HandsUp(msgs: seq<ApplyMsg>, log: Log, from: int, upTo: int)
  {
    |msgs| == (if from < upTo then upTo - from else 0) &&
    forall i :: 0 <= i < |msgs| ==> 0 <= from + 1 + i < |log| && msgs[i] == ApplyMsg(log[from + 1 + i].content, from + 1 + i)
  }

  /** What the cluster's record of applied commands gains by these messages. */
  ghost function Handed(me: nat, msgs: seq<ApplyMsg>): set<Application>
  {
    set m | m in msgs :: Application(me, m.index, m.content)
  }

  lemma HandedIs(me: nat, msgs: seq<ApplyMsg>, s: Server, s': Server)
    requires HandsUp(msgs, s'.log, s.lastApplied, s'.lastApplied) && 0 <= s.lastApplied
    ensures Handed(me, msgs) == NewlyApplied(me, s, s')
  {
    forall x | x in NewlyApplied(me, s, s')
      ensures x in Handed(me, msgs)
    {
      assert msgs[x.index - s.lastApplied - 1] == ApplyMsg(x.content, x.index);
    }
    forall m | m in msgs
      ensures Application(me, m.index, m.content) in NewlyApplied(me, s, s')
    {
      var i :| 0 <= i < |msgs| && msgs[i] == m;
      assert m.index == s.lastApplied + 1 + i;
    }
  }

  class Raft {
    const me: nat
    const n: nat
    var currentTerm: nat
    var votedFor: int
    var log: Log
    var commitIndex: int
    var lastApplied: int
    var nextIndex: seq<int>
    var matchIndex: seq<int>
    var role: Role
    var round: Round
    var office: int
    var beat: nat
    var signal: bool
    var saved: Saved

    ghost function View(): Server
      reads this
    {
      Server(me, currentTerm, votedFor, log, commitIndex, lastApplied, nextIndex, matchIndex, role, round, office, beat, signal, saved)
    }

    /** What holds at every lock release: a non-empty log and one array slot per peer. */
    ghost predicate Valid()
      reads this
    {
      me < n && log != [] && |nextIndex| == n && |matchIndex| == n && 0 <= lastApplied
    }

    constructor (me: nat, n: nat, saved: Saved)
      requires me < n && saved.log != []
      ensures View() == Boot(me, n, saved) && Valid()
    {
      this.me, this.n := me, n;
      currentTerm, votedFor, log := saved.term, saved.votedFor, saved.log;
      role, round, office, beat, signal := Follower, NO_ROUND, NONE, 0, false;
      commitIndex, lastApplied := 0, 0;
      nextIndex, matchIndex := seq(n, _ => 0), seq(n, _ => 0);
      this.saved := saved;
    }

    method SavePersistent()
      modifies this`saved
      ensures View() == Persist(old(View()))
    {
      saved := Saved(currentTerm, votedFor, log);
    }

    /** Adopts a larger term; a candidate or leader steps down if the signal fits in its channel. */
    method UpdateTermTo(term: nat) returns (raised: bool)
      modifies this
      ensures View() == UpdateTerm(old(View()), term)
      ensures raised <==> term > old(currentTerm)
    {
      if term > currentTerm {
        if role != Follower && !signal {
          role := Follower;
          signal := true;
        }
        currentTerm := term;
        votedFor := NONE;
        SavePersistent();
        return true;
      }
      return false;
    }

    method RequestVote(args: VoteArgs) returns (reply: VoteReply)
      requires Valid()
      modifies this
      ensures Valid() && (View(), reply) == HandleVote(old(View()), args)
    {
      reply := VoteReply(currentTerm, false);
      var _ := UpdateTermTo(args.term);
      if args.term < currentTerm {
      } else if votedFor != NONE && votedFor != args.candidateId {
      } else if !LogNewer(log, args) {
      } else {
        votedFor := args.candidateId;
        SavePersistent();
        reply := reply.(voteGranted := true);
      }
    }

    /** Applies everything up to the commit index, in order, from what the log holds now. */
    method ApplyCommitted() returns (msgs: seq<ApplyMsg>)
      requires log != [] && 0 <= lastApplied && commitIndex < |log|
      modifies this`lastApplied
      ensures View() == ApplyLog(old(View()))
      ensures HandsUp(msgs, log, old(lastApplied), lastApplied)
    {
      msgs := [];
      while lastApplied < commitIndex
        invariant 0 <= old(lastApplied) <= lastApplied
        invariant old(lastApplied) <= commitIndex ==> lastApplied <= commitIndex
        invariant old(lastApplied) >= commitIndex ==> lastApplied == old(lastApplied)
        invariant HandsUp(msgs, log, old(lastApplied), lastApplied)
      {
        lastApplied := lastApplied + 1;
        msgs := msgs + [ApplyMsg(log[lastApplied].content, lastApplied)];
      }
    }

    /** The index at which the leader should retry. */
    method ConflictHint(prev: nat) returns (next: int)
      ensures next == NextHint(log, prev)
    {
      if |log| <= prev {
        return |log|;
      }
      var lastTerm := log[prev].term;
      var prevIdx: int := prev - 1;
      while prevIdx >= 0 && log[prevIdx].term == lastTerm
        invariant -1 <= prevIdx < prev
        invariant RunStart(log, prev) == RunStart(log, prevIdx + 1) && log[prevIdx + 1].term == lastTerm
      {
        prevIdx := prevIdx - 1;
      }
      return prevIdx + 1;
    }

    method SkipAgreeing(args: AppendArgs) returns (newIdx: nat, oldIdx: nat)
      requires Accepts(log, args)
      ensures newIdx == MatchLength(log, args.prevLogIndex + 1, args.entries) && oldIdx == args.prevLogIndex + 1 + newIdx
    {
      hide MatchLength;
      newIdx, oldIdx := 0, args.prevLogIndex + 1;
      while newIdx < |args.entries| && oldIdx < |log| && args.entries[newIdx].term == log[oldIdx].term
        invariant newIdx <= |args.entries| && oldIdx == args.prevLogIndex + 1 + newIdx <= |log|
        invariant forall i :: 0 <= i < newIdx ==> args.entries[i].term == log[args.prevLogIndex + 1 + i].term
      {
        newIdx := newIdx + 1;
        oldIdx := oldIdx + 1;
      }
    }

    /** Keeps the entries that agree in term, truncates, persists, then appends the rest. */
    method SpliceEntries(args: AppendArgs)
      requires Accepts(log, args)
      modifies this
      ensures View() == Splice(old(View()), args)
      ensures log != [] && lastApplied == old(lastApplied) && nextIndex == old(nextIndex) && matchIndex == old(matchIndex)
    {
      hide MatchLength;
      var newIdx, oldIdx := SkipAgreeing(args);
      log := log[0..oldIdx];
      SavePersistent();
      AppendFrom(args.entries, newIdx);
    }

    method AppendFrom(entries: Log, from: nat)
      requires from <= |entries|
      modifies this`log
      ensures log == old(log) + entries[from..]
    {
      var newIdx := from;
      while newIdx < |entries|
        invariant from <= newIdx <= |entries| && log == old(log) + entries[from..newIdx]
      {
        log := log + [entries[newIdx]];
        newIdx := newIdx + 1;
      }
    }

    method FollowLeader(leaderCommit: int) returns (msgs: seq<ApplyMsg>)
      requires Valid()
      modifies this
      ensures Valid() && View() == FollowCommit(old(View()), leaderCommit)
      ensures HandsUp(msgs, log, old(lastApplied), lastApplied)
    {
      msgs := [];
      if leaderCommit > commitIndex {
        commitIndex := Min(|log| - 1, leaderCommit);
        msgs := ApplyCommitted();
      }
    }

    method AppendEntries(args: AppendArgs) returns (reply: AppendReply, msgs: seq<ApplyMsg>)
      requires Valid()
      modifies this
      ensures Valid() && (View(), reply) == HandleAppend(old(View()), args)
      ensures HandsUp(msgs, log, old(lastApplied), lastApplied) && Handed(me, msgs) == NewlyApplied(me, old(View()), View())
    {
      hide RunStart, Splice, FollowCommit;
      msgs := [];
      reply := AppendReply(currentTerm, false, 0);
      var _ := UpdateTermTo(args.term);
      if currentTerm > args.term {
        reply := reply.(nextIndex := -1);
        return;
      }
      if |log| <= args.prevLogIndex || log[args.prevLogIndex].term != args.prevLogTerm {
        var next := ConflictHint(args.prevLogIndex);
        reply := reply.(nextIndex := next);
      } else {
        reply := reply.(success := true);
        SpliceEntries(args);
        msgs := FollowLeader(args.leaderCommit);
        HandedIs(me, msgs, old(View()), View());
      }
    }

    method Start(command: Content) returns (index: int, term: nat, isLeader: bool)
      requires Valid()
      modifies this
      ensures Valid() && View() == HandleStart(old(View()), command)
      ensures index == |old(log)| && term == currentTerm && isLeader == (role == Leader)
    {
      index := |log|;
      term := currentTerm;
      isLeader := role == Leader;
      if isLeader {
        log := log + [LogEntry(command, currentTerm)];
        SavePersistent();
        matchIndex := matchIndex[me := matchIndex[me] + 1];
      }
    }

    /** A candidate opens a voting round for the next term. */
    method OpenRound() returns (args: VoteArgs)
      requires Valid()
      modifies this
      ensures Valid() && View() == BeginRound(old(View())) && args == round.args
    {
      if !round.open {
        role := Candidate;
      }
      currentTerm := currentTerm + 1;
      votedFor := me;
      SavePersistent();
      args := VoteArgs(currentTerm, me, |log| - 1, log[|log| - 1].term);
      round := Round(true, args, {me});
    }

    /** The candidate or leader routine reads the step-down signal and returns. */
    method LeaveRoutine()
      requires Valid() && signal
      modifies this
      ensures Valid() && View() == TakeSignal(old(View()))
    {
      signal := false;
      round := round.(open := false);
      office := NONE;
    }

    /** A vote reply to the open round. */
    method OnVoteReply(peer: nat, reply: VoteReply)
      requires Valid()
      modifies this
      ensures Valid() && View() == CountVote(old(View()), peer, reply)
    {
      if currentTerm < reply.term {
        currentTerm := reply.term;
        votedFor := NONE;
        SavePersistent();
        role := Follower;
        round := round.(open := false);
        office := NONE;
        return;
      }
      if reply.voteGranted {
        round := round.(granted := round.granted + {peer});
      }
    }

    /** The start of the leader routine. */
    method StartRoutine()
      requires Valid()
      modifies this
      ensures Valid() && View() == EnterOffice(old(View()), n)
    {
      office := currentTerm;
      beat := beat + 1;
      for i := 0 to n
        invariant |nextIndex| == n && |matchIndex| == n
        invariant forall j :: 0 <= j < i ==> nextIndex[j] == |log| && matchIndex[j] == 0
        invariant View() == old(View()).(office := currentTerm, beat := old(beat) + 1, nextIndex := nextIndex, matchIndex := matchIndex)
      {
        nextIndex := nextIndex[i := |log|];
        matchIndex := matchIndex[i := 0];
      }
      matchIndex := matchIndex[me := |log| - 1];
      assert nextIndex == EnterOffice(old(View()), n).nextIndex;
      assert matchIndex == EnterOffice(old(View()), n).matchIndex;
    }

    /** A candidate with enough votes takes office; the leader routine starts in the same locked region. */
    method TakeOffice()
      requires Valid()
      modifies this
      ensures Valid() && View() == Promote(old(View()), n)
    {
      role := Leader;
      round := round.(open := false);
      StartRoutine();
    }

    /** Builds a round of requests, one for each other server. */
    method BuildRound() returns (args: seq<AppendArgs>)
      requires Valid() && forall p :: 0 <= p < n && p != me ==> 1 <= nextIndex[p] <= |log|
      modifies this`beat
      ensures Valid() && View() == old(View()).(beat := old(beat) + 1) && |args| == n
      ensures forall p :: 0 <= p < n && p != me ==> args[p] == ArgsFor(View(), p)
    {
      beat := beat + 1;
      var common := AppendArgs(currentTerm, me, 0, 0, [], 0);
      args := seq(n, _ => common);
      for peer := 0 to n
        invariant |args| == n && forall p :: 0 <= p < n ==> args[p].term == currentTerm && args[p].leaderId == me
        invariant forall p :: 0 <= p < peer && p != me ==> args[p] == ArgsFor(View(), p)
      {
        if peer != me {
          var nextIdx := nextIndex[peer];
          args := args[peer := args[peer].(prevLogIndex := nextIdx - 1, prevLogTerm := log[nextIdx - 1].term,
                                           entries := log[nextIdx..], leaderCommit := commitIndex)];
        }
      }
    }

    method CommitMajority() returns (msgs: seq<ApplyMsg>)
      requires Valid() && 0 <= CommitPoint(matchIndex) < |log|
      modifies this
      ensures Valid() && View() == LeadCommit(old(View()))
      ensures HandsUp(msgs, log, old(lastApplied), lastApplied)
    {
      hide SortInts;
      msgs := [];
      var sortMatchIdx := SortInts(matchIndex);
      var newCommit := sortMatchIdx[n / 2];
      if log[newCommit].term >= currentTerm {
        commitIndex := newCommit;
        msgs := ApplyCommitted();
      }
    }

    /** The region of the leader routine that handles one reply. */
    method OnAppendReply(peer: nat, args: AppendArgs, reply: AppendReply) returns (msgs: seq<ApplyMsg>)
      requires Valid() && peer < n
      requires reply.term <= currentTerm && reply.success && args.entries != [] ==>
                 0 <= CommitPoint(matchIndex[peer := args.prevLogIndex + |args.entries|]) < |log|
      modifies this
      ensures Valid() && View() == CountAppend(old(View()), peer, args, reply)
      ensures HandsUp(msgs, log, old(lastApplied), lastApplied) && Handed(me, msgs) == NewlyApplied(me, old(View()), View())
    {
      hide CommitPoint, LeadCommit;
      msgs := [];
      if reply.term > currentTerm {
        currentTerm := reply.term;
        votedFor := NONE;
        SavePersistent();
        role := Follower;
        round := round.(open := false);
        office := NONE;
        return;
      }
      if reply.success {
        if |args.entries| != 0 {
          matchIndex := matchIndex[peer := args.prevLogIndex + |args.entries|];
          nextIndex := nextIndex[peer := matchIndex[peer] + 1];
          assert View() == Matched(old(View()), peer, args.prevLogIndex + |args.entries|);
          msgs := CommitMajority();
          HandedIs(me, msgs, old(View()), View());
        }
      } else if reply.nextIndex != -1 {
        nextIndex := nextIndex[peer := reply.nextIndex];
      }
    }
  }
}
