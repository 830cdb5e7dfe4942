/** Why the assumptions are there: for each of them a run of the code that meets all others and breaks the
    theorem. */
module RaftLimits {
  import opened RaftModel
  import opened RaftCluster
  import opened RaftVotes
  import opened RaftLogs
  import opened RaftQuorum
  import opened RaftCommit
  import opened RaftSafety
  import opened RaftRuns

  // ---------------------------------------------------------------- what exactly goes wrong

  /** An accepted request is persisted before its new entries are appended: what a crash restores is
      the server's log exactly if the request brought nothing new. */
  lemma PersistedIff(s: Server, a: AppendArgs)
    requires HandleAppend(s, a).1.success
    ensures var s' := HandleAppend(s, a).0;
            var at := a.prevLogIndex + 1;
            (s'.saved.log == s'.log <==> MatchLength(s.log, at, a.entries) == |a.entries|)
  {
    hide MatchLength;
    var s1 := UpdateTerm(s, a.term);
    var at := a.prevLogIndex + 1;
    var k := MatchLength(s1.log, at, a.entries);
    assert s1.log == s.log;
    assert |Spliced(s1.log, a)| == at + |a.entries|;
    assert HandleAppend(s, a).0.saved.log == s1.log[..at + k];
  }

  /** An accepted request leaves the sender's log, so a follower that was at `held` entries of it keeps
      them exactly if the request is not an older, shorter one. */
  lemma TruncatesIff(hist: map<nat, Log>, log: Log, full: Log, a: AppendArgs, h: Log, held: nat)
    requires Anchored(hist, log) && Anchored(hist, full) && a.prevLogIndex < |full|
    requires a.prevLogTerm == full[a.prevLogIndex].term && a.entries == full[a.prevLogIndex + 1..] && Accepts(log, a)
    requires full <= h && held <= |h| && h[..held] <= log
    ensures h[..held] <= Spliced(log, a) <==> |full| >= held
  {
    SplicedIsFull(hist, log, full, a);
    if |full| >= held {
      assert h[..held] == full[..held];
    }
  }

  // ---------------------------------------------------------------- log matching

  /** Two logs with equal terms at an index differ up to it. */
  ghost predicate LogsClash(c: Cluster)
  {
    exists a: Log, b: Log, j: nat ::
      IsLogOf(c, a) && IsLogOf(c, b) && j < |a| && j < |b| && a[j].term == b[j].term && a[..j + 1] != b[..j + 1]
  }

  lemma ServerLogs(c: Cluster, i: nat, k: nat)
    requires i < |c.servers| && k < |c.servers|
    requires var a, b := c.servers[i].log, c.servers[k].log; 1 < |a| && 1 < |b| && a[1].term == b[1].term && a[1] != b[1]
    ensures LogsClash(c)
  {
    var a, b := c.servers[i].log, c.servers[k].log;
    assert IsLogOf(c, a) && IsLogOf(c, b);
    assert a[..2][1] != b[..2][1];
  }

  lemma Enter(a: Cluster, c: Cluster, i: nat, x: Content, w: Clause) returns (c': Cluster)
    requires Reaches(a, c, w) && Shaped(c) && i < |c.servers| && c.servers[i].role == Leader
    ensures Reaches(a, c', w) && Shaped(c') && Only(c, c', i, c.servers[i].term)
    ensures c'.servers[i].log == c.servers[i].log + [LogEntry(x, c.servers[i].term)]
  {
    hide Reaches;
    c' := Next(c, ClientStart(i, x));
    Proper(c, ClientStart(i, x), w);
    ReachesNext(a, c, ClientStart(i, x), w);
  }

  /** Two leaders of one term take different commands. */
  lemma LeadersClash(a: Cluster, c: Cluster, i: nat, k: nat, x: Content, y: Content, w: Clause) returns (c': Cluster)
    requires Reaches(a, c, w) && Shaped(c) && i < |c.servers| && k < |c.servers| && i != k && x != y
    requires c.servers[i].role == Leader && c.servers[k].role == Leader && c.servers[i].term == c.servers[k].term
    requires c.servers[i].log == [PLACEHOLDER] == c.servers[k].log
    ensures Reaches(a, c', w) && LogsClash(c')
  {
    hide Reaches;
    var c1 := Enter(a, c, i, x, w);
    c' := Enter(a, c1, k, y, w);
    ServerLogs(c', i, k);
  }

  /** Without the guard on promotion: votes counted for term 1 make server 0 a leader of term 2 beside the
      elected leader, server 2. */
  lemma PromotionNeeded(x: Content, y: Content) returns (c: Cluster)
    requires x != y
    ensures Reaches(Init(3), c, Promotion) && LogsClash(c)
  {
    hide Reaches, Init, LogsClash;
    var w, p := Promotion, [PLACEHOLDER];
    var c0 := StartOf(3, w);
    var c1 := Ask(c0, c0, 0, 0, p, w);
    var c2 := GetVote(c0, c1, 0, 1, p, w);
    var c3 := Ask(c0, c2, 2, 0, p, w);
    var c4 := WinThree(c0, c3, 2, 0, 1, p, w);
    assert c4.servers[0].round.granted == {0, 1};
    var c5 := Next(c4, TakeOffice(0));
    ReachesNext(c0, c4, TakeOffice(0), w);
    c := LeadersClash(c0, c5, 0, 2, x, y, w);
  }

  /** Server 0, a candidate, learns of term 2 and is signalled, but opens another round before it reads the
      signal, and leads term 3 with the signal still in its channel. */
  lemma StaleSignal(w: Clause) returns (c0: Cluster, c: Cluster)
    ensures c0 == Init(3) && Reaches(c0, c, w) && Shaped(c) && |c.servers| == 3
    ensures Leading(c.servers[0], 3, [PLACEHOLDER], [1, 1, 1], [0, 0, 0]) && c.servers[0].signal
    ensures Resting(c.servers[1], 3, [PLACEHOLDER]) && Plain(c.servers[2], 2, [PLACEHOLDER])
  {
    hide Reaches, Init;
    var p := [PLACEHOLDER];
    c0 := StartOf(3, w);
    var c1 := Ask(c0, c0, 0, 0, p, w);
    var c2 := Ask(c0, c1, 2, 0, p, w);
    var c3 := Ask(c0, c2, 2, 1, p, w);
    var c4 := Hear(c0, c3, 2, 0, VoteArgs(2, 2, 0, 0), p, w);
    c := WinThree(c0, c4, 0, 1, 2, p, w);
  }

  /** Without demotion by a vote request: the leader of term 3 votes for server 2 in term 4 and stays a leader,
      because its channel is full. */
  lemma DemotionOnVoteNeeded(x: Content, y: Content) returns (c: Cluster)
    requires x != y
    ensures Reaches(Init(3), c, DemotionOnVote) && LogsClash(c)
  {
    hide Reaches, Init, LogsClash;
    var w, p := DemotionOnVote, [PLACEHOLDER];
    var c0, c1 := StaleSignal(w);
    var c2 := Ask(c0, c1, 2, 2, p, w);
    var c3 := Ask(c0, c2, 2, 3, p, w);
    var args := VoteArgs(4, 2, 0, 0);
    var step := OnVoteReq(0, VoteReq(args, p));
    var c4 := Next(c3, step);
    ReachesNext(c0, c3, step, w);
    var count := OnVoteRep(2, VoteRep(0, args, VoteReply(3, true)));
    var c5 := Next(c4, count);
    Proper(c4, count, w);
    ReachesNext(c0, c4, count, w);
    assert c5.servers[2].round.granted == {2, 0};
    var c6 := Office(c0, c5, 2, 4, p, w);
    c := LeadersClash(c0, c6, 0, 2, x, y, w);
  }

  /** Without demotion by an append request: the leader of term 3 takes the log of the leader of term 4 and
      stays a leader, because its channel is full. */
  lemma DemotionOnAppendNeeded(x: Content, y: Content) returns (c: Cluster)
    requires x != y
    ensures Reaches(Init(3), c, DemotionOnAppend) && LogsClash(c)
  {
    hide Reaches, Init, LogsClash;
    var w, p := DemotionOnAppend, [PLACEHOLDER];
    var c0, c1 := StaleSignal(w);
    var c2 := Ask(c0, c1, 2, 2, p, w);
    var c3 := WinThree(c0, c2, 2, 1, 3, p, w);
    var c4 := Post(c0, c3, 2, 4, p, [1, 1, 1], [0, 0, 0], w);
    var args := Request(2, 4, p, 1);
    assert Posted(c4, c4.servers[2].beat, 2, 0, 4, p, [1, 1, 1]);
    var step := OnAppReq(0, AppReq(0, c4.servers[2].beat, args, p));
    var c5 := Next(c4, step);
    EmptyRequest(c4.servers[0], args);
    ReachesNext(c0, c4, step, w);
    c := LeadersClash(c0, c5, 0, 2, x, y, w);
  }

  /** A request without entries leaves a log of the placeholder alone as it is. */
  lemma EmptyRequest(s: Server, a: AppendArgs)
    requires s.log == [PLACEHOLDER] && s.commitIndex == 0 && a.prevLogIndex == 0 && a.prevLogTerm == 0 && a.entries == [] && a.leaderCommit == 0
    ensures MatchLength(s.log, 1, a.entries) == 0 && Spliced(s.log, a) == [PLACEHOLDER]
  {
  }

  /** A log of the placeholder alone becomes the sender's log. */
  lemma TakesAll(i: nat, term: nat, log: Log)
    requires log != [] && log[0] == PLACEHOLDER
    ensures var a := Request(i, term, log, 1);
            Accepts([PLACEHOLDER], a) && MatchLength([PLACEHOLDER], 1, a.entries) == 0 && Spliced([PLACEHOLDER], a) == log
  {
    assert [PLACEHOLDER] + log[1..] == log;
  }

  /** Without the guard on sending: server 0, no longer a leader, sends an empty request in the term of the
      leader, server 2, which loses its entry and puts another in its place. */
  lemma SendingNeeded(y: Content, z: Content) returns (c: Cluster)
    requires y != z
    ensures Reaches(Init(3), c, Sending) && LogsClash(c)
  {
    hide Reaches, Init, LogsClash, Spliced, MatchLength;
    var w, p := Sending, [PLACEHOLDER];
    var c0 := StartOf(3, w);
    var c1 := WinThree(c0, c0, 0, 1, 0, p, w);
    var c2 := Ask(c0, c1, 2, 0, p, w);
    var c3 := WinThree(c0, c2, 2, 0, 1, p, w);
    var c4 := Take(c0, c3, 2, y, 2, p, [1, 1, 1], [0, 0, 0], w);
    var log := p + [LogEntry(y, 2)];
    var c5 := Post(c0, c4, 2, 2, log, [1, 1, 1], [0, 0, 1], w);
    assert Posted(c5, c5.servers[2].beat, 2, 1, 2, log, [1, 1, 1]);
    TakesAll(2, 2, log);
    var c6 := Receive(c0, c5, 1, c5.servers[2].beat, Request(2, 2, log, 1), log, w);
    c := StraySend(c0, c6, log, z);
  }

  lemma StraySend(a: Cluster, c: Cluster, log: Log, z: Content) returns (c': Cluster)
    requires Reaches(a, c, Sending) && Shaped(c) && |c.servers| == 3 && |log| == 2 && log[0] == PLACEHOLDER && log[1].term == 2
    requires log[1].content != z && c.servers[1].log == log && Leading(c.servers[2], 2, log, [1, 1, 1], [0, 0, 1])
    requires var s := c.servers[0]; s.office == 1 && s.term == 2 && s.nextIndex == [1, 1, 1] && s.log == [PLACEHOLDER] && s.commitIndex == 0
    ensures Reaches(a, c', Sending) && LogsClash(c')
  {
    hide Reaches, LogsClash;
    var w := Sending;
    var c1 := Next(c, SendRound(0));
    ReachesNext(a, c, SendRound(0), w);
    var args := Request(0, 2, [PLACEHOLDER], 1);
    assert ArgsFor(c1.servers[0], 2) == args;
    var step := OnAppReq(2, AppReq(2, c1.servers[0].beat, args, [PLACEHOLDER]));
    assert MatchLength(log, 1, args.entries) == 0 && Spliced(log, args) == [PLACEHOLDER];
    var c2 := Next(c1, step);
    ReachesNext(a, c1, step, w);
    c' := Enter(a, c2, 2, z, w);
    ServerLogs(c', 1, 2);
  }

  // ---------------------------------------------------------------- state machine safety

  /** Two servers have applied different commands at one index. */
  ghost predicate AppliesClash(c: Cluster)
  {
    exists a, b :: a in c.aux.applied && b in c.aux.applied && a.index == b.index && a.content != b.content
  }

  lemma PointOfThree(i: nat, v: nat)
    requires i < 3 && v < 3 && i != v
    ensures CommitPoint([0, 0, 0][i := 1][v := 1]) == 1
  {
    hide CommitPoint, CountAtLeast;
    var m := [0, 0, 0][i := 1][v := 1];
    assert m == [m[0], m[1], m[2]];
    CountThree(m[0], m[1], m[2], 1);
    CountThree(m[0], m[1], m[2], 2);
    CommitPointIs(m, 1);
  }

  /** The leader `i` of three takes its first command, brings it to `v` and applies it. */
  lemma ApplyFirst(a: Cluster, c: Cluster, i: nat, v: nat, x: Content, term: nat, w: Clause) returns (c': Cluster)
    requires Reaches(a, c, w) && Shaped(c) && |c.servers| == 3 && i < 3 && v < 3 && i != v && term >= 1
    requires Leading(c.servers[i], term, [PLACEHOLDER], [1, 1, 1], [0, 0, 0]) && Resting(c.servers[v], term, [PLACEHOLDER])
    requires Acc(c, v, term) == 0
    ensures Reaches(a, c', w) && Shaped(c') && |c'.servers| == 3 && c.net <= c'.net && c.aux.applied <= c'.aux.applied
    ensures c'.servers == c.servers[v := c'.servers[v]][i := c'.servers[i]] && Application(i, 1, x) in c'.aux.applied
    ensures Resting(c'.servers[v], term, [PLACEHOLDER, LogEntry(x, term)])
    ensures c'.servers[v].saved.log == [PLACEHOLDER] && c'.servers[v].saved.term == term
    ensures forall q: nat, u: nat :: u != term ==> Acc(c', q, u) == Acc(c, q, u)
  {
    hide Reaches, Spliced, MatchLength, CommitPoint;
    var log, next, matched := [PLACEHOLDER] + [LogEntry(x, term)], [1, 1, 1], [0, 0, 0][i := 1];
    var c1 := Take(a, c, i, x, term, [PLACEHOLDER], next, [0, 0, 0], w);
    var c2 := Post(a, c1, i, term, log, next, matched, w);
    assert Posted(c2, c2.servers[i].beat, i, v, term, log, [1, 1, 1]);
    TakesAll(i, term, log);
    var c3 := Receive(a, c2, v, c2.servers[i].beat, Request(i, term, log, 1), log, w);
    PointOfThree(i, v);
    c' := Commit(a, c3, i, v, Request(i, term, log, 1), AppendReply(term, true, 0), term, log, next, matched, w);
    assert log == [PLACEHOLDER, LogEntry(x, term)];
  }

  /** Server 1 of three, which has lost its entry, wins the next term with server 2 and applies another one. */
  lemma ApplyAnother(a: Cluster, c: Cluster, x: Content, y: Content, w: Clause) returns (c': Cluster)
    requires Reaches(a, c, w) && Shaped(c) && |c.servers| == 3 && Application(0, 1, x) in c.aux.applied && x != y
    requires Plain(c.servers[1], 1, [PLACEHOLDER]) && Resting(c.servers[2], 0, [PLACEHOLDER]) && Acc(c, 2, 2) == 0
    ensures Reaches(a, c', w) && AppliesClash(c')
  {
    hide Reaches;
    var c1 := WinThree(a, c, 1, 2, 1, [PLACEHOLDER], w);
    c' := ApplyFirst(a, c1, 1, 2, y, 2, w);
    assert Application(0, 1, x) in c'.aux.applied && Application(1, 1, y) in c'.aux.applied;
  }

  /** A crash of a server whose log is not persisted undoes a commit, with everything else as assumed. */
  lemma PersistingNeeded(x: Content, y: Content) returns (c: Cluster)
    requires x != y
    ensures Reaches(Init(3), c, Persisting) && AppliesClash(c)
  {
    hide Reaches, Init, AppliesClash;
    var w, p := Persisting, [PLACEHOLDER];
    var c0 := StartOf(3, w);
    var c1 := WinThree(c0, c0, 0, 1, 0, p, w);
    var c2 := ApplyFirst(c0, c1, 0, 1, x, 1, w);
    var c3 := Next(c2, Crash(1));
    ReachesNext(c0, c2, Crash(1), w);
    assert Acc(c3, 2, 2) == Acc(c2, 2, 2) == Acc(c1, 2, 2) == Acc(c0, 2, 2);
    c := ApplyAnother(c0, c3, x, y, w);
  }

  /** So does a late delivery of the leader's earlier, empty request, without any crash. */
  lemma InOrderNeeded(x: Content, y: Content) returns (c: Cluster)
    requires x != y
    ensures Reaches(Init(3), c, InOrder) && AppliesClash(c)
  {
    hide Reaches, Init, AppliesClash, Spliced, MatchLength;
    var w, p := InOrder, [PLACEHOLDER];
    var c0 := StartOf(3, w);
    var c1 := WinThree(c0, c0, 0, 1, 0, p, w);
    var c2 := Post(c0, c1, 0, 1, p, [1, 1, 1], [0, 0, 0], w);
    assert Posted(c2, c2.servers[0].beat, 0, 1, 1, p, [1, 1, 1]);
    assert Acc(c2, 1, 1) == Acc(c1, 1, 1) == Acc(c0, 1, 1);
    var c3 := ApplyFirst(c0, c2, 0, 1, x, 1, w);
    var c4 := LateRequest(c0, c3, c2.servers[0].beat, x);
    assert Acc(c4, 2, 2) == Acc(c3, 2, 2) == Acc(c2, 2, 2) == Acc(c1, 2, 2) == Acc(c0, 2, 2);
    c := ApplyAnother(c0, c4, x, y, w);
  }

  lemma LateRequest(a: Cluster, c: Cluster, beat: nat, x: Content) returns (c': Cluster)
    requires Reaches(a, c, InOrder) && Shaped(c) && |c.servers| == 3 && Plain(c.servers[1], 1, [PLACEHOLDER, LogEntry(x, 1)])
    requires AppReq(1, beat, Request(0, 1, [PLACEHOLDER], 1), [PLACEHOLDER]) in c.net
    ensures Reaches(a, c', InOrder) && Shaped(c') && Only(c, c', 1, 1) && Plain(c'.servers[1], 1, [PLACEHOLDER])
  {
    hide Reaches;
    var args := Request(0, 1, [PLACEHOLDER], 1);
    var step := OnAppReq(1, AppReq(1, beat, args, [PLACEHOLDER]));
    var log := [PLACEHOLDER, LogEntry(x, 1)];
    assert MatchLength(log, 1, args.entries) == 0 && Spliced(log, args) == [PLACEHOLDER];
    c' := Next(c, step);
    ReachesNext(a, c, step, InOrder);
    assert NewlyApplied(1, c.servers[1], c'.servers[1]) == {};
  }
}
