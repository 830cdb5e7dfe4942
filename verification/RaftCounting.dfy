/** The run that shows why a server out of office must not commit by the replies it still handles: five
    servers, five terms, everything else as assumed. */
module RaftCounting {
  import opened RaftModel
  import opened RaftCluster
  import opened RaftQuorum
  import opened RaftCommit
  import opened RaftSafety
  import opened RaftRuns
  import opened RaftLimits

  /** The logs that meet in the run. */
  function LogA(x: Content): Log
  {
    [PLACEHOLDER, LogEntry(x, 1), LogEntry(x, 1)]
  }

  function LogB(y: Content): Log
  {
    [PLACEHOLDER, LogEntry(y, 2)]
  }

  function LogC(y: Content): Log
  {
    [PLACEHOLDER, LogEntry(y, 2), LogEntry(y, 4)]
  }

  function LogD(x: Content): Log
  {
    [PLACEHOLDER, LogEntry(x, 1), LogEntry(x, 1), LogEntry(x, 5)]
  }

  ghost predicate Five(a: Cluster, c: Cluster)
  {
    Reaches(a, c, Counting) && Shaped(c) && |c.servers| == 5
  }

  ghost predicate NoneAccepted(c: Cluster, from: nat)
  {
    forall q: nat, t: nat :: t >= from ==> Acc(c, q, t) == 0
  }

  lemma PointOfFive(m: seq<int>, x: int)
    requires |m| == 5
    requires (if m[0] >= x then 1 else 0) + (if m[1] >= x then 1 else 0) + (if m[2] >= x then 1 else 0) +
             (if m[3] >= x then 1 else 0) + (if m[4] >= x then 1 else 0) >= 3
    requires (if m[0] > x then 1 else 0) + (if m[1] > x then 1 else 0) + (if m[2] > x then 1 else 0) +
             (if m[3] > x then 1 else 0) + (if m[4] > x then 1 else 0) < 3
    ensures CommitPoint(m) == x
  {
    hide CommitPoint, CountAtLeast;
    assert m == [m[0], m[1], m[2], m[3], m[4]];
    CountFive(m[0], m[1], m[2], m[3], m[4], x);
    CountThree(m[2], m[3], m[4], x);
    CountFive(m[0], m[1], m[2], m[3], m[4], x + 1);
    CountThree(m[2], m[3], m[4], x + 1);
    CommitPointIs(m, x);
  }

  ghost predicate SameAfter(c: Cluster, c': Cluster, from: nat)
  {
    forall q: nat, t: nat :: t >= from ==> Acc(c', q, t) == Acc(c, q, t)
  }

  lemma EmptyLogVotes(s: Server, i: nat, term: nat, log: Log)
    requires s.term <= term && Open(s) && s.log == [PLACEHOLDER] && log != []
    ensures Votes(s, i, term, log)
  {
  }

  /** Server 0 leads term 1 and keeps its entries to itself. */
  lemma FirstTerm(x: Content) returns (c0: Cluster, c: Cluster)
    ensures c0 == Init(5) && Five(c0, c) && NoneAccepted(c, 2)
    ensures Leading(c.servers[0], 1, LogA(x), [1, 1, 1, 1, 1], [2, 0, 0, 0, 0]) && !c.servers[0].signal
    ensures Resting(c.servers[1], 0, [PLACEHOLDER]) && Resting(c.servers[2], 1, [PLACEHOLDER])
    ensures Resting(c.servers[3], 1, [PLACEHOLDER]) && Resting(c.servers[4], 0, [PLACEHOLDER])
  {
    hide Reaches, Init, Votes;
    var w, p, next := Counting, [PLACEHOLDER], [1, 1, 1, 1, 1];
    c0 := StartOf(5, w);
    EmptyLogVotes(c0.servers[2], 0, 0, p);
    EmptyLogVotes(c0.servers[3], 0, 0, p);
    var c1 := WinFive(c0, c0, 0, 2, 3, 0, p, w);
    var c2 := Take(c0, c1, 0, x, 1, p, next, [0, 0, 0, 0, 0], w);
    c := Take(c0, c2, 0, x, 1, p + [LogEntry(x, 1)], next, [1, 0, 0, 0, 0], w);
    assert p + [LogEntry(x, 1)] + [LogEntry(x, 1)] == LogA(x);
    assert SameAfter(c0, c1, 2) && SameAfter(c1, c2, 2) && SameAfter(c2, c, 2);
  }

  /** A leader hears of a larger term, steps down and leaves its routine. */
  lemma Resign(a: Cluster, c: Cluster, i: nat, v: nat, args: VoteArgs, candLog: Log) returns (c': Cluster)
    requires Five(a, c) && v < 5 && args.candidateId == i != v && VoteReq(args, candLog) in c.net && c.servers[v].term < args.term
    requires var s := c.servers[v];
             s.role == Leader && !s.signal && s.office != NONE && s.commitIndex == 0 && s.lastApplied == 0
    ensures Five(a, c') && Only(c, c', v, args.term) && c'.aux.accepted == c.aux.accepted
    ensures Resting(c'.servers[v], args.term, c.servers[v].log)
  {
    hide Reaches;
    var c1 := Hear(a, c, i, v, args, candLog, Counting);
    c' := Quit(a, c1, v, Counting);
  }

  /** Server 1 leads term 2, with an entry of its own; server 0 steps down. */
  lemma SecondTerm(a: Cluster, c: Cluster, x: Content, y: Content) returns (c': Cluster)
    requires Five(a, c) && NoneAccepted(c, 2)
    requires Leading(c.servers[0], 1, LogA(x), [1, 1, 1, 1, 1], [2, 0, 0, 0, 0]) && !c.servers[0].signal
    requires Resting(c.servers[1], 0, [PLACEHOLDER]) && Resting(c.servers[2], 1, [PLACEHOLDER])
    requires Resting(c.servers[3], 1, [PLACEHOLDER]) && Resting(c.servers[4], 0, [PLACEHOLDER])
    ensures Five(a, c') && NoneAccepted(c', 3) && Resting(c'.servers[0], 2, LogA(x))
    ensures Leading(c'.servers[1], 2, LogB(y), [1, 1, 1, 1, 1], [0, 1, 0, 0, 0]) && !c'.servers[1].signal
    ensures Resting(c'.servers[2], 1, [PLACEHOLDER]) && Resting(c'.servers[3], 2, [PLACEHOLDER]) && Resting(c'.servers[4], 2, [PLACEHOLDER])
  {
    hide Reaches, Votes;
    var w, p := Counting, [PLACEHOLDER];
    var c1 := Ask(a, c, 1, 0, p, w);
    EmptyLogVotes(c1.servers[3], 1, 1, p);
    EmptyLogVotes(c1.servers[4], 1, 1, p);
    var c2 := WinFive(a, c1, 1, 3, 4, 1, p, w);
    var c3 := Take(a, c2, 1, y, 2, p, [1, 1, 1, 1, 1], [0, 0, 0, 0, 0], w);
    assert p + [LogEntry(y, 2)] == LogB(y);
    c' := Resign(a, c3, 1, 0, VoteArgs(2, 1, 0, 0), p);
    assert SameAfter(c, c1, 3) && SameAfter(c1, c2, 3) && SameAfter(c2, c3, 3) && SameAfter(c3, c', 3);
  }

  /** Server 0 leads term 3; server 1 steps down. */
  lemma ThirdTerm(a: Cluster, c: Cluster, x: Content, y: Content) returns (c': Cluster)
    requires Five(a, c) && NoneAccepted(c, 3) && Resting(c.servers[0], 2, LogA(x))
    requires Leading(c.servers[1], 2, LogB(y), [1, 1, 1, 1, 1], [0, 1, 0, 0, 0]) && !c.servers[1].signal
    requires Resting(c.servers[2], 1, [PLACEHOLDER]) && Resting(c.servers[3], 2, [PLACEHOLDER]) && Resting(c.servers[4], 2, [PLACEHOLDER])
    ensures Five(a, c') && NoneAccepted(c', 4) && Acc(c', 2, 3) == 0 && Acc(c', 3, 3) == 0
    ensures Leading(c'.servers[0], 3, LogA(x), [3, 3, 3, 3, 3], [2, 0, 0, 0, 0]) && !c'.servers[0].signal
    ensures Resting(c'.servers[1], 3, LogB(y)) && Resting(c'.servers[2], 3, [PLACEHOLDER])
    ensures Resting(c'.servers[3], 3, [PLACEHOLDER]) && Resting(c'.servers[4], 2, [PLACEHOLDER])
  {
    hide Reaches, Votes;
    var w := Counting;
    EmptyLogVotes(c.servers[2], 0, 2, LogA(x));
    EmptyLogVotes(c.servers[3], 0, 2, LogA(x));
    var c1 := WinFive(a, c, 0, 2, 3, 2, LogA(x), w);
    c' := Resign(a, c1, 0, 1, VoteArgs(3, 0, 2, 1), LogA(x));
    assert SameAfter(c, c1, 4) && SameAfter(c1, c', 4);
    assert Acc(c', 2, 3) == Acc(c1, 2, 3) == Acc(c, 2, 3) && Acc(c', 3, 3) == Acc(c1, 3, 3) == Acc(c, 3, 3);
  }

  /** A log of the placeholder alone rejects what follows a later entry. */
  lemma EmptyRejects(i: nat, term: nat, log: Log, next: nat)
    requires 2 <= next <= |log|
    ensures !Accepts([PLACEHOLDER], Request(i, term, log, next)) && NextHint([PLACEHOLDER], next - 1) == 1
  {
  }

  /** Servers 2 and 3 reject the first round of server 0. */
  lemma Rejections(a: Cluster, c: Cluster, x: Content) returns (c': Cluster)
    requires Five(a, c) && Leading(c.servers[0], 3, LogA(x), [3, 3, 3, 3, 3], [2, 0, 0, 0, 0]) && !c.servers[0].signal
    requires Resting(c.servers[2], 3, [PLACEHOLDER]) && Resting(c.servers[3], 3, [PLACEHOLDER])
    ensures Five(a, c') && c'.aux.accepted == c.aux.accepted && c'.servers[1] == c.servers[1] && c'.servers[4] == c.servers[4]
    ensures Leading(c'.servers[0], 3, LogA(x), [3, 3, 1, 1, 3], [2, 0, 0, 0, 0]) && !c'.servers[0].signal
    ensures Resting(c'.servers[2], 3, [PLACEHOLDER]) && Resting(c'.servers[3], 3, [PLACEHOLDER])
  {
    hide Reaches, Accepts, NextHint;
    var w, log, next, matched := Counting, LogA(x), [3, 3, 3, 3, 3], [2, 0, 0, 0, 0];
    var c1 := Post(a, c, 0, 3, log, next, matched, w);
    var beat := c1.servers[0].beat;
    assert Posted(c1, beat, 0, 2, 3, log, next) && Posted(c1, beat, 0, 3, 3, log, next);
    EmptyRejects(0, 3, log, 3);
    var c2 := Refuse(a, c1, 0, 2, 1, 3, log, next, matched, w);
    assert Posted(c2, beat, 0, 3, 3, log, [3, 3, 1, 3, 3]);
    c' := Refuse(a, c2, 0, 3, 1, 3, log, [3, 3, 1, 3, 3], matched, w);
  }

  /** They take its log in the second, and server 0 counts one of the replies. */
  lemma Spread(a: Cluster, c: Cluster, x: Content) returns (c': Cluster)
    requires Five(a, c) && NoneAccepted(c, 4) && Acc(c, 2, 3) == 0 && Acc(c, 3, 3) == 0
    requires Leading(c.servers[0], 3, LogA(x), [3, 3, 1, 1, 3], [2, 0, 0, 0, 0]) && !c.servers[0].signal
    requires Resting(c.servers[2], 3, [PLACEHOLDER]) && Resting(c.servers[3], 3, [PLACEHOLDER])
    ensures Five(a, c') && NoneAccepted(c', 4) && c'.servers[1] == c.servers[1] && c'.servers[4] == c.servers[4]
    ensures Leading(c'.servers[0], 3, LogA(x), [3, 3, 3, 1, 3], [2, 0, 2, 0, 0]) && !c'.servers[0].signal
    ensures Resting(c'.servers[2], 3, LogA(x)) && Resting(c'.servers[3], 3, LogA(x))
    ensures AppRep(3, c'.servers[0].beat, Request(0, 3, LogA(x), 1), AppendReply(3, true, 0)) in c'.net
  {
    hide Reaches, CommitPoint, Spliced, MatchLength;
    var w, log, next, matched := Counting, LogA(x), [3, 3, 1, 1, 3], [2, 0, 0, 0, 0];
    var c1 := Post(a, c, 0, 3, log, next, matched, w);
    var beat, args := c1.servers[0].beat, Request(0, 3, log, 1);
    assert Posted(c1, beat, 0, 2, 3, log, next) && Posted(c1, beat, 0, 3, 3, log, next);
    TakesAll(0, 3, log);
    var c2 := Receive(a, c1, 2, beat, args, log, w);
    assert Acc(c2, 3, 3) == Acc(c1, 3, 3) == Acc(c, 3, 3);
    var c3 := Receive(a, c2, 3, beat, args, log, w);
    assert matched[2 := 2] == [2, 0, 2, 0, 0];
    PointOfFive([2, 0, 2, 0, 0], 0);
    c' := Tally(a, c3, 0, 2, args, AppendReply(3, true, 0), 3, log, next, matched, w);
    assert SameAfter(c, c1, 4) && SameAfter(c1, c2, 4) && SameAfter(c2, c3, 4) && SameAfter(c3, c', 4);
  }

  lemma NewerLogVotes(s: Server, i: nat, term: nat, x: Content, y: Content)
    requires s.term <= term && Open(s) && s.log == LogA(x)
    ensures Votes(s, i, term, LogB(y)) && Votes(s, i, term, LogA(x))
  {
  }

  /** Server 0 after term 3: overwritten, but still in its leader routine and in the same round. */
  ghost predicate Overwritten(s: Server, beat: nat, y: Content)
  {
    s.role != Leader && s.term == 4 && s.log == LogC(y) && s.commitIndex == 0 && s.lastApplied == 0 && s.office == 3 &&
    s.beat == beat && s.matchIndex == [2, 0, 2, 0, 0]
  }

  /** Server 1 leads term 4. */
  lemma FourthTerm(a: Cluster, c: Cluster, x: Content, y: Content) returns (c': Cluster)
    requires Five(a, c) && NoneAccepted(c, 4) && Resting(c.servers[1], 3, LogB(y))
    requires Resting(c.servers[3], 3, LogA(x)) && Resting(c.servers[4], 2, [PLACEHOLDER])
    ensures Five(a, c') && NoneAccepted(c', 5) && Acc(c', 0, 4) == 0 && c.net <= c'.net
    ensures Leading(c'.servers[1], 4, LogC(y), [2, 2, 2, 2, 2], [0, 2, 0, 0, 0])
    ensures c'.servers[0] == c.servers[0] && c'.servers[2] == c.servers[2]
    ensures Resting(c'.servers[3], 4, LogA(x)) && Resting(c'.servers[4], 4, [PLACEHOLDER])
  {
    hide Reaches, Votes;
    var w := Counting;
    NewerLogVotes(c.servers[3], 1, 3, x, y);
    EmptyLogVotes(c.servers[4], 1, 3, LogB(y));
    var c1 := WinFive(a, c, 1, 3, 4, 3, LogB(y), w);
    c' := Take(a, c1, 1, y, 4, LogB(y), [2, 2, 2, 2, 2], [0, 1, 0, 0, 0], w);
    assert LogB(y) + [LogEntry(y, 4)] == LogC(y);
    assert SameAfter(c, c1, 5) && SameAfter(c1, c', 5) && Acc(c', 0, 4) == Acc(c1, 0, 4) == Acc(c, 0, 4);
  }

  /** In two rounds server 1 overwrites the log of server 0. */
  lemma Overwriting(a: Cluster, c: Cluster, x: Content, y: Content) returns (c': Cluster)
    requires Five(a, c) && NoneAccepted(c, 5) && Acc(c, 0, 4) == 0
    requires Leading(c.servers[0], 3, LogA(x), [3, 3, 3, 1, 3], [2, 0, 2, 0, 0]) && !c.servers[0].signal
    requires Leading(c.servers[1], 4, LogC(y), [2, 2, 2, 2, 2], [0, 2, 0, 0, 0])
    ensures Five(a, c') && NoneAccepted(c', 5) && c.net <= c'.net && Overwritten(c'.servers[0], c.servers[0].beat, y)
    ensures c'.servers[2] == c.servers[2] && c'.servers[3] == c.servers[3] && c'.servers[4] == c.servers[4]
  {
    hide Reaches, Spliced, MatchLength, NextHint, Accepts;
    var w, log, next, matched := Counting, LogC(y), [2, 2, 2, 2, 2], [0, 2, 0, 0, 0];
    Overwrite(x, y);
    var c1 := Post(a, c, 1, 4, log, next, matched, w);
    assert Posted(c1, c1.servers[1].beat, 1, 0, 4, log, next);
    var c2 := Refuse(a, c1, 1, 0, 1, 4, log, next, matched, w);
    var c3 := Post(a, c2, 1, 4, log, [1, 2, 2, 2, 2], matched, w);
    assert Posted(c3, c3.servers[1].beat, 1, 0, 4, log, [1, 2, 2, 2, 2]);
    assert Acc(c3, 0, 4) == Acc(c2, 0, 4) == Acc(c1, 0, 4) == Acc(c, 0, 4);
    c' := Receive(a, c3, 0, c3.servers[1].beat, Request(1, 4, log, 1), log, w);
    assert SameAfter(c, c1, 5) && SameAfter(c1, c2, 5) && SameAfter(c2, c3, 5) && SameAfter(c3, c', 5);
  }

  lemma Overwrite(x: Content, y: Content)
    ensures !Accepts(LogA(x), Request(1, 4, LogC(y), 2)) && NextHint(LogA(x), 1) == 1
    ensures var r := Request(1, 4, LogC(y), 1); Accepts(LogA(x), r) && Spliced(LogA(x), r) == LogC(y)
  {
    var r := Request(1, 4, LogC(y), 1);
    assert MatchLength(LogA(x), 1, r.entries) == 0;
    assert LogA(x)[..1] == [PLACEHOLDER];
    assert [PLACEHOLDER] + LogC(y)[1..] == LogC(y);
  }

  /** Server 0 counts the second reply of its own term, and commits an entry that only server 1 and it have. */
  lemma CountLate(a: Cluster, c: Cluster, beat: nat, x: Content, y: Content) returns (c': Cluster)
    requires Five(a, c) && AppRep(3, beat, Request(0, 3, LogA(x), 1), AppendReply(3, true, 0)) in c.net
    requires Overwritten(c.servers[0], beat, y)
    ensures Five(a, c') && Only(c, c', 0, 4) && c'.aux.accepted == c.aux.accepted && Application(0, 1, y) in c'.aux.applied
  {
    hide Reaches, CommitPoint;
    var step := OnAppRep(0, AppRep(3, beat, Request(0, 3, LogA(x), 1), AppendReply(3, true, 0)));
    assert [2, 0, 2, 0, 0][3 := 2] == [2, 0, 2, 2, 0];
    PointOfFive([2, 0, 2, 2, 0], 2);
    c' := Next(c, step);
    ReachesNext(a, c, step, Counting);
    assert c'.servers[0].log == LogC(y) && c'.servers[0].lastApplied == 2;
    assert LogC(y)[1].content == y;
    assert Application(0, 1, y) in NewlyApplied(0, c.servers[0], c'.servers[0]);
  }

  /** Server 2 leads term 5 with the older log. */
  lemma FifthTerm(a: Cluster, c: Cluster, x: Content) returns (c': Cluster)
    requires Five(a, c) && NoneAccepted(c, 5)
    requires Resting(c.servers[2], 3, LogA(x)) && Resting(c.servers[3], 4, LogA(x)) && Resting(c.servers[4], 4, [PLACEHOLDER])
    ensures Five(a, c') && c.aux.applied <= c'.aux.applied && Acc(c', 3, 5) == 0 && Acc(c', 4, 5) == 0
    ensures Leading(c'.servers[2], 5, LogD(x), [3, 3, 3, 3, 3], [0, 0, 3, 0, 0])
    ensures Resting(c'.servers[3], 5, LogA(x)) && Resting(c'.servers[4], 5, [PLACEHOLDER])
  {
    hide Reaches, Votes;
    var w, next := Counting, [3, 3, 3, 3, 3];
    var c1 := Ask(a, c, 2, 3, LogA(x), w);
    NewerLogVotes(c1.servers[3], 2, 4, x, x);
    EmptyLogVotes(c1.servers[4], 2, 4, LogA(x));
    var c2 := WinFive(a, c1, 2, 3, 4, 4, LogA(x), w);
    c' := Take(a, c2, 2, x, 5, LogA(x), next, [0, 0, 2, 0, 0], w);
    assert LogA(x) + [LogEntry(x, 5)] == LogD(x);
    assert SameAfter(c, c1, 5) && Acc(c', 3, 5) == Acc(c2, 3, 5) == Acc(c1, 3, 5) && Acc(c', 4, 5) == Acc(c2, 4, 5) == Acc(c1, 4, 5);
  }

  /** In its first round server 3 takes its entry, and server 4 rejects. */
  lemma LastRound(a: Cluster, c: Cluster, x: Content) returns (c': Cluster)
    requires Five(a, c) && Leading(c.servers[2], 5, LogD(x), [3, 3, 3, 3, 3], [0, 0, 3, 0, 0]) && Acc(c, 3, 5) == 0 && Acc(c, 4, 5) == 0
    requires Resting(c.servers[3], 5, LogA(x)) && Resting(c.servers[4], 5, [PLACEHOLDER])
    ensures Five(a, c') && c.aux.applied <= c'.aux.applied && Acc(c', 4, 5) == 0 && Resting(c'.servers[4], 5, [PLACEHOLDER])
    ensures Leading(c'.servers[2], 5, LogD(x), [3, 3, 3, 4, 1], [0, 0, 3, 3, 0])
  {
    hide Reaches, CommitPoint, Spliced, MatchLength, Accepts, NextHint;
    var w, log, next, matched := Counting, LogD(x), [3, 3, 3, 3, 3], [0, 0, 3, 0, 0];
    TakesLast(x);
    EmptyRejects(2, 5, log, 3);
    var c1 := Post(a, c, 2, 5, log, next, matched, w);
    var beat := c1.servers[2].beat;
    assert Posted(c1, beat, 2, 3, 5, log, next) && Posted(c1, beat, 2, 4, 5, log, next);
    var c2 := Receive(a, c1, 3, beat, Request(2, 5, log, 3), log, w);
    assert matched[3 := 3] == [0, 0, 3, 3, 0];
    PointOfFive([0, 0, 3, 3, 0], 0);
    var c3 := Tally(a, c2, 2, 3, Request(2, 5, log, 3), AppendReply(5, true, 0), 5, log, next, matched, w);
    assert Posted(c3, beat, 2, 4, 5, log, [3, 3, 3, 4, 3]);
    c' := Refuse(a, c3, 2, 4, 1, 5, log, [3, 3, 3, 4, 3], [0, 0, 3, 3, 0], w);
    assert Acc(c', 4, 5) == Acc(c3, 4, 5) == Acc(c2, 4, 5) == Acc(c1, 4, 5) == Acc(c, 4, 5);
  }

  /** In its second round server 4 takes its log, and server 2 commits it. */
  lemma LastCommit(a: Cluster, c: Cluster, x: Content) returns (c': Cluster)
    requires Five(a, c) && Leading(c.servers[2], 5, LogD(x), [3, 3, 3, 4, 1], [0, 0, 3, 3, 0]) && Acc(c, 4, 5) == 0
    requires Resting(c.servers[4], 5, [PLACEHOLDER])
    ensures Five(a, c') && c.aux.applied <= c'.aux.applied && Application(2, 1, x) in c'.aux.applied
  {
    hide Reaches, CommitPoint, Spliced, MatchLength;
    var w, log, next, matched := Counting, LogD(x), [3, 3, 3, 4, 1], [0, 0, 3, 3, 0];
    var c1 := Post(a, c, 2, 5, log, next, matched, w);
    assert Posted(c1, c1.servers[2].beat, 2, 4, 5, log, next);
    TakesAll(2, 5, log);
    var c2 := Receive(a, c1, 4, c1.servers[2].beat, Request(2, 5, log, 1), log, w);
    assert matched[4 := 3] == [0, 0, 3, 3, 3];
    PointOfFive([0, 0, 3, 3, 3], 3);
    c' := Commit(a, c2, 2, 4, Request(2, 5, log, 1), AppendReply(5, true, 0), 5, log, next, matched, w);
  }

  lemma TakesLast(x: Content)
    ensures var r := Request(2, 5, LogD(x), 3); Accepts(LogA(x), r) && Spliced(LogA(x), r) == LogD(x)
  {
    var r := Request(2, 5, LogD(x), 3);
    assert MatchLength(LogA(x), 3, r.entries) == 0;
    assert LogA(x)[..3] + LogD(x)[3..] == LogD(x);
  }

  /** Servers 0 and 2 apply different commands at index 1, although all other assumptions are met. */
  lemma CountingNeeded(x: Content, y: Content) returns (c: Cluster)
    requires x != y
    ensures Reaches(Init(5), c, Counting) && AppliesClash(c)
  {
    hide Reaches, Init, Shaped, NoneAccepted, LogA, LogB, LogC, LogD, Resting, Overwritten;
    var c0, c1 := FirstTerm(x);
    var c2 := SecondTerm(c0, c1, x, y);
    var c3 := ThirdTerm(c0, c2, x, y);
    var c4 := Rejections(c0, c3, x);
    assert NoneAccepted(c4, 4) by { NothingNew(c3, c4, 4); }
    var c5 := Spread(c0, c4, x);
    var c6 := FourthTerm(c0, c5, x, y);
    var c7 := Overwriting(c0, c6, x, y);
    var c8 := CountLate(c0, c7, c5.servers[0].beat, x, y);
    assert NoneAccepted(c8, 5) by { NothingNew(c7, c8, 5); }
    var c9 := FifthTerm(c0, c8, x);
    var c10 := LastRound(c0, c9, x);
    c := LastCommit(c0, c10, x);
    assert Application(0, 1, y) in c.aux.applied && Application(2, 1, x) in c.aux.applied;
  }

  lemma NothingNew(c: Cluster, c': Cluster, from: nat)
    requires NoneAccepted(c, from) && c'.aux.accepted == c.aux.accepted
    ensures NoneAccepted(c', from)
  {
    forall q: nat, t: nat | t >= from
      ensures Acc(c', q, t) == 0
    {
      assert Acc(c, q, t) == 0;
    }
  }
}
