/** The transport as a system of events: a sender, a receiver and channels that lose, duplicate and
    reorder. Here packets are identified by their position in the stream; what becomes of this when only
    sequence numbers are on the wire is the matter of `RdtWire`. */
module RdtProtocol {
  import opened RdtBase

  function Concat(ps: seq<Bytes>): Bytes
  {
    if ps == [] then [] else Concat(ps[..|ps| - 1]) + ps[|ps| - 1]
  }

  lemma {:induction false} ConcatAppend(a: seq<Bytes>, b: seq<Bytes>)
    ensures Concat(a + b) == Concat(a) + Concat(b)
  {
    if b == [] {
      assert a + b == a;
    } else {
      ConcatAppend(a, b[..|b| - 1]);
      assert (a + b)[..|a + b| - 1] == a + b[..|b| - 1];
      assert (Concat(a) + Concat(b[..|b| - 1])) + b[|b| - 1] == Concat(a) + Concat(b);
    }
  }

  // ---------------------------------------------------------------- sender

  /** `made` are the payloads of all packets made so far, `lo` the first that is not acknowledged,
      `queue` the bytes accepted from above but not yet in a packet. */
  datatype Sender = Sender(lo: nat, acked: set<nat>, made: seq<Bytes>, queue: Bytes, accepted: Bytes)

  function FirstUnacked(acked: set<nat>, lo: nat, hi: nat): (r: nat)
    ensures lo <= r && (lo <= hi ==> r <= hi) && (forall k :: lo <= k < r ==> k in acked) && (r < hi ==> r !in acked)
    decreases hi - lo
  {
    if lo < hi && lo in acked then FirstUnacked(acked, lo + 1, hi) else lo
  }

  function Acked(s: Sender, n: nat): Sender
  {
    if n < s.lo || n >= |s.made| then s
    else s.(acked := s.acked + {n}, lo := FirstUnacked(s.acked + {n}, s.lo, |s.made|))
  }

  function ChunkSize(bytes: Bytes): nat
  {
    if |bytes| > PAYLOAD then PAYLOAD else |bytes|
  }

  /** Packets are made from the queue until it is empty or the window is full. */
  function Fill(s: Sender): Sender
    decreases |s.queue|
  {
    if s.queue == [] || |s.made| >= s.lo + WINDOW then s
    else
      var k := ChunkSize(s.queue);
      Fill(s.(made := s.made + [s.queue[..k]], queue := s.queue[k..]))
  }

  function FromUpper(s: Sender, msg: Bytes): Sender
  {
    Fill(s.(queue := s.queue + msg, accepted := s.accepted + msg))
  }

  function FromAck(s: Sender, n: nat): Sender
  {
    var s1 := Acked(s, n);
    if s1.lo > s.lo then Fill(s1) else s1
  }

  ghost predicate SenderInv(s: Sender)
  {
    s.lo <= |s.made| <= s.lo + WINDOW &&
    (forall n :: n in s.acked ==> n < |s.made|) && (forall n: nat :: n < s.lo ==> n in s.acked) && s.lo !in s.acked &&
    Concat(s.made) + s.queue == s.accepted && (s.queue != [] ==> |s.made| == s.lo + WINDOW) &&
    forall n :: 0 <= n < |s.made| ==> 1 <= |s.made[n]| <= PAYLOAD
  }

  lemma ChunkMoves(made: seq<Bytes>, queue: Bytes, k: nat)
    requires k <= |queue|
    ensures Concat(made + [queue[..k]]) + queue[k..] == Concat(made) + queue
  {
    var made' := made + [queue[..k]];
    assert made'[..|made'| - 1] == made;
    assert Concat(made') + queue[k..] == Concat(made) + (queue[..k] + queue[k..]);
    assert queue[..k] + queue[k..] == queue;
  }

  /** Filling moves bytes from the queue into packets without losing or reordering any. */
  lemma {:induction false} FillKeeps(s: Sender)
    requires s.lo <= |s.made| <= s.lo + WINDOW
    ensures var r := Fill(s);
            r.lo == s.lo && r.acked == s.acked && r.accepted == s.accepted && s.made <= r.made &&
            |r.made| <= r.lo + WINDOW && (r.queue != [] ==> |r.made| == r.lo + WINDOW) &&
            Concat(r.made) + r.queue == Concat(s.made) + s.queue
    decreases |s.queue|
  {
    hide Concat;
    if s.queue != [] && |s.made| < s.lo + WINDOW {
      var k := ChunkSize(s.queue);
      ChunkMoves(s.made, s.queue, k);
      FillKeeps(s.(made := s.made + [s.queue[..k]], queue := s.queue[k..]));
    }
  }

  lemma {:induction false} FillSizes(s: Sender)
    requires forall n :: 0 <= n < |s.made| ==> 1 <= |s.made[n]| <= PAYLOAD
    ensures forall n :: 0 <= n < |Fill(s).made| ==> 1 <= |Fill(s).made[n]| <= PAYLOAD
    decreases |s.queue|
  {
    if s.queue != [] && |s.made| < s.lo + WINDOW {
      var k := ChunkSize(s.queue);
      FillSizes(s.(made := s.made + [s.queue[..k]], queue := s.queue[k..]));
    }
  }

  /** Packets are as large as they can be: only the last one of a queue that is used up may be smaller. */
  lemma {:induction false} FillChunks(s: Sender, n: nat)
    requires |s.made| <= n < |Fill(s).made|
    ensures |Fill(s).made[n]| == 123 || (n == |Fill(s).made| - 1 && Fill(s).queue == [] && 1 <= |Fill(s).made[n]| < 123)
    decreases |s.queue|
  {
    if s.queue != [] && |s.made| < s.lo + WINDOW {
      var k := ChunkSize(s.queue);
      var s1 := s.(made := s.made + [s.queue[..k]], queue := s.queue[k..]);
      if n > |s.made| {
        FillChunks(s1, n);
      } else {
        FillExtends(s1);
        assert Fill(s).made[n] == s1.made[n];
      }
    }
  }

  lemma {:induction false} FillExtends(s: Sender)
    ensures s.made <= Fill(s).made && (s.queue == [] ==> Fill(s) == s)
    decreases |s.queue|
  {
    if s.queue != [] && |s.made| < s.lo + WINDOW {
      var k := ChunkSize(s.queue);
      FillExtends(s.(made := s.made + [s.queue[..k]], queue := s.queue[k..]));
    }
  }

  lemma FromUpperKeeps(s: Sender, msg: Bytes)
    requires SenderInv(s)
    ensures SenderInv(FromUpper(s, msg)) && s.made <= FromUpper(s, msg).made
  {
    var s1 := s.(queue := s.queue + msg, accepted := s.accepted + msg);
    FillKeeps(s1);
    FillSizes(s1);
    assert Concat(s.made) + (s.queue + msg) == (Concat(s.made) + s.queue) + msg;
  }

  lemma AckedKeeps(s: Sender, n: nat)
    requires SenderInv(s)
    ensures var r := Acked(s, n);
            s.lo <= r.lo <= |r.made| && r.made == s.made && r.acked == (if s.lo <= n < |s.made| then s.acked + {n} else s.acked) &&
            (forall k: nat :: k < r.lo ==> k in r.acked) && r.lo !in r.acked
  {
  }

  lemma FromAckKeeps(s: Sender, n: nat)
    requires SenderInv(s)
    ensures SenderInv(FromAck(s, n)) && s.made <= FromAck(s, n).made
    ensures FromAck(s, n).acked == if s.lo <= n < |s.made| then s.acked + {n} else s.acked
  {
    AckedKeeps(s, n);
    FillKeeps(Acked(s, n));
    FillSizes(Acked(s, n));
  }

  // ---------------------------------------------------------------- receiver

  /** `lo` is the first packet not yet delivered, `got` the later ones that have arrived. */
  datatype Receiver = Receiver(lo: nat, got: map<nat, Bytes>, delivered: Bytes)

  /** The end of the run of arrived packets starting at `n`. */
  function RunEnd(got: map<nat, Bytes>, n: nat, limit: nat): (r: nat)
    requires n <= limit
    ensures n <= r <= limit && (forall k :: n <= k < r ==> k in got) && (r < limit ==> r !in got)
    decreases limit - n
  {
    if n < limit && n in got then RunEnd(got, n + 1, limit) else n
  }

  function Joined(got: map<nat, Bytes>, from: nat, end: nat): Bytes
    requires from <= end && forall k :: from <= k < end ==> k in got
    decreases end - from
  {
    if from == end then [] else Joined(got, from, end - 1) + got[end - 1]
  }

  function OnData(r: Receiver, n: nat, p: Bytes): Receiver
  {
    if n < r.lo then r
    else if n == r.lo then
      var end := RunEnd(r.got, r.lo + 1, r.lo + CELLS);
      Receiver(end, map k | k in r.got && k >= end :: r.got[k], r.delivered + (p + Joined(r.got, r.lo + 1, end)))
    else if n in r.got then r
    else r.(got := r.got[n := p])
  }

  /** What the receiver answers: nothing to packets further than a window behind. */
  predicate Answers(r: Receiver, n: nat)
  {
    r.lo <= n + WINDOW
  }

  /** A packet is delivered or kept. */
  ghost predicate Arrived(r: Receiver, n: nat)
  {
    n < r.lo || n in r.got
  }

  /** What an arriving packet changes: it has arrived, everything else is as before, and the base is the first
      packet that has not. */
  lemma ArrivedIs(r: Receiver, n: nat, p: Bytes)
    requires forall k :: k in r.got ==> r.lo < k < r.lo + WINDOW
    requires n < r.lo + WINDOW
    ensures var r' := OnData(r, n, p);
            (forall k: nat :: Arrived(r', k) <==> Arrived(r, k) || k == n) && !Arrived(r', r'.lo) && r.delivered <= r'.delivered &&
            forall k :: k in r'.got ==> r'.got[k] == if k in r.got then r.got[k] else p
  {
  }

  // ---------------------------------------------------------------- the system

  datatype Data = Data(n: nat, payload: Bytes)

  /** Everything ever sent stays in `data` and `acks` and may arrive at any time, any number of times. */
  datatype System = System(sender: Sender, receiver: Receiver, data: set<Data>, acks: set<nat>)

  datatype Event =
    | Upper(msg: Bytes)
    | Arrive(d: Data)
    | AckArrive(n: nat)
    | Resend(n: nat)

  const INIT: System := System(Sender(0, {}, [], [], []), Receiver(0, map[], []), {}, {})

  predicate Enabled(y: System, e: Event)
  {
    match e
    case Upper(_) => true
    case Arrive(d) => d in y.data
    case AckArrive(n) => n in y.acks
    case Resend(n) => y.sender.lo <= n < |y.sender.made| && n !in y.sender.acked
  }

  /** The packets made since the sender was at `from`. */
  function Fresh(made: seq<Bytes>, from: nat): set<Data>
  {
    set n: nat | from <= n < |made| :: Data(n, made[n])
  }

  function Next(y: System, e: Event): System
    requires Enabled(y, e)
  {
    match e
    case Upper(msg) =>
      var s := FromUpper(y.sender, msg);
      y.(sender := s, data := y.data + Fresh(s.made, |y.sender.made|))
    case Arrive(d) =>
      y.(receiver := OnData(y.receiver, d.n, d.payload), acks := if Answers(y.receiver, d.n) then y.acks + {d.n} else y.acks)
    case AckArrive(n) =>
      var s := FromAck(y.sender, n);
      y.(sender := s, data := y.data + Fresh(s.made, |y.sender.made|))
    case Resend(n) => y.(data := y.data + {Data(n, y.sender.made[n])})
  }

  ghost predicate Inv(y: System)
  {
    var s, r := y.sender, y.receiver;
    SenderInv(s) && s.lo <= r.lo <= |s.made| &&
    r.delivered == Concat(s.made[..r.lo]) &&
    (forall n :: n in r.got ==> r.lo < n < |s.made| && r.got[n] == s.made[n]) &&
    (forall d :: d in y.data ==> d.n < |s.made| && d.payload == s.made[d.n]) &&
    (forall n :: n in y.acks ==> n < |s.made| && Arrived(r, n)) &&
    (forall n :: n in s.acked ==> Arrived(r, n))
  }

  lemma InvInit()
    ensures Inv(INIT)
  {
  }

  lemma {:induction false} JoinedIsConcat(got: map<nat, Bytes>, made: seq<Bytes>, from: nat, end: nat)
    requires from <= end <= |made| && forall k :: from <= k < end ==> k in got && got[k] == made[k]
    ensures Joined(got, from, end) == Concat(made[from..end])
    decreases end - from
  {
    if from < end {
      JoinedIsConcat(got, made, from, end - 1);
      assert made[from..end][..end - from - 1] == made[from..end - 1];
    } else {
      assert made[from..end] == [];
    }
  }

  /** The sender's base never passes the receiver's: everything acknowledged has arrived, and the
      receiver's next packet has not. */
  lemma BasesOrdered(s: Sender, r: Receiver)
    requires SenderInv(s) && (forall n :: n in s.acked ==> Arrived(r, n)) && r.lo !in r.got
    ensures s.lo <= r.lo
  {
    assert r.lo < s.lo ==> r.lo in s.acked;
  }

  lemma SenderStepKeeps(y: System, s: Sender)
    requires Inv(y) && SenderInv(s) && y.sender.made <= s.made && s.lo <= y.receiver.lo
    requires forall n :: n in s.acked ==> Arrived(y.receiver, n)
    ensures Inv(y.(sender := s, data := y.data + Fresh(s.made, |y.sender.made|)))
  {
    assert s.made[..y.receiver.lo] == y.sender.made[..y.receiver.lo];
  }

  lemma {:induction false} ConcatAround(made: seq<Bytes>, lo: nat, end: nat)
    requires lo < end <= |made|
    ensures Concat(made[..end]) == Concat(made[..lo]) + (made[lo] + Concat(made[lo + 1..end]))
  {
    var one := [made[lo]];
    assert made[..end] == made[..lo] + (one + made[lo + 1..end]);
    ConcatAppend(made[..lo], one + made[lo + 1..end]);
    ConcatAppend(one, made[lo + 1..end]);
    assert one[..0] == [];
    assert Concat(one) == made[lo];
  }

  /** Delivering the run that starts at the base delivers exactly the next packets of the stream. */
  lemma DeliverRun(y: System, p: Bytes)
    requires Inv(y) && y.receiver.lo < |y.sender.made| && p == y.sender.made[y.receiver.lo]
    ensures var r' := OnData(y.receiver, y.receiver.lo, p);
            y.receiver.lo < r'.lo <= |y.sender.made| && r'.delivered == Concat(y.sender.made[..r'.lo]) && r'.lo !in y.receiver.got &&
            forall n :: n in r'.got <==> n in y.receiver.got && n > r'.lo
  {
    hide Concat;
    var s, r := y.sender, y.receiver;
    var end := RunEnd(r.got, r.lo + 1, r.lo + CELLS);
    if end > r.lo + 1 { assert end - 1 in r.got; }
    assert r.lo + WINDOW !in r.got;
    JoinedIsConcat(r.got, s.made, r.lo + 1, end);
    ConcatAround(s.made, r.lo, end);
  }

  lemma ArriveKeeps(y: System, d: Data)
    requires Inv(y) && Enabled(y, Arrive(d))
    ensures Inv(Next(y, Arrive(d)))
  {
    hide Concat, RunEnd, SenderInv, Joined;
    if d.n == y.receiver.lo {
      DeliverRun(y, d.payload);
    }
  }

  lemma InvNext(y: System, e: Event)
    requires Inv(y) && Enabled(y, e)
    ensures Inv(Next(y, e))
  {
    match e
    case Upper(msg) =>
      FromUpperKeeps(y.sender, msg);
      FillKeeps(y.sender.(queue := y.sender.queue + msg, accepted := y.sender.accepted + msg));
      SenderStepKeeps(y, FromUpper(y.sender, msg));
    case Arrive(d) => ArriveKeeps(y, d);
    case AckArrive(n) =>
      FromAckKeeps(y.sender, n);
      BasesOrdered(FromAck(y.sender, n), y.receiver);
      SenderStepKeeps(y, FromAck(y.sender, n));
    case Resend(n) =>
  }

  // ---------------------------------------------------------------- runs

  ghost predicate IsRun(states: seq<System>, events: seq<Event>)
  {
    |states| == |events| + 1 && states[0] == INIT &&
    forall k :: 0 <= k < |events| ==> Enabled(states[k], events[k]) && states[k + 1] == Next(states[k], events[k])
  }

  lemma {:induction false} InvAlong(states: seq<System>, events: seq<Event>, k: nat)
    requires IsRun(states, events) && k < |states|
    ensures Inv(states[k])
  {
    hide Inv, Next, Enabled;
    if k == 0 {
      InvInit();
    } else {
      InvAlong(states, events, k - 1);
      InvNext(states[k - 1], events[k - 1]);
    }
  }

  lemma {:induction false} ConcatPrefix(made: seq<Bytes>, k: nat)
    requires k <= |made|
    ensures Concat(made[..k]) <= Concat(made)
  {
    ConcatAppend(made[..k], made[k..]);
    assert made[..k] + made[k..] == made;
  }

  /** Reliable delivery: in every run, what has been delivered upward is a prefix of what was accepted
      from above, and the windows stay in step. */
  lemma Delivery(states: seq<System>, events: seq<Event>, k: nat)
    requires IsRun(states, events) && k < |states|
    ensures var s, r := states[k].sender, states[k].receiver;
            r.delivered <= s.accepted && s.lo <= r.lo <= |s.made| <= s.lo + WINDOW
  {
    InvAlong(states, events, k);
    var s, r := states[k].sender, states[k].receiver;
    ConcatPrefix(s.made, r.lo);
  }

  /** A retransmitted packet is always taken or acknowledged again, never ignored. */
  lemma ResendAnswered(states: seq<System>, events: seq<Event>, k: nat, n: nat)
    requires IsRun(states, events) && k < |states| && Enabled(states[k], Resend(n))
    ensures Answers(states[k].receiver, n)
  {
    InvAlong(states, events, k);
  }
}
