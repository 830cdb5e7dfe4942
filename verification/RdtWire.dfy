/** The transport with sequence numbers on the wire: what a number stands for, and for how long. */
module RdtWire {
  import opened Common
  import opened RdtBase
  import opened RdtProtocol

  /** How old a packet or an acknowledgement may be when it arrives: at most this many packets behind the
      window it arrives at. */
  const SLACK: nat := 20

  // ---------------------------------------------------------------- what a number is taken for

  /** The packet of the window that starts at `lo` with this number, if there is one. */
  function InWindow(lo: nat, seqN: nat): Option<nat>
  {
    var ahead := RMinus(seqN, SeqOf(lo), MAX_SEQ);
    if ahead < WINDOW then Some(lo + ahead) else None
  }

  lemma WindowNumber(lo: nat, n: nat)
    requires lo <= n < lo + WINDOW
    ensures InWindow(lo, SeqOf(n)) == Some(n)
  {
    hide SeqOf, RMinus;
    SeqDistance(n, lo);
  }

  lemma {:induction false} SeqDifference(lo: nat, n: nat)
    requires n < lo
    ensures RMinus(SeqOf(n), SeqOf(lo), MAX_SEQ) == (n - lo) % MAX_SEQ
    decreases lo - n
  {
    hide SeqOf, RMinus;
    SamePeriod(n - lo);
    if lo <= n + MAX_SEQ {
      SeqDistance(n, lo);
      SmallRemainder(n - lo + MAX_SEQ);
    } else {
      SeqDifference(lo, n + MAX_SEQ);
      SeqPeriod(n);
    }
  }

  lemma SamePeriod(x: int)
    ensures x % MAX_SEQ == (x + MAX_SEQ) % MAX_SEQ
  {
  }

  lemma SmallRemainder(x: int)
    requires 0 <= x < MAX_SEQ
    ensures x % MAX_SEQ == x
  {
  }

  lemma SeqPeriod(n: nat)
    ensures SeqOf(n + MAX_SEQ) == SeqOf(n)
  {
  }

  /** The slack is exact: a packet or acknowledgement from behind the window is taken for one in the window
      exactly if its distance, counted in periods of 30, falls in the window. */
  lemma AliasIff(lo: nat, n: nat)
    requires n < lo
    ensures InWindow(lo, SeqOf(n)).Some? <==> (n - lo) % MAX_SEQ < WINDOW
    ensures lo <= n + SLACK ==> InWindow(lo, SeqOf(n)) == None
    ensures lo == n + SLACK + 1 ==> InWindow(lo, SeqOf(n)) == Some(lo + WINDOW - 1)
  {
    hide SeqOf, RMinus;
    SeqDifference(lo, n);
    if lo <= n + MAX_SEQ {
      SamePeriod(n - lo);
      SmallRemainder(if lo == n + MAX_SEQ then 0 else n - lo + MAX_SEQ);
    }
  }

  // ---------------------------------------------------------------- the handlers

  /** The receiver's cell test: a packet in the window, one within a window behind it, or neither. */
  predicate Repeats(lo: nat, seqN: nat)
  {
    RMinus(SeqOf(lo), seqN, MAX_SEQ) <= WINDOW
  }

  /** The receiver answers exactly the numbers of the ten packets before its base and the ten from it on. */
  lemma AnswersIff(r: Receiver, seqN: nat)
    requires seqN < 30
    ensures WireAnswers(r, seqN) <==> exists d :: -10 <= d < 10 && Numbered(r.lo, d, seqN)
  {
    hide WireAnswers, Numbered;
    var ahead := RMinus(seqN, SeqOf(r.lo), 30);
    AnswersAhead(r, seqN);
    forall d | -10 <= d < 10
      ensures Numbered(r.lo, d, seqN) <==> d == ahead || d == ahead - 30
    {
      NumberedAhead(r.lo, d, seqN);
    }
    if ahead < 10 {
      assert Numbered(r.lo, ahead, seqN);
    } else if ahead >= 20 {
      assert Numbered(r.lo, ahead - 30, seqN);
    }
  }

  lemma AnswersAhead(r: Receiver, seqN: nat)
    requires seqN < 30
    ensures var ahead := RMinus(seqN, SeqOf(r.lo), 30); 0 <= ahead < 30 && (WireAnswers(r, seqN) <==> ahead < 10 || ahead >= 20)
  {
    hide SeqOf;
    var x := SeqOf(r.lo);
    assert RMinus(seqN, x, 30) == if seqN >= x then seqN - x else seqN - x + 30;
    assert RMinus(x, seqN, 30) == if x >= seqN then x - seqN else x - seqN + 30;
  }

  lemma NumberedAhead(lo: nat, d: int, seqN: nat)
    requires seqN < 30 && -10 <= d < 10
    ensures var ahead := RMinus(seqN, SeqOf(lo), 30); Numbered(lo, d, seqN) <==> d == ahead || d == ahead - 30
  {
    var x := lo % 30;
    assert (lo + d) % 30 == (x + d) % 30 by { assert lo == 30 * (lo / 30) + x; }
    assert (x + d) % 30 == if x + d < 0 then x + d + 30 else if x + d < 30 then x + d else x + d - 30;
    assert RMinus(seqN, x, 30) == if seqN >= x then seqN - x else seqN - x + 30;
  }

  /** The packet `d` after `lo`, counted modulo 30, has this number. */
  predicate Numbered(lo: nat, d: int, seqN: nat)
  {
    (lo + d) % 30 == seqN
  }

  function OnWire(r: Receiver, pkt: Packet): Receiver
  {
    var at := InWindow(r.lo, pkt.seqN);
    if at.Some? then OnData(r, at.value, pkt.payload) else r
  }

  /** Whether the receiver acknowledges the packet. */
  predicate WireAnswers(r: Receiver, seqN: nat)
  {
    InWindow(r.lo, seqN).Some? || Repeats(r.lo, seqN)
  }

  /** The sender's acknowledgement handler. None if the window is empty and the number is that of the next
      packet: the loop that looks for the first unacknowledged packet then runs round the whole window. */
  function FromWire(s: Sender, seqN: nat): Option<Sender>
  {
    var at := InWindow(s.lo, seqN);
    if at == None then Some(s)
    else if at.value == s.lo == |s.made| then None
    else Some(FromAck(s, at.value))
  }

  /** Up to the slack, data packets are read as what they are. */
  lemma DataRead(r: Receiver, n: nat, p: Bytes)
    requires n < r.lo + WINDOW && r.lo <= n + SLACK
    ensures OnWire(r, Packet(SeqOf(n), p)) == OnData(r, n, p) && (WireAnswers(r, SeqOf(n)) <==> Answers(r, n))
  {
    hide SeqOf, OnData;
    if n >= r.lo {
      WindowNumber(r.lo, n);
    } else {
      AliasIff(r.lo, n);
      SeqDistance(r.lo, n);
      Ignored(r, n, p);
    }
  }

  lemma Ignored(r: Receiver, n: nat, p: Bytes)
    requires n < r.lo
    ensures OnData(r, n, p) == r
  {
  }

  /** So are acknowledgements. */
  lemma AckRead(s: Sender, n: nat)
    requires s.lo <= |s.made| <= s.lo + WINDOW && n < |s.made| && s.lo <= n + SLACK
    ensures FromWire(s, SeqOf(n)) == Some(FromAck(s, n))
  {
    hide SeqOf, Fill;
    if n >= s.lo {
      WindowNumber(s.lo, n);
    } else {
      AliasIff(s.lo, n);
    }
  }

  /** An acknowledgement from behind the window does what it should, namely nothing, exactly if it is not taken
      for one in the window, or for one that was counted before, or for a later packet not yet made. */
  lemma AckAliasIff(s: Sender, n: nat)
    requires SenderInv(s) && n < s.lo
    ensures var at := s.lo + (n - s.lo) % MAX_SEQ;
            FromWire(s, SeqOf(n)) == Some(FromAck(s, n)) <==>
            at >= s.lo + WINDOW || at in s.acked || (at > s.lo && at >= |s.made|)
  {
    hide SeqOf, Fill, Concat, RMinus;
    SeqDifference(s.lo, n);
    AliasIff(s.lo, n);
    var at := s.lo + (n - s.lo) % MAX_SEQ;
    assert FromAck(s, n) == s;
    if at < s.lo + WINDOW && at < |s.made| {
      if at in s.acked {
        assert s.acked + {at} == s.acked;
        assert FromAck(s, at) == s;
      } else {
        assert at in Acked(s, at).acked;
        FillAcked(Acked(s, at));
        assert FromAck(s, at) != s;
      }
    }
  }

  lemma {:induction false} FillAcked(s: Sender)
    ensures Fill(s).acked == s.acked
    decreases |s.queue|
  {
    if s.queue != [] && |s.made| < s.lo + WINDOW {
      var k := ChunkSize(s.queue);
      FillAcked(s.(made := s.made + [s.queue[..k]], queue := s.queue[k..]));
    }
  }

  // ---------------------------------------------------------------- the system

  function OnTheWire(d: Data): Packet
  {
    Packet(SeqOf(d.n), d.payload)
  }

  /** An event at a system whose parties see sequence numbers only; the positions in the channels are for
      the record. None if the sender's window is lost. */
  function WireNext(y: System, e: Event): Option<System>
    requires Enabled(y, e)
  {
    match e
    case Arrive(d) =>
      Some(y.(receiver := OnWire(y.receiver, OnTheWire(d)),
              acks := if WireAnswers(y.receiver, SeqOf(d.n)) then y.acks + {d.n} else y.acks))
    case AckArrive(n) =>
      var s := FromWire(y.sender, SeqOf(n));
      if s == None then None
      else Some(y.(sender := s.value, data := y.data + Fresh(s.value.made, |y.sender.made|)))
    case _ => Some(Next(y, e))
  }

  /** No packet or acknowledgement arrives once the other side is more than `slack` packets past it. */
  predicate Timely(y: System, e: Event, slack: nat)
  {
    match e
    case Arrive(d) => y.receiver.lo <= d.n + slack
    case AckArrive(n) => y.sender.lo <= n + slack
    case _ => true
  }

  /** A timely event on the wire is the event of the system with positions. */
  lemma WireIsNext(y: System, e: Event)
    requires Inv(y) && Enabled(y, e) && Timely(y, e, SLACK)
    ensures WireNext(y, e) == Some(Next(y, e))
  {
    hide SeqOf, OnData, FromAck, Fill, InWindow, OnWire, FromWire, Concat;
    match e
    case Arrive(d) => DataRead(y.receiver, d.n, d.payload);
    case AckArrive(n) => AckRead(y.sender, n);
    case _ =>
  }

  ghost predicate IsWireRun(states: seq<System>, events: seq<Event>, slack: nat)
  {
    |states| == |events| + 1 && states[0] == INIT &&
    forall k :: 0 <= k < |events| ==>
      Enabled(states[k], events[k]) && Timely(states[k], events[k], slack) && WireNext(states[k], events[k]) == Some(states[k + 1])
  }

  lemma {:induction false} WireInv(states: seq<System>, events: seq<Event>, k: nat)
    requires IsWireRun(states, events, SLACK) && k < |states|
    ensures Inv(states[k])
  {
    hide Inv, Next, Enabled, WireNext, Timely;
    if k == 0 {
      InvInit();
    } else {
      WireInv(states, events, k - 1);
      WireIsNext(states[k - 1], events[k - 1]);
      InvNext(states[k - 1], events[k - 1]);
    }
  }

  /** Reliable delivery with sequence numbers: in every run in which nothing is more than 20 packets late,
      what has been delivered is a prefix of what was accepted, and the windows stay in step. */
  lemma WireDelivery(states: seq<System>, events: seq<Event>, k: nat)
    requires IsWireRun(states, events, SLACK) && k < |states|
    ensures var s, r := states[k].sender, states[k].receiver;
            r.delivered <= s.accepted && s.lo <= r.lo <= |s.made| <= s.lo + WINDOW
  {
    WireInv(states, events, k);
    ConcatPrefix(states[k].sender.made, states[k].receiver.lo);
  }

  /** Nor is the sender's window ever lost. */
  lemma WireGoesOn(states: seq<System>, events: seq<Event>, k: nat, e: Event)
    requires IsWireRun(states, events, SLACK) && k < |states| && Enabled(states[k], e) && Timely(states[k], e, SLACK)
    ensures WireNext(states[k], e).Some?
  {
    hide IsWireRun, WireNext;
    WireInv(states, events, k);
    WireIsNext(states[k], e);
  }

  /** A retransmitted packet is always taken or acknowledged again: by its number the receiver never finds it to
      be neither in the window nor behind it. */
  lemma ResendAnswered(states: seq<System>, events: seq<Event>, k: nat, n: nat)
    requires IsWireRun(states, events, SLACK) && k < |states| && Enabled(states[k], Resend(n))
    ensures WireAnswers(states[k].receiver, SeqOf(n))
  {
    hide IsWireRun, InWindow, Repeats, SeqOf;
    WireInv(states, events, k);
    DataRead(states[k].receiver, n, []);
  }

  // ---------------------------------------------------------------- nothing is lost for good

  /** Every packet made has been sent, so a packet sent again is nothing new. */
  ghost predicate AllSent(y: System)
  {
    forall n :: 0 <= n < |y.sender.made| ==> Data(n, y.sender.made[n]) in y.data
  }

  lemma AllSentNext(y: System, e: Event)
    requires Inv(y) && AllSent(y) && Enabled(y, e)
    ensures AllSent(Next(y, e))
  {
    hide Concat, OnData, FromAck, FromUpper, Acked, Fill;
    match e
    case Upper(msg) =>
      FromUpperKeeps(y.sender, msg);
      MoreMade(y, FromUpper(y.sender, msg));
    case AckArrive(n) =>
      FromAckKeeps(y.sender, n);
      MoreMade(y, FromAck(y.sender, n));
    case _ =>
  }

  lemma MoreMade(y: System, s: Sender)
    requires AllSent(y) && y.sender.made <= s.made
    ensures AllSent(y.(sender := s, data := y.data + Fresh(s.made, |y.sender.made|)))
  {
    forall n | 0 <= n < |s.made|
      ensures Data(n, s.made[n]) in y.data + Fresh(s.made, |y.sender.made|)
    {
      if n < |y.sender.made| {
        assert Data(n, y.sender.made[n]) in y.data;
      } else {
        assert Data(n, s.made[n]) in Fresh(s.made, |y.sender.made|);
      }
    }
  }

  /** The events can happen on the wire, none late, one after the other from `y`, and end in `z`. */
  ghost predicate Leads(y: System, events: seq<Event>, z: System)
    decreases |events|
  {
    if events == [] then z == y
    else Enabled(y, events[0]) && Timely(y, events[0], SLACK) && WireNext(y, events[0]).Some? &&
         Leads(WireNext(y, events[0]).value, events[1..], z)
  }

  lemma LeadsOn(y: System, e: Event, z: System, rest: seq<Event>, end: System)
    requires Enabled(y, e) && Timely(y, e, SLACK) && WireNext(y, e) == Some(z) && Leads(z, rest, end)
    ensures Leads(y, [e] + rest, end)
  {
    assert ([e] + rest)[1..] == rest;
  }

  /** When every packet made is acknowledged, everything accepted has been delivered. */
  lemma AllAcknowledged(y: System)
    requires Inv(y) && y.sender.lo == |y.sender.made|
    ensures y.receiver.delivered == y.sender.accepted
  {
    assert y.sender.made[..|y.sender.made|] == y.sender.made;
  }

  /** The first unacknowledged packet arrives once more. */
  lemma ArrivesAgain(y: System) returns (z: System)
    requires Inv(y) && AllSent(y) && y.sender.lo < |y.sender.made|
    ensures var d := Data(y.sender.lo, y.sender.made[y.sender.lo]);
            Enabled(y, Arrive(d)) && Timely(y, Arrive(d), SLACK) && WireNext(y, Arrive(d)) == Some(z)
    ensures Inv(z) && AllSent(z) && z.sender == y.sender && y.sender.lo in z.acks
  {
    hide OnData, Concat;
    var d := Data(y.sender.lo, y.sender.made[y.sender.lo]);
    WireIsNext(y, Arrive(d));
    InvNext(y, Arrive(d));
    z := Next(y, Arrive(d));
  }

  /** Its acknowledgement moves the base, and bytes from the queue take the place. */
  lemma AckMoves(y: System) returns (z: System)
    requires Inv(y) && AllSent(y) && y.sender.lo < |y.sender.made| && y.sender.lo in y.acks
    ensures var e := AckArrive(y.sender.lo); Enabled(y, e) && Timely(y, e, SLACK) && WireNext(y, e) == Some(z)
    ensures Inv(z) && AllSent(z) && z.sender.accepted == y.sender.accepted && Work(z.sender) < Work(y.sender)
  {
    var e := AckArrive(y.sender.lo);
    WireIsNext(y, e);
    InvNext(y, e);
    AllSentNext(y, e);
    z := Next(y, e);
    AckWorks(y.sender);
  }

  /** Packets to be acknowledged and bytes to be sent. */
  ghost function Work(s: Sender): int
  {
    |s.made| - s.lo + |s.queue|
  }

  lemma AckWorks(s: Sender)
    requires SenderInv(s) && s.lo < |s.made|
    ensures var s' := FromAck(s, s.lo); 0 <= Work(s') < Work(s) && s'.accepted == s.accepted
  {
    FromAckKeeps(s, s.lo);
    FillWorks(Acked(s, s.lo));
  }

  lemma {:induction false} FillWorks(s: Sender)
    ensures Work(Fill(s)) <= Work(s) && Fill(s).accepted == s.accepted
    decreases |s.queue|
  {
    if s.queue != [] && |s.made| < s.lo + WINDOW {
      var k := ChunkSize(s.queue);
      FillWorks(s.(made := s.made + [s.queue[..k]], queue := s.queue[k..]));
    }
  }

  /** From every state, if packets and acknowledgements arrive from then on, everything accepted is delivered. */
  lemma {:induction false} CanFinish(y: System) returns (events: seq<Event>, z: System)
    requires Inv(y) && AllSent(y)
    ensures Leads(y, events, z) && z.sender.accepted == y.sender.accepted == z.receiver.delivered
    decreases Work(y.sender)
  {
    hide Inv, AllSent, Enabled, Timely, WireNext, Work;
    if y.sender.lo == |y.sender.made| {
      AllAcknowledged(y);
      events, z := [], y;
    } else {
      assert y.sender.lo < |y.sender.made| && Work(y.sender) >= 0 by { SomeWork(y); }
      var y1 := ArrivesAgain(y);
      var y2 := AckMoves(y1);
      var rest;
      rest, z := CanFinish(y2);
      LeadsOn(y1, AckArrive(y.sender.lo), y2, rest, z);
      LeadsOn(y, Arrive(Data(y.sender.lo, y.sender.made[y.sender.lo])), y1, [AckArrive(y.sender.lo)] + rest, z);
      events := [Arrive(Data(y.sender.lo, y.sender.made[y.sender.lo]))] + ([AckArrive(y.sender.lo)] + rest);
    }
  }

  lemma SomeWork(y: System)
    requires Inv(y) && y.sender.lo != |y.sender.made|
    ensures y.sender.lo < |y.sender.made| && Work(y.sender) >= 0
  {
  }

  lemma {:induction false} AllSentAlong(states: seq<System>, events: seq<Event>, k: nat)
    requires IsWireRun(states, events, SLACK) && k < |states|
    ensures AllSent(states[k])
  {
    hide AllSent, Next, WireNext, Timely, Enabled, Inv;
    if k == 0 {
      assert AllSent(INIT) by { NothingMade(); }
    } else {
      AllSentAlong(states, events, k - 1);
      WireInv(states, events, k - 1);
      WireIsNext(states[k - 1], events[k - 1]);
      AllSentNext(states[k - 1], events[k - 1]);
    }
  }

  lemma NothingMade()
    ensures AllSent(INIT)
  {
  }

  /** So no run in which nothing is more than 20 packets late ever gets stuck. */
  lemma NeverStuck(states: seq<System>, events: seq<Event>, k: nat) returns (more: seq<Event>, z: System)
    requires IsWireRun(states, events, SLACK) && k < |states|
    ensures Leads(states[k], more, z) && z.receiver.delivered == z.sender.accepted == states[k].sender.accepted
  {
    hide IsWireRun;
    WireInv(states, events, k);
    AllSentAlong(states, events, k);
    more, z := CanFinish(states[k]);
  }
}
