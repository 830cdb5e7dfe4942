/** A run in which one packet arrives 21 packets late, and wrong bytes are delivered. */
module RdtStale {
  import opened Common
  import opened RdtBase
  import opened RdtProtocol
  import opened RdtWire
  import FiniteSets

  /** The system after `k` messages of one byte, each delivered and acknowledged; `got` waits at the receiver. */
  ghost function Steady(k: nat, b: Byte, got: map<nat, Bytes>): System
  {
    System(Sender(k, FiniteSets.Ids(k), seq(k, _ => [b]), [], seq(k, _ => b)), Receiver(k, got, seq(k, _ => b)),
           set n: nat | n < k :: Data(n, [b]), FiniteSets.Ids(k))
  }

  /** `e` leads from `y` to `z`. */
  ghost predicate Leads(y: System, e: Event, z: System, slack: nat)
  {
    Enabled(y, e) && Timely(y, e, slack) && WireNext(y, e) == Some(z)
  }

  ghost predicate Reached(y: System, slack: nat)
  {
    exists states, events :: IsWireRun(states, events, slack) && states[|events|] == y
  }

  lemma Go(y: System, e: Event, z: System, slack: nat)
    requires Reached(y, slack) && Leads(y, e, z, slack)
    ensures Reached(z, slack)
  {
    hide Enabled, Timely, WireNext;
    var states, events :| IsWireRun(states, events, slack) && states[|events|] == y;
    var states', events' := states + [z], events + [e];
    forall k | 0 <= k < |events'|
      ensures Enabled(states'[k], events'[k]) && Timely(states'[k], events'[k], slack) &&
              WireNext(states'[k], events'[k]) == Some(states'[k + 1])
    {
    }
    assert IsWireRun(states', events', slack) && states'[|events'|] == z;
  }

  lemma OneMore(k: nat, b: Byte)
    ensures seq(k, _ => b) + [b] == seq(k + 1, _ => b) && seq(k, _ => [b]) + [[b]] == seq(k + 1, _ => [b])
    ensures FiniteSets.Ids(k) + {k} == FiniteSets.Ids(k + 1)
    ensures (set n: nat | n < k :: Data(n, [b])) + {Data(k, [b])} == set n: nat | n < k + 1 :: Data(n, [b])
  {
  }

  /** The sender takes one byte and makes it packet `k`. */
  lemma TakeByte(k: nat, b: Byte, got: map<nat, Bytes>, slack: nat)
    ensures Leads(Steady(k, b, got), Upper([b]), Made(k, b, got), slack)
  {
    hide FiniteSets.Ids;
    var y := Steady(k, b, got);
    OneMore(k, b);
    var s1 := y.sender.(queue := [b], accepted := y.sender.accepted + [b]);
    assert y.sender.queue + [b] == [b];
    assert [b][..1] == [b] && [b][1..] == [];
    var s2 := s1.(made := s1.made + [[b]], queue := []);
    assert Fill(s2) == s2;
    assert Fill(s1) == s2;
    assert Fresh(s2.made, k) == {Data(k, [b])} by {
      assert s2.made[k] == [b];
      assert Data(k, s2.made[k]) in Fresh(s2.made, k);
    }
  }

  /** What the system is between the steps of a round. */
  ghost function Made(k: nat, b: Byte, got: map<nat, Bytes>): System
  {
    var y, z := Steady(k, b, got), Steady(k + 1, b, got);
    y.(sender := z.sender.(lo := k, acked := FiniteSets.Ids(k)), data := z.data)
  }

  ghost function Delivered(k: nat, b: Byte, got: map<nat, Bytes>): System
  {
    Made(k, b, got).(receiver := Steady(k + 1, b, got).receiver, acks := FiniteSets.Ids(k + 1))
  }

  lemma DeliverByte(k: nat, b: Byte, got: map<nat, Bytes>, slack: nat)
    requires forall n :: n in got ==> n > k + 1
    ensures Leads(Made(k, b, got), Arrive(Data(k, [b])), Delivered(k, b, got), slack)
  {
    hide SeqOf, InWindow;
    OneMore(k, b);
    WindowNumber(k, k);
    assert RunEnd(got, k + 1, k + CELLS) == k + 1;
    assert (map n | n in got && n >= k + 1 :: got[n]) == got;
    assert [b] + Joined(got, k + 1, k + 1) == [b];
  }

  lemma CountAck(k: nat, b: Byte, got: map<nat, Bytes>, slack: nat)
    ensures Leads(Delivered(k, b, got), AckArrive(k), Steady(k + 1, b, got), slack)
  {
    hide SeqOf, InWindow;
    OneMore(k, b);
    WindowNumber(k, k);
    var s := Delivered(k, b, got).sender;
    assert s.acked + {k} == FiniteSets.Ids(k + 1);
    assert FirstUnacked(FiniteSets.Ids(k + 1), k, k + 1) == k + 1;
    assert Fresh(s.made, |s.made|) == {};
  }

  /** Message after message is sent, delivered and acknowledged at once. */
  lemma {:induction false} Rounds(slack: nat, k: nat, m: nat, b: Byte, got: map<nat, Bytes>)
    requires Reached(Steady(k, b, got), slack) && k <= m && forall n :: n in got ==> n > m
    ensures Reached(Steady(m, b, got), slack)
    decreases m - k
  {
    hide Reached, Leads, Steady;
    if k < m {
      TakeByte(k, b, got, slack);
      Go(Steady(k, b, got), Upper([b]), Made(k, b, got), slack);
      DeliverByte(k, b, got, slack);
      Go(Made(k, b, got), Arrive(Data(k, [b])), Delivered(k, b, got), slack);
      CountAck(k, b, got, slack);
      Go(Delivered(k, b, got), AckArrive(k), Steady(k + 1, b, got), slack);
      Rounds(slack, k + 1, m, b, got);
    }
  }

  const BOGUS: nat := 30

  /** Packet 0 again, 21 packets late: it is put in the place of packet 30. */
  lemma Misread(b: Byte)
    ensures Leads(Steady(21, b, map[]), Arrive(Data(0, [b])), Steady(21, b, map[BOGUS := [b]]), 21)
  {
    hide SeqOf, InWindow;
    AliasIff(21, 0);
    assert FiniteSets.Ids(21) + {0} == FiniteSets.Ids(21);
  }

  /** When packet 29 arrives, the wrong packet is delivered after it. */
  lemma WrongPacket(r: Receiver, b: Byte)
    requires r.lo == 29 && r.got == map[BOGUS := [b]]
    ensures |OnWire(r, Packet(SeqOf(29), [b])).delivered| == |r.delivered| + 2
  {
    hide SeqOf, InWindow, RunEnd;
    WindowNumber(29, 29);
    var end := RunEnd(r.got, 30, 29 + CELLS);
    assert 30 in r.got && 31 !in r.got;
    assert end == 31;
    assert Joined(r.got, 30, 31) == Joined(r.got, 30, 30) + [b];
  }

  lemma Overflow(b: Byte, y: System) returns (z: System)
    requires y == Made(29, b, map[BOGUS := [b]])
    ensures Leads(y, Arrive(Data(29, [b])), z, 21) && !(z.receiver.delivered <= z.sender.accepted)
  {
    hide SeqOf, OnWire, WireAnswers, FiniteSets.Ids;
    WrongPacket(y.receiver, b);
    z := WireNext(y, Arrive(Data(29, [b]))).value;
  }

  /** With a slack of 21 the guarantee is gone: there is a run that delivers a byte nobody sent. */
  lemma SlackIsExact(b: Byte) returns (states: seq<System>, events: seq<Event>)
    ensures IsWireRun(states, events, SLACK + 1)
    ensures var y := states[|events|]; !(y.receiver.delivered <= y.sender.accepted)
  {
    hide IsWireRun, Leads, Steady, Made;
    var got := map[BOGUS := [b]];
    Beginning(b);
    Rounds(21, 0, 21, b, map[]);
    Misread(b);
    Go(Steady(21, b, map[]), Arrive(Data(0, [b])), Steady(21, b, got), 21);
    Rounds(21, 21, 29, b, got);
    TakeByte(29, b, got, 21);
    Go(Steady(29, b, got), Upper([b]), Made(29, b, got), 21);
    var z := Overflow(b, Made(29, b, got));
    Go(Made(29, b, got), Arrive(Data(29, [b])), z, 21);
    states, events := TheRun(z, 21);
  }

  lemma TheRun(y: System, slack: nat) returns (states: seq<System>, events: seq<Event>)
    requires Reached(y, slack)
    ensures IsWireRun(states, events, slack) && states[|events|] == y
  {
    states, events :| IsWireRun(states, events, slack) && states[|events|] == y;
  }

  lemma Beginning(b: Byte)
    ensures Reached(Steady(0, b, map[]), 21)
  {
    var y := Steady(0, b, map[]);
    assert y.data == {} && y.sender.made == [] && y.sender.accepted == [];
    assert INIT == y;
    assert IsWireRun([INIT], [], 21);
  }
}
