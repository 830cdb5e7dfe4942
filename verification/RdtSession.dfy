/** Both ends together, with sequence numbers on the wire. Every event keeps the session valid, and in a valid
    session what has been delivered is a prefix of what was accepted. */
module RdtSession {
  import opened Common
  import opened RdtBase
  import opened RdtProtocol
  import opened RdtWire
  import opened RdtQueue
  import opened RdtTimer
  import opened RdtSenderWindow
  import opened RdtReceiverWindow
  import opened RdtSender

  /** The packets on the wire that stand for these. */
  function WireData(data: set<Data>): set<Packet>
  {
    set d | d in data :: OnTheWire(d)
  }

  function WireAcks(acks: set<nat>): set<nat>
  {
    set n | n in acks :: SeqOf(n)
  }

  function SetOf<T>(s: seq<T>): set<T>
  {
    set x | x in s
  }

  lemma {:induction false} PacketsAreFresh(made: seq<Bytes>, from: nat)
    ensures SetOf(Packets(made, from)) == WireData(Fresh(made, from))
  {
    hide SeqOf;
    if from < |made| {
      var k := |made| - 1;
      PacketsAreFresh(made[..k], from);
      var last := Data(k, made[k]);
      assert Fresh(made, from) == Fresh(made[..k], from) + {last} by {
        forall d | d in Fresh(made, from) && d != last
          ensures d in Fresh(made[..k], from)
        {
          assert made[..k][d.n] == made[d.n];
        }
        forall d | d in Fresh(made[..k], from)
          ensures d in Fresh(made, from)
        {
          assert made[..k][d.n] == made[d.n];
        }
      }
      MoreData(Fresh(made[..k], from), {last});
      OnePacket(last);
    }
  }

  lemma MoreData(a: set<Data>, b: set<Data>)
    ensures WireData(a + b) == WireData(a) + WireData(b)
  {
  }

  lemma MoreAcks(a: set<nat>, n: nat)
    ensures WireAcks(a + {n}) == WireAcks(a) + {SeqOf(n)}
  {
  }

  // ---------------------------------------------------------------- what happens to a session

  /** A message from above, a packet or an acknowledgement that arrives, or the clock. */
  datatype Input =
    | Message(msg: Bytes, at: real)
    | PacketIn(d: Data)
    | AckIn(n: nat, at: real)
    | Tick(at: real)

  /** What arrives has been sent and is at most 20 packets late. */
  ghost predicate Fits(y: System, i: Input)
  {
    match i
    case PacketIn(d) => Enabled(y, Arrive(d)) && Timely(y, Arrive(d), SLACK)
    case AckIn(n, _) => Enabled(y, AckArrive(n)) && Timely(y, AckArrive(n), SLACK)
    case _ => true
  }

  ghost function Play(y: System, i: Input): System
    requires Fits(y, i)
  {
    match i
    case Message(msg, _) => Next(y, Upper(msg))
    case PacketIn(d) => Next(y, Arrive(d))
    case AckIn(n, _) => Next(y, AckArrive(n))
    case Tick(_) => y
  }

  ghost predicate InTime(y: System, inputs: seq<Input>)
    decreases |inputs|
  {
    inputs == [] || (Fits(y, inputs[0]) && InTime(Play(y, inputs[0]), inputs[1..]))
  }

  ghost function Played(y: System, inputs: seq<Input>): System
    requires InTime(y, inputs)
    decreases |inputs|
  {
    if inputs == [] then y else Played(Play(y, inputs[0]), inputs[1..])
  }

  function MessageOf(i: Input): Bytes
  {
    if i.Message? then i.msg else []
  }

  /** All bytes of the messages among the inputs. */
  function Taken(inputs: seq<Input>): Bytes
  {
    if inputs == [] then [] else Taken(inputs[..|inputs| - 1]) + MessageOf(inputs[|inputs| - 1])
  }

  class Session {
    const sender: SenderSide
    const receiver: ReceiverWindow
    /** Everything sent so far; any of it may be lost, repeated or late. */
    var data: set<Packet>
    var acks: set<nat>
    /** The bytes taken from above at the sender and passed up at the receiver. */
    var accepted: Bytes
    var delivered: Bytes

    ghost var sys: System

    ghost predicate Valid()
      reads this, sender, sender.window, sender.window.cells, sender.timer, sender.timer.repr, sender.queue, sender.queue.buf
      reads receiver, receiver.cells
    {
      sender.Valid() && receiver.Valid() && sys.sender == sender.View() && sys.receiver == receiver.View() && Inv(sys) &&
      AllSent(sys) && accepted == sys.sender.accepted && delivered == sys.receiver.delivered && data == WireData(sys.data) && acks == WireAcks(sys.acks)
    }

    /** The objects a session consists of. */
    ghost function Parts(): set<object>
      reads this, sender, sender.timer, sender.queue
    {
      {this, receiver, receiver.cells} + sender.Parts()
    }

    constructor ()
      ensures Valid() && accepted == [] && delivered == [] && sys == INIT && fresh(Parts())
    {
      hide Inv, SenderSide.Valid, ReceiverWindow.Valid;
      sender := new SenderSide();
      receiver := new ReceiverWindow();
      data, acks, accepted, delivered := {}, {}, [], [];
      sys := INIT;
      new;
      InvInit();
    }

    /** Reliable delivery. */
    lemma Reliable()
      requires Valid()
      ensures delivered <= accepted
    {
      ConcatPrefix(sys.sender.made, sys.receiver.lo);
    }

    /** A message from above. False if the sender's queue would be written outside its array. */
    method Accept(msg: Bytes, now: real) returns (ok: bool)
      requires Valid()
      modifies this, sender, sender.window, sender.window.cells, sender.timer, sender.timer.repr, sender.queue, sender.queue.buf
      ensures ok ==> Valid() && sys == Next(old(sys), Upper(msg)) && accepted == old(accepted) + msg
      ensures delivered == old(delivered) && (!ok ==> accepted == old(accepted)) && delivered <= accepted
      ensures fresh(Parts() - old(Parts()))
    {
      hide Inv, Fill, SenderSide.Valid, ReceiverWindow.Valid, Packets, WireData, WireAcks, Fresh;
      ghost var old' := sys;
      Reliable();
      AllSentNext(sys, Upper(msg));
      var out;
      ok, out := sender.FromUpperLayer(msg, now);
      if !ok {
        return;
      }
      accepted := accepted + msg;
      data := data + SetOf(out);
      InvNext(sys, Upper(msg));
      sys := Next(sys, Upper(msg));
      FilledAccepts(old'.sender, msg);
      PacketsAreFresh(sys.sender.made, |old'.sender.made|);
      MoreData(old'.data, Fresh(sys.sender.made, |old'.sender.made|));
      Reliable();
    }

    /** A packet arrives: it is the one at position `n` of the stream, at most 20 packets late. */
    method Deliver(pkt: Packet, ghost n: nat)
      requires Valid() && pkt in data && pkt == OnTheWire(Data(n, pkt.payload)) && Data(n, pkt.payload) in sys.data
      requires Timely(sys, Arrive(Data(n, pkt.payload)), SLACK)
      modifies this, receiver, receiver.cells
      ensures Valid() && WireNext(old(sys), Arrive(Data(n, pkt.payload))) == Some(sys)
      ensures accepted == old(accepted) && old(delivered) <= delivered <= accepted
    {
      hide Inv, AllSent, SenderSide.Valid, ReceiverWindow.Valid, OnWire, WireAnswers, WireData, WireAcks, SeqOf, Next;
      ghost var e := Arrive(Data(n, pkt.payload));
      AllSentNext(sys, e);
      assert pkt.seqN < MAX_SEQ;
      WireIsNext(sys, e);
      InvNext(sys, e);
      var ack, up := receiver.FromLowerLayer(pkt);
      if ack.Some? {
        acks := acks + {ack.value};
        MoreAcks(sys.acks, n);
      }
      if up.Some? {
        delivered := delivered + up.value;
      }
      sys := WireNext(sys, e).value;
      Reliable();
    }

    /** An acknowledgement arrives: it is one of packet `n`, at most 20 packets late. */
    method Acknowledge(seqN: nat, now: real, ghost n: nat)
      requires Valid() && seqN in acks && seqN == SeqOf(n) && n in sys.acks && Timely(sys, AckArrive(n), SLACK)
      modifies this, sender.window, sender.window.cells, sender.timer, sender.timer.repr, sender.queue`base
      ensures Valid() && WireNext(old(sys), AckArrive(n)) == Some(sys)
      ensures accepted == old(accepted) && delivered == old(delivered) && delivered <= accepted
      ensures fresh(Parts() - old(Parts()))
    {
      hide Inv, AllSent, SenderSide.Valid, ReceiverWindow.Valid, FromWire, WireData, WireAcks, SeqOf, Next, Packets, Fresh;
      ghost var e, before := AckArrive(n), sys;
      AllSentNext(sys, e);
      WireIsNext(sys, e);
      InvNext(sys, e);
      var out := sender.FromLowerLayer(seqN, now);
      data := data + SetOf(out);
      sys := WireNext(sys, e).value;
      PacketsAreFresh(sys.sender.made, |before.sender.made|);
      MoreData(before.data, Fresh(sys.sender.made, |before.sender.made|));
      Reliable();
    }

    /** The sender's clock fires. */
    method Expire(now: real) returns (ghost n: nat)
      requires Valid() && sender.timer.records != []
      modifies this, sender.timer, sender.timer.repr
      ensures Valid() && Enabled(old(sys), Resend(n)) && sys == Next(old(sys), Resend(n)) == old(sys)
      ensures accepted == old(accepted) && delivered == old(delivered) && delivered <= accepted
      ensures fresh(Parts() - old(Parts()))
    {
      hide Inv, ReceiverWindow.Valid, WireData, WireAcks, SeqOf, SenderWindow.Valid, VirtualTimer.Valid, SenderInv;
      var pkt;
      pkt, n := sender.Timeout(now);
      data := data + {pkt};
      InvNext(sys, Resend(n));
      ghost var d := Data(n, sys.sender.made[n]);
      MoreData(sys.data, {d});
      OnePacket(d);
      sys := Next(sys, Resend(n));
      Reliable();
    }

    /** Whatever comes next. False if it is a message and the sender's queue would be written outside its
        array. */
    method Handle(input: Input) returns (ok: bool)
      requires Valid() && Fits(sys, input)
      modifies Parts()
      ensures fresh(Parts() - old(Parts()))
      ensures delivered <= accepted && accepted == (if ok then old(accepted) + MessageOf(input) else old(accepted))
      ensures if ok then Valid() && sys == Play(old(sys), input) else input.Message?
    {
      hide Inv, AllSent, SenderSide.Valid, ReceiverWindow.Valid, WireData, WireAcks, SeqOf, Next, WireNext;
      ok := true;
      match input {
        case Message(msg, now) => ok := Accept(msg, now);
        case PacketIn(d) =>
          WireIsNext(sys, Arrive(d));
          OnWireIn(sys.data, d);
          Deliver(OnTheWire(d), d.n);
        case AckIn(n, now) =>
          WireIsNext(sys, AckArrive(n));
          AckOnWireIn(sys.acks, n);
          Acknowledge(SeqOf(n), now, n);
        case Tick(now) =>
          Armed();
          if sender.timer.armed.Some? {
            ghost var _ := Expire(now);
          } else {
            Reliable();
          }
      }
    }

    lemma Armed()
      requires Valid()
      ensures sender.timer.armed.Some? <==> sender.timer.records != []
    {
    }
  }

  /** A whole session: whatever messages come and whatever is lost, repeated, reordered or late by up to 20 packets,
      what has been delivered is a prefix of the messages taken. It ends early only at a message for which the
      sender's queue would be written outside its array. */
  method Serve(inputs: seq<Input>) returns (s: Session, served: nat)
    requires InTime(INIT, inputs)
    ensures fresh(s.Parts()) && served <= |inputs| && (served < |inputs| ==> inputs[served].Message?)
    ensures s.accepted == Taken(inputs[..served]) && s.delivered <= s.accepted
    ensures served == |inputs| ==> s.Valid() && s.sys == Played(INIT, inputs)
  {
    hide Session.Valid, Fits, Play, InTime, Played, Taken;
    s := new Session();
    served := 0;
    assert inputs[0..] == inputs;
    NothingTaken(inputs[..0]);
    s.Reliable();
    while served < |inputs|
      invariant served <= |inputs| && fresh(s.Parts()) && s.Valid() && s.delivered <= s.accepted
      invariant s.accepted == Taken(inputs[..served])
      invariant InTime(s.sys, inputs[served..]) && Played(s.sys, inputs[served..]) == Played(INIT, inputs)
    {
      PlayedNext(s.sys, inputs, served);
      var ok := s.Handle(inputs[served]);
      if !ok {
        return;
      }
      TakenNext(inputs, served);
      served := served + 1;
    }
    assert inputs[served..] == [];
    NothingPlayed(s.sys, inputs[served..]);
  }

  lemma NothingPlayed(y: System, inputs: seq<Input>)
    requires inputs == []
    ensures InTime(y, inputs) && Played(y, inputs) == y
  {
  }

  lemma NothingTaken(inputs: seq<Input>)
    requires inputs == []
    ensures Taken(inputs) == []
  {
  }

  lemma PlayedNext(y: System, inputs: seq<Input>, k: nat)
    requires k < |inputs| && InTime(y, inputs[k..])
    ensures Fits(y, inputs[k]) && InTime(Play(y, inputs[k]), inputs[k + 1..])
    ensures Played(Play(y, inputs[k]), inputs[k + 1..]) == Played(y, inputs[k..])
  {
    assert inputs[k..][0] == inputs[k] && inputs[k..][1..] == inputs[k + 1..];
  }

  lemma TakenNext(inputs: seq<Input>, k: nat)
    requires k < |inputs|
    ensures Taken(inputs[..k + 1]) == Taken(inputs[..k]) + MessageOf(inputs[k])
  {
    assert inputs[..k + 1][..k] == inputs[..k];
  }

  lemma OnWireIn(data: set<Data>, d: Data)
    requires d in data
    ensures OnTheWire(d) in WireData(data) && OnTheWire(d).payload == d.payload
  {
  }

  lemma AckOnWireIn(acks: set<nat>, n: nat)
    requires n in acks
    ensures SeqOf(n) in WireAcks(acks)
  {
  }

  lemma OnePacket(d: Data)
    ensures WireData({d}) == {OnTheWire(d)}
  {
  }

  lemma {:induction false} FillAccepts(s: Sender)
    ensures Fill(s).accepted == s.accepted
    decreases |s.queue|
  {
    if s.queue != [] && |s.made| < s.lo + WINDOW {
      var k := ChunkSize(s.queue);
      FillAccepts(s.(made := s.made + [s.queue[..k]], queue := s.queue[k..]));
    }
  }

  lemma FilledAccepts(s: Sender, msg: Bytes)
    ensures FromUpper(s, msg).accepted == s.accepted + msg
  {
    FillAccepts(s.(queue := s.queue + msg, accepted := s.accepted + msg));
  }
}
