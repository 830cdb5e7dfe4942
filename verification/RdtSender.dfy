/** The sender's event handlers: window, queue and timers together refine the abstract sender. */
module RdtSender {
  import opened RdtBase
  import opened Common
  import opened RdtProtocol
  import opened RdtWire
  import opened RdtSenderWindow
  import opened RdtQueue
  import opened RdtTimer
  import FiniteSets

  const WAIT_TIME: real := 0.25

  /** The sequence numbers of the packets sent and not acknowledged. */
  function Pending(lo: nat, hi: nat, acked: set<nat>): set<nat>
  {
    set n: nat | lo <= n < hi && n !in acked :: SeqOf(n)
  }

  lemma {:induction false} PendingSize(lo: nat, hi: nat, acked: set<nat>)
    requires lo <= hi
    ensures |Pending(lo, hi, acked)| <= hi - lo
    decreases hi - lo
  {
    if lo < hi {
      PendingSize(lo, hi - 1, acked);
      var p := Pending(lo, hi - 1, acked) + {SeqOf(hi - 1)};
      FiniteSets.SubsetSize(Pending(lo, hi, acked), p);
    } else {
      assert Pending(lo, hi, acked) == {};
    }
  }

  lemma PendingGrows(lo: nat, hi: nat, acked: set<nat>)
    requires lo <= hi < lo + MAX_SEQ && hi !in acked
    ensures SeqOf(hi) !in Pending(lo, hi, acked) && Pending(lo, hi + 1, acked) == Pending(lo, hi, acked) + {SeqOf(hi)}
  {
    hide SeqOf;
    forall n: nat | lo <= n < hi
      ensures SeqOf(n) != SeqOf(hi)
    {
      SeqApart(n, hi);
    }
  }

  /** Acknowledging a packet of the window stops its timer and no other. */
  lemma PendingShrinks(lo: nat, hi: nat, acked: set<nat>, n: nat, lo': nat)
    requires lo <= n < hi <= lo + WINDOW && lo <= lo' <= hi && forall k :: lo <= k < lo' ==> k in acked || k == n
    ensures Pending(lo, hi, acked) - {SeqOf(n)} == Pending(lo', hi, acked + {n})
  {
    hide SeqOf;
    forall k: nat | lo <= k < hi && k != n
      ensures SeqOf(k) != SeqOf(n)
    {
      if k < n { SeqApart(k, n); } else { SeqApart(n, k); }
    }
  }

  /** A number that stands for no packet of the window stops no timer. */
  lemma NoTimer(lo: nat, hi: nat, acked: set<nat>, seqN: nat)
    requires seqN < MAX_SEQ && hi <= lo + WINDOW && (InWindow(lo, seqN) == None || InWindow(lo, seqN).value >= hi)
    ensures seqN !in Pending(lo, hi, acked)
  {
    hide SeqOf, InWindow;
    forall k: nat | lo <= k < hi
      ensures SeqOf(k) != seqN
    {
      WindowNumber(lo, k);
    }
  }

  lemma AckTimers(s: Sender, seqN: nat)
    requires SenderInv(s) && seqN < MAX_SEQ && FromWire(s, seqN).Some?
    ensures var at := InWindow(s.lo, seqN);
            Pending(s.lo, |s.made|, s.acked) - {seqN} ==
            if at.Some? && at.value < |s.made| then Pending(Acked(s, at.value).lo, |s.made|, Acked(s, at.value).acked)
            else Pending(s.lo, |s.made|, s.acked)
  {
    hide SeqOf, Fill, Concat;
    var at := InWindow(s.lo, seqN);
    if at.Some? && at.value < |s.made| {
      NumberOf(s.lo, seqN);
      PendingShrinks(s.lo, |s.made|, s.acked, at.value, Acked(s, at.value).lo);
    } else {
      NoTimer(s.lo, |s.made|, s.acked, seqN);
    }
  }

  lemma NumberOf(lo: nat, seqN: nat)
    requires seqN < MAX_SEQ && InWindow(lo, seqN).Some?
    ensures lo <= InWindow(lo, seqN).value < lo + WINDOW && SeqOf(InWindow(lo, seqN).value) == seqN
  {
    hide SeqOf;
    var ahead := RMinus(seqN, SeqOf(lo), MAX_SEQ);
    SeqAdd(lo, ahead);
    BackAndForth(seqN, SeqOf(lo));
  }

  lemma BackAndForth(a: nat, b: nat)
    requires a < MAX_SEQ && b < MAX_SEQ
    ensures 0 <= RMinus(a, b, MAX_SEQ) && RAdd(b, RMinus(a, b, MAX_SEQ), MAX_SEQ) == a
  {
  }

  /** What an acknowledgement does to the abstract sender. */
  lemma WireAckFacts(s: Sender, seqN: nat)
    requires SenderInv(s) && seqN < MAX_SEQ && FromWire(s, seqN).Some?
    ensures SenderInv(FromWire(s, seqN).value) && s.lo <= |s.made| && !(s.lo == |s.made| && seqN == SeqOf(s.lo))
    ensures var at := InWindow(s.lo, seqN);
            FromWire(s, seqN).value ==
            if at.Some? && at.value < |s.made|
            then if Acked(s, at.value).lo > s.lo then Fill(Acked(s, at.value)) else Acked(s, at.value)
            else s
    ensures var at := InWindow(s.lo, seqN);
            at.Some? && at.value < |s.made| ==>
              s.lo <= at.value && Acked(s, at.value) == s.(acked := s.acked + {at.value}, lo := FirstUnacked(s.acked + {at.value}, s.lo, |s.made|))
  {
    hide SeqOf, Fill, Concat, FirstUnacked;
    var at := InWindow(s.lo, seqN);
    if at.Some? {
      NumberOf(s.lo, seqN);
      FromAckKeeps(s, at.value);
    }
    SeqDistance(s.lo, s.lo);
  }

  /** The packets numbered `from` and on, as they go to the lower layer. */
  function Packets(made: seq<Bytes>, from: nat): seq<Packet>
  {
    if |made| <= from then []
    else Packets(made[..|made| - 1], from) + [Packet(SeqOf(|made| - 1), made[|made| - 1])]
  }

  /** They are all packets from `from` on, in order, each with its number modulo 30 and its payload. */
  lemma {:induction false} PacketsAt(made: seq<Bytes>, from: nat, i: nat)
    requires from <= |made|
    ensures |Packets(made, from)| == |made| - from
    ensures from + i < |made| ==> Packets(made, from)[i] == Packet((from + i) % 30, made[from + i])
  {
    if from < |made| {
      PacketsAt(made[..|made| - 1], from, i);
    }
  }

  lemma PacketsGrow(made: seq<Bytes>, from: nat, p: Bytes)
    requires from <= |made|
    ensures Packets(made + [p], from) == Packets(made, from) + [Packet(SeqOf(|made|), p)]
  {
    assert (made + [p])[..|made|] == made;
  }

  lemma NoPackets(made: seq<Bytes>)
    ensures Packets(made, |made|) == []
  {
  }

  /** Bytes wait in the queue only while the window is full. */
  lemma QueuedMeansFull(s: Sender)
    requires SenderInv(s) && s.queue != []
    ensures |s.made| == s.lo + WINDOW
  {
  }

  lemma FillStops(s: Sender)
    requires s.queue == [] || |s.made| >= s.lo + WINDOW
    ensures Fill(s) == s
  {
  }

  lemma FillStep(s: Sender)
    requires |s.made| < s.lo + WINDOW && s.queue != []
    ensures var k := ChunkSize(s.queue);
            Fill(s) == Fill(s.(made := s.made + [s.queue[..k]], queue := s.queue[k..]))
  {
  }

  lemma InitialSender()
    ensures SenderInv(INIT.sender) && Pending(0, 0, {}) == {} && KeysOf([]) == {}
  {
  }

  class SenderSide {
    const window: SenderWindow
    const queue: CircleQueue
    const timer: VirtualTimer
    ghost var accepted: Bytes

    /** Window and timers agree: exactly the unacknowledged packets have a deadline. */
    ghost predicate Timed()
      reads window, window.cells, timer, timer.repr
    {
      window.Valid() && window.hi == |window.made| && timer.Valid() && timer.maxTimers == WINDOW &&
      KeysOf(timer.records) == Pending(window.lo, window.hi, window.acked)
    }

    /** The objects a sender consists of. */
    ghost function Parts(): set<object>
      reads this, timer, queue
    {
      {this, window, window.cells, timer, queue, queue.buf} + timer.repr
    }

    ghost function View(): Sender
      requires queue.Valid()
      reads this, window, queue, queue.buf
    {
      Sender(window.lo, window.acked, window.made, queue.Contents(), accepted)
    }

    ghost predicate Valid()
      reads this, window, window.cells, timer, timer.repr, queue, queue.buf
    {
      Timed() && queue.Valid() && SenderInv(View())
    }

    constructor ()
      ensures Valid() && View() == INIT.sender && !queue.grown && queue.maxSize == 16384 && timer.maxTimers == 10 && fresh(Parts())
    {
      hide SenderInv, Pending, KeysOf, SenderWindow.Valid, VirtualTimer.Valid, CircleQueue.Valid, CircleQueue.Contents;
      window := new SenderWindow();
      queue := new CircleQueue(16384);
      timer := new VirtualTimer(WINDOW);
      accepted := [];
      new;
      InitialSender();
    }

    /** One packet is made, backed up, timed and handed to the lower layer. */
    method SendChunk(seqN: nat, chunk: Bytes, now: real) returns (pkt: Packet)
      requires window.Valid() && window.hi == |window.made| + 1 && seqN == SeqOf(|window.made|)
      requires timer.Valid() && timer.maxTimers == WINDOW
      requires KeysOf(timer.records) == Pending(window.lo, |window.made|, window.acked)
      modifies window, window.cells, timer, timer.repr
      ensures fresh(timer.repr - old(timer.repr))
      ensures Timed() && window.lo == old(window.lo) && window.acked == old(window.acked)
      ensures window.made == old(window.made) + [chunk] && pkt == Packet(seqN, chunk)
      ensures forall r :: r in timer.records <==> r in old(timer.records) || r == Record(seqN, now + 0.25)
    {
      hide Pending, KeysOf, SeqOf;
      pkt := Packet(seqN, chunk);
      ghost var n := |window.made|;
      PendingGrows(window.lo, n, window.acked);
      PendingSize(window.lo, n, window.acked);
      KeyCount(timer.records);
      window.Backup(pkt, seqN);
      timer.Start(seqN, WAIT_TIME, now);
    }

    /** Sends from a message until it is used up or the window is full. */
    method SendFrom(data: Bytes, now: real) returns (rest: Bytes, out: seq<Packet>)
      requires Timed()
      modifies window, window.cells, timer, timer.repr
      ensures fresh(timer.repr - old(timer.repr))
      ensures Timed() && window.lo == old(window.lo) && window.acked == old(window.acked)
      ensures Sender(window.lo, window.acked, window.made, rest, accepted) ==
              Fill(Sender(window.lo, window.acked, old(window.made), data, accepted))
      ensures |old(window.made)| <= |window.made| && out == Packets(window.made, |old(window.made)|)
    {
      hide Fill, Packets, Pending, KeysOf, SeqOf, Overruns, SenderInv, SenderWindow.Valid, VirtualTimer.Valid, CircleQueue.Contents;
      rest, out := data, [];
      ghost var made0 := window.made;
      ghost var all := Sender(window.lo, window.acked, window.made, data, accepted);
      NoPackets(made0);
      while rest != []
        invariant fresh(timer.repr - old(timer.repr)) && Timed() && window.lo == all.lo && window.acked == all.acked && |made0| <= |window.made|
        invariant Fill(all.(made := window.made, queue := rest)) == Fill(all)
        invariant out == Packets(window.made, |made0|)
        decreases |rest|
      {
        ghost var now1 := all.(made := window.made, queue := rest);
        var seqN := window.Send();
        if seqN == -1 {
          break;
        }
        FillStep(now1);
        PacketsGrow(window.made, |made0|, rest[..ChunkSize(rest)]);
        var pkt := SendChunk(seqN, rest[..ChunkSize(rest)], now);
        rest := rest[ChunkSize(rest)..];
        out := out + [pkt];
      }
      FillStops(all.(made := window.made, queue := rest));
    }

    /** Sends from the queue until it is empty or the window is full. */
    method SendQueued(now: real) returns (out: seq<Packet>)
      requires Timed() && queue.Valid()
      modifies window, window.cells, timer, timer.repr, queue`base
      ensures fresh(timer.repr - old(timer.repr))
      ensures Timed() && queue.Valid() && View() == Fill(old(View()))
      ensures |old(window.made)| <= |window.made| && out == Packets(window.made, |old(window.made)|)
    {
      hide Fill, Packets, Pending, KeysOf, SeqOf, Overruns, SenderInv, SenderWindow.Valid, VirtualTimer.Valid, CircleQueue.Contents;
      out := [];
      ghost var made0 := window.made;
      ghost var all := View();
      NoPackets(made0);
      var empty := queue.Empty();
      while !empty
        invariant fresh(timer.repr - old(timer.repr)) && Timed() && queue.Valid() && window.lo == all.lo && window.acked == all.acked && |made0| <= |window.made|
        invariant empty <==> queue.Contents() == []
        invariant Fill(View()) == Fill(all)
        invariant out == Packets(window.made, |made0|)
        decreases |queue.Contents()|
      {
        ghost var now1 := View();
        var seqN := window.Send();
        if seqN == -1 {
          break;
        }
        FillStep(now1);
        var chunk := TakeChunk();
        PacketsGrow(window.made, |made0|, chunk);
        var pkt := SendChunk(seqN, chunk, now);
        out := out + [pkt];
        empty := queue.Empty();
      }
      FillStops(View());
    }

    method TakeChunk() returns (chunk: Bytes)
      requires queue.Valid() && queue.Contents() != []
      modifies queue`base
      ensures queue.Valid()
      ensures var all := old(queue.Contents()); chunk == all[..ChunkSize(all)] && queue.Contents() == all[ChunkSize(all)..]
      ensures |chunk| == (if |old(queue.Contents())| > 123 then 123 else |old(queue.Contents())|)
    {
      var lastSize := queue.LastSize();
      var size := if lastSize > PAYLOAD then PAYLOAD else lastSize;
      chunk := queue.Copy(size);
      queue.Pop(size);
    }

    /** A message from above. It is sent or queued as the abstract sender says, unless the queue would be
        written outside its array. */
    method FromUpperLayer(msg: Bytes, now: real) returns (ok: bool, out: seq<Packet>)
      requires Valid()
      modifies this, window, window.cells, timer, timer.repr, queue, queue.buf
      ensures fresh(timer.repr - old(timer.repr)) && (queue.buf == old(queue.buf) || fresh(queue.buf))
      ensures ok <==> !Overruns(old(queue.grown), old(queue.maxSize), old(queue.base), old(queue.top),
                                |FromUpper(old(View()), msg).queue| - |old(View()).queue|)
      ensures ok ==> Valid() && View() == FromUpper(old(View()), msg) && out == Packets(window.made, |old(window.made)|)
    {
      hide Fill, Packets, Pending, KeysOf, SeqOf, Overruns, SenderInv, SenderWindow.Valid, VirtualTimer.Valid, CircleQueue.Contents;
      ghost var s := View();
      FromUpperKeeps(s, msg);
      accepted := accepted + msg;
      out := [];
      var empty := queue.Empty();
      NoPackets(s.made);
      if !empty {
        QueuedMeansFull(s);
        FillStops(s.(queue := s.queue + msg, accepted := accepted));
        ok := queue.Push(msg);
        return;
      }
      assert s.queue + msg == msg;
      var rest;
      rest, out := SendFrom(msg, now);
      EmptyPushFits(queue.grown, queue.maxSize, queue.base, queue.top);
      ok := true;
      if rest != [] {
        ok := queue.Push(rest);
        assert s.queue + rest == rest;
      }
    }

    /** An acknowledgement that arrives intact. */
    method FromLowerLayer(seqN: nat, now: real) returns (out: seq<Packet>)
      requires Valid() && seqN < MAX_SEQ && FromWire(View(), seqN).Some?
      modifies window, window.cells, timer, timer.repr, queue`base
      ensures fresh(timer.repr - old(timer.repr))
      ensures Valid() && View() == FromWire(old(View()), seqN).value && out == Packets(window.made, |old(window.made)|)
    {
      hide Fill, Packets, Pending, KeysOf, SeqOf, Overruns, SenderInv, InWindow, SenderWindow.Valid, VirtualTimer.Valid, CircleQueue.Contents;
      ghost var s := View();
      WireAckFacts(s, seqN);
      AckTimers(s, seqN);
      assert window.baseSeqN == SeqOf(window.lo) by { BaseNumber(); }
      timer.End(seqN, now);
      var moved := window.Ack(seqN);
      NoPackets(s.made);
      out := [];
      if moved {
        out := SendQueued(now);
      }
    }

    lemma BaseNumber()
      requires window.Valid()
      ensures window.baseSeqN == SeqOf(window.lo)
    {
    }

    /** The clock fires: the packet with the earliest deadline is sent again and timed afresh. */
    method Timeout(now: real) returns (pkt: Packet, ghost n: nat)
      requires Valid() && timer.records != []
      modifies timer, timer.repr
      ensures fresh(timer.repr - old(timer.repr))
      ensures Valid() && window.lo <= n < |window.made| && n !in window.acked && old(timer.records)[0].key == SeqOf(n)
      ensures pkt == Packet(SeqOf(n), window.made[n])
      ensures forall r :: r in timer.records <==> r in old(timer.records[1..]) || r == Record(SeqOf(n), now + 0.25)
    {
      hide KeysOf, SeqOf, CellOf, SenderInv, SenderWindow.Valid, CircleQueue.Contents, Sorted, DistinctKeys, Linked;
      var key := timer.Fire();
      n :| window.lo <= n < |window.made| && n !in window.acked && key == SeqOf(n);
      pkt := Resend(key, now, n);
      timer.Rearm(now);
    }

    method Resend(seqN: nat, now: real, ghost n: nat) returns (pkt: Packet)
      requires window.Valid() && window.lo <= n < |window.made| && n !in window.acked && seqN == SeqOf(n)
      requires timer.Ordered() && seqN !in KeysOf(timer.records) && |timer.records| < timer.maxTimers
      modifies timer, timer.repr
      ensures fresh(timer.repr - old(timer.repr))
      ensures timer.Valid() && pkt == Packet(seqN, window.made[n])
      ensures KeysOf(timer.records) == old(KeysOf(timer.records)) + {seqN}
      ensures forall r :: r in timer.records <==> r in old(timer.records) || r == Record(seqN, now + WAIT_TIME)
    {
      pkt := window.GetBackup(seqN, n);
      timer.Start(seqN, WAIT_TIME, now);
    }
  }
}
