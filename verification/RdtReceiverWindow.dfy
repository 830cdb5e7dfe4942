/** The receiver's circular window and its event handler. */
module RdtReceiverWindow {
  import opened Common
  import opened RdtBase
  import opened RdtProtocol
  import opened RdtWire

  datatype Content = Content(status: bool, data: Bytes)

  /** The cell for a sequence number; -1 if it is within a window behind the base, -2 otherwise. */
  function SeqToIndex(base: nat, baseSeqN: nat, seqN: nat): int
  {
    var ahead := RMinus(seqN, baseSeqN, MAX_SEQ);
    if ahead >= WINDOW then
      if RMinus(baseSeqN, seqN, MAX_SEQ) <= WINDOW then -1 else -2
    else RAdd(base, ahead, CELLS)
  }

  /** The index is the cell of the packet in the window that has the number, if there is one. */
  lemma IndexIs(lo: nat, seqN: nat)
    requires seqN < MAX_SEQ
    ensures var i, at := SeqToIndex(CellOf(lo), SeqOf(lo), seqN), InWindow(lo, seqN);
            i == if at.Some? then CellOf(at.value) else if Repeats(lo, seqN) then -1 else -2
    ensures InWindow(lo, seqN).Some? ==>
              lo <= InWindow(lo, seqN).value < lo + WINDOW && (InWindow(lo, seqN).value == lo <==> seqN == SeqOf(lo))
    ensures seqN == SeqOf(lo) ==> InWindow(lo, seqN).Some?
  {
    hide CellOf, RAdd;
    var ahead := RMinus(seqN, SeqOf(lo), MAX_SEQ);
    if ahead < WINDOW {
      CellAdd(lo, ahead);
    }
  }

  class ReceiverWindow {
    const cells: array<Content>
    var base: nat
    var baseSeqN: nat

    ghost var lo: nat
    ghost var got: map<nat, Bytes>
    ghost var delivered: Bytes

    ghost function View(): Receiver
      reads this
    {
      Receiver(lo, got, delivered)
    }

    ghost predicate Valid()
      reads this, cells
    {
      cells.Length == CELLS && base == CellOf(lo) && baseSeqN == SeqOf(lo) && Marked(lo) && Loaded()
    }

    constructor ()
      ensures Valid() && fresh(cells) && View() == INIT.receiver
    {
      cells := new Content[CELLS](_ => Content(false, []));
      base, baseSeqN := 0, 0;
      lo, got, delivered := 0, map[], [];
    }

    method Put(data: Bytes, index: nat, ghost n: nat)
      requires Valid() && lo < n < lo + WINDOW && index == CellOf(n)
      modifies this`got, cells
      ensures Valid() && got == if n in old(got) then old(got) else old(got)[n := data]
    {
      if cells[index].status {
        return;
      }
      forall k: nat | lo <= k < lo + CELLS && k != n
        ensures CellOf(k) != CellOf(n)
      {
        if k < n { CellsApart(k, n); } else { CellsApart(n, k); }
      }
      cells[index] := Content(true, data);
      got := got[n := data];
    }

    /** The statuses once the packets before `from` have been taken out. */
    ghost predicate Marked(from: nat)
      requires cells.Length == CELLS
      reads this`lo, this`got, cells
    {
      forall k: nat :: lo <= k < lo + CELLS ==> (cells[CellOf(k)].status <==> k in got && k >= from)
    }

    ghost predicate Loaded()
      requires cells.Length == CELLS
      reads this`lo, this`got, cells
    {
      forall n :: n in got ==> lo < n < lo + WINDOW && cells[CellOf(n)].data == got[n]
    }

    lemma BaseIsEmpty()
      requires cells.Length == CELLS && Marked(lo) && Loaded()
      ensures Marked(lo + 1)
    {
    }

    lemma StatusIs(n: nat, from: nat)
      requires cells.Length == CELLS && lo <= n < lo + CELLS && Marked(from)
      ensures cells[CellOf(n)].status <==> n in got && n >= from
    {
    }

    method ClearCell(i: nat, ghost n: nat)
      requires cells.Length == CELLS && i == CellOf(n) && lo <= n < lo + CELLS && Marked(n) && Loaded()
      modifies cells
      ensures Marked(n + 1) && Loaded()
    {
      forall k: nat | lo <= k < lo + CELLS && k != n
        ensures CellOf(k) != CellOf(n)
      {
        if k < n { CellsApart(k, n); } else { CellsApart(n, k); }
      }
      cells[i] := cells[i].(status := false);
    }

    /** Empties the run of filled cells after the base; their data stays readable. */
    method ClearRun() returns (last: nat, counter: nat)
      requires cells.Length == CELLS && base == CellOf(lo) && Marked(lo) && Loaded()
      modifies cells
      ensures 1 <= counter <= WINDOW && last == CellOf(lo + counter) && lo + counter == RunEnd(got, lo + 1, lo + CELLS)
      ensures Marked(lo + counter) && Loaded()
    {
      hide CellOf, RAdd, RunEnd, Marked, Loaded;
      BaseIsEmpty();
      CellAdd(lo, 1);
      last, counter := RAdd(base, 1, CELLS), 1;
      while cells[last].status && last != base
        invariant 1 <= counter <= WINDOW && last == CellOf(lo + counter)
        invariant forall k :: lo < k < lo + counter ==> k in got
        invariant Marked(lo + counter) && Loaded()
        decreases WINDOW - counter
      {
        ghost var n := lo + counter;
        StatusIs(n, n);
        ClearCell(last, n);
        CellAdd(n, 1);
        last := RAdd(last, 1, CELLS);
        counter := counter + 1;
      }
      CellsApart(lo, lo + counter);
      StatusIs(lo + counter, lo + counter);
      RunEndIs(got, lo + 1, lo + CELLS, lo + counter);
    }

    /** The bytes of `first` and of the cells after the base up to `last`. */
    method CopyRun(first: Bytes, last: nat, ghost end: nat) returns (data: Bytes)
      requires cells.Length == CELLS && base == CellOf(lo) && Loaded() && last == CellOf(end) && lo < end <= lo + WINDOW
      requires forall k :: lo < k < end ==> k in got
      ensures data == first + Joined(got, lo + 1, end)
    {
      hide CellOf, RAdd;
      data := first;
      CellAdd(lo, 1);
      var i := RAdd(base, 1, CELLS);
      ghost var k := lo + 1;
      while i != last
        invariant lo < k <= end && i == CellOf(k) && data == first + Joined(got, lo + 1, k)
        decreases end - k
      {
        data := data + cells[i].data;
        CellAdd(k, 1);
        i := RAdd(i, 1, CELLS);
        k := k + 1;
      }
      if k < end { CellsApart(k, end); }
    }

    /** The bytes of the packet at the base and of the run of filled cells after it; the window moves on. */
    method GetAfterBase(first: Bytes) returns (data: Bytes)
      requires Valid()
      modifies this, cells
      ensures Valid() && View() == OnData(old(View()), old(lo), first) && delivered == old(delivered) + data
    {
      hide CellOf, RAdd, RunEnd, Marked, Loaded, Joined, OnData;
      AtBase(View(), first);
      var last, counter := ClearRun();
      ghost var end := lo + counter;
      data := CopyRun(first, last, end);
      SeqAdd(lo, counter);
      base := last;
      baseSeqN := RAdd(baseSeqN, counter, MAX_SEQ);
      MoveOn(end, data);
    }

    ghost method MoveOn(end: nat, data: Bytes)
      requires cells.Length == CELLS && lo < end <= lo + WINDOW && end !in got && base == CellOf(end) && baseSeqN == SeqOf(end)
      requires Marked(end) && Loaded()
      modifies this`lo, this`got, this`delivered
      ensures Valid() && lo == end && delivered == old(delivered) + data && got == map k | k in old(got) && k >= end :: old(got)[k]
    {
      hide CellOf;
      forall n: nat | lo + CELLS <= n < end + CELLS
        ensures !cells[CellOf(n)].status
      {
        CellPeriod(n - CELLS);
      }
      got := map k | k in got && k >= end :: got[k];
      lo := end;
      delivered := delivered + data;
    }

    /** A data packet arrives. */
    method FromLowerLayer(pkt: Packet) returns (ack: Option<nat>, up: Option<Bytes>)
      requires Valid() && pkt.seqN < MAX_SEQ
      modifies this, cells
      ensures Valid() && View() == OnWire(old(View()), pkt)
      ensures ack == if WireAnswers(old(View()), pkt.seqN) then Some(pkt.seqN) else None
      ensures old(delivered) <= delivered
      ensures up == if pkt.seqN == old(baseSeqN) then Some(delivered[|old(delivered)|..]) else None
      ensures pkt.seqN != old(baseSeqN) ==> delivered == old(delivered)
    {
      hide CellOf, SeqOf, OnData, SeqToIndex, InWindow, Repeats;
      ack, up := None, None;
      IndexIs(lo, pkt.seqN);
      var index := SeqToIndex(base, baseSeqN, pkt.seqN);
      if index == -2 {
        return;
      }
      ack := Some(pkt.seqN);
      if index == -1 {
        return;
      }
      ghost var n := InWindow(lo, pkt.seqN).value;
      if pkt.seqN == baseSeqN {
        var data := GetAfterBase(pkt.payload);
        up := Some(data);
      } else {
        Buffered(View(), n, pkt.payload);
        Put(pkt.payload, index, n);
      }
    }
  }

  lemma AtBase(r: Receiver, p: Bytes)
    ensures var end := RunEnd(r.got, r.lo + 1, r.lo + CELLS);
            OnData(r, r.lo, p) ==
            Receiver(end, map k | k in r.got && k >= end :: r.got[k], r.delivered + (p + Joined(r.got, r.lo + 1, end)))
  {
  }

  lemma Buffered(r: Receiver, n: nat, p: Bytes)
    requires n > r.lo
    ensures OnData(r, n, p) == r.(got := if n in r.got then r.got else r.got[n := p])
  {
  }

  lemma RunEndIs(got: map<nat, Bytes>, n: nat, limit: nat, r: nat)
    requires n <= r <= limit && (forall k :: n <= k < r ==> k in got) && (r < limit ==> r !in got)
    ensures RunEnd(got, n, limit) == r
  {
    hide RunEnd;
  }
}
