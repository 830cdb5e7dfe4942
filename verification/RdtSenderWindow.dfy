/** The sender's circular window: eleven cells for at most ten unacknowledged packets. */
module RdtSenderWindow {
  import opened RdtBase
  import opened Common
  import opened RdtProtocol
  import opened RdtWire

  datatype Cell = Cell(status: bool, backup: Packet)

  class SenderWindow {
    var base: nat
    var top: nat
    var baseSeqN: nat
    const cells: array<Cell>

    /** What the fields stand for: packets `lo` to `hi - 1` are in the window, those in `acked` have been
        acknowledged, and `made` are the payloads backed up so far. */
    ghost var lo: nat
    ghost var hi: nat
    ghost var acked: set<nat>
    ghost var made: seq<Bytes>

    ghost predicate Valid()
      reads this, cells
    {
      cells.Length == CELLS && base == CellOf(lo) && top == CellOf(hi) && baseSeqN == SeqOf(lo) &&
      lo <= hi <= lo + WINDOW && lo <= |made| <= hi <= |made| + 1 &&
      (forall n :: n in acked ==> n < |made|) && lo !in acked &&
      (forall n: nat :: lo <= n < lo + CELLS ==> (cells[CellOf(n)].status <==> n < hi && n !in acked)) &&
      (forall n: nat :: lo <= n < |made| ==> cells[CellOf(n)].backup == Packet(SeqOf(n), made[n]))
    }

    constructor ()
      ensures Valid() && fresh(cells) && lo == hi == 0 && acked == {} && made == []
    {
      base, top, baseSeqN := 0, 0, 0;
      cells := new Cell[CELLS](_ => Cell(false, Packet(0, [])));
      lo, hi, acked, made := 0, 0, {}, [];
    }

    /** The sequence number for the next packet, or -1 if the window is full. */
    method Send() returns (seqN: int)
      requires Valid() && hi == |made|
      modifies this, cells
      ensures Valid() && lo == old(lo) && acked == old(acked) && made == old(made)
      ensures if old(hi) - lo >= WINDOW then seqN == -1 && hi == old(hi) else seqN == SeqOf(old(hi)) && hi == old(hi) + 1
    {
      CellDistance(hi, lo);
      if RMinus(top, base, CELLS) >= WINDOW {
        return -1;
      }
      SeqAdd(lo, hi - lo);
      seqN := RAdd(baseSeqN, RMinus(top, base, CELLS), MAX_SEQ);
      ghost var n := hi;
      forall k: nat | lo <= k < lo + CELLS && k != n
        ensures CellOf(k) != CellOf(n)
      {
        if k < n { CellsApart(k, n); } else { CellsApart(n, k); }
      }
      cells[top] := cells[top].(status := true);
      CellAdd(hi, 1);
      top := RAdd(top, 1, CELLS);
      hi := hi + 1;
    }

    /** The cell that holds the packet with this sequence number. */
    method CellIndex(seqN: nat, ghost n: nat) returns (i: nat)
      requires Valid() && lo <= n < lo + WINDOW && seqN == SeqOf(n)
      ensures i == CellOf(n) < CELLS
    {
      SeqDistance(n, lo);
      CellAdd(lo, n - lo);
      i := RAdd(base, RMinus(seqN, baseSeqN, MAX_SEQ), CELLS);
    }

    method Backup(pkt: Packet, seqN: nat)
      requires Valid() && hi == |made| + 1 && seqN == SeqOf(|made|) && pkt.seqN == seqN
      modifies this, cells
      ensures Valid() && lo == old(lo) && hi == old(hi) && acked == old(acked) && made == old(made) + [pkt.payload]
    {
      ghost var n := |made|;
      var i := CellIndex(seqN, n);
      assert cells[i].status;
      forall k: nat | lo <= k < lo + CELLS && k != n
        ensures CellOf(k) != CellOf(n)
      {
        if k < n { CellsApart(k, n); } else { CellsApart(n, k); }
      }
      cells[i] := cells[i].(backup := pkt);
      made := made + [pkt.payload];
    }

    method GetBackup(seqN: nat, ghost n: nat) returns (pkt: Packet)
      requires Valid() && lo <= n < |made| && n !in acked && seqN == SeqOf(n)
      ensures pkt == Packet(seqN, made[n])
    {
      var i := CellIndex(seqN, n);
      assert cells[i].status;
      pkt := cells[i].backup;
    }

    /** An acknowledgement, read as one of the packet in the window that has its number. At an empty window the
        number of the next packet finds nothing to stop the count, and the numbers jump ahead by eleven. */
    method Ack(seqN: nat) returns (moved: bool)
      requires Valid() && hi == |made| && seqN < MAX_SEQ
      modifies this, cells
      ensures hi == old(hi) && made == old(made)
      ensures old(lo == hi && seqN == baseSeqN) ==> moved && base == old(base) && top == old(top) && baseSeqN == SeqOf(old(lo) + CELLS)
      ensures !old(lo == hi && seqN == baseSeqN) ==>
                Valid() &&
                var at := InWindow(old(lo), seqN);
                if at.Some? && at.value < hi
                then acked == old(acked) + {at.value} && lo == FirstUnacked(acked, old(lo), hi) && (moved <==> lo > old(lo))
                else acked == old(acked) && lo == old(lo) && !moved
    {
      hide FirstUnacked, RAdd, RMinus, CellOf, SeqOf;
      Ahead(lo, seqN);
      var tmp := RMinus(seqN, baseSeqN, MAX_SEQ);
      if tmp >= WINDOW {
        return false;
      }
      ghost var n := lo + tmp;
      CellAdd(lo, tmp);
      var i := RAdd(base, tmp, CELLS);
      Unmark(i, n);
      if i != base {
        FirstUnackedIs(acked, lo, hi, lo);
        return false;
      }
      if n > lo { CellsApart(lo, n); }
      moved := true;
      Slide();
    }

    /** Clears the status of packet `n`, which may leave the base acknowledged. */
    method Unmark(i: nat, ghost n: nat)
      requires Valid() && hi == |made| && lo <= n < lo + WINDOW && i == CellOf(n)
      modifies this`acked, cells
      ensures acked == if n < hi then old(acked) + {n} else old(acked)
      ensures n != lo ==> Valid()
      ensures cells.Length == CELLS && (forall a :: a in acked ==> a < |made|)
      ensures forall k: nat :: lo <= k < lo + CELLS ==> (cells[CellOf(k)].status <==> k < hi && k !in acked)
      ensures forall k: nat :: lo <= k < |made| ==> cells[CellOf(k)].backup == Packet(SeqOf(k), made[k])
    {
      forall k: nat | lo <= k < lo + CELLS && k != n
        ensures CellOf(k) != CellOf(n)
      {
        if k < n { CellsApart(k, n); } else { CellsApart(n, k); }
      }
      cells[i] := cells[i].(status := false);
      if n < hi {
        acked := acked + {n};
      }
    }

    /** Counts the acknowledged packets from the base on, or all cells if the window is empty. */
    method CountAcked() returns (i: nat, counter: nat)
      requires cells.Length == CELLS && base == CellOf(lo) && top == CellOf(hi) && lo <= hi <= lo + WINDOW && (lo < hi ==> lo in acked)
      requires forall k: nat :: lo <= k < lo + CELLS ==> (cells[CellOf(k)].status <==> k < hi && k !in acked)
      ensures i == CellOf(lo + counter) && 1 <= counter
      ensures if lo < hi then counter <= hi - lo && lo + counter == FirstUnacked(acked, lo, hi) else counter == CELLS
    {
      hide CellOf, RAdd, FirstUnacked;
      ghost var end := if lo < hi then hi else lo + CELLS;
      if lo == hi { CellPeriod(lo); }
      CellAdd(lo, 1);
      i, counter := RAdd(base, 1, CELLS), 1;
      while !cells[i].status && i != top
        invariant 1 <= counter <= end - lo && i == CellOf(lo + counter) < CELLS
        invariant lo < hi ==> forall k :: lo <= k < lo + counter ==> k in acked
        decreases end - lo - counter
      {
        CellAdd(lo + counter, 1);
        i := RAdd(i, 1, CELLS);
        counter := counter + 1;
      }
      if lo + counter < end {
        CellsApart(lo + counter, end);
      }
      if lo < hi { FirstUnackedIs(acked, lo, hi, lo + counter); }
    }

    /** Moves the base past what was counted. */
    method Slide()
      requires cells.Length == CELLS && base == CellOf(lo) && top == CellOf(hi) && baseSeqN == SeqOf(lo) && hi == |made|
      requires lo <= hi <= lo + WINDOW && (lo < hi ==> lo in acked) && forall a :: a in acked ==> a < |made|
      requires forall k: nat :: lo <= k < lo + CELLS ==> (cells[CellOf(k)].status <==> k < hi && k !in acked)
      requires forall k: nat :: lo <= k < |made| ==> cells[CellOf(k)].backup == Packet(SeqOf(k), made[k])
      modifies this`lo, this`base, this`baseSeqN
      ensures old(lo) < hi ==> Valid() && lo == FirstUnacked(acked, old(lo), hi)
      ensures old(lo) == hi ==> base == old(base) && baseSeqN == SeqOf(old(lo) + CELLS)
    {
      hide FirstUnacked, RAdd, CellOf, SeqOf;
      var i, counter := CountAcked();
      SeqAdd(lo, counter);
      CellPeriod(lo);
      forall n: nat | lo + CELLS <= n < lo + counter + CELLS && lo < hi
        ensures !cells[CellOf(n)].status
      {
        CellPeriod(n - CELLS);
      }
      base := i;
      baseSeqN := RAdd(baseSeqN, counter, MAX_SEQ);
      if lo < hi {
        lo := lo + counter;
      }
    }
  }

  lemma FirstUnackedIs(acked: set<nat>, lo: nat, hi: nat, r: nat)
    requires lo <= r <= hi && (forall k :: lo <= k < r ==> k in acked) && (r < hi ==> r !in acked)
    ensures FirstUnacked(acked, lo, hi) == r
  {
    hide FirstUnacked;
  }

  lemma Ahead(lo: nat, seqN: nat)
    requires seqN < MAX_SEQ
    ensures 0 <= RMinus(seqN, SeqOf(lo), MAX_SEQ) < MAX_SEQ && (RMinus(seqN, SeqOf(lo), MAX_SEQ) == 0 <==> seqN == SeqOf(lo))
  {
  }
}
