/** Constants, packets and the modular arithmetic of the selective-repeat transport. */
module RdtBase {

  const WINDOW: nat := 10
  const CELLS: nat := 11
  const MAX_SEQ: nat := 30
  const PAYLOAD: nat := 123

  newtype Byte = x: int | 0 <= x < 256

  type Bytes = seq<Byte>

  /** A data packet: the sequence number and the payload, whose length is the size field. */
  datatype Packet = Packet(seqN: nat, payload: Bytes)

  function RMinus(a: int, b: int, k: int): int
    requires k > 0
  {
    (a - b + k) % k
  }

  function RAdd(a: int, b: int, k: int): int
    requires k > 0
  {
    (a + b) % k
  }

  /** Packets are counted from 0; this is the number a packet carries. */
  function SeqOf(n: nat): (s: nat)
    ensures s < MAX_SEQ
  {
    n % MAX_SEQ
  }

  /** The cell a packet uses. */
  function CellOf(n: nat): (c: nat)
    ensures c < CELLS
  {
    n % CELLS
  }

  /** Inside one period, the distance of sequence numbers is the distance of packets. */
  lemma SeqDistance(n: nat, lo: nat)
    ensures 0 <= RMinus(SeqOf(n), SeqOf(lo), MAX_SEQ) < MAX_SEQ
    ensures lo <= n < lo + MAX_SEQ ==> RMinus(SeqOf(n), SeqOf(lo), MAX_SEQ) == n - lo
    ensures n < lo <= n + MAX_SEQ ==> RMinus(SeqOf(n), SeqOf(lo), MAX_SEQ) == n + MAX_SEQ - lo
  {
  }

  lemma SeqAdd(n: nat, k: nat)
    ensures RAdd(SeqOf(n), k, MAX_SEQ) == SeqOf(n + k)
  {
  }

  lemma CellDistance(n: nat, lo: nat)
    requires lo <= n < lo + CELLS
    ensures RMinus(CellOf(n), CellOf(lo), CELLS) == n - lo
  {
  }

  lemma CellAdd(n: nat, k: nat)
    ensures RAdd(CellOf(n), k, CELLS) == CellOf(n + k)
  {
  }

  /** Packets closer than the number of cells have different cells; every cell serves one of any eleven. */
  lemma CellsApart(m: nat, n: nat)
    requires m < n < m + CELLS
    ensures CellOf(m) != CellOf(n)
  {
  }

  lemma CellPeriod(n: nat)
    ensures CellOf(n + CELLS) == CellOf(n)
  {
  }

  lemma SeqApart(m: nat, n: nat)
    requires m < n < m + MAX_SEQ
    ensures SeqOf(m) != SeqOf(n)
  {
  }
}
