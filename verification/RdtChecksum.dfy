/** The checksum and the layout of data packets. */
module RdtChecksum {
  import opened Common
  import opened RdtBase

  const PACKET: nat := 128
  const HEADER: nat := 5
  const ALL_ONES: nat := 0xFFFF

  function Word(lo: Byte, hi: Byte): nat
  {
    lo as nat + 256 * hi as nat
  }

  function Plus(a: nat, b: nat): (r: nat)
    ensures r <= ALL_ONES
  {
    (a + b) % 0x10000
  }

  lemma PlusAssociative(a: nat, b: nat, c: nat)
    ensures Plus(Plus(a, b), c) == Plus(a, Plus(b, c))
  {
    PlusMod(a + b, c);
    PlusMod(b + c, a);
  }

  lemma PlusMod(x: nat, y: nat)
    ensures (x % 0x10000 + y) % 0x10000 == (x + y) % 0x10000
  {
    assert x == 0x10000 * (x / 0x10000) + x % 0x10000;
  }

  lemma PlusZero(a: nat)
    requires a <= ALL_ONES
    ensures Plus(a, 0) == a && Plus(0, a) == a
  {
  }

  /** The 16-bit sum with wrap-around; an odd last byte counts as a high byte. */
  function Sum16(bs: Bytes): (r: nat)
    ensures r <= ALL_ONES
  {
    if |bs| == 0 then 0
    else if |bs| == 1 then Word(0, bs[0])
    else Plus(Word(bs[0], bs[1]), Sum16(bs[2..]))
  }

  /** What the sum is: words are little-endian, they are added modulo 65536, and an odd last byte counts as the high
      byte of a word. */
  lemma SumOfWord(lo: Byte, hi: Byte)
    ensures Sum16([]) == 0 && Sum16([lo, hi]) == lo as nat + 256 * hi as nat
  {
    assert [lo, hi][2..] == [];
  }

  lemma SumAdds(a: Bytes, b: Bytes)
    requires |a| % 2 == 0
    ensures Sum16(a + b) == (Sum16(a) + Sum16(b)) % 0x10000
  {
    hide Sum16;
    SumJoins(a, b);
  }

  lemma {:induction false} SumJoins(a: Bytes, b: Bytes)
    requires |a| % 2 == 0
    ensures Sum16(a + b) == Plus(Sum16(a), Sum16(b))
  {
    hide Plus, Word;
    if a == [] {
      assert a + b == b;
      PlusZero(Sum16(b));
    } else {
      SumJoins(a[2..], b);
      assert (a + b)[2..] == a[2..] + b && (a + b)[0] == a[0] && (a + b)[1] == a[1];
      PlusAssociative(Word(a[0], a[1]), Sum16(a[2..]), Sum16(b));
    }
  }

  lemma SumOdd(a: Bytes, last: Byte)
    requires |a| % 2 == 0
    ensures Sum16(a + [last]) == Sum16(a + [0, last])
  {
    hide Plus;
    SumJoins(a, [last]);
    SumJoins(a, [0, last]);
    LastByte(last);
  }

  lemma LastByte(last: Byte)
    ensures Sum16([last]) == Sum16([0, last])
  {
    SumOfWord(0, last);
  }

  method Total(bs: Bytes) returns (sum: nat)
    ensures sum == Sum16(bs)
  {
    hide Plus, Word;
    sum := 0;
    var off := 0;
    PlusZero(Sum16(bs));
    assert bs[0..] == bs;
    while off + 1 < |bs|
      invariant 0 <= off <= |bs| && sum <= ALL_ONES && Plus(sum, Sum16(bs[off..])) == Sum16(bs)
    {
      assert bs[off..][2..] == bs[off + 2..];
      PlusAssociative(sum, Word(bs[off], bs[off + 1]), Sum16(bs[off + 2..]));
      sum := Plus(sum, Word(bs[off], bs[off + 1]));
      off := off + 2;
    }
    if off + 1 == |bs| {
      sum := Plus(sum, Word(0, bs[off]));
    } else {
      PlusZero(sum);
    }
  }

  method MakeChecksum(bs: Bytes) returns (checksum: nat)
    ensures checksum == ALL_ONES - Sum16(bs)
  {
    var sum := Total(bs);
    checksum := ALL_ONES - sum;
  }

  method CheckChecksum(bs: Bytes) returns (ok: bool)
    ensures ok <==> Sum16(bs) == ALL_ONES
  {
    var sum := Total(bs);
    ok := ALL_ONES - sum == 0;
  }

  /** Bytes are accepted exactly if the first two are the checksum of the rest. */
  lemma AcceptedIff(b0: Byte, b1: Byte, body: Bytes)
    ensures Sum16([b0, b1] + body) == ALL_ONES <==> Word(b0, b1) == ALL_ONES - Sum16(body)
  {
    hide Plus;
    assert ([b0, b1] + body)[2..] == body;
    Complement(Word(b0, b1), Sum16(body));
  }

  lemma Complement(a: nat, b: nat)
    requires a <= ALL_ONES && b <= ALL_ONES
    ensures Plus(a, b) == ALL_ONES <==> a == ALL_ONES - b
  {
  }

  // ---------------------------------------------------------------- packets

  /** The bytes of a packet up to the end of its payload: checksum, type, sequence number, size, payload. */
  function Encode(pkt: Packet): Bytes
    requires pkt.seqN < MAX_SEQ && |pkt.payload| <= PAYLOAD
  {
    var body := [0, pkt.seqN as Byte, |pkt.payload| as Byte] + pkt.payload;
    var c := ALL_ONES - Sum16(body);
    [(c % 256) as Byte, (c / 256) as Byte] + body
  }

  /** Where the fields are. */
  lemma Fields(pkt: Packet)
    requires pkt.seqN < MAX_SEQ && |pkt.payload| <= PAYLOAD
    ensures var e := Encode(pkt);
            |e| == 5 + |pkt.payload| && e[0] as nat + 256 * e[1] as nat == 65535 - Sum16(e[2..]) &&
            e[2] == 0 && e[3] as nat == pkt.seqN && e[4] as nat == |pkt.payload| && e[5..] == pkt.payload
  {
    hide Sum16;
    var body := [0, pkt.seqN as Byte, |pkt.payload| as Byte] + pkt.payload;
    assert Encode(pkt)[2..] == body;
  }

  /** What the receiver reads from a data packet, or nothing if its type or checksum is wrong. */
  function Decode(data: Bytes): Option<Packet>
    requires |data| == PACKET && data[4] < 128
  {
    var size := data[4] as nat;
    var covered := if size + HEADER < PACKET then size + HEADER else PACKET;
    if data[2] != 0 || Sum16(data[..covered]) != ALL_ONES then None
    else Some(Packet(data[3] as nat, data[HEADER..covered]))
  }

  /** Every packet the sender builds is read back, whatever bytes fill it up. */
  lemma RoundTrip(pkt: Packet, fill: Bytes)
    requires pkt.seqN < MAX_SEQ && |pkt.payload| <= PAYLOAD && |Encode(pkt)| + |fill| == PACKET
    ensures Decode(Encode(pkt) + fill) == Some(pkt)
  {
    var body := [0, pkt.seqN as Byte, |pkt.payload| as Byte] + pkt.payload;
    var c := ALL_ONES - Sum16(body);
    var data := Encode(pkt) + fill;
    AcceptedIff((c % 256) as Byte, (c / 256) as Byte, body);
    assert data[..|pkt.payload| + HEADER] == Encode(pkt);
    assert data[HEADER..|pkt.payload| + HEADER] == pkt.payload;
  }

  // ---------------------------------------------------------------- corruption

  /** The sum tells any two lists apart that differ in one byte. */
  lemma {:induction false} OneByte(bs: Bytes, i: nat, b: Byte)
    requires i < |bs| && bs[i] != b
    ensures Sum16(bs[i := b]) != Sum16(bs)
  {
    var bs' := bs[i := b];
    if |bs| > 1 {
      if i < 2 {
        assert bs'[2..] == bs[2..];
        PlusApart(Word(bs[0], bs[1]), Word(bs'[0], bs'[1]), Sum16(bs[2..]));
      } else {
        OneByte(bs[2..], i - 2, b);
        assert bs'[2..] == bs[2..][i - 2 := b];
        PlusApart(Sum16(bs[2..]), Sum16(bs'[2..]), Word(bs[0], bs[1]));
      }
    }
  }

  lemma PlusApart(a: nat, b: nat, c: nat)
    requires a <= ALL_ONES && b <= ALL_ONES && a != b
    ensures Plus(a, c) != Plus(b, c) && Plus(c, a) != Plus(c, b)
  {
    if a < b {
      assert (b + c) - (a + c) < 0x10000;
    } else {
      assert (a + c) - (b + c) < 0x10000;
    }
  }

  /** A packet in which one byte is changed, other than its size and what fills it up, is not read at all. */
  lemma OneByteRejected(pkt: Packet, fill: Bytes, i: nat, b: Byte)
    requires pkt.seqN < MAX_SEQ && |pkt.payload| <= PAYLOAD && |Encode(pkt)| + |fill| == PACKET
    requires i < |Encode(pkt)| && i != 4 && (Encode(pkt) + fill)[i] != b
    ensures Decode((Encode(pkt) + fill)[i := b]) == None
  {
    hide Sum16;
    RoundTrip(pkt, fill);
    var data, covered := Encode(pkt) + fill, |pkt.payload| + HEADER;
    OneByte(data[..covered], i, b);
    assert data[i := b][..covered] == data[..covered][i := b];
  }

  /** The layout fills a packet. */
  lemma Layout()
    ensures HEADER + PAYLOAD == PACKET == 128 && HEADER == 5
  {
  }
}
