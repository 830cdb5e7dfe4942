/** The sender's circular byte queue. The recorded capacity of a queue that has grown is one more than its
    array allows, so a later push can write outside the array; `Push` reports exactly when. */
module RdtQueue {
  import opened RdtBase

  /** A push of `size` bytes that needs no growth writes index `maxSize`, which a grown array lacks. */
  predicate Overruns(grown: bool, maxSize: nat, base: nat, top: nat, size: int)
  {
    grown && base <= top && top - base + size <= maxSize && top + size > maxSize
  }

  /** That is the exact condition: if the bytes fit by the recorded capacity, one of them would go outside the array
      of `length` bytes. */
  lemma OverrunsIff(grown: bool, maxSize: nat, base: nat, top: nat, size: nat, length: nat)
    requires base <= maxSize && top <= maxSize && length == (if grown then maxSize else maxSize + 1) && (grown ==> base <= top)
    requires base <= top ==> top - base + size <= maxSize
    ensures Overruns(grown, maxSize, base, top, size) <==> exists i :: 0 <= i < size && Outside(top, i, maxSize, length)
  {
    hide Outside;
    if Overruns(grown, maxSize, base, top, size) {
      assert Outside(top, maxSize - top, maxSize, length) by { LastCell(top, maxSize, length); }
    } else {
      forall i | 0 <= i < size
        ensures !Outside(top, i, maxSize, length)
      {
        Inside(grown, maxSize, base, top, size, length, i);
      }
    }
  }

  /** Byte `i` of a push goes beyond the array. */
  predicate Outside(top: nat, i: int, maxSize: nat, length: nat)
  {
    RAdd(top, i, maxSize + 1) >= length
  }

  lemma LastCell(top: nat, maxSize: nat, length: nat)
    requires top <= maxSize == length
    ensures Outside(top, maxSize - top, maxSize, length)
  {
    WrapAdd(top, maxSize - top, maxSize + 1);
  }

  lemma Inside(grown: bool, maxSize: nat, base: nat, top: nat, size: nat, length: nat, i: nat)
    requires base <= maxSize && top <= maxSize && length == (if grown then maxSize else maxSize + 1) && (grown ==> base <= top)
    requires base <= top ==> top - base + size <= maxSize
    requires !Overruns(grown, maxSize, base, top, size) && i < size
    ensures !Outside(top, i, maxSize, length)
  {
    ModBelow(top + i, maxSize + 1);
    if grown {
      WrapAdd(top, i, maxSize + 1);
    }
  }

  lemma ModBelow(x: nat, k: nat)
    requires k > 0
    ensures 0 <= x % k < k
  {
  }

  lemma EmptyPushFits(grown: bool, maxSize: nat, base: nat, top: nat)
    requires top <= maxSize
    ensures !Overruns(grown, maxSize, base, top, 0)
  {
  }

  lemma WrapMinus(a: nat, b: nat, k: nat)
    requires a < k && b < k
    ensures RMinus(a, b, k) == if a >= b then a - b else a - b + k
  {
    if a >= b {
      WrapOnce(a - b, k);
    } else {
      assert (a - b + k) / k == 0;
    }
  }

  lemma WrapAdd(a: nat, b: nat, k: nat)
    requires a < k && b <= k
    ensures RAdd(a, b, k) == if a + b < k then a + b else a + b - k
  {
    if a + b < k {
      assert (a + b) / k == 0;
    } else {
      WrapOnce(a + b - k, k);
    }
  }

  lemma WrapOnce(x: nat, k: nat)
    requires x < k
    ensures (x + k) % k == x
  {
    assert (x + k) / k == 1;
  }

  /** The bytes from `base` to `top`, going round the end. */
  function Ring(b: Bytes, base: nat, top: nat): Bytes
    requires base <= |b| && top <= |b|
  {
    if base <= top then b[base..top] else b[base..] + b[..top]
  }

  function Overlay(b: Bytes, at: nat, data: Bytes): (r: Bytes)
    requires at + |data| <= |b|
    ensures |r| == |b|
  {
    b[..at] + data + b[at + |data|..]
  }

  lemma RingSize(b: Bytes, base: nat, top: nat)
    requires base <= |b| && top <= |b|
    ensures |Ring(b, base, top)| == if base <= top then top - base else |b| - base + top
  {
  }

  /** Bytes written after the top extend the ring: it does not go round, */
  lemma ExtendFlat(b: Bytes, base: nat, top: nat, data: Bytes)
    requires base <= top && top + |data| <= |b|
    ensures Ring(Overlay(b, top, data), base, top + |data|) == Ring(b, base, top) + data
  {
    hide Ring;
    FlatRing(b, base, top);
    FlatRing(Overlay(b, top, data), base, top + |data|);
    OverlaySlice(b, top, data, base);
  }

  lemma FlatRing(b: Bytes, base: nat, top: nat)
    requires base <= top <= |b|
    ensures Ring(b, base, top) == b[base..top]
  {
  }

  lemma OverlaySlice(b: Bytes, at: nat, data: Bytes, base: nat)
    requires base <= at && at + |data| <= |b|
    ensures Overlay(b, at, data)[base..at + |data|] == b[base..at] + data
  {
  }

  /** or it ends with the array, so that the new top is 0, */
  lemma ExtendToEnd(b: Bytes, base: nat, top: nat, data: Bytes)
    requires 0 < base <= top && top + |data| == |b|
    ensures Ring(Overlay(b, top, data), base, 0) == Ring(b, base, top) + data
  {
    hide Ring;
    var c := Overlay(b, top, data);
    FlatRing(b, base, top);
    OverlaySlice(b, top, data, base);
    RoundRing(c, base, 0);
    assert c[base..] == c[base..top + |data|] && c[..0] == [];
  }

  lemma RoundRing(b: Bytes, base: nat, top: nat)
    requires top < base <= |b|
    ensures Ring(b, base, top) == b[base..] + b[..top]
  {
  }

  /** or it already goes round. */
  lemma ExtendRound(b: Bytes, base: nat, top: nat, data: Bytes)
    requires top + |data| < base <= |b|
    ensures Ring(Overlay(b, top, data), base, top + |data|) == Ring(b, base, top) + data
  {
    hide Ring;
    var c := Overlay(b, top, data);
    RoundRing(b, base, top);
    RoundRing(c, base, top + |data|);
    OverlaySlice(b, top, data, 0);
    assert c[base..] == b[base..];
    assert c[..top + |data|] == b[..top] + data;
  }

  /** Bytes written up to the end of the array and on from its start extend the ring. */
  lemma RingWrap(b: Bytes, base: nat, top: nat, data: Bytes)
    requires base <= top <= |b| && |b| < top + |data| < |b| + base
    ensures var k := |b| - top;
            Ring(Overlay(Overlay(b, top, data[..k]), 0, data[k..]), base, |data| - k) == Ring(b, base, top) + data
  {
    var k := |b| - top;
    ExtendFlat(b, base, top, data[..k]);
    RingStart(Overlay(b, top, data[..k]), base, data[k..]);
    assert (Ring(b, base, top) + data[..k]) + data[k..] == Ring(b, base, top) + (data[..k] + data[k..]);
    assert data[..k] + data[k..] == data;
  }

  lemma RingStart(b: Bytes, base: nat, data: Bytes)
    requires |data| < base <= |b|
    ensures Ring(Overlay(b, 0, data), base, |data|) == Ring(b, base, |b|) + data
  {
    assert Overlay(b, 0, data)[base..] == b[base..];
  }

  class CircleQueue {
    var maxSize: nat
    var buf: array<Byte>
    var top: nat
    var base: nat
    ghost var grown: bool

    ghost predicate Valid()
      reads this
    {
      base <= maxSize && top <= maxSize && buf.Length == (if grown then maxSize else maxSize + 1) && (grown ==> base <= top)
    }

    ghost function Contents(): (s: Bytes)
      requires Valid()
      reads this, buf
    {
      Ring(buf[..], base, top)
    }

    constructor (size: nat)
      ensures Valid() && fresh(buf) && Contents() == [] && maxSize == size && !grown
    {
      maxSize := size;
      buf := new Byte[size + 1](_ => 0);
      top, base := 0, 0;
      grown := false;
    }

    method Empty() returns (empty: bool)
      requires Valid()
      ensures empty <==> Contents() == []
    {
      empty := top == base;
    }

    method LastSize() returns (n: nat)
      requires Valid()
      ensures n == |Contents()|
    {
      hide RMinus;
      WrapMinus(top, base, maxSize + 1);
      n := RMinus(top, base, maxSize + 1);
    }

    /** The first `n` bytes. */
    method Copy(n: nat) returns (data: Bytes)
      requires Valid() && n <= |Contents()|
      ensures data == Contents()[..n]
    {
      var baseToEnd := maxSize + 1 - base;
      if n > baseToEnd {
        data := buf[base..base + baseToEnd] + buf[..n - baseToEnd];
      } else {
        data := buf[base..base + n];
      }
    }

    method Pop(n: nat)
      requires Valid() && n <= |Contents()|
      modifies this`base
      ensures Valid() && Contents() == old(Contents())[n..]
    {
      hide RAdd;
      WrapAdd(base, n, maxSize + 1);
      base := RAdd(base, n, maxSize + 1);
    }

    /** The contents move to the front of an array of twice the capacity plus one; the recorded capacity is
        one more than that. */
    method Enlarge()
      requires Valid()
      modifies this
      ensures Valid() && fresh(buf) && grown && base == 0 && maxSize == 2 * old(maxSize) + 1
      ensures Contents() == old(Contents())
    {
      hide RMinus;
      var newMaxSize := maxSize * 2;
      var newBuf := new Byte[newMaxSize + 1](_ => 0);
      MoveTo(newBuf);
      WrapMinus(top, base, maxSize + 1);
      top := RMinus(top, base, maxSize + 1);
      base := 0;
      maxSize := newMaxSize + 1;
      buf := newBuf;
      grown := true;
    }

    method MoveTo(newBuf: array<Byte>)
      requires Valid() && newBuf.Length > 2 * maxSize && newBuf != buf
      modifies newBuf
      ensures |Contents()| <= newBuf.Length && newBuf[..|Contents()|] == Contents()
    {
      if top < base {
        var baseToEnd := maxSize + 1 - base;
        Write(newBuf, 0, buf[base..base + baseToEnd]);
        Write(newBuf, baseToEnd, buf[..top]);
      } else {
        Write(newBuf, 0, buf[base..top]);
      }
    }

    /** Appends the bytes, or, if that would write outside the array, reports so and writes nothing. */
    method Push(data: Bytes) returns (ok: bool)
      requires Valid()
      modifies this, buf
      ensures Valid() && (buf == old(buf) || fresh(buf))
      ensures ok <==> !Overruns(old(grown), old(maxSize), old(base), old(top), |data|)
      ensures Contents() == if ok then old(Contents()) + data else old(Contents())
      ensures grown <==> old(grown) || |old(Contents())| + |data| > old(maxSize)
      ensures |old(Contents())| + |data| > old(maxSize) ==> base == 0
    {
      Reserve(|data|);
      var topToEnd := maxSize + 1 - top;
      var atEnd := if |data| > topToEnd then topToEnd else |data|;
      if top + atEnd > buf.Length {
        return false;
      }
      Append(data);
      ok := true;
    }

    /** Grows the queue until `size` more bytes fit its recorded capacity. */
    method Reserve(size: nat)
      requires Valid()
      modifies this
      ensures Valid() && Contents() == old(Contents()) && |Contents()| + size <= maxSize
      ensures if |old(Contents())| + size <= old(maxSize) then unchanged(this) else grown && base == 0 && fresh(buf)
    {
      hide RMinus;
      WrapMinus(top, base, maxSize + 1);
      while RMinus(top, base, maxSize + 1) + size > maxSize
        invariant Valid() && Contents() == old(Contents()) && RMinus(top, base, maxSize + 1) == |Contents()|
        invariant unchanged(this) || (|old(Contents())| + size > old(maxSize) && grown && base == 0 && fresh(buf))
        decreases |old(Contents())| + size - maxSize
      {
        Enlarge();
        WrapMinus(top, base, maxSize + 1);
      }
    }

    method Append(data: Bytes)
      requires Valid() && |Contents()| + |data| <= maxSize && (grown ==> top + |data| <= maxSize)
      modifies this`top, buf
      ensures Valid() && Contents() == old(Contents()) + data
    {
      hide RAdd, Ring, Overlay;
      RingSize(buf[..], base, top);
      WrapAdd(top, |data|, maxSize + 1);
      var topToEnd := maxSize + 1 - top;
      if |data| > topToEnd {
        RingWrap(buf[..], base, top, data);
        Write(buf, top, data[..topToEnd]);
        Write(buf, 0, data[topToEnd..]);
      } else {
        if top < base {
          ExtendRound(buf[..], base, top, data);
        } else if top + |data| <= maxSize {
          ExtendFlat(buf[..], base, top, data);
        } else {
          ExtendToEnd(buf[..], base, top, data);
        }
        Write(buf, top, data);
      }
      top := RAdd(top, |data|, maxSize + 1);
    }

    static method Write(a: array<Byte>, at: nat, data: Bytes)
      requires at + |data| <= a.Length
      modifies a
      ensures a[..] == Overlay(old(a[..]), at, data)
    {
      forall i | 0 <= i < |data| {
        a[at + i] := data[i];
      }
    }
  }

  /** Whatever the initial capacity, a queue that has grown once can be emptied and then overrun by a push
      within its recorded capacity. */
  method GrownQueueOverruns(size: nat) returns (ok: bool)
    ensures !ok
  {
    var q := new CircleQueue(size);
    ok := q.Push(seq(size + 1, _ => 1));
    q.Pop(size + 1);
    ok := q.Push(seq(q.maxSize, _ => 1));
  }
}
