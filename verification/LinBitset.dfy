/** The bitset of the linearizability checker: a slice of 64-bit words edited in place, and its
    meaning as a set of positions. */
module LinBitset {

  const WORD: nat := 64

  /** The word `1 << minor`, by repeated doubling. */
  function Mask(minor: nat): bv64
  {
    if minor == 0 then 1 else Double(Mask(minor - 1))
  }

  function Double(a: bv64): bv64
  {
    a + a
  }

  function And(v: bv64, a: bv64): bv64
  {
    v & a
  }

  function Not(a: bv64): bv64
  {
    !a
  }

  /** `v |= a` */
  function Or(v: bv64, a: bv64): bv64
  {
    v | a
  }

  /** `v &^= a` */
  function AndNot(v: bv64, a: bv64): bv64
  {
    And(v, Not(a))
  }

  predicate Overlap(v: bv64, a: bv64)
  {
    And(v, a) != 0
  }

  /** Position `pos` of a slice of words: word `pos / 64`, bit `pos % 64`. */
  predicate Bit(s: seq<bv64>, pos: nat)
  {
    pos / WORD < |s| && Overlap(s[pos / WORD], Mask(pos % WORD))
  }

  /** The positions that are set. */
  function Bits(s: seq<bv64>): set<nat>
  {
    set pos: nat | pos < WORD * |s| && Bit(s, pos)
  }

  // ---------------------------------------------------------------- masks

  predicate OneHot(a: bv64)
  {
    a != 0 && a & (a - 1) == 0
  }

  lemma MaskZero()
    ensures Mask(0) == 1
  {
  }

  lemma MaskNext(minor: nat)
    ensures Mask(minor + 1) == Double(Mask(minor))
  {
  }

  function Times16(a: bv64): bv64
  {
    16 * a
  }

  lemma Mask4(minor: nat)
    ensures Mask(minor + 4) == Times16(Mask(minor))
  {
    hide *;
    MaskNext(minor);
    MaskNext(minor + 1);
    MaskNext(minor + 2);
    MaskNext(minor + 3);
    Double4(Mask(minor));
  }

  lemma Double4(a: bv64)
    ensures Double(Double(Double(Double(a)))) == Times16(a)
  {
  }

  lemma TopMask()
    ensures Mask(63) == 0x8000_0000_0000_0000
  {
    hide Mask;
    MaskZero();
    MaskNext(0);
    MaskNext(1);
    MaskNext(2);
    Mask4(3);
    Mask4(7);
    Mask4(11);
    Mask4(15);
    Mask4(19);
    Mask4(23);
    Mask4(27);
    Mask4(31);
    Mask4(35);
    Mask4(39);
    Mask4(43);
    Mask4(47);
    Mask4(51);
    Mask4(55);
    Mask4(59);
  }

  /** The top mask is non-zero, and a mask is zero only if its double is. */
  lemma {:induction false} MaskNonZero(minor: nat)
    requires minor < 64
    ensures Mask(minor) != 0
    decreases 64 - minor
  {
    hide Mask;
    if minor == 63 {
      TopMask();
    } else {
      MaskNonZero(minor + 1);
      MaskNext(minor);
    }
  }

  lemma DoubleOneHot(a: bv64)
    requires OneHot(a) && Double(a) != 0
    ensures OneHot(Double(a))
  {
  }

  lemma {:induction false} MaskOneHot(minor: nat)
    requires minor < 64
    ensures OneHot(Mask(minor))
  {
    hide Mask;
    if minor == 0 {
      MaskZero();
    } else {
      MaskOneHot(minor - 1);
      MaskNext(minor - 1);
      MaskNonZero(minor);
      DoubleOneHot(Mask(minor - 1));
    }
  }

  lemma DoubleDisjoint(a: bv64, b: bv64)
    requires !Overlap(a, b)
    ensures !Overlap(Double(a), Double(b))
  {
  }

  lemma LowBitClear(a: bv64)
    ensures !Overlap(1, Double(a))
  {
  }

  lemma {:induction false} MasksDisjoint(i: nat, j: nat)
    requires i < j
    ensures !Overlap(Mask(i), Mask(j))
  {
    hide *;
    MaskNext(j - 1);
    if i > 0 {
      MasksDisjoint(i - 1, j - 1);
      MaskNext(i - 1);
      DoubleDisjoint(Mask(i - 1), Mask(j - 1));
    } else {
      MaskZero();
      LowBitClear(Mask(j - 1));
    }
  }

  lemma OverlapCommutes(a: bv64, b: bv64)
    ensures Overlap(a, b) == Overlap(b, a)
  {
  }

  lemma MasksApart(i: nat, j: nat)
    requires i != j
    ensures !Overlap(Mask(i), Mask(j))
  {
    hide *;
    if i < j { MasksDisjoint(i, j); } else { MasksDisjoint(j, i); OverlapCommutes(Mask(i), Mask(j)); }
  }

  // ---------------------------------------------------------------- words

  lemma OrApart(v: bv64, a: bv64, b: bv64)
    requires a & b == 0
    ensures (v | a) & b == v & b
  {
  }

  lemma NotApart(a: bv64, b: bv64)
    requires a & b == 0
    ensures (!a) & b == b
  {
  }

  lemma AndInside(v: bv64, c: bv64, b: bv64)
    requires c & b == b
    ensures (v & c) & b == v & b
  {
  }

  lemma AndIs(v: bv64, a: bv64)
    ensures And(v, a) == v & a
  {
  }

  lemma OrIs(v: bv64, a: bv64)
    ensures Or(v, a) == v | a
  {
  }

  lemma NotIs(a: bv64)
    ensures Not(a) == !a
  {
  }

  lemma OrElsewhere(v: bv64, a: bv64, b: bv64)
    requires And(a, b) == 0
    ensures And(Or(v, a), b) == And(v, b)
  {
    hide *;
    AndIs(a, b);
    AndIs(v, b);
    OrIs(v, a);
    AndIs(v | a, b);
    OrApart(v, a, b);
  }

  lemma NotElsewhere(a: bv64, b: bv64)
    requires And(a, b) == 0
    ensures And(Not(a), b) == b
  {
    hide *;
    AndIs(a, b);
    NotIs(a);
    AndIs(!a, b);
    NotApart(a, b);
  }

  lemma AndElsewhere(v: bv64, c: bv64, b: bv64)
    requires And(c, b) == b
    ensures And(And(v, c), b) == And(v, b)
  {
    hide *;
    AndIs(c, b);
    AndIs(v, b);
    AndIs(v, c);
    AndIs(v & c, b);
    AndInside(v, c, b);
  }

  lemma Elsewhere(v: bv64, a: bv64, b: bv64)
    requires !Overlap(a, b)
    ensures Overlap(Or(v, a), b) == Overlap(v, b)
    ensures Overlap(AndNot(v, a), b) == Overlap(v, b)
  {
    hide And, Or, Not;
    OrElsewhere(v, a, b);
    NotElsewhere(a, b);
    AndElsewhere(v, Not(a), b);
  }

  lemma Here(v: bv64, a: bv64)
    requires a != 0
    ensures Overlap(Or(v, a), a)
    ensures !Overlap(AndNot(v, a), a)
  {
  }

  lemma SetWord(v: bv64, m: nat, k: nat)
    requires m < 64 && k < 64
    ensures Overlap(Or(v, Mask(m)), Mask(k)) <==> k == m || Overlap(v, Mask(k))
    ensures Overlap(AndNot(v, Mask(m)), Mask(k)) <==> k != m && Overlap(v, Mask(k))
  {
    hide *;
    if m == k {
      MaskNonZero(k);
      Here(v, Mask(k));
    } else {
      MasksApart(m, k);
      Elsewhere(v, Mask(m), Mask(k));
    }
  }

  predicate Differ(v: bv64, w: bv64, a: bv64)
  {
    (v ^ w) & a != 0
  }

  predicate DifferBelow(v: bv64, w: bv64, a: bv64)
  {
    (v ^ w) & (a - 1) != 0
  }

  lemma XorOneHot(v: bv64, w: bv64, a: bv64)
    requires OneHot(a) && Overlap(v, a) == Overlap(w, a)
    ensures !Differ(v, w, a)
  {
  }

  lemma LowerHalf(v: bv64, w: bv64, a: bv64)
    requires OneHot(a) && !DifferBelow(v, w, a) && !Differ(v, w, a)
    ensures !DifferBelow(v, w, Double(a))
  {
    assert a + a - 1 == (a - 1) | a;
  }

  lemma WholeWord(v: bv64, w: bv64)
    requires !DifferBelow(v, w, 0x8000_0000_0000_0000) && !Differ(v, w, 0x8000_0000_0000_0000)
    ensures v == w
  {
  }

  lemma NothingBelow(v: bv64, w: bv64)
    ensures !DifferBelow(v, w, 1)
  {
  }

  /** Words that agree on every bit agree on all bits below `minor`. */
  lemma {:induction false} AgreeBelow(v: bv64, w: bv64, minor: nat)
    requires minor < 64
    requires forall j: nat :: j < 64 ==> Overlap(v, Mask(j)) == Overlap(w, Mask(j))
    ensures !DifferBelow(v, w, Mask(minor))
  {
    hide *;
    if minor == 0 {
      MaskZero();
      NothingBelow(v, w);
    } else {
      AgreeBelow(v, w, minor - 1);
      MaskNext(minor - 1);
      MaskOneHot(minor - 1);
      XorOneHot(v, w, Mask(minor - 1));
      LowerHalf(v, w, Mask(minor - 1));
    }
  }

  lemma WordInjective(v: bv64, w: bv64)
    requires forall j: nat :: j < 64 ==> Overlap(v, Mask(j)) == Overlap(w, Mask(j))
    ensures v == w
  {
    hide *;
    AgreeBelow(v, w, 63);
    MaskOneHot(63);
    XorOneHot(v, w, Mask(63));
    TopMask();
    WholeWord(v, w);
  }

  /** A slice of words is determined by its length and its positions. */
  lemma BitsInjective(s: seq<bv64>, t: seq<bv64>)
    requires |s| == |t| && Bits(s) == Bits(t)
    ensures s == t
  {
    hide Overlap, Mask, And;
    forall i: nat | i < |s|
      ensures s[i] == t[i]
    {
      forall j: nat | j < WORD
        ensures Overlap(s[i], Mask(j)) == Overlap(t[i], Mask(j))
      {
        var pos := WORD * i + j;
        assert pos / WORD == i && pos % WORD == j;
        assert pos in Bits(s) <==> pos in Bits(t);
      }
      WordInjective(s[i], t[i]);
    }
  }

  lemma SetBits(s: seq<bv64>, pos: nat)
    requires pos < WORD * |s|
    ensures Bits(s[pos / WORD := Or(s[pos / WORD], Mask(pos % WORD))]) == Bits(s) + {pos}
    ensures Bits(s[pos / WORD := AndNot(s[pos / WORD], Mask(pos % WORD))]) == Bits(s) - {pos}
  {
    hide Overlap, Mask, Or, AndNot, And;
    var t := s[pos / WORD := Or(s[pos / WORD], Mask(pos % WORD))];
    var u := s[pos / WORD := AndNot(s[pos / WORD], Mask(pos % WORD))];
    forall q: nat | q < WORD * |s|
      ensures Bit(t, q) <==> q == pos || Bit(s, q)
      ensures Bit(u, q) <==> q != pos && Bit(s, q)
    {
      SetWord(s[pos / WORD], pos % WORD, q % WORD);
    }
  }

  lemma ZeroWord(a: bv64)
    ensures !Overlap(0, a)
  {
  }

  // ---------------------------------------------------------------- operations

  function Chunks(bits: nat): nat
  {
    bits / WORD + (if bits % WORD != 0 then 1 else 0)
  }

  method NewBitset(bits: nat) returns (b: array<bv64>)
    ensures fresh(b) && b.Length == Chunks(bits) && bits <= WORD * b.Length
    ensures Bits(b[..]) == {}
  {
    hide Overlap, Mask, And;
    b := new bv64[Chunks(bits)](_ => 0);
    forall pos: nat ensures !Bit(b[..], pos) {
      ZeroWord(Mask(pos % WORD));
    }
  }

  method Clone(b: array<bv64>) returns (c: array<bv64>)
    ensures fresh(c) && c[..] == b[..]
  {
    c := new bv64[b.Length](i requires 0 <= i < b.Length reads b => b[i]);
  }

  method Set(b: array<bv64>, pos: nat)
    requires pos < WORD * b.Length
    modifies b
    ensures Bits(b[..]) == old(Bits(b[..])) + {pos}
  {
    hide *;
    ghost var s := b[..];
    SetBits(s, pos);
    b[pos / WORD] := Or(b[pos / WORD], Mask(pos % WORD));
    assert b[..] == s[pos / WORD := Or(s[pos / WORD], Mask(pos % WORD))];
  }

  method Clear(b: array<bv64>, pos: nat)
    requires pos < WORD * b.Length
    modifies b
    ensures Bits(b[..]) == old(Bits(b[..])) - {pos}
  {
    hide *;
    ghost var s := b[..];
    SetBits(s, pos);
    b[pos / WORD] := AndNot(b[pos / WORD], Mask(pos % WORD));
    assert b[..] == s[pos / WORD := AndNot(s[pos / WORD], Mask(pos % WORD))];
  }

  method Equals(b: array<bv64>, c: array<bv64>) returns (same: bool)
    ensures same <==> b.Length == c.Length && Bits(b[..]) == Bits(c[..])
  {
    hide *;
    if b.Length != c.Length { return false; }
    for i := 0 to b.Length
      invariant b[..i] == c[..i]
    {
      if b[i] != c[i] {
        assert b[..][i] != c[..][i];
        if Bits(b[..]) == Bits(c[..]) {
          BitsInjective(b[..], c[..]);
          assert false;
        }
        return false;
      }
    }
    assert b[..] == c[..];
    return true;
  }
}
