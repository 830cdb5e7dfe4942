/** Counting the set positions of a bitset sideways, 64 at a time. */
module LinPopcount {
  import opened LinBitset

  function Add(a: bv64, b: bv64): bv64
  {
    a + b
  }

  /** The counts of each two, four and eight neighbouring positions, side by side in one word. */
  function Pairs(v: bv64): bv64
  {
    (v & 0x5555555555555555) + ((v & 0xAAAAAAAAAAAAAAAA) >> 1)
  }

  function Nibbles(v: bv64): bv64
  {
    (v & 0x3333333333333333) + ((v & 0xCCCCCCCCCCCCCCCC) >> 2)
  }

  function Octets(v: bv64): bv64
  {
    (v & 0x0F0F0F0F0F0F0F0F) + ((v & 0xF0F0F0F0F0F0F0F0) >> 4)
  }

  /** The sum of the eight bytes, gathered in the top byte of a product. */
  function Gather(v: bv64): bv64
  {
    ((v * 0x0101010101010101) >> 56) & 0xFF
  }

  function PopWord(v: bv64): bv64
  {
    Gather(Octets(Nibbles(Pairs(v))))
  }

  function PopAll(s: seq<bv64>): bv64
  {
    if s == [] then 0 else Add(PopAll(s[..|s| - 1]), PopWord(s[|s| - 1]))
  }

  method Popcnt(b: array<bv64>) returns (total: bv64)
    ensures total == PopAll(b[..])
  {
    hide PopWord, Add;
    total := 0;
    for i := 0 to b.Length
      invariant total == PopAll(b[..i])
    {
      assert b[..i + 1][..i] == b[..i];
      total := Add(total, PopWord(b[i]));
    }
    assert b[..b.Length] == b[..];
  }

  // ---------------------------------------------------------------- small words as numbers

  function Val(a: bv64): nat
  {
    a as nat
  }

  function Inc(x: bv64): bv64
  {
    x + 1
  }

  function Dec(x: bv64): bv64
  {
    x - 1
  }

  lemma IncVal(x: bv64)
    requires x < 1024
    ensures Val(Inc(x)) == Val(x) + 1
  {
  }

  lemma AddZero(a: bv64)
    ensures Add(a, 0) == a && Val(0) == 0
  {
  }

  lemma AddDec(a: bv64, b: bv64)
    requires a < 256 && 0 < b < 256
    ensures Add(a, b) == Inc(Add(a, Dec(b))) && Inc(Dec(b)) == b && Dec(b) < 256 && Add(a, Dec(b)) < 1024 && Dec(b) < b
  {
  }

  lemma {:induction false} AddVal(a: bv64, b: bv64)
    requires a < 256 && b < 256
    ensures Val(Add(a, b)) == Val(a) + Val(b)
    decreases b
  {
    hide Inc, Dec, Add, Val;
    if b == 0 {
      AddZero(a);
    } else {
      AddDec(a, b);
      AddVal(a, Dec(b));
      IncVal(Add(a, Dec(b)));
      IncVal(Dec(b));
    }
  }

  // ---------------------------------------------------------------- sums of fields

  function Shr1(v: bv64): bv64
  {
    v >> 1
  }

  function Shr2(v: bv64): bv64
  {
    v >> 2
  }

  function Shr4(v: bv64): bv64
  {
    v >> 4
  }

  function Shr8(v: bv64): bv64
  {
    v >> 8
  }

  function Low1(v: bv64): bv64
  {
    v & 1
  }

  function Low2(v: bv64): bv64
  {
    v & 3
  }

  function Low4(v: bv64): bv64
  {
    v & 15
  }

  function Low8(v: bv64): bv64
  {
    v & 255
  }

  /** The sums of the lowest `n` fields of one, two, four and eight bits. */
  function Sum1(v: bv64, n: nat): nat
    decreases n
  {
    if n == 0 then 0 else Val(Low1(v)) + Sum1(Shr1(v), n - 1)
  }

  function Sum2(v: bv64, n: nat): nat
    decreases n
  {
    if n == 0 then 0 else Val(Low2(v)) + Sum2(Shr2(v), n - 1)
  }

  function Sum4(v: bv64, n: nat): nat
    decreases n
  {
    if n == 0 then 0 else Val(Low4(v)) + Sum4(Shr4(v), n - 1)
  }

  function Sum8(v: bv64, n: nat): nat
    decreases n
  {
    if n == 0 then 0 else Val(Low8(v)) + Sum8(Shr8(v), n - 1)
  }

  lemma PairsField(v: bv64)
    ensures Low2(Pairs(v)) == Add(Low1(v), Low1(Shr1(v))) && Low1(v) < 256 && Low1(Shr1(v)) < 256
    ensures Pairs(Shr2(v)) == Shr2(Pairs(v)) && Shr1(Shr1(v)) == Shr2(v)
  {
  }

  lemma NibblesField(v: bv64)
    ensures Low4(Nibbles(v)) == Add(Low2(v), Low2(Shr2(v))) && Low2(v) < 256 && Low2(Shr2(v)) < 256
    ensures Nibbles(Shr4(v)) == Shr4(Nibbles(v)) && Shr2(Shr2(v)) == Shr4(v)
  {
  }

  lemma OctetsField(v: bv64)
    ensures Low8(Octets(v)) == Add(Low4(v), Low4(Shr4(v))) && Low4(v) < 256 && Low4(Shr4(v)) < 256
    ensures Octets(Shr8(v)) == Shr8(Octets(v)) && Shr4(Shr4(v)) == Shr8(v)
  {
  }

  lemma {:induction false} PairsSum(v: bv64, n: nat)
    ensures Sum1(v, 2 * n) == Sum2(Pairs(v), n)
    decreases n
  {
    hide Val, Add, Pairs, Low1, Low2, Shr1, Shr2;
    if n > 0 {
      PairsField(v);
      PairsSum(Shr2(v), n - 1);
      AddVal(Low1(v), Low1(Shr1(v)));
      assert Sum1(Shr1(v), 2 * n - 1) == Val(Low1(Shr1(v))) + Sum1(Shr2(v), 2 * n - 2);
    }
  }

  lemma {:induction false} NibblesSum(v: bv64, n: nat)
    ensures Sum2(v, 2 * n) == Sum4(Nibbles(v), n)
    decreases n
  {
    hide Val, Add, Nibbles, Low2, Low4, Shr2, Shr4;
    if n > 0 {
      NibblesField(v);
      NibblesSum(Shr4(v), n - 1);
      AddVal(Low2(v), Low2(Shr2(v)));
      assert Sum2(Shr2(v), 2 * n - 1) == Val(Low2(Shr2(v))) + Sum2(Shr4(v), 2 * n - 2);
    }
  }

  lemma {:induction false} OctetsSum(v: bv64, n: nat)
    ensures Sum4(v, 2 * n) == Sum8(Octets(v), n)
    decreases n
  {
    hide Val, Add, Octets, Low4, Low8, Shr4, Shr8;
    if n > 0 {
      OctetsField(v);
      OctetsSum(Shr8(v), n - 1);
      AddVal(Low4(v), Low4(Shr4(v)));
      assert Sum4(Shr4(v), 2 * n - 1) == Val(Low4(Shr4(v))) + Sum4(Shr8(v), 2 * n - 2);
    }
  }

  // ---------------------------------------------------------------- the product

  function Double8(y: bv64): bv64
  {
    0x101 * y
  }

  function Double16(y: bv64): bv64
  {
    0x10001 * y
  }

  function Double32(y: bv64): bv64
  {
    0x100000001 * y
  }

  /** The bytes above the lowest. */
  function At8(y: bv64): bv64
  {
    (y >> 8) & 255
  }

  function At16(y: bv64): bv64
  {
    (y >> 16) & 255
  }

  function At24(y: bv64): bv64
  {
    (y >> 24) & 255
  }

  function At32(y: bv64): bv64
  {
    (y >> 32) & 255
  }

  function At40(y: bv64): bv64
  {
    (y >> 40) & 255
  }

  function At48(y: bv64): bv64
  {
    (y >> 48) & 255
  }

  function At56(y: bv64): bv64
  {
    (y >> 56) & 255
  }

  predicate BelowBit(y: bv64, mask: bv64)
  {
    y & mask == 0
  }

  /** Adding neighbours, if no byte overflows. */
  lemma Double8Adds(y: bv64)
    requires BelowBit(y, 0xE0E0E0E0E0E0E0E0)
    ensures BelowBit(Double8(y), 0xC0C0C0C0C0C0C0C0)
    ensures At56(Double8(y)) == Add(At56(y), At48(y)) && At40(Double8(y)) == Add(At40(y), At32(y))
    ensures At24(Double8(y)) == Add(At24(y), At16(y)) && At8(Double8(y)) == Add(At8(y), Low8(y))
  {
  }

  lemma Double16Adds(z: bv64)
    requires BelowBit(z, 0xC0C0C0C0C0C0C0C0)
    ensures BelowBit(Double16(z), 0x8080808080808080)
    ensures At56(Double16(z)) == Add(At56(z), At40(z)) && At24(Double16(z)) == Add(At24(z), At8(z))
  {
  }

  lemma Double32Adds(z: bv64)
    requires BelowBit(z, 0x8080808080808080)
    ensures At56(Double32(z)) == Add(At56(z), At24(z))
  {
  }

  lemma TimesTwo(y: bv64)
    ensures Double8(y) == 0x101 * y
  {
  }

  lemma TimesFour(y: bv64)
    ensures Double16(0x101 * y) == 0x01010101 * y
  {
  }

  lemma TimesEight(y: bv64)
    ensures At56(Double32(0x01010101 * y)) == Gather(y)
  {
  }

  lemma GatherIs(y: bv64)
    ensures Gather(y) == At56(Double32(Double16(Double8(y))))
  {
    hide *;
    TimesTwo(y);
    TimesFour(y);
    TimesEight(y);
  }

  /** The top byte of the product is the sum of all bytes. */
  lemma GatherAdds(y: bv64)
    requires BelowBit(y, 0xE0E0E0E0E0E0E0E0)
    ensures Gather(y) == Add(Add(Add(At56(y), At48(y)), Add(At40(y), At32(y))), Add(Add(At24(y), At16(y)), Add(At8(y), Low8(y))))
  {
    hide *;
    GatherIs(y);
    Double8Adds(y);
    Double16Adds(Double8(y));
    Double32Adds(Double16(Double8(y)));
  }

  lemma OctetsSmall(v: bv64)
    ensures BelowBit(Octets(v), 0xE0E0E0E0E0E0E0E0)
  {
  }

  lemma SmallBytes(y: bv64)
    requires BelowBit(y, 0xE0E0E0E0E0E0E0E0)
    ensures At56(y) < 32 && At48(y) < 32 && At40(y) < 32 && At32(y) < 32 && At24(y) < 32 && At16(y) < 32 && At8(y) < 32 && Low8(y) < 32
  {
  }

  lemma AddSmall(a: bv64, b: bv64)
    ensures a < 32 && b < 32 ==> Add(a, b) < 64
    ensures a < 64 && b < 64 ==> Add(a, b) < 128
    ensures a < 128 && b < 128 ==> Add(a, b) < 256
  {
  }

  lemma ShiftedBytes(y: bv64)
    ensures Low8(Shr8(y)) == At8(y) && At8(Shr8(y)) == At16(y) && At16(Shr8(y)) == At24(y) && At24(Shr8(y)) == At32(y)
    ensures At32(Shr8(y)) == At40(y) && At40(Shr8(y)) == At48(y) && At48(Shr8(y)) == At56(y)
  {
  }

  lemma FourBytes(y: bv64, n: nat)
    ensures Sum8(y, n + 4) == Val(Low8(y)) + Val(At8(y)) + Val(At16(y)) + Val(At24(y)) + Sum8(Shr8(Shr8(Shr8(Shr8(y)))), n)
  {
    hide Val, Low8, Shr8, At8, At16, At24, At32, At40, At48, At56;
    var y1 := Shr8(y);
    var y2 := Shr8(y1);
    var y3 := Shr8(y2);
    ShiftedBytes(y);
    ShiftedBytes(y1);
    ShiftedBytes(y2);
    assert Sum8(y3, n + 1) == Val(Low8(y3)) + Sum8(Shr8(y3), n);
    assert Sum8(y2, n + 2) == Val(Low8(y2)) + Sum8(y3, n + 1);
    assert Sum8(y1, n + 3) == Val(Low8(y1)) + Sum8(y2, n + 2);
  }

  lemma NoFields(y: bv64)
    ensures Sum8(y, 0) == 0
  {
  }

  lemma UpperBytes(y: bv64)
    ensures var y4 := Shr8(Shr8(Shr8(Shr8(y))));
            Low8(y4) == At32(y) && At8(y4) == At40(y) && At16(y4) == At48(y) && At24(y4) == At56(y)
  {
    hide *;
    ShiftedBytes(y);
    ShiftedBytes(Shr8(y));
    ShiftedBytes(Shr8(Shr8(y)));
    ShiftedBytes(Shr8(Shr8(Shr8(y))));
  }

  lemma BytesSum(y: bv64)
    ensures Sum8(y, 8) == Val(Low8(y)) + Val(At8(y)) + Val(At16(y)) + Val(At24(y)) +
                          Val(At32(y)) + Val(At40(y)) + Val(At48(y)) + Val(At56(y))
  {
    hide *;
    var y4 := Shr8(Shr8(Shr8(Shr8(y))));
    FourBytes(y, 4);
    FourBytes(y4, 0);
    NoFields(Shr8(Shr8(Shr8(Shr8(y4)))));
    UpperBytes(y);
  }

  lemma GatherSum(y: bv64)
    requires BelowBit(y, 0xE0E0E0E0E0E0E0E0)
    ensures Val(Gather(y)) == Sum8(y, 8)
  {
    hide *;
    GatherAdds(y);
    SmallBytes(y);
    BytesSum(y);
    var a, b, c, d := Add(At56(y), At48(y)), Add(At40(y), At32(y)), Add(At24(y), At16(y)), Add(At8(y), Low8(y));
    AddSmall(At56(y), At48(y));
    AddSmall(At40(y), At32(y));
    AddSmall(At24(y), At16(y));
    AddSmall(At8(y), Low8(y));
    AddSmall(a, b);
    AddSmall(c, d);
    AddVal(At56(y), At48(y));
    AddVal(At40(y), At32(y));
    AddVal(At24(y), At16(y));
    AddVal(At8(y), Low8(y));
    AddVal(a, b);
    AddVal(c, d);
    AddVal(Add(a, b), Add(c, d));
  }

  /** The sideways count of a word is the number of its ones. */
  lemma PopWordSum(v: bv64)
    ensures Val(PopWord(v)) == Sum1(v, 64)
  {
    hide Val, Gather, Octets, Nibbles, Pairs, Sum1, Sum2, Sum4, Sum8;
    PairsSum(v, 32);
    NibblesSum(Pairs(v), 16);
    OctetsSum(Nibbles(Pairs(v)), 8);
    OctetsSmall(Nibbles(Pairs(v)));
    GatherSum(Octets(Nibbles(Pairs(v))));
  }

  // ---------------------------------------------------------------- positions

  /** How many of the lowest `n` positions of a word are set. */
  function Ones(v: bv64, n: nat): nat
  {
    if n == 0 then 0 else Ones(v, n - 1) + if Overlap(v, Mask(n - 1)) then 1 else 0
  }

  lemma LowVal(v: bv64)
    ensures Val(Low1(v)) == if Overlap(v, 1) then 1 else 0
  {
  }

  lemma ShiftOverlap(v: bv64, a: bv64)
    requires OneHot(a) && Double(a) != 0
    ensures Overlap(v, Double(a)) <==> Overlap(Shr1(v), a)
  {
  }

  lemma {:induction false} OnesShift(v: bv64, n: nat)
    requires 0 < n <= WORD
    ensures Ones(v, n) == Val(Low1(v)) + Ones(Shr1(v), n - 1)
  {
    hide Val, Low1, Shr1, Overlap, Mask, Double, OneHot;
    if n == 1 {
      MaskZero();
      LowVal(v);
      assert Ones(v, 0) == 0;
    } else {
      OnesShift(v, n - 1);
      MaskNext(n - 2);
      MaskOneHot(n - 2);
      MaskNonZero(n - 1);
      ShiftOverlap(v, Mask(n - 2));
    }
  }

  lemma {:induction false} SumIsOnes(v: bv64, n: nat)
    requires n <= WORD
    ensures Sum1(v, n) == Ones(v, n) <= n
    decreases n
  {
    hide Val, Low1, Shr1, Overlap, Mask;
    if n > 0 {
      OnesShift(v, n);
      SumIsOnes(Shr1(v), n - 1);
      LowVal(v);
    }
  }

  // ---------------------------------------------------------------- whole slices

  /** A number as a 64-bit word, with wrap-around. */
  function Word(n: nat): bv64
  {
    if n == 0 then 0 else Inc(Word(n - 1))
  }

  lemma IncIs(x: bv64)
    ensures Inc(x) == x + 1
  {
  }

  lemma AddIs(x: bv64, y: bv64)
    ensures Add(x, y) == x + y
  {
  }

  lemma SumInc(x: bv64, y: bv64)
    ensures Add(x, y + 1) == Inc(x + y)
  {
  }

  lemma AddInc(x: bv64, y: bv64)
    ensures Add(x, Inc(y)) == Inc(Add(x, y))
  {
    hide *;
    IncIs(y);
    AddIs(x, y);
    SumInc(x, y);
  }

  lemma {:induction false} WordAdd(m: nat, n: nat)
    ensures Word(m + n) == Add(Word(m), Word(n))
  {
    hide Add, Inc;
    if n == 0 {
      AddZero(Word(m));
    } else {
      WordAdd(m, n - 1);
      AddInc(Word(m), Word(n - 1));
    }
  }

  lemma DecFacts(x: bv64)
    requires 0 < x < 256
    ensures Inc(Dec(x)) == x && Dec(x) < x && Dec(x) < 1024
  {
  }

  lemma {:induction false} WordVal(x: bv64)
    requires x < 256
    ensures Word(Val(x)) == x
    decreases x
  {
    hide Inc, Dec, Val;
    if x == 0 {
      AddZero(x);
    } else {
      DecFacts(x);
      WordVal(Dec(x));
      IncVal(Dec(x));
    }
  }

  lemma GatherSmall(y: bv64)
    ensures Gather(y) < 256
  {
  }

  lemma PopWordIs(v: bv64)
    ensures PopWord(v) == Word(Ones(v, WORD))
  {
    hide Val, Gather, Octets, Nibbles, Pairs, Word, Ones, Sum1;
    PopWordSum(v);
    SumIsOnes(v, WORD);
    GatherSmall(Octets(Nibbles(Pairs(v))));
    WordVal(PopWord(v));
  }

  ghost function SetBelow(s: seq<bv64>, p: nat): set<nat>
  {
    set pos: nat | pos < p && Bit(s, pos)
  }

  /** The set positions of a slice, word by word. */
  lemma {:induction false} BelowGrows(s: seq<bv64>, k: nat, j: nat)
    requires k < |s| && j <= WORD
    ensures |SetBelow(s, WORD * k + j)| == |SetBelow(s, WORD * k)| + Ones(s[k], j)
  {
    hide Overlap, Mask;
    if j > 0 {
      BelowGrows(s, k, j - 1);
      var p := WORD * k + j - 1;
      assert p / WORD == k && p % WORD == j - 1;
      if Bit(s, p) {
        assert SetBelow(s, p + 1) == SetBelow(s, p) + {p};
      } else {
        assert SetBelow(s, p + 1) == SetBelow(s, p);
      }
    }
  }

  lemma FrontBits(s: seq<bv64>)
    requires s != []
    ensures SetBelow(s, WORD * (|s| - 1)) == Bits(s[..|s| - 1])
  {
    hide Overlap, Mask;
  }

  /** The count of a bitset is the number of positions that are set. */
  lemma {:induction false} PopIsCount(s: seq<bv64>)
    ensures PopAll(s) == Word(|Bits(s)|)
  {
    hide Add, PopWord, Overlap, Mask, Inc, Bits;
    if s == [] {
      NoBits();
    } else {
      var k := |s| - 1;
      PopIsCount(s[..k]);
      PopWordIs(s[k]);
      FrontBits(s);
      BelowGrows(s, k, WORD);
      AllBits(s);
      WordAdd(|Bits(s[..k])|, Ones(s[k], WORD));
    }
  }

  lemma NoBits()
    ensures Bits([]) == {}
  {
  }

  lemma AllBits(s: seq<bv64>)
    ensures Bits(s) == SetBelow(s, WORD * |s|)
  {
    hide Bit;
  }
}
