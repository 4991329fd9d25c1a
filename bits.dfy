/** Single bits of a 32-bit mask and how setting one affects the others. */
module Bits {
  /** The mask with only bit i set (none once i reaches the width). */
  function Bit(i: nat): bv32 {
    if i < 32 then (1 as bv32) << i else 0
  }

  lemma RoundTrip(i: nat)
    requires i < 32
    ensures (i as bv32) as int == i && i as bv32 < 32
  {
  }

  lemma AddInt(k: bv32)
    requires k < 31
    ensures (k + 1) as int == k as int + 1
  {
  }

  lemma BackConv(k: bv32)
    ensures (k as int) as bv32 == k
  {
  }

  lemma Succ(i: nat)
    requires i < 31
    ensures (i + 1) as bv32 == (i as bv32) + 1
  {
    RoundTrip(i);
    AddInt(i as bv32);
    BackConv((i as bv32) + 1);
  }

  lemma ShiftOne(k: bv32)
    requires k < 31
    ensures ((1 as bv32) << k) << (1 as bv32) == (1 as bv32) << (k + 1)
  {
  }

  /** Shifting bit i left once gives bit i + 1; the top bit falls off. */
  lemma BitShift(i: nat)
    ensures Bit(i) << 1 == Bit(i + 1)
  {
    if i < 31 {
      ShiftOne(i as bv32);
      Succ(i);
    }
  }

  lemma ShiftSet(k: bv32)
    requires k < 32
    ensures (1 as bv32) << k != 0
  {
  }

  lemma BitSet(i: nat)
    requires i < 32
    ensures Bit(i) != 0
  {
    RoundTrip(i);
    ShiftSet(i as bv32);
  }

  lemma ShiftsDisjoint(k: bv32, l: bv32)
    requires k < 32 && l < 32 && k != l
    ensures ((1 as bv32) << k) & ((1 as bv32) << l) == 0
  {
  }

  lemma BitsDisjoint(i: nat, j: nat)
    requires i < 32 && j < 32 && i != j
    ensures Bit(i) & Bit(j) == 0
  {
    RoundTrip(i);
    RoundTrip(j);
    ShiftsDisjoint(i as bv32, j as bv32);
  }

  lemma OrOther(rest: bv32, a: bv32, b: bv32)
    requires a & b == 0
    ensures (rest | a) & b == rest & b
  {
  }

  lemma OrSame(rest: bv32, a: bv32)
    requires a != 0
    ensures (rest | a) & a != 0
  {
  }

  /** Folding mask a into rest, seen through mask b: b is either a itself
      (a non-zero mask) or disjoint from it. */
  lemma MaskFold(v: bv32, rest: bv32, on: bool, a: bv32, b: bv32, same: bool)
    requires v == (if on then rest | a else rest)
    requires same ==> a == b && a != 0
    requires !same ==> a & b == 0
    ensures same && on ==> v & b != 0
    ensures !same || !on ==> v & b == rest & b
  {
    if on && same {
      OrSame(rest, a);
    } else if on {
      OrOther(rest, a, b);
    }
  }

  /** One step of a flag fold: bit j (mask b) after folding in flag i
      (mask a). */
  lemma MaskStep(v: bv32, rest: bv32, on: bool, a: bv32, b: bv32, i: nat, j: nat)
    requires i < 32 && j < 32 && a == Bit(i) && b == Bit(j)
    requires v == (if on then rest | a else rest)
    ensures j == i && on ==> v & b != 0
    ensures j != i || !on ==> v & b == rest & b
  {
    if j == i {
      BitSet(i);
      MaskFold(v, rest, on, a, b, true);
    } else {
      BitsDisjoint(i, j);
      MaskFold(v, rest, on, a, b, false);
    }
  }

  lemma XorAnd(a: bv32, b: bv32, k: bv32)
    ensures (a ^ b) & k == (a & k) ^ (b & k)
  {
  }

  lemma XorZero(x: bv32, y: bv32)
    ensures x ^ y == 0 <==> x == y
  {
  }
}
