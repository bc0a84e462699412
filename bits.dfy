/** Single-bit masks over 32-bit unsigned words: the `1u << f`, `|=` and `&= ~`
    idiom that the feature bitset and the register bits are built from. */
module Bits {

  /** `1 << i` for a bit position that fits a 32-bit word. */
  function Mask(i: bv32): (m: bv32)
    requires i < 32
  {
    1 << i
  }

  /** Bit `i` of `w` is one, i.e. `(w & (1 << i)) != 0`. */
  predicate IsSet(w: bv32, i: bv32)
    requires i < 32
  {
    w & Mask(i) != 0
  }

  /** 2 to the power `n`, as an unbounded integer. */
  function Pow2(n: nat): (p: nat)
    ensures p >= 1
  {
    if n == 0 then 1 else 2 * Pow2(n - 1)
  }

  /** The mask of a bit position below 16 has the value 2^i. */
  lemma {:induction false} MaskValue(i: nat)
    requires i < 16
    ensures Mask(i as bv32) as int == Pow2(i)
  {
    if i == 0 {} else if i == 1 {} else if i == 2 {} else if i == 3 {}
    else if i == 4 {} else if i == 5 {} else if i == 6 {} else if i == 7 {}
    else if i == 8 {} else if i == 9 {} else if i == 10 {} else if i == 11 {}
    else if i == 12 {} else if i == 13 {} else if i == 14 {} else {}
  }

  /** The mask of bit `i` has that bit and no other. */
  lemma MaskIsOneHot(i: bv32, j: bv32)
    requires i < 32 && j < 32
    ensures IsSet(Mask(i), j) <==> i == j
  {
    if i != j {
      MasksDisjoint(i, j);
    }
  }

  /** Two different bit positions have disjoint masks. */
  lemma MasksDisjoint(i: bv32, j: bv32)
    requires i < 32 && j < 32 && i != j
    ensures Mask(i) & Mask(j) == 0
  {
  }

  /** Setting bit `i` turns on that bit and leaves bit `j != i` as it was. */
  lemma SetBitAt(w: bv32, i: bv32, j: bv32)
    requires i < 32 && j < 32
    ensures IsSet(w | Mask(i), j) == (i == j || IsSet(w, j))
  {
    if i != j {
      MasksDisjoint(i, j);
      assert (w | Mask(i)) & Mask(j) == (w & Mask(j)) | (Mask(i) & Mask(j));
    } else {
      assert Mask(i) != 0;
    }
  }

  /** Clearing bit `i` turns off that bit and leaves bit `j != i` as it was. */
  lemma ClearBitAt(w: bv32, i: bv32, j: bv32)
    requires i < 32 && j < 32
    ensures IsSet(w & !Mask(i), j) == (i != j && IsSet(w, j))
  {
    if i != j {
      MasksDisjoint(i, j);
      assert (w & !Mask(i)) & Mask(j) == w & Mask(j);
    }
  }

  /** `w | (1 << i)`: bit `i` is one afterwards and every other bit keeps its value. */
  lemma SetBitChangesOnlyThatBit(w: bv32, i: bv32)
    requires i < 32
    ensures IsSet(w | Mask(i), i)
    ensures forall j: bv32 :: j < 32 && j != i ==> IsSet(w | Mask(i), j) == IsSet(w, j)
  {
    SetBitAt(w, i, i);
    forall j: bv32 | j < 32 && j != i
      ensures IsSet(w | Mask(i), j) == IsSet(w, j)
    {
      SetBitAt(w, i, j);
    }
  }

  /** `w & ~(1 << i)`: bit `i` is zero afterwards and every other bit keeps its value. */
  lemma ClearBitChangesOnlyThatBit(w: bv32, i: bv32)
    requires i < 32
    ensures !IsSet(w & !Mask(i), i)
    ensures forall j: bv32 :: j < 32 && j != i ==> IsSet(w & !Mask(i), j) == IsSet(w, j)
  {
    ClearBitAt(w, i, i);
    forall j: bv32 | j < 32 && j != i
      ensures IsSet(w & !Mask(i), j) == IsSet(w, j)
    {
      ClearBitAt(w, i, j);
    }
  }
}
