/** Condition codes in the `tttn` numbering of the condition test field (Appendix B
    of the Intel 64 and IA-32 Architectures Software Developer's Manual, Volume 2):
    bits 3..1 select a test on the flags and bit 0 negates it. Negation and
    commutation are the two operations the code generator performs on them. */
module Conditions {
  import opened Registers

  /** A condition is the C++ enumeration's underlying `int`: any value below zero
      means "no condition". */
  type Condition = Int32

  const NoCondition: Condition := -1
  const Overflow: Condition := 0
  const NoOverflow: Condition := 1
  const Below: Condition := 2
  const AboveEqual: Condition := 3
  const Equal: Condition := 4
  const NotEqual: Condition := 5
  const BelowEqual: Condition := 6
  const Above: Condition := 7
  const Negative: Condition := 8
  const Positive: Condition := 9
  const ParityEven: Condition := 10
  const ParityOdd: Condition := 11
  const Less: Condition := 12
  const GreaterEqual: Condition := 13
  const LessEqual: Condition := 14
  const Greater: Condition := 15

  /** Pseudo-conditions handled by the opcodes that use them. */
  const Always: Condition := 16
  const Never: Condition := 17

  const Carry := Below
  const NotCarry := AboveEqual
  const Zero := Equal
  const NotZero := NotEqual
  const Sign := Negative
  const NotSign := Positive
  const LastCondition := Greater

  /** One of the sixteen conditions the processor tests. */
  predicate IsReal(cc: Condition) {
    0 <= cc <= LastCondition
  }

  /** `cc ^ 1`: bit 0 of the two's-complement value flips and every other bit stays,
      so the result lies in the same pair {2k, 2k+1}. */
  function NegateCondition(cc: Condition): (r: Condition)
    ensures r / 2 == cc / 2
    ensures r % 2 != cc % 2
  {
    if cc % 2 == 0 then cc + 1 else cc - 1
  }

  /** Commutes a condition so that `a cc b` equals `b cc' a`: the ordered
      comparisons trade places, everything else is left as it is. */
  function CommuteCondition(cc: Condition): (r: Condition)
    ensures r != cc <==> cc in {Below, Above, AboveEqual, BelowEqual, Less, Greater, GreaterEqual, LessEqual}
    ensures IsReal(r) <==> IsReal(cc)
  {
    if cc == Below then Above
    else if cc == Above then Below
    else if cc == AboveEqual then BelowEqual
    else if cc == BelowEqual then AboveEqual
    else if cc == Less then Greater
    else if cc == Greater then Less
    else if cc == GreaterEqual then LessEqual
    else if cc == LessEqual then GreaterEqual
    else cc
  }

  /** The flags a condition tests (CF, ZF, SF, OF and PF of EFLAGS). */
  datatype Flags = Flags(carry: bool, zero: bool, sign: bool, overflow: bool, parity: bool)

  /** The eight tests selected by bits 3..1 of `tttn`: O, B, E, BE, S, P, L, LE. */
  predicate Test(ttt: Int32, f: Flags)
    requires 0 <= ttt < 8
  {
    if ttt == 0 then f.overflow
    else if ttt == 1 then f.carry
    else if ttt == 2 then f.zero
    else if ttt == 3 then f.carry || f.zero
    else if ttt == 4 then f.sign
    else if ttt == 5 then f.parity
    else if ttt == 6 then f.sign != f.overflow
    else f.zero || f.sign != f.overflow
  }

  /** Whether a real condition holds of the flags: the test of bits 3..1, negated when bit 0 is one. */
  predicate Holds(cc: Condition, f: Flags)
    requires IsReal(cc)
  {
    if cc % 2 == 0 then Test(cc / 2, f) else !Test(cc / 2, f)
  }

  const TwoTo32: int := 0x1_0000_0000

  /** The 32-bit pattern of an `int` read as unsigned. */
  function Unsigned(x: Int32): (u: int)
    ensures 0 <= u < TwoTo32
    ensures u % TwoTo32 == x as int % TwoTo32
  {
    if x >= 0 then x as int else x as int + TwoTo32
  }

  /** Number of one bits of a natural number. */
  function PopCount(x: nat): nat {
    if x == 0 then 0 else x % 2 + PopCount(x / 2)
  }

  /** The flags `cmp a, b` leaves on 32-bit operands: the result is `a - b` modulo 2^32. */
  function CompareFlags(a: Int32, b: Int32): Flags {
    var ua, ub := Unsigned(a), Unsigned(b);
    var diff := if ua >= ub then ua - ub else ua - ub + TwoTo32;
    Flags(carry := ua < ub,
          zero := diff == 0,
          sign := diff >= 0x8000_0000,
          overflow := !(-0x8000_0000 <= a as int - b as int < 0x8000_0000),
          parity := PopCount(diff % 256) % 2 == 0)
  }

  /** Negation is an involution that always changes the condition. */
  lemma NegateIsInvolution(cc: Condition)
    ensures NegateCondition(NegateCondition(cc)) == cc
    ensures NegateCondition(cc) != cc
  {
  }

  /** Negation keeps the real conditions among themselves, swaps the two pseudo-conditions,
      and leaves every "no condition" value below zero (`no_condition` itself becomes -2). */
  lemma NegateKeepsKind(cc: Condition)
    ensures IsReal(cc) <==> IsReal(NegateCondition(cc))
    ensures cc < 0 <==> NegateCondition(cc) < 0
    ensures NegateCondition(Always) == Never && NegateCondition(Never) == Always
    ensures NegateCondition(NoCondition) == -2
  {
  }

  /** `NegateCondition` is the logical negation of a real condition, whatever the flags. */
  lemma {:induction false} NegateIsComplement(cc: Condition, f: Flags)
    requires IsReal(cc)
    ensures Holds(NegateCondition(cc), f) == !Holds(cc, f)
  {
    var r := NegateCondition(cc);
    assert r / 2 == cc / 2;
    if cc % 2 == 0 {
      assert r % 2 == 1;
    } else {
      assert r % 2 == 0;
    }
  }

  /** Commuting twice gives the condition back. */
  lemma CommuteIsInvolution(cc: Condition)
    ensures CommuteCondition(CommuteCondition(cc)) == cc
  {
  }

  /** The conditions that compare two operands after `cmp a, b`. */
  predicate IsComparison(cc: Condition) {
    cc in {Below, AboveEqual, Equal, NotEqual, BelowEqual, Above, Less, GreaterEqual, LessEqual, Greater}
  }

  /** Whether `cmp a, b` then `cond` on a sign-carrying subtraction says the same as
      the unsigned and signed orders on the operands. */
  lemma {:induction false} SignedOrderFromFlags(a: Int32, b: Int32)
    ensures CompareFlags(a, b).sign != CompareFlags(a, b).overflow <==> a < b
    ensures CompareFlags(a, b).zero <==> a == b
    ensures CompareFlags(a, b).carry <==> Unsigned(a) < Unsigned(b)
  {
    var ua, ub := Unsigned(a), Unsigned(b);
    var d := a as int - b as int;
    if a >= 0 && b >= 0 {
      assert ua - ub == d;
    } else if a < 0 && b < 0 {
      assert ua - ub == d;
    } else if a >= 0 {
      assert ua - ub == d - TwoTo32;
    } else {
      assert ua - ub == d + TwoTo32;
    }
  }

  /** What each comparison condition means for the operands of `cmp a, b`. */
  lemma ComparisonMeaning(a: Int32, b: Int32)
    ensures Holds(Below, CompareFlags(a, b)) <==> Unsigned(a) < Unsigned(b)
    ensures Holds(AboveEqual, CompareFlags(a, b)) <==> Unsigned(a) >= Unsigned(b)
    ensures Holds(BelowEqual, CompareFlags(a, b)) <==> Unsigned(a) <= Unsigned(b)
    ensures Holds(Above, CompareFlags(a, b)) <==> Unsigned(a) > Unsigned(b)
    ensures Holds(Equal, CompareFlags(a, b)) <==> a == b
    ensures Holds(NotEqual, CompareFlags(a, b)) <==> a != b
    ensures Holds(Less, CompareFlags(a, b)) <==> a < b
    ensures Holds(GreaterEqual, CompareFlags(a, b)) <==> a >= b
    ensures Holds(LessEqual, CompareFlags(a, b)) <==> a <= b
    ensures Holds(Greater, CompareFlags(a, b)) <==> a > b
  {
    SignedOrderFromFlags(a, b);
    assert Unsigned(a) == Unsigned(b) <==> a == b;
  }

  /** `a cc b == b cc' a` with `cc' = CommuteCondition(cc)`, for every comparison. */
  lemma CommuteSwapsOperands(cc: Condition, a: Int32, b: Int32)
    requires IsComparison(cc)
    ensures IsReal(CommuteCondition(cc))
    ensures Holds(CommuteCondition(cc), CompareFlags(b, a)) == Holds(cc, CompareFlags(a, b))
  {
    ComparisonMeaning(a, b);
    ComparisonMeaning(b, a);
  }

  /** The pairs the `CommuteCondition` switch names: below/above, equal and not-equal are fixed, and
      the aliases commute like the conditions they stand for. */
  lemma CommuteExamples()
    ensures CommuteCondition(Below) == Above && CommuteCondition(Equal) == Equal
    ensures CommuteCondition(NotEqual) == NotEqual && CommuteCondition(Carry) == Above
    ensures CommuteCondition(Zero) == Zero && CommuteCondition(Sign) == Sign
    ensures CommuteCondition(Always) == Always && CommuteCondition(NoCondition) == NoCondition
  {
  }

  /** The promise `a cond b == b cond' a` of `CommuteCondition` fails for the
      conditions outside the comparisons, which it returns unchanged: swapping the
      operands of `cmp` changes the overflow, sign and parity flags. */
  lemma CommuteKeepsFlagTests()
    ensures CommuteCondition(Overflow) == Overflow
    ensures Holds(Overflow, CompareFlags(0, -0x8000_0000)) != Holds(Overflow, CompareFlags(-0x8000_0000, 0))
    ensures CommuteCondition(Negative) == Negative
    ensures Holds(Negative, CompareFlags(0, 1)) != Holds(Negative, CompareFlags(1, 0))
    ensures CommuteCondition(ParityEven) == ParityEven
    ensures Holds(ParityEven, CompareFlags(0, 1)) != Holds(ParityEven, CompareFlags(1, 0))
  {
    OverflowOfSwappedCompare();
    SignOfSwappedCompare();
    ParityOfSwappedCompare();
  }

  /** 0 - (-2^31) overflows a 32-bit `int`; -2^31 - 0 does not. */
  lemma OverflowOfSwappedCompare()
    ensures CompareFlags(0, -0x8000_0000).overflow && !CompareFlags(-0x8000_0000, 0).overflow
  {
  }

  /** 0 - 1 is negative; 1 - 0 is not. */
  lemma SignOfSwappedCompare()
    ensures CompareFlags(0, 1).sign && !CompareFlags(1, 0).sign
  {
  }

  /** The low byte of 0 - 1 is 0xff, with eight one bits; that of 1 - 0 has one. */
  lemma ParityOfSwappedCompare()
    ensures CompareFlags(0, 1).parity && !CompareFlags(1, 0).parity
  {
    assert Unsigned(0) == 0 && Unsigned(1) == 1;
    assert (0 - 1 + TwoTo32) % 256 == 255;
    assert PopCount(1) == 1;
    assert PopCount(3) == 2;
    assert PopCount(7) == 3;
    assert PopCount(15) == 4;
    assert PopCount(31) == 5;
    assert PopCount(63) == 6;
    assert PopCount(127) == 7;
    assert PopCount(255) == 8;
  }
}
