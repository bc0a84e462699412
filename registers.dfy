/** The x86-64 register vocabulary of the code generator: general registers,
    128-bit (XMM) and 256-bit (YMM) vector registers, each a wrapped integer code,
    and the rounding modes. A register code splits into the REX-prefix bit and the
    3-bit field of the ModR/M, SIB and opcode bytes (section 2.2.1 of the Intel 64
    and IA-32 Architectures Software Developer's Manual, Volume 2A). */
module Registers {
  import opened Bits

  /** The C++ `int` that holds a register code. */
  newtype Int32 = x: int | -0x8000_0000 <= x < 0x8000_0000

  /** `code >> 3`. On a two's-complement `int` the shift is arithmetic, that is a
      division rounding toward minus infinity, which for the positive divisor 8 is
      Dafny's Euclidean `/`. */
  function HighBitOf(code: Int32): (h: Int32)
    ensures 0 <= code < 16 ==> 0 <= h <= 1
    ensures code < 0 <==> h < 0
  {
    code / 8
  }

  /** `code & 0x7`. On a two's-complement `int` these are the three lowest bits,
      which is the Euclidean remainder by 8 (never negative). */
  function LowBitsOf(code: Int32): (l: Int32)
    ensures 0 <= l < 8
  {
    code % 8
  }

  /** The two encoding fields of any code put it back together. */
  lemma SplitCode(code: Int32)
    ensures HighBitOf(code) as int * 8 + LowBitsOf(code) as int == code as int
  {
  }

  /** Every REX bit and 3-bit field names exactly one valid code, and that code
      splits back into them. */
  lemma JoinCode(high: Int32, low: Int32)
    requires 0 <= high <= 1 && 0 <= low < 8
    ensures 0 <= high * 8 + low < 16
    ensures HighBitOf(high * 8 + low) == high && LowBitsOf(high * 8 + low) == low
  {
  }

  /** A general register; `Register(c)` is `Register::from_code(c)`. */
  datatype Register = Register(code: Int32) {
    /** `0 <= code < kNumRegisters`, where `kNumRegisters` is the number of named registers. */
    function IsValid(): (valid: bool)
      ensures valid <==> 0 <= code < 16
    {
      0 <= code as int < |GeneralRegisters|
    }

    function Is(other: Register): (same: bool)
      ensures same <==> this == other
    {
      code == other.code
    }

    /** `1 << code`: the one-hot bit of the register. */
    function Bit(): (b: bv32)
      requires IsValid()
      ensures forall i: bv32 :: i < 32 ==> (IsSet(b, i) <==> i == code as bv32)
    {
      var m := Mask(code as bv32);
      assert forall i: bv32 :: i < 32 ==> (IsSet(m, i) <==> i == code as bv32) by {
        forall i: bv32 | i < 32 ensures IsSet(m, i) <==> i == code as bv32 {
          MaskIsOneHot(code as bv32, i);
        }
      }
      m
    }

    /** Only rax, rcx, rdx and rbx have an 8-bit form without a REX prefix. The test
        is `code <= 3` alone, so it also holds of `no_reg`. */
    function IsByteRegister(): (byte: bool)
      ensures IsValid() ==> (byte <==> this in {Rax, Rcx, Rdx, Rbx})
      ensures code < 0 ==> byte
    {
      code <= 3
    }

    /** `reg_code >> 3`: the REX bit of a valid register; with the low bits it gives the code back. */
    function HighBit(): (h: Int32)
      ensures IsValid() ==> 0 <= h <= 1
      ensures h as int * 8 + LowBitsOf(code) as int == code as int
    {
      SplitCode(code);
      HighBitOf(code)
    }

    /** `reg_code & 0x7`: the 3-bit field, which is the whole code of the first eight registers. */
    function LowBits(): (l: Int32)
      ensures 0 <= l < 8
      ensures IsValid() ==> (l == code <==> code < 8)
    {
      LowBitsOf(code)
    }
  }

  const Rax := Register(0)
  const Rcx := Register(1)
  const Rdx := Register(2)
  const Rbx := Register(3)
  const Rsp := Register(4)
  const Rbp := Register(5)
  const Rsi := Register(6)
  const Rdi := Register(7)
  const R8 := Register(8)
  const R9 := Register(9)
  const R10 := Register(10)
  const R11 := Register(11)
  const R12 := Register(12)
  const R13 := Register(13)
  const R14 := Register(14)
  const R15 := Register(15)
  const NoReg := Register(-1)

  /** The general registers in enumeration order. */
  const GeneralRegisters: seq<Register> :=
    [Rax, Rcx, Rdx, Rbx, Rsp, Rbp, Rsi, Rdi, R8, R9, R10, R11, R12, R13, R14, R15]

  /** Registers of the first six integer arguments in the System V AMD64 calling convention. */
  const ArgReg1 := Rdi
  const ArgReg2 := Rsi
  const ArgReg3 := Rdx
  const ArgReg4 := Rcx
  const ArgReg5 := R8
  const ArgReg6 := R9

  /** A 128-bit vector register; `XMMRegister(c)` is `XMMRegister::from_code(c)`. */
  datatype XMMRegister = XMMRegister(code: Int32) {
    function IsValid(): (valid: bool)
      ensures valid <==> 0 <= code < 16
    {
      0 <= code as int < |XmmRegisters|
    }

    function Is(other: XMMRegister): (same: bool)
      ensures same <==> this == other
    {
      code == other.code
    }

    /** `reg_code >> 3`: the REX bit of a valid register; with the low bits it gives the code back. */
    function HighBit(): (h: Int32)
      ensures IsValid() ==> 0 <= h <= 1
      ensures h as int * 8 + LowBitsOf(code) as int == code as int
    {
      SplitCode(code);
      HighBitOf(code)
    }

    /** `reg_code & 0x7`: the 3-bit field, which is the whole code of the first eight registers. */
    function LowBits(): (l: Int32)
      ensures 0 <= l < 8
      ensures IsValid() ==> (l == code <==> code < 8)
    {
      LowBitsOf(code)
    }
  }

  const Xmm0 := XMMRegister(0)
  const Xmm1 := XMMRegister(1)
  const Xmm2 := XMMRegister(2)
  const Xmm3 := XMMRegister(3)
  const Xmm4 := XMMRegister(4)
  const Xmm5 := XMMRegister(5)
  const Xmm6 := XMMRegister(6)
  const Xmm7 := XMMRegister(7)
  const Xmm8 := XMMRegister(8)
  const Xmm9 := XMMRegister(9)
  const Xmm10 := XMMRegister(10)
  const Xmm11 := XMMRegister(11)
  const Xmm12 := XMMRegister(12)
  const Xmm13 := XMMRegister(13)
  const Xmm14 := XMMRegister(14)
  const Xmm15 := XMMRegister(15)
  const NoXmmReg := XMMRegister(-1)

  const XmmRegisters: seq<XMMRegister> :=
    [Xmm0, Xmm1, Xmm2, Xmm3, Xmm4, Xmm5, Xmm6, Xmm7,
     Xmm8, Xmm9, Xmm10, Xmm11, Xmm12, Xmm13, Xmm14, Xmm15]

  /** A 256-bit vector register; `YMMRegister(c)` is `YMMRegister::from_code(c)`. */
  datatype YMMRegister = YMMRegister(code: Int32) {
    function IsValid(): (valid: bool)
      ensures valid <==> 0 <= code < 16
    {
      0 <= code as int < |YmmRegisters|
    }

    function Is(other: YMMRegister): (same: bool)
      ensures same <==> this == other
    {
      code == other.code
    }

    /** The XMM register that is the low 128 bits of this one. */
    function Xmm(): (x: XMMRegister)
      ensures x.code == code
      ensures x.IsValid() == IsValid()
      ensures x.HighBit() == HighBit() && x.LowBits() == LowBits()
    {
      XMMRegister(code)
    }

    /** `reg_code >> 3`: the REX bit of a valid register; with the low bits it gives the code back. */
    function HighBit(): (h: Int32)
      ensures IsValid() ==> 0 <= h <= 1
      ensures h as int * 8 + LowBitsOf(code) as int == code as int
    {
      SplitCode(code);
      HighBitOf(code)
    }

    /** `reg_code & 0x7`: the 3-bit field, which is the whole code of the first eight registers. */
    function LowBits(): (l: Int32)
      ensures 0 <= l < 8
      ensures IsValid() ==> (l == code <==> code < 8)
    {
      LowBitsOf(code)
    }
  }

  const Ymm0 := YMMRegister(0)
  const Ymm1 := YMMRegister(1)
  const Ymm2 := YMMRegister(2)
  const Ymm3 := YMMRegister(3)
  const Ymm4 := YMMRegister(4)
  const Ymm5 := YMMRegister(5)
  const Ymm6 := YMMRegister(6)
  const Ymm7 := YMMRegister(7)
  const Ymm8 := YMMRegister(8)
  const Ymm9 := YMMRegister(9)
  const Ymm10 := YMMRegister(10)
  const Ymm11 := YMMRegister(11)
  const Ymm12 := YMMRegister(12)
  const Ymm13 := YMMRegister(13)
  const Ymm14 := YMMRegister(14)
  const Ymm15 := YMMRegister(15)
  const NoYmmReg := YMMRegister(-1)

  const YmmRegisters: seq<YMMRegister> :=
    [Ymm0, Ymm1, Ymm2, Ymm3, Ymm4, Ymm5, Ymm6, Ymm7,
     Ymm8, Ymm9, Ymm10, Ymm11, Ymm12, Ymm13, Ymm14, Ymm15]

  /** Each family numbers its named registers 0..15 in declaration order. */
  lemma CodesFollowDeclarationOrder()
    ensures |GeneralRegisters| == |XmmRegisters| == |YmmRegisters| == 16
    ensures forall i :: 0 <= i < 16 ==> GeneralRegisters[i].code as int == i
    ensures forall i :: 0 <= i < 16 ==> XmmRegisters[i].code as int == i
    ensures forall i :: 0 <= i < 16 ==> YmmRegisters[i].code as int == i
  {
  }

  /** The argument registers and the "no register" sentinels. */
  lemma ArgumentRegisterCodes()
    ensures ArgReg1.code == 7 && ArgReg2.code == 6 && ArgReg3.code == 2
    ensures ArgReg4.code == 1 && ArgReg5.code == 8 && ArgReg6.code == 9
    ensures !NoReg.IsValid() && !NoXmmReg.IsValid() && !NoYmmReg.IsValid()
    ensures NoReg.code == -1 && NoXmmReg.code == -1 && NoYmmReg.code == -1
  {
  }

  /** `bit()` is the power of two of the code. */
  lemma BitIsPowerOfTwo(r: Register)
    requires r.IsValid()
    ensures r.Bit() as int == Pow2(r.code as nat)
  {
    MaskValue(r.code as nat);
  }

  /** Distinct valid registers have disjoint bits, so a set of registers is a bit mask. */
  lemma BitsOfDistinctRegistersAreDisjoint(r: Register, s: Register)
    requires r.IsValid() && s.IsValid() && !r.Is(s)
    ensures r.Bit() & s.Bit() == 0
  {
    MasksOfDistinctCodes(r.code, s.code);
  }

  /** Distinct register codes have disjoint masks. */
  lemma MasksOfDistinctCodes(a: Int32, b: Int32)
    requires 0 <= a < 16 && 0 <= b < 16 && a != b
    ensures Mask(a as bv32) & Mask(b as bv32) == 0
  {
    CodeAsWord(a);
    CodeAsWord(b);
    MasksDisjoint(a as bv32, b as bv32);
  }

  /** A register code converts to a 32-bit word without loss. */
  lemma CodeAsWord(c: Int32)
    requires 0 <= c < 16
    ensures (c as bv32) as int == c as int
  {
  }

  /** Rounding modes as the ROUNDSS/ROUNDSD immediate encodes them. */
  datatype RoundingMode = RoundToNearest | RoundDown | RoundUp | RoundToZero {
    function Code(): (c: bv8)
      ensures c < 4
      ensures RoundingModeOf(c) == this
    {
      match this
      case RoundToNearest => 0x0
      case RoundDown => 0x1
      case RoundUp => 0x2
      case RoundToZero => 0x3
    }
  }

  /** The rounding mode with a given 2-bit code. */
  function RoundingModeOf(c: bv8): (m: RoundingMode)
    requires c < 4
  {
    if c == 0 then RoundToNearest
    else if c == 1 then RoundDown
    else if c == 2 then RoundUp
    else RoundToZero
  }

  lemma RoundingCodeRoundTrip(c: bv8)
    requires c < 4
    ensures RoundingModeOf(c).Code() == c
  {
  }
}
