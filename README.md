# x64_jit CPU detection and register vocabulary, modelled in Dafny

This project models the processor-probing core of the sling x86-64 JIT
(`jit/cpu.h`, `jit/cpu.cc`) and the register and condition vocabulary the code
generator is built on (`jit/registers.h`).

- **Registers** (`registers.dfy`): general, XMM and YMM registers are wrapped
  `int` codes. `is_valid`, `is`, `bit`, `is_byte_register`, `high_bit` and
  `low_bits` are modelled. `high_bit`/`low_bits` split a code into the REX bit
  and the 3-bit ModR/M field. The rounding modes are the 2-bit
  ROUNDSS/ROUNDSD immediates.
- **Conditions** (`conditions.dfy`): the `Condition` enumeration, plus
  `NegateCondition` (`cc ^ 1`) and `CommuteCondition`. Each condition is given
  its meaning on the EFLAGS that `cmp a, b` leaves. With that meaning we prove
  two things:
  - negation is logical negation;
  - commutation swaps the operands for the ten comparison conditions (the
    eight orders the switch names, and equal and not_equal, which it keeps).
    The comment of `CommuteCondition` promises this for every condition; it
    fails for overflow, sign and parity (see Findings).
- **Processor information** (`processor_info.dfy`): the `ProcessorInformation`
  constructor queries `cpuid` leaves 0, 1, 7 and 0x80000000..0x80000005. From
  them it decodes:
  - the vendor string and the signature fields;
  - the `has_*` feature flags;
  - the compacted brand string (`brand.dfy`);
  - the zero and one idioms;
  - the cache line size.

  `architecture()` maps the family-model code to a microarchitecture name.
  The machine is a `Host` value that holds the answer to each leaf and the
  value of XCR0. Each step of the constructor is a method that reads the host
  through an `int cpu_info[4]` array, and each method is proved equal to a
  decoding function.
- **Feature cache** (`cpu.dfy`): the static `CPU` class becomes an object with
  the same four fields. `Probe` runs `Initialize` once. `Initialize` builds the
  feature mask, the cache line size and `vzero_needed`. Every query probes
  first. `Enable` and `Disable` set or clear one feature bit. The mask is
  specified by the recursive function `AddFeatureBits`, which follows the
  source's sequence of tests, and `FeatureMaskBits` proves which bits end up
  set.

Words of `cpuid` output are `bv32`. The source reads them as signed `int` and
shifts them arithmetically. Every decoded field is masked to bits below bit 28
after the shift, so the logical shifts of `bv32` give the same values.

## Model

| member | source | states |
|---|---|---|
| Bits.MaskValue | jit/registers.h:90-93 | the mask `1 << i` of a position below 16 is the number 2^i |
| Bits.MaskIsOneHot | jit/registers.h:90-93 | `1 << i` has bit j set exactly when j == i |
| Bits.MasksDisjoint | jit/cpu.h:165-174 | masks of two different positions share no bit |
| Bits.SetBitAt | jit/cpu.h:165-168 | after setting bit i of w, bit j is set iff j == i or it was set before |
| Bits.ClearBitAt | jit/cpu.h:171-174 | after `w &= ~(1 << i)`, bit j is set iff j != i and it was set before |
| Bits.SetBitChangesOnlyThatBit | jit/cpu.h:165-168 | setting a bit turns it on and keeps every other bit |
| Bits.ClearBitChangesOnlyThatBit | jit/cpu.h:171-174 | clearing a bit turns it off and keeps every other bit |
| Registers.HighBitOf | jit/registers.h:97-99 | `code >> 3` is 0 or 1 for a valid code and negative exactly for a negative code |
| Registers.LowBitsOf | jit/registers.h:101-103 | `code & 7` lies in 0..7 |
| Registers.SplitCode | jit/registers.h:97-103 | high_bit * 8 + low_bits gives the code back, for every int code |
| Registers.JoinCode | jit/registers.h:97-103 | every REX bit and 3-bit field come from exactly one valid code, which splits back into them |
| Registers.Register.HighBit | jit/registers.h:97-99 | the REX bit is 0 or 1 for a valid register, and eight times it plus the low bits is the code |
| Registers.Register.LowBits | jit/registers.h:101-103 | the 3-bit field lies in 0..7 and, for a valid register, equals the code iff the code is below 8 |
| Registers.XMMRegister.HighBit | jit/registers.h:167-169 | the REX bit is 0 or 1 for a valid register, and eight times it plus the low bits is the code |
| Registers.XMMRegister.LowBits | jit/registers.h:171-173 | the 3-bit field lies in 0..7 and, for a valid register, equals the code iff the code is below 8 |
| Registers.YMMRegister.HighBit | jit/registers.h:232-234 | the REX bit is 0 or 1 for a valid register, and eight times it plus the low bits is the code |
| Registers.YMMRegister.LowBits | jit/registers.h:236-238 | the 3-bit field lies in 0..7 and, for a valid register, equals the code iff the code is below 8 |
| Registers.Register.IsValid | jit/registers.h:72-81 | valid iff 0 <= code < 16, the number of named registers |
| Registers.Register.Is | jit/registers.h:83 | `is` holds iff the two registers are equal |
| Registers.Register.Bit | jit/registers.h:90-93 | `bit()` has exactly one bit set, the one at the register's code |
| Registers.Register.IsByteRegister | jit/registers.h:95 | for a valid register: true iff it is rax, rcx, rdx or rbx; also true for every negative code such as no_reg |
| Registers.XMMRegister.IsValid | jit/registers.h:151-158 | valid iff 0 <= code < 16 |
| Registers.XMMRegister.Is | jit/registers.h:160 | `is` holds iff the registers are equal |
| Registers.YMMRegister.IsValid | jit/registers.h:211-218 | valid iff 0 <= code < 16 |
| Registers.YMMRegister.Is | jit/registers.h:220 | `is` holds iff the registers are equal |
| Registers.YMMRegister.Xmm | jit/registers.h:222-225 | the XMM register has the same code, validity, high bit and low bits |
| Registers.CodesFollowDeclarationOrder | jit/registers.h:44-70 | each family has 16 named registers, numbered 0..15 in declaration order |
| Registers.ArgumentRegisterCodes | jit/registers.h:110-121 | the argument registers are rdi, rsi, rdx, rcx, r8 and r9; each no_reg sentinel has code -1 and is invalid |
| Registers.BitIsPowerOfTwo | jit/registers.h:90-93 | `bit()` equals 2^code |
| Registers.BitsOfDistinctRegistersAreDisjoint | jit/registers.h:83-93 | two different valid registers have disjoint bits |
| Registers.RoundingMode.Code | jit/registers.h:317-323 | each mode's immediate is below 4 and decodes back to the mode |
| Registers.RoundingCodeRoundTrip | jit/registers.h:317-323 | every 2-bit immediate names a mode whose code is that immediate |
| Conditions.NegateCondition | jit/registers.h:285-291 | `cc ^ 1` stays in the pair {2k, 2k+1} and flips the parity |
| Conditions.CommuteCondition | jit/registers.h:293-315 | only the eight ordered comparisons change; real conditions stay real |
| Conditions.Unsigned | jit/registers.h:256-261 | the unsigned reading of an int lies in [0, 2^32) and agrees with it modulo 2^32 |
| Conditions.NegateIsInvolution | jit/registers.h:285-291 | negating twice gives cc back; negation always changes cc |
| Conditions.NegateKeepsKind | jit/registers.h:250-291 | real conditions stay real, negatives stay negative (no_condition becomes -2), always and never swap |
| Conditions.NegateIsComplement | jit/registers.h:285-291 | the negated condition holds of any flags exactly when cc does not |
| Conditions.CommuteIsInvolution | jit/registers.h:293-315 | commuting twice gives cc back |
| Conditions.SignedOrderFromFlags | jit/registers.h:256-269 | after `cmp a, b`: SF != OF iff a < b, ZF iff a == b, CF iff a < b unsigned |
| Conditions.ComparisonMeaning | jit/registers.h:256-269 | each of the ten comparison conditions means its signed or unsigned order |
| Conditions.CommuteSwapsOperands | jit/registers.h:293-294 | for every comparison, `a cc b` equals `b CommuteCondition(cc) a` |
| Conditions.CommuteKeepsFlagTests | jit/registers.h:293-315 | overflow, negative and parity_even commute to themselves, yet each holds of `cmp a, b` and not of `cmp b, a` for some a, b |
| Conditions.OverflowOfSwappedCompare | jit/registers.h:293-315 | `cmp 0, -2^31` overflows and `cmp -2^31, 0` does not |
| Conditions.SignOfSwappedCompare | jit/registers.h:293-315 | `cmp 0, 1` sets the sign flag and `cmp 1, 0` does not |
| Conditions.ParityOfSwappedCompare | jit/registers.h:293-315 | `cmp 0, 1` sets the parity flag and `cmp 1, 0` does not |
| Conditions.CommuteExamples | jit/registers.h:275-315 | below and carry commute to above; equal, not_equal, zero, sign, always and no_condition stay |
| Brand.TrimLeading | jit/cpu.cc:127 | the result is a suffix of the input; it does not start with a space; everything dropped is a space |
| Brand.NonSpaces | jit/cpu.cc:128-137 | the non-space characters are at most as many as the input |
| Brand.NonSpacesAppend | jit/cpu.cc:128-137 | the non-space characters of a concatenation are those of the parts |
| Brand.NonSpacesOfTrimLeading | jit/cpu.cc:127 | skipping leading spaces keeps every non-space character |
| Brand.Compact | jit/cpu.cc:123-138 | the compacted brand is no longer than the raw one and has no leading or trailing space |
| Brand.Spaces | jit/cpu.cc:126-137 | a run of n spaces |
| Brand.SqueezeShape | jit/cpu.cc:128-137 | the copy loop writes no space run and no trailing space, adds at most the pending space, and keeps the non-space characters |
| Brand.CompactProperties | jit/cpu.cc:118-139 | the compacted brand is at most as long as the raw one, has no leading or trailing space, no space run, and the same non-space characters |
| Brand.SqueezeAfterWord | jit/cpu.cc:128-137 | once a word has been copied, the loop copies the rest as if nothing were pending |
| Brand.SqueezeAfterSpaces | jit/cpu.cc:128-130 | a run of spaces only leaves a space pending |
| Brand.SqueezeOfSpaces | jit/cpu.cc:128-137 | a run of spaces alone writes nothing |
| Brand.OneSpaceBetweenWords | jit/cpu.cc:128-137 | the loop writes a run of spaces between two words as exactly one space |
| Brand.TrimOfSpaces | jit/cpu.cc:127 | skipping the leading spaces of spaces followed by a word leaves the word |
| Brand.CompactJoinsWords | jit/cpu.cc:123-138 | two words separated by any run of spaces compact to the two compacted words separated by one space |
| Brand.CompactDropsOuterSpaces | jit/cpu.cc:123-138 | spaces before and after a trimmed word are dropped |
| Brand.SqueezeOfCompact | jit/cpu.cc:128-137 | the copy loop leaves a compact string unchanged |
| Brand.CompactIsIdempotent | jit/cpu.cc:118-139 | compacting twice is compacting once |
| Brand.SqueezeStep | jit/cpu.cc:128-136 | one loop step: a space only becomes pending; another character is written, preceded by the pending space |
| Brand.Put | jit/cpu.cc:132-134 | `*q++ = c` appends c at q and leaves the rest of the buffer alone |
| Brand.SkipLeadingSpaces | jit/cpu.cc:127 | stops at the first non-space: the rest is TrimLeading(raw) |
| Brand.CopySqueezed | jit/cpu.cc:126-137 | writes exactly Squeeze of the rest, at most as long as the rest, and nothing past it |
| Brand.CompactBrand | jit/cpu.cc:123-138 | writes Compact(raw), then a NUL, and leaves the rest of the buffer alone |
| ProcessorInfo.LeafWords | jit/cpu.cc:47-52 | `cpuid` stores four words |
| ProcessorInfo.ModelOf | jit/cpu.cc:84 | base model + (extended model << 4) is below 256 and equals the extended model shifted left 4, or-ed with the base model |
| ProcessorInfo.SteppingOf | jit/cpu.cc:83 | the stepping is a 4-bit field |
| ProcessorInfo.BaseModelOf | jit/cpu.cc:84 | the base model is a 4-bit field |
| ProcessorInfo.FamilyOf | jit/cpu.cc:85 | the family is a 4-bit field |
| ProcessorInfo.TypeOf | jit/cpu.cc:86 | the processor type is a 2-bit field |
| ProcessorInfo.ExtModelOf | jit/cpu.cc:87 | the extended model is a 4-bit field |
| ProcessorInfo.ExtFamilyOf | jit/cpu.cc:88 | the extended family is an 8-bit field |
| ProcessorInfo.SignatureFields | jit/cpu.cc:83-88 | each field function reads its own field back out of a signature word |
| ProcessorInfo.DecodeSignature | jit/cpu.cc:83-88 | decoding a signature gives back its fields, and the model joins the two model nibbles |
| ProcessorInfo.SignatureOfDecoded | jit/cpu.cc:83-88 | the decoded fields rebuild every bit of EAX except reserved bits 14, 15 and 28..31 |
| ProcessorInfo.PositionOf | jit/cpu.cc:89-111 | every flag's bit position fits a 32-bit word |
| ProcessorInfo.FlagsOf | jit/cpu.cc:81-147 | a flag is reported only if the leaf that holds it is queried |
| ProcessorInfo.FlagLayout | jit/cpu.cc:81-147 | a flag is reported iff its leaf is at most the highest leaf and its bit of its word is set |
| ProcessorInfo.FlagBitsAreDistinct | jit/cpu.cc:89-146 | no two flags share a bit of the same word |
| ProcessorInfo.FamilyModelOf | jit/cpu.h:55 | the low byte of the code is the model's low byte, and for a model below 256 the rest is the family |
| ProcessorInfo.FamilyModel | jit/cpu.h:55 | the host's family-model code is below 0x1000 |
| ProcessorInfo.ZeroIdiom | jit/cpu.cc:149-150 | the zero idiom is reported only when leaf 1 is read |
| ProcessorInfo.OneIdiom | jit/cpu.cc:152-153 | the one idiom is reported only when leaf 1 is read |
| ProcessorInfo.FamilyModelRoundTrip | jit/cpu.h:55 | for a 4-bit family and an 8-bit model, the code `(family << 8) or model` is below 0x1000 and gives both back |
| ProcessorInfo.FamilyModelOrder | jit/cpu.h:55 | family-model codes order by family first, then by model |
| ProcessorInfo.IdiomThresholds | jit/cpu.cc:149-153 | zero idiom iff family > 6 or family 6 with model >= 0x2A; one idiom iff family > 6 or family 6 with model >= 0x5E; one implies zero |
| ProcessorInfo.Architecture | jit/cpu.cc:167-223 | a name is found only for a code of family 6 or family 0xF |
| ProcessorInfo.ArchitectureOfListedCode | jit/cpu.cc:167-223 | every code in an entry of the name table maps to that entry's name |
| ProcessorInfo.ArchitectureNamesAreDistinct | jit/cpu.cc:167-223 | the table's names are non-empty and pairwise different |
| ProcessorInfo.ArchitectureMatchesTable | jit/cpu.cc:220-221 | the name is "" iff no entry lists the code |
| ProcessorInfo.IdiomsOfListedCodes | jit/cpu.cc:149-223 | the Westmere codes 0x062C and 0x062F and the Nehalem code 0x062E pass the zero-idiom threshold; Prescott (0x0F03) passes the one-idiom threshold; no Merom, Penryn or Dothan code passes either |
| ProcessorInfo.WordChars | jit/cpu.cc:77 | a word is four bytes in memory |
| ProcessorInfo.WordsChars | jit/cpu.cc:77 | n words are 4n bytes in memory |
| ProcessorInfo.WordsCharsAppend | jit/cpu.cc:119-123 | the bytes of consecutive words are the bytes of each word in turn |
| ProcessorInfo.WordsCharsAt | jit/cpu.cc:123-124 | byte k of the words is byte k % 4 of word k / 4 |
| ProcessorInfo.Vendor | jit/cpu.cc:74-78 | the vendor identification has 12 characters |
| ProcessorInfo.GenuineIntelWords | jit/cpu.cc:156 | the EBX, EDX and ECX words of an Intel processor read "GenuineIntel" |
| ProcessorInfo.AuthenticAmdWords | jit/cpu.cc:159 | the EBX, EDX and ECX words of an AMD processor read "AuthenticAMD" |
| ProcessorInfo.BrandChars | jit/cpu.cc:119-124 | the raw brand is 48 characters |
| ProcessorInfo.BrandOf | jit/cpu.cc:70 | the brand fits the 48 characters before the terminator |
| ProcessorInfo.CacheLineSizeOf | jit/cpu.cc:155-164 | Intel: the CLFLUSH line size of leaf 1 times 8; AMD: the L1 data line size of leaf 0x80000005; any other vendor: 64; never above 255*8 |
| ProcessorInfo.OsHasAvxSupport | jit/cpu.cc:60-66 | true iff XCR0 bits 1 and 2 (SSE and AVX state) are both set |
| ProcessorInfo.Cpuid | jit/cpu.cc:47-52 | stores the leaf's EAX, EBX, ECX and EDX at `at..at+3` and changes nothing else |
| ProcessorInfo.ReadVendor | jit/cpu.cc:73-78 | returns the highest basic leaf and the vendor |
| ProcessorInfo.QueryLeaf1 | jit/cpu.cc:81-82 | when leaf 1 exists, `cpu_info` holds its four words; otherwise it is unchanged |
| ProcessorInfo.ReadIdioms | jit/cpu.cc:149-153 | returns the zero and one idiom flags of the host |
| ProcessorInfo.ReadSignature | jit/cpu.cc:80-88 | returns the decoded signature fields, all zero when leaf 1 is absent |
| ProcessorInfo.ReadLeaf1EdxFlags | jit/cpu.cc:89-93 | returns the fpu, cmov, mmx, sse and sse2 flags, false when leaf 1 is absent |
| ProcessorInfo.ReadLeaf1EcxFlags | jit/cpu.cc:94-102 | returns the leaf 1 ECX flags, false when leaf 1 is absent |
| ProcessorInfo.ReadLeaf7Flags | jit/cpu.cc:105-111 | returns bmi1, bmi2 and avx2, false when leaf 7 is absent |
| ProcessorInfo.ReadExtendedFlags | jit/cpu.cc:141-147 | returns lzcnt and sahf, false without extended leaves |
| ProcessorInfo.ReadBrand | jit/cpu.cc:68-139 | a fresh 49-character buffer holding BrandOf(h) then a NUL ("Unknown" without extended leaves) |
| ProcessorInfo.ReadBrandChars | jit/cpu.cc:119-123 | the three leaves' words, read as characters, are the raw brand |
| ProcessorInfo.ReadCacheLineSize | jit/cpu.cc:155-164 | returns CacheLineSizeOf(h) |
| ProcessorInfo.ProcessorInformation.FamilyModel | jit/cpu.h:55 | for a 4-bit family and an 8-bit model the code holds the family above the model |
| ProcessorInfo.ProcessorInformation.ArchitectureName | jit/cpu.cc:167-223 | the name is "" iff no entry of the name table lists the processor's code |
| ProcessorInfo.ProcessorInformation.constructor | jit/cpu.cc:68-165 | every field is the host's decoded value: vendor, brand, signature fields, flags, idioms and cache line size |
| Cpu.CpuFeature.Code | jit/cpu.h:117-139 | every enumerator is below NUMBER_OF_CPU_FEATURES |
| Cpu.CodesAreDistinct | jit/cpu.h:117-139 | two features have the same bit iff they are the same feature |
| Cpu.BitIsAFeatureBit | jit/cpu.h:117-139 | each feature bit lies within bits 0..17 |
| Cpu.StepOf | jit/cpu.cc:228-249 | gives each feature its step in the order of `CPU::Initialize`, at most NumSteps; SSE4_2 gets NumSteps |
| Cpu.StepOfCheckedAt | jit/cpu.cc:228-249 | the feature checked at step k is checked at step k and at no other step |
| Cpu.CheckedAtStepOf | jit/cpu.cc:228-249 | every feature except SSE4_2 is checked; SSE4_2 is never checked |
| Cpu.Supported | jit/cpu.cc:228-249 | SSE4_2 is never supported; AVX, FMA3 and AVX2 are supported only behind the AVX gate |
| Cpu.NeedsVZeroUpper | jit/cpu.cc:253-258 | vzero is needed only when the build does not target AVX and leaf 1 is read |
| Cpu.AddFeatureBits | jit/cpu.cc:228-249 | the tests only turn bits on: every bit of the starting mask stays set |
| Cpu.AddIfBits | jit/cpu.cc:228 | one test `if (on)` of feature g sets bit g iff on and keeps every other bit |
| Cpu.AddIfInRange | jit/cpu.cc:228 | one test adds no bit outside the 18 features |
| Cpu.AddFeatureBitsHas | jit/cpu.cc:228-249 | after n tests a feature's bit is on iff it was on before, or it is supported and checked before step n |
| Cpu.AddFeatureBitsInRange | jit/cpu.cc:228-249 | the tests add no bit outside the 18 features |
| Cpu.FeatureMaskBits | jit/cpu.cc:228-249 | the probed mask has a feature's bit iff the feature is supported, and no other bit |
| Cpu.AvxGate | jit/cpu.cc:237-241 | AVX iff OSXSAVE and the OS saves the AVX state; FMA3 and AVX2 iff AVX and their flag; SSE4_2 never |
| Cpu.NextStep | jit/cpu.cc:228-249 | one more test applied to the mask of the first k tests is the mask of k + 1 tests |
| Cpu.AvxStepsSkipped | jit/cpu.cc:237-241 | without the AVX gate the three AVX tests change nothing |
| Cpu.SimdTests | jit/cpu.cc:228-235 | steps 0..7 test MMX, SSE, SSE2, SSE3, SSSE3, SSE4_1, F16C and SAHF, each on its own flag |
| Cpu.AvxTests | jit/cpu.cc:237-241 | steps 8..10 test AVX, FMA3 and AVX2, each behind the AVX gate |
| Cpu.ScalarTests | jit/cpu.cc:243-249 | steps 11..16 test BMI1, BMI2, LZCNT, POPCNT and the two idioms |
| Cpu.AddSupportedFeatures | jit/cpu.cc:228-249 | the mask after the tests is AddFeatureBits of the old mask |
| Cpu.CPU.constructor | jit/cpu.cc:42-45 | not initialized, no features, cache line size 0 and no vzero |
| Cpu.CPU.Initialize | jit/cpu.cc:225-259 | features gain exactly the supported bits; cache line size from the processor information; vzero_needed iff the CPU has AVX and the build does not |
| Cpu.CPU.Probe | jit/cpu.h:146-150 | initializes once: after the first call the cache holds the probed values, and later calls change nothing |
| Cpu.CPU.SupportedFeatures | jit/cpu.h:153-156 | returns the probed feature mask |
| Cpu.CPU.Enabled | jit/cpu.h:159-162 | true iff the feature's bit is set in the probed mask |
| Cpu.CPU.Enable | jit/cpu.h:165-168 | the mask becomes the probed mask with the feature's bit set |
| Cpu.CPU.Disable | jit/cpu.h:171-174 | the mask becomes the probed mask with the feature's bit cleared |
| Cpu.CPU.CacheLineSize | jit/cpu.h:177-180 | returns the probed processor's cache line size |
| Cpu.CPU.VZeroNeeded | jit/cpu.h:183-186 | returns whether the CPU has AVX and the build does not |
| Cpu.EnableChangesOnlyThatBit | jit/cpu.h:165-168 | after Enable(f), g is enabled iff g == f or it was enabled before |
| Cpu.DisableChangesOnlyThatBit | jit/cpu.h:171-174 | after Disable(f), g is enabled iff g != f and it was enabled before |
| Cpu.ProbeScenario | jit/cpu.h:146-174 | two queries return the same probed mask; a feature is enabled after Enable and disabled after Disable |

## Findings

| source | as written | input that shows it | evidently intended | confidence | as-written member | corrected member |
|---|---|---|---|---|---|---|
| jit/registers.h:293-315 | the comment promises `a cond b == b cond' a` for every condition, but the switch returns overflow, no_overflow, negative, positive, parity_even and parity_odd unchanged | `cmp 0, -2^31` overflows and `cmp -2^31, 0` does not; `cmp 0, 1` sets the sign and parity flags and `cmp 1, 0` sets neither | the promise holds for the ten comparison conditions, which the model proves; the flag tests have no commuted form | not executed | Conditions.CommuteKeepsFlagTests | Conditions.CommuteSwapsOperands |

## Left out

- `__cpuid` and `_xgetbv` are inline assembly. The model replaces them with a
  `Host` value that holds each leaf's four words and XCR0. Leaves are queried
  with ECX = 0, as in the source.
- `#ifndef __AVX__` is a compile-time switch. The model makes it the
  `builtForAvx` parameter of `CPU`.
- The four `static` fields of `CPU` are kept in one object that every call
  goes through. Concurrent first calls to `Probe` are not modelled; the source
  does not synchronise them either.
- C strings are modelled as sequences, with these consequences:
  - the vendor is a 12-character sequence, not a NUL-terminated 13-byte
    buffer;
  - the `strcmp` tests compare that sequence with "GenuineIntel" and
    "AuthenticAMD";
  - the brand is the written prefix of a 49-character array, followed by its
    NUL. A NUL byte inside the raw brand counts as a non-space character and
    is copied, as the loop does; the C-string view that would stop at it is
    not modelled.
- The vendor is always the leaf 0 words: the source overwrites "Unknown"
  unconditionally, so the model never yields "Unknown" as vendor.
- `brand()`, `vendor()` and the other plain getters are the fields of
  `ProcessorInformation` itself. So are `code()`, `from_code` and `reg_code` of
  the registers.
- `has_fpu`, `has_cmov`, `has_sse42` and `has_avx` are decoded but do not reach
  the feature mask. SSE4_2 is never set, exactly as in `CPU::Initialize`.
  `has_avx` only decides `vzero_needed`.
- `UNKNOWN_CACHE_LINE_SIZE` (0) is only the field's initial value. The
  constructor overwrites it on every path, so the model has no state where it
  is visible.
- Cpu.CPU.Valid: does not state that the mask has no bit beyond the 18
  features. `Enable`/`Disable` keep that property. `FeatureMaskBits` proves it
  of the probed mask, and `BitIsAFeatureBit` proves it of each bit.
- The tests of `CPU::Initialize` are one method, `AddSupportedFeatures`, over
  the values the initialisation reads from `ProcessorInformation`.
  `Initialize` calls it. The method keeps the source's order and its single
  AVX block.
