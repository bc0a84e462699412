/** The processor probe: what `cpuid` and `xgetbv` report about the machine, decoded
    into the processor's signature, its feature flags, its vendor and brand strings,
    its cache line size and the idiom flags. The hardware queries are an input: a
    `Host` gives the four output words of every `cpuid` leaf (sub-leaf 0, section
    3.2 of the Intel 64 and IA-32 Architectures Software Developer's Manual, Volume
    2A, "CPUID") and the value of the XCR0 register. */
module ProcessorInfo {
  import opened Bits
  import Brand

  /** The words `cpuid` leaves in EAX, EBX, ECX and EDX. */
  datatype CpuidResult = CpuidResult(eax: bv32, ebx: bv32, ecx: bv32, edx: bv32)

  /** The leaves the probe queries; `ExtN` is leaf 0x8000000N. */
  datatype Leaf = Leaf0 | Leaf1 | Leaf7 | Ext0 | Ext1 | Ext2 | Ext3 | Ext4 | Ext5 {
    /** The value of EAX that selects the leaf. */
    function Number(): bv32 {
      match this
      case Leaf0 => 0
      case Leaf1 => 1
      case Leaf7 => 7
      case Ext0 => 0x8000_0000
      case Ext1 => 0x8000_0001
      case Ext2 => 0x8000_0002
      case Ext3 => 0x8000_0003
      case Ext4 => 0x8000_0004
      case Ext5 => 0x8000_0005
    }
  }

  /** The machine: what `cpuid` returns (with ECX = 0) for each leaf the probe
      queries, and XCR0 as `xgetbv(0)` reads it. */
  datatype Host = Host(leaf0: CpuidResult, leaf1: CpuidResult, leaf7: CpuidResult,
                       ext0: CpuidResult, ext1: CpuidResult, ext2: CpuidResult,
                       ext3: CpuidResult, ext4: CpuidResult, ext5: CpuidResult,
                       xcr0: bv64)

  /** `cpuid` of one leaf on the host. */
  function Query(h: Host, leaf: Leaf): CpuidResult {
    match leaf
    case Leaf0 => h.leaf0
    case Leaf1 => h.leaf1
    case Leaf7 => h.leaf7
    case Ext0 => h.ext0
    case Ext1 => h.ext1
    case Ext2 => h.ext2
    case Ext3 => h.ext3
    case Ext4 => h.ext4
    case Ext5 => h.ext5
  }

  /** The four output words in the order `cpuid` stores them into `int cpu_info[4]`. */
  function LeafWords(r: CpuidResult): (ws: seq<bv32>)
    ensures |ws| == 4
  {
    [r.eax, r.ebx, r.ecx, r.edx]
  }

  /** Highest basic leaf (leaf 0, EAX) and highest extended leaf (leaf 0x80000000, EAX). */
  function NumIds(h: Host): bv32 { h.leaf0.eax }
  function NumExtIds(h: Host): bv32 { h.ext0.eax }

  /** The leaf counts compare as `unsigned`, which is what `bv32` comparison is. */
  predicate HasBasicLeaf(h: Host) { NumIds(h) > 0 }
  predicate HasLeaf7(h: Host) { NumIds(h) >= 7 }
  predicate HasExtendedLeaves(h: Host) { NumExtIds(h) > 0x8000_0000 }

  // ---------------------------------------------------------------------------
  // The processor signature in leaf 1, EAX.

  /** The fields of the signature. Every mask keeps bits below bit 28, so the
      arithmetic shift of the constructor's `int cpu_info[4]` gives the same bits as this
      logical shift. */
  function SteppingOf(eax: bv32): (stepping: bv32) ensures stepping < 16 { eax & 0xf }
  function BaseModelOf(eax: bv32): (baseModel: bv32) ensures baseModel < 16 { (eax >> 4) & 0xf }
  function FamilyOf(eax: bv32): (family: bv32) ensures family < 16 { (eax >> 8) & 0xf }
  function TypeOf(eax: bv32): (cpuType: bv32) ensures cpuType < 4 { (eax >> 12) & 0x3 }
  function ExtModelOf(eax: bv32): (extModel: bv32) ensures extModel < 16 { (eax >> 16) & 0xf }
  function ExtFamilyOf(eax: bv32): (extFamily: bv32) ensures extFamily < 256 { (eax >> 20) & 0xff }

  /** The model number: the base model plus the extended model shifted into the
      high nibble (`(eax >> 12) & 0xf0` is bits 16..19 moved to bits 4..7). */
  function ModelOf(eax: bv32): (m: bv32)
    ensures m < 256
    ensures m == (ExtModelOf(eax) << 4) | BaseModelOf(eax)
  {
    ((eax >> 4) & 0xf) + ((eax >> 12) & 0xf0)
  }

  /** The signature word with the given fields; bits 14, 15 and 28..31 are reserved. */
  function Signature(stepping: bv32, baseModel: bv32, family: bv32, cpuType: bv32,
                     extModel: bv32, extFamily: bv32): bv32
    requires stepping < 16 && baseModel < 16 && family < 16 && cpuType < 4
    requires extModel < 16 && extFamily < 256
  {
    stepping | (baseModel << 4) | (family << 8) | (cpuType << 12) | (extModel << 16) | (extFamily << 20)
  }

  /** Each field function reads back the field of a signature. */
  lemma SignatureFields(stepping: bv32, baseModel: bv32, family: bv32, cpuType: bv32,
                        extModel: bv32, extFamily: bv32)
    requires stepping < 16 && baseModel < 16 && family < 16 && cpuType < 4
    requires extModel < 16 && extFamily < 256
    ensures SteppingOf(Signature(stepping, baseModel, family, cpuType, extModel, extFamily)) == stepping
    ensures BaseModelOf(Signature(stepping, baseModel, family, cpuType, extModel, extFamily)) == baseModel
    ensures FamilyOf(Signature(stepping, baseModel, family, cpuType, extModel, extFamily)) == family
    ensures TypeOf(Signature(stepping, baseModel, family, cpuType, extModel, extFamily)) == cpuType
    ensures ExtModelOf(Signature(stepping, baseModel, family, cpuType, extModel, extFamily)) == extModel
    ensures ExtFamilyOf(Signature(stepping, baseModel, family, cpuType, extModel, extFamily)) == extFamily
  {
  }

  /** Decoding a signature gives back its fields, and the model joins the two model nibbles. */
  lemma DecodeSignature(stepping: bv32, baseModel: bv32, family: bv32, cpuType: bv32,
                        extModel: bv32, extFamily: bv32)
    requires stepping < 16 && baseModel < 16 && family < 16 && cpuType < 4
    requires extModel < 16 && extFamily < 256
    ensures var eax := Signature(stepping, baseModel, family, cpuType, extModel, extFamily);
      SteppingOf(eax) == stepping && BaseModelOf(eax) == baseModel && FamilyOf(eax) == family &&
      TypeOf(eax) == cpuType && ExtModelOf(eax) == extModel && ExtFamilyOf(eax) == extFamily &&
      ModelOf(eax) == (extModel << 4) | baseModel
  {
    SignatureFields(stepping, baseModel, family, cpuType, extModel, extFamily);
  }

  /** The decoded fields rebuild every defined bit of the word, and only those. */
  lemma SignatureOfDecoded(eax: bv32)
    ensures Signature(SteppingOf(eax), BaseModelOf(eax), FamilyOf(eax), TypeOf(eax),
                      ExtModelOf(eax), ExtFamilyOf(eax)) == eax & 0x0FFF_3FFF
  {
  }

  /** The decoded fields of the probed machine: zero when leaf 1 is not available. */
  function Leaf1Eax(h: Host): bv32 { if HasBasicLeaf(h) then h.leaf1.eax else 0 }
  function Stepping(h: Host): bv32 { SteppingOf(Leaf1Eax(h)) }
  function Model(h: Host): bv32 { ModelOf(Leaf1Eax(h)) }
  function Family(h: Host): bv32 { FamilyOf(Leaf1Eax(h)) }
  function CpuType(h: Host): bv32 { TypeOf(Leaf1Eax(h)) }
  function ExtModel(h: Host): bv32 { ExtModelOf(Leaf1Eax(h)) }
  function ExtFamily(h: Host): bv32 { ExtFamilyOf(Leaf1Eax(h)) }

  // ---------------------------------------------------------------------------
  // Feature flags.

  /** The feature flags the probe reads, each one bit of one output word of one leaf. */
  datatype CpuidFlag =
    | Fpu | Cmov | Mmx | Sse | Sse2
    | Sse3 | Ssse3 | Sse41 | Sse42 | F16c | Popcnt | Osxsave | Avx | Fma3
    | Bmi1 | Bmi2 | Avx2
    | Lzcnt | Sahf

  datatype OutputRegister = Eax | Ebx | Ecx | Edx

  function Word(r: CpuidResult, o: OutputRegister): bv32 {
    match o
    case Eax => r.eax
    case Ebx => r.ebx
    case Ecx => r.ecx
    case Edx => r.edx
  }

  /** The leaf that reports a flag. */
  function LeafOf(f: CpuidFlag): Leaf {
    match f
    case Fpu | Cmov | Mmx | Sse | Sse2 => Leaf1
    case Sse3 | Ssse3 | Sse41 | Sse42 | F16c | Popcnt | Osxsave | Avx | Fma3 => Leaf1
    case Bmi1 | Bmi2 | Avx2 => Leaf7
    case Lzcnt | Sahf => Ext1
  }

  /** The output word that holds a flag. */
  function OutputOf(f: CpuidFlag): OutputRegister {
    match f
    case Fpu | Cmov | Mmx | Sse | Sse2 => Edx
    case Sse3 | Ssse3 | Sse41 | Sse42 | F16c | Popcnt | Osxsave | Avx | Fma3 => Ecx
    case Bmi1 | Bmi2 | Avx2 => Ebx
    case Lzcnt | Sahf => Ecx
  }

  /** The bit of a flag in its word, as the CPUID feature tables number them. */
  function PositionOf(f: CpuidFlag): (i: bv32)
    ensures i < 32
  {
    match f
    case Fpu => 0
    case Cmov => 15
    case Mmx => 23
    case Sse => 25
    case Sse2 => 26
    case Sse3 => 0
    case Ssse3 => 9
    case Sse41 => 19
    case Sse42 => 20
    case F16c => 29
    case Popcnt => 23
    case Osxsave => 27
    case Avx => 28
    case Fma3 => 12
    case Bmi1 => 3
    case Bmi2 => 8
    case Avx2 => 5
    case Lzcnt => 5
    case Sahf => 0
  }

  /** Whether the probe reads the flags of a leaf: when the leaf is at most the highest
      basic leaf, or for an extended leaf at most the highest extended leaf. */
  predicate LeafQueried(h: Host, leaf: Leaf) {
    if leaf.Number() < 0x8000_0000 then leaf.Number() <= NumIds(h)
    else leaf.Number() <= NumExtIds(h)
  }

  /** `(word & mask) != 0`: the word has a bit of the mask. */
  predicate Meets(word: bv32, mask: bv32) {
    word & mask != 0
  }

  /** The `has_*` flags of the processor information, one per CPUID flag. */
  datatype FeatureFlags = FeatureFlags(
    fpu: bool, cmov: bool, mmx: bool, sse: bool, sse2: bool,
    sse3: bool, ssse3: bool, sse41: bool, sse42: bool, f16c: bool, popcnt: bool,
    osxsave: bool, avx: bool, fma3: bool, bmi1: bool, bmi2: bool, avx2: bool,
    lzcnt: bool, sahf: bool)
  {
    /** The field that holds a flag. */
    function Get(f: CpuidFlag): bool {
      match f
      case Fpu => fpu
      case Cmov => cmov
      case Mmx => mmx
      case Sse => sse
      case Sse2 => sse2
      case Sse3 => sse3
      case Ssse3 => ssse3
      case Sse41 => sse41
      case Sse42 => sse42
      case F16c => f16c
      case Popcnt => popcnt
      case Osxsave => osxsave
      case Avx => avx
      case Fma3 => fma3
      case Bmi1 => bmi1
      case Bmi2 => bmi2
      case Avx2 => avx2
      case Lzcnt => lzcnt
      case Sahf => sahf
    }
  }

  /** What the probe reports for the host: a flag is false unless the leaf that holds
      it is read (leaf 1 when `num_ids > 0`, leaf 7 when `num_ids >= 7`, leaf
      0x80000001 when `num_ext_ids > 0x80000000`), and then whether its mask meets
      its word. */
  function FlagsOf(h: Host): (flags: FeatureFlags)
    ensures forall f: CpuidFlag :: flags.Get(f) ==> LeafQueried(h, LeafOf(f))
  {
    var basic, leaf7, ext := HasBasicLeaf(h), HasLeaf7(h), HasExtendedLeaves(h);
    var edx1, ecx1, ebx7, ecxExt := h.leaf1.edx, h.leaf1.ecx, h.leaf7.ebx, h.ext1.ecx;
    FeatureFlags(
      fpu := basic && Meets(edx1, 0x0000_0001),
      cmov := basic && Meets(edx1, 0x0000_8000),
      mmx := basic && Meets(edx1, 0x0080_0000),
      sse := basic && Meets(edx1, 0x0200_0000),
      sse2 := basic && Meets(edx1, 0x0400_0000),
      sse3 := basic && Meets(ecx1, 0x0000_0001),
      ssse3 := basic && Meets(ecx1, 0x0000_0200),
      sse41 := basic && Meets(ecx1, 0x0008_0000),
      sse42 := basic && Meets(ecx1, 0x0010_0000),
      f16c := basic && Meets(ecx1, 0x2000_0000),
      popcnt := basic && Meets(ecx1, 0x0080_0000),
      osxsave := basic && Meets(ecx1, 0x0800_0000),
      avx := basic && Meets(ecx1, 0x1000_0000),
      fma3 := basic && Meets(ecx1, 0x0000_1000),
      bmi1 := leaf7 && Meets(ebx7, 0x0000_0008),
      bmi2 := leaf7 && Meets(ebx7, 0x0000_0100),
      avx2 := leaf7 && Meets(ebx7, 0x0000_0020),
      lzcnt := ext && Meets(ecxExt, 0x0000_0020),
      sahf := ext && Meets(ecxExt, 0x0000_0001))
  }

  /** Two flag records that agree flag by flag are equal. */
  lemma FlagsByField(a: FeatureFlags, b: FeatureFlags)
    requires a.fpu == b.fpu && a.cmov == b.cmov && a.mmx == b.mmx && a.sse == b.sse && a.sse2 == b.sse2
    requires a.sse3 == b.sse3 && a.ssse3 == b.ssse3 && a.sse41 == b.sse41 && a.sse42 == b.sse42
    requires a.f16c == b.f16c && a.popcnt == b.popcnt && a.osxsave == b.osxsave && a.avx == b.avx
    requires a.fma3 == b.fma3 && a.bmi1 == b.bmi1 && a.bmi2 == b.bmi2 && a.avx2 == b.avx2
    requires a.lzcnt == b.lzcnt && a.sahf == b.sahf
    ensures a == b
  {
  }

  /** Whether the probe reports a flag. */
  predicate HasFlag(h: Host, f: CpuidFlag) {
    FlagsOf(h).Get(f)
  }

  /** Each flag is its bit of the feature tables: a flag is reported exactly when the
      leaf that holds it is at most the highest leaf of its range and its bit is set
      in its word. So leaf-1 flags need `num_ids > 0`, leaf-7 flags `num_ids >= 7`,
      and LZCNT and SAHF `num_ext_ids > 0x80000000`. */
  lemma FlagLayout(h: Host, f: CpuidFlag)
    ensures HasFlag(h, f) <==>
      LeafQueried(h, LeafOf(f)) && IsSet(Word(Query(h, LeafOf(f)), OutputOf(f)), PositionOf(f))
  {

  }

  /** No two flags share a bit of the same word. */
  lemma FlagBitsAreDistinct(f: CpuidFlag, g: CpuidFlag)
    requires f != g && LeafOf(f) == LeafOf(g) && OutputOf(f) == OutputOf(g)
    ensures PositionOf(f) != PositionOf(g)
  {
  }

  // ---------------------------------------------------------------------------
  // Family and model, and the idiom thresholds.

  /** `(family << 8) | model`: the model in the low byte, the family above it (its
      top byte shifted out of the word). */
  function FamilyModelOf(family: bv32, model: bv32): (code: bv32)
    ensures code & 0xff == model & 0xff
    ensures model < 0x100 ==> code >> 8 == family & 0xff_ffff
  {
    (family << 8) | model
  }

  /** For a 4-bit family and an 8-bit model the family-model code keeps both. */
  lemma FamilyModelRoundTrip(family: bv32, model: bv32)
    requires family < 16 && model < 256
    ensures FamilyModelOf(family, model) < 0x1000
    ensures FamilyModelOf(family, model) >> 8 == family
    ensures FamilyModelOf(family, model) & 0xff == model
  {
  }

  /** Family-model codes order by family first, then by model. */
  lemma FamilyModelOrder(f1: bv32, m1: bv32, f2: bv32, m2: bv32)
    requires f1 < 16 && m1 < 256 && f2 < 16 && m2 < 256
    ensures FamilyModelOf(f1, m1) <= FamilyModelOf(f2, m2) <==> f1 < f2 || (f1 == f2 && m1 <= m2)
  {
  }

  /** The family-model code of the probed machine: a 4-bit family and an 8-bit model. */
  function FamilyModel(h: Host): (code: bv32)
    ensures code < 0x1000
  {
    FamilyModelOf(Family(h), Model(h))
  }

  /** The fast zero idiom (PXOR reg, reg) from family-model 0x062A, Sandy Bridge, on.
      Without leaf 1 the code is 0, so the idiom needs leaf 1. */
  predicate ZeroIdiom(h: Host)
    ensures ZeroIdiom(h) ==> HasBasicLeaf(h)
  {
    FamilyModel(h) >= 0x062A
  }

  /** The fast one idiom (PCMPEQ reg, reg) from family-model 0x065E, Skylake, on. */
  predicate OneIdiom(h: Host)
    ensures OneIdiom(h) ==> HasBasicLeaf(h)
  {
    FamilyModel(h) >= 0x065E
  }

  /** The thresholds compare family first: the zero idiom holds exactly for a later
      family or family 6 from model 0x2A on, the one idiom for a later family or
      family 6 from model 0x5E on, and the one idiom implies the zero idiom. */
  lemma IdiomThresholds(h: Host)
    ensures ZeroIdiom(h) <==> Family(h) > 6 || (Family(h) == 6 && Model(h) >= 0x2A)
    ensures OneIdiom(h) <==> Family(h) > 6 || (Family(h) == 6 && Model(h) >= 0x5E)
    ensures OneIdiom(h) ==> ZeroIdiom(h)
  {
    FamilyModelOrder(6, 0x2A, Family(h), Model(h));
    FamilyModelOrder(6, 0x5E, Family(h), Model(h));
  }

  // ---------------------------------------------------------------------------
  // Microarchitecture names.

  /** The microarchitecture of a family-model code, "" when the code is not listed. */
  function Architecture(fm: bv32): (name: string)
    ensures name != "" ==> fm >> 8 == 6 || fm >> 8 == 0xF
  {
    if fm == 0x065E then "Skylake"
    else if fm == 0x063D then "Broadwell"
    else if fm == 0x063C || fm == 0x063F || fm == 0x0645 || fm == 0x0646 then "Haswell"
    else if fm == 0x064A then "Silvermont"
    else if fm == 0x063A || fm == 0x063E then "Ivy Bridge"
    else if fm == 0x062A || fm == 0x062D then "Sandy Bridge"
    else if fm == 0x061E || fm == 0x061A || fm == 0x062E then "Nehalem"
    else if fm == 0x0625 || fm == 0x062C || fm == 0x062F then "Westmere"
    else if fm == 0x0617 || fm == 0x061D then "Penryn"
    else if fm == 0x060F || fm == 0x0616 then "Merom"
    else if fm == 0x0F06 then "Presler"
    else if fm == 0x0F03 || fm == 0x0F04 then "Prescott"
    else if fm == 0x060D then "Dothan"
    else ""
  }

  /** The same table read the other way: each name with the codes that carry it. */
  const Microarchitectures: seq<(string, seq<bv32>)> := [
    ("Skylake", [0x065E]),
    ("Broadwell", [0x063D]),
    ("Haswell", [0x063C, 0x063F, 0x0645, 0x0646]),
    ("Silvermont", [0x064A]),
    ("Ivy Bridge", [0x063A, 0x063E]),
    ("Sandy Bridge", [0x062A, 0x062D]),
    ("Nehalem", [0x061E, 0x061A, 0x062E]),
    ("Westmere", [0x0625, 0x062C, 0x062F]),
    ("Penryn", [0x0617, 0x061D]),
    ("Merom", [0x060F, 0x0616]),
    ("Presler", [0x0F06]),
    ("Prescott", [0x0F03, 0x0F04]),
    ("Dothan", [0x060D])
  ]

  /** A listed code gets the name of its entry. */
  lemma ArchitectureOfListedCode(fm: bv32, i: nat)
    requires i < |Microarchitectures| && fm in Microarchitectures[i].1
    ensures Architecture(fm) == Microarchitectures[i].0
  {
    if i < 7 {
      ListedCodeUpToNehalem(fm, i);
    } else {
      ListedCodeFromWestmere(fm, i);
    }
  }

  lemma ListedCodeUpToNehalem(fm: bv32, i: nat)
    requires i < 7 && fm in Microarchitectures[i].1
    ensures Architecture(fm) == Microarchitectures[i].0
  {
    if i == 0 {} else if i == 1 {} else if i == 2 {} else if i == 3 {}
    else if i == 4 {} else if i == 5 {} else {}
  }

  lemma ListedCodeFromWestmere(fm: bv32, i: nat)
    requires 7 <= i < |Microarchitectures| && fm in Microarchitectures[i].1
    ensures Architecture(fm) == Microarchitectures[i].0
  {
    if i == 7 {} else if i == 8 {} else if i == 9 {} else if i == 10 {}
    else if i == 11 {} else {}
  }

  /** Different entries have different, non-empty names, so a name determines its entry. */
  lemma ArchitectureNamesAreDistinct(i: nat, j: nat)
    requires i < |Microarchitectures| && j < |Microarchitectures|
    ensures Microarchitectures[i].0 != ""
    ensures i != j ==> Microarchitectures[i].0 != Microarchitectures[j].0
  {
  }

  /** A code gets the name "" exactly when no entry of the table lists it. */
  lemma ArchitectureMatchesTable(fm: bv32)
    ensures Architecture(fm) == "" <==>
      forall i :: 0 <= i < |Microarchitectures| ==> fm !in Microarchitectures[i].1
  {
    var t := Microarchitectures;
    forall i | 0 <= i < |t| && fm in t[i].1
      ensures Architecture(fm) != ""
    {
      ArchitectureOfListedCode(fm, i);
      ArchitectureNamesAreDistinct(i, i);
    }
    if Architecture(fm) != "" {
      assert fm in t[0].1 || fm in t[1].1 || fm in t[2].1 || fm in t[3].1 || fm in t[4].1
        || fm in t[5].1 || fm in t[6].1 || fm in t[7].1 || fm in t[8].1 || fm in t[9].1
        || fm in t[10].1 || fm in t[11].1 || fm in t[12].1;
    }
  }

  /** The thresholds work on the code alone: the Westmere codes 0x062C and 0x062F
      and the Nehalem code 0x062E lie above 0x062A and get the zero idiom, and the
      family 0xF codes of Presler and Prescott get both idioms; no code of Merom,
      Penryn or Dothan gets either. */
  lemma IdiomsOfListedCodes()
    ensures 0x062C >= 0x062A as bv32 && 0x062F >= 0x062A as bv32 && 0x062E >= 0x062A as bv32
    ensures Architecture(0x062C) == "Westmere" && Architecture(0x062E) == "Nehalem"
    ensures Architecture(0x0F03) == "Prescott" && 0x0F03 >= 0x065E as bv32
    ensures forall fm: bv32 :: Architecture(fm) in {"Merom", "Penryn", "Dothan"} ==> fm < 0x062A
  {
  }

  // ---------------------------------------------------------------------------
  // Vendor and brand strings.

  /** One byte as a character. */
  function ByteChar(b: bv32): char
    requires b < 256
  {
    (b as int) as char
  }

  /** The bytes of one word in memory order (little-endian). */
  function WordChars(w: bv32): (s: seq<char>)
    ensures |s| == 4
  {
    [ByteChar(w & 0xff), ByteChar((w >> 8) & 0xff), ByteChar((w >> 16) & 0xff), ByteChar(w >> 24)]
  }

  /** The bytes of a sequence of words as they lie in memory. */
  function WordsChars(ws: seq<bv32>): (s: seq<char>)
    ensures |s| == 4 * |ws|
  {
    if ws == [] then [] else WordChars(ws[0]) + WordsChars(ws[1..])
  }

  lemma {:induction false} WordsCharsAppend(a: seq<bv32>, b: seq<bv32>)
    ensures WordsChars(a + b) == WordsChars(a) + WordsChars(b)
  {
    if a == [] {
      assert a + b == b;
    } else {
      assert (a + b)[1..] == a[1..] + b;
      WordsCharsAppend(a[1..], b);
    }
  }

  /** Character `k` of a word sequence is byte `k % 4` of word `k / 4`. */
  lemma {:induction false} WordsCharsAt(ws: seq<bv32>, k: nat)
    requires k < 4 * |ws|
    ensures WordsChars(ws)[k] == WordChars(ws[k / 4])[k % 4]
  {
    assert WordsChars(ws) == WordChars(ws[0]) + WordsChars(ws[1..]);
    if k >= 4 {
      WordsCharsAt(ws[1..], k - 4);
      assert (k - 4) / 4 + 1 == k / 4 && (k - 4) % 4 == k % 4;
      assert ws[1..][(k - 4) / 4] == ws[k / 4];
    }
  }

  /** The 12-character vendor identification: EBX, EDX, ECX of leaf 0. */
  function Vendor(h: Host): (v: seq<char>)
    ensures |v| == 12
  {
    var r := h.leaf0;
    WordsChars([r.ebx, r.edx, r.ecx])
  }

  /** The 48 raw characters of the brand string: leaves 0x80000002..0x80000004. */
  function BrandChars(h: Host): (s: seq<char>)
    ensures |s| == 48
  {
    WordsChars(LeafWords(h.ext2) + LeafWords(h.ext3)
      + LeafWords(h.ext4))
  }

  /** The brand string: compacted when the extended leaves exist, "Unknown" otherwise. */
  function BrandOf(h: Host): (b: seq<char>)
    ensures |b| <= 48
  {
    if HasExtendedLeaves(h) then
      Brand.CompactProperties(BrandChars(h));
      Brand.Compact(BrandChars(h))
    else "Unknown"
  }

  /** Vendor identification words of Intel processors. */
  lemma GenuineIntelWords()
    ensures WordsChars([0x756e_6547, 0x4965_6e69, 0x6c65_746e]) == "GenuineIntel"
  {
    assert WordChars(0x756e_6547) == "Genu";
    assert WordChars(0x4965_6e69) == "ineI";
    assert WordChars(0x6c65_746e) == "ntel";
  }

  /** Vendor identification words of AMD processors. */
  lemma AuthenticAmdWords()
    ensures WordsChars([0x6874_7541, 0x6974_6e65, 0x444d_4163]) == "AuthenticAMD"
  {
    assert WordChars(0x6874_7541) == "Auth";
    assert WordChars(0x6974_6e65) == "enti";
    assert WordChars(0x444d_4163) == "cAMD";
  }

  // ---------------------------------------------------------------------------
  // Cache line size and operating-system support for AVX.

  /** The cache line size in bytes: for Intel the CLFLUSH line size of leaf 1 (EBX
      bits 8..15, in 8-byte units), for AMD the L1 data cache line size of leaf
      0x80000005 (ECX bits 0..7), and 64 for any other vendor. */
  function CacheLineSizeOf(h: Host): (size: bv32)
    ensures size <= 255 * 8
    ensures Vendor(h) == "GenuineIntel" ==> size & 7 == 0 && size >> 3 == (h.leaf1.ebx >> 8) & 0xff
    ensures Vendor(h) == "AuthenticAMD" ==> size == h.ext5.ecx & 0xff
    ensures Vendor(h) != "GenuineIntel" && Vendor(h) != "AuthenticAMD" ==> size == 64
  {
    if Vendor(h) == "GenuineIntel" then ((h.leaf1.ebx >> 8) & 0xff) * 8
    else if Vendor(h) == "AuthenticAMD" then h.ext5.ecx & 0xff
    else 64
  }

  /** The operating system saves the SSE and AVX register state: XCR0 bits 1 and 2
      are both set. */
  function OsHasAvxSupport(xcr0: bv64): (ok: bool)
    ensures ok <==> (xcr0 & 2 != 0 && xcr0 & 4 != 0)
  {
    xcr0 & 0x6 == 0x6
  }

  // ---------------------------------------------------------------------------
  // The probe.

  /** `__cpuid(info + at, leaf)`: stores the four output words of `leaf` at `at`. */
  method Cpuid(info: array<bv32>, at: nat, h: Host, leaf: Leaf)
    requires at + 4 <= info.Length
    modifies info
    ensures info[at] == Query(h, leaf).eax && info[at + 1] == Query(h, leaf).ebx
    ensures info[at + 2] == Query(h, leaf).ecx && info[at + 3] == Query(h, leaf).edx
    ensures forall k :: 0 <= k < info.Length && !(at <= k < at + 4) ==> info[k] == old(info[k])
  {
    var r := Query(h, leaf);
    info[at] := r.eax;
    info[at + 1] := r.ebx;
    info[at + 2] := r.ecx;
    info[at + 3] := r.edx;
  }

  /** Leaf 0: the highest basic leaf in EAX and the vendor in EBX, EDX, ECX, read
      from `cpu_info + 1` after ECX and EDX have been swapped. */
  method ReadVendor(h: Host, cpuInfo: array<bv32>) returns (numIds: bv32, vendor: seq<char>)
    requires cpuInfo.Length == 4
    modifies cpuInfo
    ensures numIds == NumIds(h) && vendor == Vendor(h)
  {
    Cpuid(cpuInfo, 0, h, Leaf0);
    numIds := cpuInfo[0];
    cpuInfo[2], cpuInfo[3] := cpuInfo[3], cpuInfo[2];
    assert cpuInfo[1..4] == [h.leaf0.ebx, h.leaf0.edx, h.leaf0.ecx];
    vendor := WordsChars(cpuInfo[1..4]);
  }

  /** The two idiom flags, from the family-model code of the decoded signature. */
  method ReadIdioms(h: Host, family: bv32, model: bv32) returns (hasZeroIdiom: bool, hasOneIdiom: bool)
    requires family == Family(h) && model == Model(h)
    ensures hasZeroIdiom == ZeroIdiom(h) && hasOneIdiom == OneIdiom(h)
  {
    var familyModel := FamilyModelOf(family, model);
    hasZeroIdiom := familyModel >= 0x062A;
    hasOneIdiom := familyModel >= 0x065E;
  }

  /** Leaf 1, queried once when `num_ids > 0`; the three methods after this one read
      its answer out of `cpu_info`. */
  method QueryLeaf1(h: Host, numIds: bv32, cpuInfo: array<bv32>)
    requires numIds == NumIds(h) && cpuInfo.Length == 4
    modifies cpuInfo
    ensures HasBasicLeaf(h) ==> cpuInfo[..] == LeafWords(h.leaf1)
    ensures !HasBasicLeaf(h) ==> cpuInfo[..] == old(cpuInfo[..])
  {
    if numIds > 0 {
      Cpuid(cpuInfo, 0, h, Leaf1);
    }
  }

  /** The signature fields of leaf 1, all zero when `num_ids == 0`. */
  method ReadSignature(h: Host, numIds: bv32, cpuInfo: array<bv32>)
    returns (stepping: bv32, model: bv32, family: bv32, cpuType: bv32, extModel: bv32, extFamily: bv32)
    requires numIds == NumIds(h) && cpuInfo.Length == 4
    requires HasBasicLeaf(h) ==> cpuInfo[0] == h.leaf1.eax
    ensures stepping == Stepping(h) && model == Model(h) && family == Family(h)
    ensures cpuType == CpuType(h) && extModel == ExtModel(h) && extFamily == ExtFamily(h)
  {
    stepping, model, family, cpuType, extModel, extFamily := 0, 0, 0, 0, 0, 0;
    if numIds > 0 {
      var eax := cpuInfo[0];
      stepping, model, family := SteppingOf(eax), ModelOf(eax), FamilyOf(eax);
      cpuType, extModel, extFamily := TypeOf(eax), ExtModelOf(eax), ExtFamilyOf(eax);
    }
  }

  /** The flags of leaf 1, EDX, all false when `num_ids == 0`. */
  method ReadLeaf1EdxFlags(h: Host, numIds: bv32, cpuInfo: array<bv32>)
    returns (hasFpu: bool, hasCmov: bool, hasMmx: bool, hasSse: bool, hasSse2: bool)
    requires numIds == NumIds(h) && cpuInfo.Length == 4
    requires HasBasicLeaf(h) ==> cpuInfo[3] == h.leaf1.edx
    ensures hasFpu == FlagsOf(h).fpu && hasCmov == FlagsOf(h).cmov && hasMmx == FlagsOf(h).mmx
    ensures hasSse == FlagsOf(h).sse && hasSse2 == FlagsOf(h).sse2
  {
    hasFpu, hasCmov, hasMmx, hasSse, hasSse2 := false, false, false, false, false;
    if numIds > 0 {
      var edx := cpuInfo[3];
      hasFpu := Meets(edx, 0x0000_0001);
      hasCmov := Meets(edx, 0x0000_8000);
      hasMmx := Meets(edx, 0x0080_0000);
      hasSse := Meets(edx, 0x0200_0000);
      hasSse2 := Meets(edx, 0x0400_0000);
    }
  }

  /** The flags of leaf 1, ECX, all false when `num_ids == 0`. */
  method ReadLeaf1EcxFlags(h: Host, numIds: bv32, cpuInfo: array<bv32>)
    returns (hasSse3: bool, hasSsse3: bool, hasSse41: bool, hasSse42: bool, hasF16c: bool,
             hasPopcnt: bool, hasOsxsave: bool, hasAvx: bool, hasFma3: bool)
    requires numIds == NumIds(h) && cpuInfo.Length == 4
    requires HasBasicLeaf(h) ==> cpuInfo[2] == h.leaf1.ecx
    ensures hasSse3 == FlagsOf(h).sse3 && hasSsse3 == FlagsOf(h).ssse3
    ensures hasSse41 == FlagsOf(h).sse41 && hasSse42 == FlagsOf(h).sse42
    ensures hasF16c == FlagsOf(h).f16c && hasPopcnt == FlagsOf(h).popcnt
    ensures hasOsxsave == FlagsOf(h).osxsave && hasAvx == FlagsOf(h).avx && hasFma3 == FlagsOf(h).fma3
  {
    hasSse3, hasSsse3, hasSse41, hasSse42, hasF16c := false, false, false, false, false;
    hasPopcnt, hasOsxsave, hasAvx, hasFma3 := false, false, false, false;
    if numIds > 0 {
      var ecx := cpuInfo[2];
      hasSse3 := Meets(ecx, 0x0000_0001);
      hasSsse3 := Meets(ecx, 0x0000_0200);
      hasSse41 := Meets(ecx, 0x0008_0000);
      hasSse42 := Meets(ecx, 0x0010_0000);
      hasF16c := Meets(ecx, 0x2000_0000);
      hasPopcnt := Meets(ecx, 0x0080_0000);
      hasOsxsave := Meets(ecx, 0x0800_0000);
      hasAvx := Meets(ecx, 0x1000_0000);
      hasFma3 := Meets(ecx, 0x0000_1000);
    }
  }

  /** The flags of leaf 7, EBX, all false when `num_ids < 7`. */
  method ReadLeaf7Flags(h: Host, numIds: bv32, cpuInfo: array<bv32>)
    returns (hasBmi1: bool, hasBmi2: bool, hasAvx2: bool)
    requires numIds == NumIds(h) && cpuInfo.Length == 4
    modifies cpuInfo
    ensures hasBmi1 == FlagsOf(h).bmi1 && hasBmi2 == FlagsOf(h).bmi2 && hasAvx2 == FlagsOf(h).avx2
  {
    hasBmi1, hasBmi2, hasAvx2 := false, false, false;
    if numIds >= 7 {
      Cpuid(cpuInfo, 0, h, Leaf7);
      var ebx := cpuInfo[1];
      hasBmi1 := Meets(ebx, 0x0000_0008);
      hasBmi2 := Meets(ebx, 0x0000_0100);
      hasAvx2 := Meets(ebx, 0x0000_0020);
    }
  }

  /** The flags of leaf 0x80000001, ECX, both false without extended leaves. */
  method ReadExtendedFlags(h: Host, numExtIds: bv32, cpuInfo: array<bv32>)
    returns (hasLzcnt: bool, hasSahf: bool)
    requires numExtIds == NumExtIds(h) && cpuInfo.Length == 4
    modifies cpuInfo
    ensures hasLzcnt == FlagsOf(h).lzcnt && hasSahf == FlagsOf(h).sahf
  {
    hasLzcnt, hasSahf := false, false;
    if numExtIds > 0x8000_0000 {
      Cpuid(cpuInfo, 0, h, Ext1);
      hasLzcnt := Meets(cpuInfo[2], 0x0000_0020);
      hasSahf := Meets(cpuInfo[2], 0x0000_0001);
    }
  }

  /** The brand buffer: "Unknown" as the constructor first stores it, replaced by
      the compacted brand string when the extended leaves exist. */
  method ReadBrand(h: Host, numExtIds: bv32) returns (buffer: array<char>, length: nat)
    requires numExtIds == NumExtIds(h)
    ensures fresh(buffer) && buffer.Length == 49
    ensures length < 49 && buffer[length] == '\0' && buffer[..length] == BrandOf(h)
  {
    buffer := new char[49](i => if i < 7 then "Unknown"[i] else '\0');
    length := 7;
    assert buffer[..length] == "Unknown";
    if numExtIds > 0x8000_0000 {
      var raw := ReadBrandChars(h);
      length := Brand.CompactBrand(raw, buffer);
    }
  }

  /** `int brand[12]` filled by leaves 0x80000002..0x80000004, read as characters. */
  method ReadBrandChars(h: Host) returns (raw: seq<char>)
    ensures raw == BrandChars(h)
  {
    var brandWords := new bv32[12];
    Cpuid(brandWords, 0, h, Ext2);
    Cpuid(brandWords, 4, h, Ext3);
    Cpuid(brandWords, 8, h, Ext4);
    assert brandWords[..] == LeafWords(h.ext2) + LeafWords(h.ext3) + LeafWords(h.ext4);
    raw := WordsChars(brandWords[..]);
  }

  /** The cache line size the constructor stores, by vendor. */
  method ReadCacheLineSize(h: Host, vendor: seq<char>, cpuInfo: array<bv32>) returns (size: bv32)
    requires vendor == Vendor(h) && cpuInfo.Length == 4
    modifies cpuInfo
    ensures size == CacheLineSizeOf(h)
  {
    if vendor == "GenuineIntel" {
      Cpuid(cpuInfo, 0, h, Leaf1);
      size := ((cpuInfo[1] >> 8) & 0xff) * 8;
    } else if vendor == "AuthenticAMD" {
      Cpuid(cpuInfo, 0, h, Ext5);
      size := cpuInfo[2] & 0xff;
    } else {
      size := 64;
    }
  }

  /** The processor information as the probe decodes it from the host. Every field is
      set once, by the constructor. */
  class ProcessorInformation {
    const vendor: seq<char>
    /** The `brand_` buffer, a NUL-terminated string of at most 48 characters. */
    const brandBuffer: array<char>
    /** Index of the brand string's terminating NUL in `brandBuffer`. */
    const brandLength: nat
    const stepping: bv32
    const model: bv32
    const extModel: bv32
    const family: bv32
    const extFamily: bv32
    const cpuType: bv32
    const cacheLineSize: bv32
    /** The `has_*` flags read from leaves 1, 7 and 0x80000001. */
    const flags: FeatureFlags
    const hasZeroIdiom: bool
    const hasOneIdiom: bool

    /** The brand string: the buffer up to its terminator. */
    function BrandString(): seq<char>
      reads brandBuffer
      requires brandLength <= brandBuffer.Length
    {
      brandBuffer[..brandLength]
    }

    function FamilyModel(): (code: bv32)
      ensures family < 16 && model < 256 ==> code >> 8 == family && code & 0xff == model
    {
      FamilyModelOf(family, model)
    }

    /** The microarchitecture name: "" exactly when the name table lists no entry
        for the family-model code. */
    function ArchitectureName(): (name: string)
      ensures name == "" <==>
        forall i :: 0 <= i < |Microarchitectures| ==> FamilyModel() !in Microarchitectures[i].1
    {
      ArchitectureMatchesTable(FamilyModel());
      Architecture(FamilyModel())
    }

    /** Every field is what the decoding functions say of the host. */
    ghost predicate Decodes(h: Host)
      reads brandBuffer
    {
      && vendor == Vendor(h)
      && brandLength < brandBuffer.Length == 49 && brandBuffer[brandLength] == '\0'
      && BrandString() == BrandOf(h)
      && stepping == Stepping(h) && model == Model(h) && family == Family(h)
      && cpuType == CpuType(h) && extModel == ExtModel(h) && extFamily == ExtFamily(h)
      && flags == FlagsOf(h)
      && hasZeroIdiom == ZeroIdiom(h) && hasOneIdiom == OneIdiom(h)
      && cacheLineSize == CacheLineSizeOf(h)
    }

    /** Queries the host leaf by leaf, in the order of the C++ `ProcessorInformation` constructor, and decodes each answer. */
    constructor (h: Host)
      ensures fresh(brandBuffer)
      ensures Decodes(h)
    {
      var cpuInfo := new bv32[4];

      var numIds, vendor := ReadVendor(h, cpuInfo);
      QueryLeaf1(h, numIds, cpuInfo);
      var stepping, model, family, cpuType, extModel, extFamily := ReadSignature(h, numIds, cpuInfo);
      var hasFpu, hasCmov, hasMmx, hasSse, hasSse2 := ReadLeaf1EdxFlags(h, numIds, cpuInfo);
      var hasSse3, hasSsse3, hasSse41, hasSse42, hasF16c, hasPopcnt, hasOsxsave, hasAvx, hasFma3 :=
        ReadLeaf1EcxFlags(h, numIds, cpuInfo);
      var hasBmi1, hasBmi2, hasAvx2 := ReadLeaf7Flags(h, numIds, cpuInfo);

      Cpuid(cpuInfo, 0, h, Ext0);
      var numExtIds := cpuInfo[0];
      var brandBuffer, brandLength := ReadBrand(h, numExtIds);
      var hasLzcnt, hasSahf := ReadExtendedFlags(h, numExtIds, cpuInfo);
      var flags := FeatureFlags(hasFpu, hasCmov, hasMmx, hasSse, hasSse2, hasSse3, hasSsse3, hasSse41,
        hasSse42, hasF16c, hasPopcnt, hasOsxsave, hasAvx, hasFma3, hasBmi1, hasBmi2, hasAvx2,
        hasLzcnt, hasSahf);
      FlagsByField(flags, FlagsOf(h));

      var hasZeroIdiom, hasOneIdiom := ReadIdioms(h, family, model);

      var cacheLineSize := ReadCacheLineSize(h, vendor, cpuInfo);

      this.vendor, this.brandBuffer, this.brandLength := vendor, brandBuffer, brandLength;
      this.stepping, this.model, this.family := stepping, model, family;
      this.cpuType, this.extModel, this.extFamily := cpuType, extModel, extFamily;
      this.flags := flags;
      this.hasZeroIdiom, this.hasOneIdiom := hasZeroIdiom, hasOneIdiom;
      this.cacheLineSize := cacheLineSize;
    }
  }
}
