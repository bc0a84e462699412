/** The feature cache of the code generator: the CPU features it may use, probed once
    from the processor information and then switched on and off one at a time, with
    the cache line size and whether AVX code must clear the upper vector halves
    before SSE code runs. */
module Cpu {
  import opened Bits
  import opened ProcessorInfo

  const NumberOfCpuFeatures: bv32 := 18

  /** The features the code generator can use, in the order of their enumerators. */
  datatype CpuFeature =
    | MMX | SSE | SSE2 | SSE3 | SSSE3 | SSE4_1 | SSE4_2 | F16C | AVX | AVX2 | FMA3
    | SAHF | BMI1 | BMI2 | LZCNT | POPCNT | ZEROIDIOM | ONEIDIOM
  {
    /** The enumerator value, the position of the feature's bit `1u << f` in the mask.
        It is below `NUMBER_OF_CPU_FEATURES`, so the bit fits a 32-bit word. */
    function Code(): (code: bv32)
      ensures code < NumberOfCpuFeatures
    {
      match this
      case MMX => 0
      case SSE => 1
      case SSE2 => 2
      case SSE3 => 3
      case SSSE3 => 4
      case SSE4_1 => 5
      case SSE4_2 => 6
      case F16C => 7
      case AVX => 8
      case AVX2 => 9
      case FMA3 => 10
      case SAHF => 11
      case BMI1 => 12
      case BMI2 => 13
      case LZCNT => 14
      case POPCNT => 15
      case ZEROIDIOM => 16
      case ONEIDIOM => 17
    }
  }

  /** Distinct features have distinct bits. */
  lemma CodesAreDistinct(f: CpuFeature, g: CpuFeature)
    ensures f.Code() == g.Code() <==> f == g
  {
  }

  /** The bits of all enumerated features, 0..17. */
  const AllFeatures: bv32 := 0x3_FFFF

  /** Every feature bit is one of the enumerated features' bits. */
  lemma BitIsAFeatureBit(f: CpuFeature)
    ensures Mask(f.Code()) & !AllFeatures == 0
  {
  }

  /** What the initialisation reads from the processor information: its flags,
      whether the operating system saves the AVX state, and the two idiom flags. */
  datatype Capabilities = Capabilities(flags: FeatureFlags, osAvx: bool, zeroIdiom: bool, oneIdiom: bool)

  /** The capabilities of a host. */
  function CapabilitiesOf(h: Host): Capabilities {
    Capabilities(FlagsOf(h), OsHasAvxSupport(h.xcr0), ZeroIdiom(h), OneIdiom(h))
  }

  /** OSXSAVE is reported and the operating system saves the AVX state: the gate of the
      AVX, FMA3 and AVX2 bits. The AVX flag of leaf 1 itself is not consulted. */
  predicate AvxEnabled(c: Capabilities) {
    c.flags.osxsave && c.osAvx
  }

  /** Which features the initialisation turns on. SSE4_2 never is. */
  predicate Supported(c: Capabilities, f: CpuFeature)
    ensures Supported(c, f) ==> f != SSE4_2
    ensures (f == AVX || f == FMA3 || f == AVX2) && Supported(c, f) ==> AvxEnabled(c)
  {
    match f
    case MMX => c.flags.mmx
    case SSE => c.flags.sse
    case SSE2 => c.flags.sse2
    case SSE3 => c.flags.sse3
    case SSSE3 => c.flags.ssse3
    case SSE4_1 => c.flags.sse41
    case SSE4_2 => false
    case F16C => c.flags.f16c
    case AVX => AvxEnabled(c)
    case AVX2 => AvxEnabled(c) && c.flags.avx2
    case FMA3 => AvxEnabled(c) && c.flags.fma3
    case SAHF => c.flags.sahf
    case BMI1 => c.flags.bmi1
    case BMI2 => c.flags.bmi2
    case LZCNT => c.flags.lzcnt
    case POPCNT => c.flags.popcnt
    case ZEROIDIOM => c.zeroIdiom
    case ONEIDIOM => c.oneIdiom
  }

  /** The number of features the initialisation tests. */
  const NumSteps := 17

  /** The feature the initialisation tests at step `k`, in the order of `CPU::Initialize`. */
  function CheckedAt(k: nat): CpuFeature
    requires k < NumSteps
  {
    if k == 0 then MMX
    else if k == 1 then SSE
    else if k == 2 then SSE2
    else if k == 3 then SSE3
    else if k == 4 then SSSE3
    else if k == 5 then SSE4_1
    else if k == 6 then F16C
    else if k == 7 then SAHF
    else if k == 8 then AVX
    else if k == 9 then FMA3
    else if k == 10 then AVX2
    else if k == 11 then BMI1
    else if k == 12 then BMI2
    else if k == 13 then LZCNT
    else if k == 14 then POPCNT
    else if k == 15 then ZEROIDIOM
    else ONEIDIOM
  }

  /** The step at which a feature is checked; `NumSteps` for SSE4_2, which is not. */
  function StepOf(f: CpuFeature): (k: nat)
    ensures k <= NumSteps
  {
    match f
    case MMX => 0
    case SSE => 1
    case SSE2 => 2
    case SSE3 => 3
    case SSSE3 => 4
    case SSE4_1 => 5
    case SSE4_2 => NumSteps
    case F16C => 6
    case AVX => 8
    case AVX2 => 10
    case FMA3 => 9
    case SAHF => 7
    case BMI1 => 11
    case BMI2 => 12
    case LZCNT => 13
    case POPCNT => 14
    case ZEROIDIOM => 15
    case ONEIDIOM => 16
  }

  lemma StepOfCheckedAt(k: nat)
    requires k < NumSteps
    ensures StepOf(CheckedAt(k)) == k
  {
  }

  /** Every feature but SSE4_2 is checked exactly once. */
  lemma CheckedAtStepOf(f: CpuFeature)
    ensures StepOf(f) < NumSteps ==> CheckedAt(StepOf(f)) == f
    ensures StepOf(f) == NumSteps <==> f == SSE4_2
  {
  }

  /** `mask | (1u << f)`: the mask with the feature's bit turned on. */
  function WithFeature(mask: bv32, f: CpuFeature): bv32 {
    mask | Mask(f.Code())
  }

  /** `mask & ~(1u << f)`: the mask with the feature's bit turned off. */
  function WithoutFeature(mask: bv32, f: CpuFeature): bv32 {
    mask & !Mask(f.Code())
  }

  /** `if (on) w |= 1u << f`: one test of the initialisation. */
  function AddIf(w: bv32, on: bool, f: CpuFeature): bv32 {
    if on then WithFeature(w, f) else w
  }

  /** Bit positions of features obey `SetBitAt`. */
  lemma FeatureBitSet(w: bv32, g: CpuFeature, f: CpuFeature)
    ensures IsSet(w | Mask(g.Code()), f.Code()) == (g.Code() == f.Code() || IsSet(w, f.Code()))
  {
    SetBitAt(w, g.Code(), f.Code());
  }

  /** Bit positions of features obey `ClearBitAt`. */
  lemma FeatureBitCleared(w: bv32, g: CpuFeature, f: CpuFeature)
    ensures IsSet(w & !Mask(g.Code()), f.Code()) == (g.Code() != f.Code() && IsSet(w, f.Code()))
  {
    ClearBitAt(w, g.Code(), f.Code());
  }

  /** One test turns on the bit of `g` if `on` and keeps every other bit. */
  lemma AddIfBits(w: bv32, on: bool, g: CpuFeature, f: CpuFeature)
    ensures IsSet(AddIf(w, on, g), f.Code()) <==> IsSet(w, f.Code()) || (on && g == f)
  {
    if on {
      FeatureBitSet(w, g, f);
      CodesAreDistinct(f, g);
    }
  }

  /** One test adds no bit outside the enumerated features. */
  lemma AddIfInRange(w: bv32, on: bool, g: CpuFeature)
    requires w & !AllFeatures == 0
    ensures AddIf(w, on, g) & !AllFeatures == 0
  {
    if on {
      BitIsAFeatureBit(g);
    }
  }

  /** `acc` after the first `n` tests of the initialisation. */
  function AddFeatureBits(acc: bv32, c: Capabilities, n: nat): (mask: bv32)
    requires n <= NumSteps
    ensures mask & acc == acc
  {
    if n == 0 then acc
    else AddIf(AddFeatureBits(acc, c, n - 1), Supported(c, CheckedAt(n - 1)), CheckedAt(n - 1))
  }

  /** The mask the initialisation builds from an empty mask. */
  function FeatureMask(c: Capabilities): bv32 {
    AddFeatureBits(0, c, NumSteps)
  }

  /** After `n` tests a feature's bit is on exactly when it was on before, or it is
      supported and among the features checked so far. */
  lemma {:induction false} AddFeatureBitsHas(acc: bv32, c: Capabilities, n: nat, f: CpuFeature)
    requires n <= NumSteps
    ensures IsSet(AddFeatureBits(acc, c, n), f.Code()) <==> IsSet(acc, f.Code()) || (Supported(c, f) && StepOf(f) < n)
  {
    if n > 0 {
      AddFeatureBitsHas(acc, c, n - 1, f);
      AddIfBits(AddFeatureBits(acc, c, n - 1), Supported(c, CheckedAt(n - 1)), CheckedAt(n - 1), f);
      StepOfCheckedAt(n - 1);
      CheckedAtStepOf(f);
    }
  }

  /** The tests add no bit outside the enumerated features. */
  lemma {:induction false} AddFeatureBitsInRange(acc: bv32, c: Capabilities, n: nat)
    requires n <= NumSteps
    requires acc & !AllFeatures == 0
    ensures AddFeatureBits(acc, c, n) & !AllFeatures == 0
  {
    if n > 0 {
      AddFeatureBitsInRange(acc, c, n - 1);
      AddIfInRange(AddFeatureBits(acc, c, n - 1), Supported(c, CheckedAt(n - 1)), CheckedAt(n - 1));
    }
  }

  /** The probed mask holds exactly the supported features' bits, and no other bit. */
  lemma FeatureMaskBits(c: Capabilities, f: CpuFeature)
    ensures IsSet(FeatureMask(c), f.Code()) <==> Supported(c, f)
    ensures FeatureMask(c) & !AllFeatures == 0
  {
    AddFeatureBitsHas(0, c, NumSteps, f);
    CheckedAtStepOf(f);
    AddFeatureBitsInRange(0, c, NumSteps);
  }

  /** AVX is probed exactly when the processor reports OSXSAVE and the operating
      system saves the AVX state; FMA3 and AVX2 only come with AVX; SSE4_2 never. */
  lemma AvxGate(c: Capabilities)
    ensures IsSet(FeatureMask(c), AVX.Code()) <==> c.flags.osxsave && c.osAvx
    ensures IsSet(FeatureMask(c), FMA3.Code()) <==> IsSet(FeatureMask(c), AVX.Code()) && c.flags.fma3
    ensures IsSet(FeatureMask(c), AVX2.Code()) <==> IsSet(FeatureMask(c), AVX.Code()) && c.flags.avx2
    ensures !IsSet(FeatureMask(c), SSE4_2.Code())
  {
    FeatureMaskBits(c, AVX);
    FeatureMaskBits(c, FMA3);
    FeatureMaskBits(c, AVX2);
    FeatureMaskBits(c, SSE4_2);
  }

  /** A test of the initialisation, applied to the mask the earlier tests built, is the
      next step of `AddFeatureBits`. */
  lemma NextStep(acc: bv32, c: Capabilities, k: nat, w: bv32)
    requires k < NumSteps && w == AddFeatureBits(acc, c, k)
    ensures AddIf(w, Supported(c, CheckedAt(k)), CheckedAt(k)) == AddFeatureBits(acc, c, k + 1)
  {
  }

  /** Without the AVX gate the three AVX tests change nothing. */
  lemma AvxStepsSkipped(acc: bv32, c: Capabilities)
    requires !AvxEnabled(c)
    ensures AddFeatureBits(acc, c, 11) == AddFeatureBits(acc, c, 8)
  {
    assert AddFeatureBits(acc, c, 9) == AddFeatureBits(acc, c, 8);
    assert AddFeatureBits(acc, c, 10) == AddFeatureBits(acc, c, 8);
  }

  /** The tests of the SSE family, F16C and SAHF. */
  lemma SimdTests(c: Capabilities)
    ensures CheckedAt(0) == MMX && Supported(c, MMX) == c.flags.mmx
    ensures CheckedAt(1) == SSE && Supported(c, SSE) == c.flags.sse
    ensures CheckedAt(2) == SSE2 && Supported(c, SSE2) == c.flags.sse2
    ensures CheckedAt(3) == SSE3 && Supported(c, SSE3) == c.flags.sse3
    ensures CheckedAt(4) == SSSE3 && Supported(c, SSSE3) == c.flags.ssse3
    ensures CheckedAt(5) == SSE4_1 && Supported(c, SSE4_1) == c.flags.sse41
    ensures CheckedAt(6) == F16C && Supported(c, F16C) == c.flags.f16c
    ensures CheckedAt(7) == SAHF && Supported(c, SAHF) == c.flags.sahf
  {
  }

  /** The tests behind the AVX gate. */
  lemma AvxTests(c: Capabilities)
    ensures CheckedAt(8) == AVX && Supported(c, AVX) == AvxEnabled(c)
    ensures CheckedAt(9) == FMA3 && Supported(c, FMA3) == (AvxEnabled(c) && c.flags.fma3)
    ensures CheckedAt(10) == AVX2 && Supported(c, AVX2) == (AvxEnabled(c) && c.flags.avx2)
  {
  }

  /** The tests of the general-register instructions and of the idioms. */
  lemma ScalarTests(c: Capabilities)
    ensures CheckedAt(11) == BMI1 && Supported(c, BMI1) == c.flags.bmi1
    ensures CheckedAt(12) == BMI2 && Supported(c, BMI2) == c.flags.bmi2
    ensures CheckedAt(13) == LZCNT && Supported(c, LZCNT) == c.flags.lzcnt
    ensures CheckedAt(14) == POPCNT && Supported(c, POPCNT) == c.flags.popcnt
    ensures CheckedAt(15) == ZEROIDIOM && Supported(c, ZEROIDIOM) == c.zeroIdiom
    ensures CheckedAt(16) == ONEIDIOM && Supported(c, ONEIDIOM) == c.oneIdiom
  {
  }

  /** Whether AVX code must issue VZEROUPPER before SSE code: the processor has AVX and
      the code generator itself is not compiled for AVX. */
  predicate NeedsVZeroUpper(h: Host, builtForAvx: bool)
    ensures NeedsVZeroUpper(h, builtForAvx) ==> !builtForAvx && HasBasicLeaf(h)
  {
    FlagsOf(h).avx && !builtForAvx
  }

  /** The body of the initialisation that builds the mask: each supported feature's
      bit is turned on, test by test, in the order of `CPU::Initialize`. */
  method AddSupportedFeatures(acc: bv32, c: Capabilities) returns (mask: bv32)
    ensures mask == AddFeatureBits(acc, c, NumSteps)
  {
    SimdTests(c);
    AvxTests(c);
    ScalarTests(c);
    var flags := c.flags;
    mask := acc;
    NextStep(acc, c, 0, mask);
    mask := AddIf(mask, flags.mmx, MMX);
    NextStep(acc, c, 1, mask);
    mask := AddIf(mask, flags.sse, SSE);
    NextStep(acc, c, 2, mask);
    mask := AddIf(mask, flags.sse2, SSE2);
    NextStep(acc, c, 3, mask);
    mask := AddIf(mask, flags.sse3, SSE3);
    NextStep(acc, c, 4, mask);
    mask := AddIf(mask, flags.ssse3, SSSE3);
    NextStep(acc, c, 5, mask);
    mask := AddIf(mask, flags.sse41, SSE4_1);
    NextStep(acc, c, 6, mask);
    mask := AddIf(mask, flags.f16c, F16C);
    NextStep(acc, c, 7, mask);
    mask := AddIf(mask, flags.sahf, SAHF);

    if flags.osxsave && c.osAvx {
      NextStep(acc, c, 8, mask);
      mask := WithFeature(mask, AVX);
      NextStep(acc, c, 9, mask);
      mask := AddIf(mask, flags.fma3, FMA3);
      NextStep(acc, c, 10, mask);
      mask := AddIf(mask, flags.avx2, AVX2);
    } else {
      AvxStepsSkipped(acc, c);
    }

    NextStep(acc, c, 11, mask);
    mask := AddIf(mask, flags.bmi1, BMI1);
    NextStep(acc, c, 12, mask);
    mask := AddIf(mask, flags.bmi2, BMI2);
    NextStep(acc, c, 13, mask);
    mask := AddIf(mask, flags.lzcnt, LZCNT);
    NextStep(acc, c, 14, mask);
    mask := AddIf(mask, flags.popcnt, POPCNT);

    NextStep(acc, c, 15, mask);
    mask := AddIf(mask, c.zeroIdiom, ZEROIDIOM);
    NextStep(acc, c, 16, mask);
    mask := AddIf(mask, c.oneIdiom, ONEIDIOM);
  }

  /** The feature cache. The C++ class keeps these as static fields; here one object
      stands for them, and the host and the build flag are fixed when it is made. */
  class CPU {
    /** The machine the probe queries. */
    const host: Host
    /** Whether the code generator is compiled with AVX enabled. */
    const builtForAvx: bool
    var initialized: bool
    var features: bv32
    var cacheLineSize: bv32
    var vzeroNeeded: bool

    /** Before the probe everything has its static initial value; after it the cache
        line size and `vzero_needed` are the probed values. */
    predicate Valid()
      reads this
    {
      && (!initialized ==> features == 0 && cacheLineSize == 0 && !vzeroNeeded)
      && (initialized ==> cacheLineSize == CacheLineSizeOf(host) && vzeroNeeded == NeedsVZeroUpper(host, builtForAvx))
    }

    /** The mask as it is once the probe has run: the current one after the probe,
        the probed one before it. */
    function Probed(): bv32
      reads this
    {
      if initialized then features else FeatureMask(CapabilitiesOf(host))
    }

    constructor (host: Host, builtForAvx: bool)
      ensures Valid()
      ensures this.host == host && this.builtForAvx == builtForAvx
      ensures !initialized && features == 0
    {
      this.host := host;
      this.builtForAvx := builtForAvx;
      initialized := false;
      features := 0;
      cacheLineSize := 0;
      vzeroNeeded := false;
    }

    /** Reads the processor information and turns on the bit of each supported
        feature; sets the cache line size and `vzero_needed`. */
    method Initialize()
      modifies this
      ensures features == AddFeatureBits(old(features), CapabilitiesOf(host), NumSteps)
      ensures cacheLineSize == CacheLineSizeOf(host)
      ensures vzeroNeeded == NeedsVZeroUpper(host, builtForAvx)
      ensures initialized == old(initialized)
    {
      var cpu := new ProcessorInformation(host);
      var caps := Capabilities(cpu.flags, OsHasAvxSupport(host.xcr0), cpu.hasZeroIdiom, cpu.hasOneIdiom);
      features := AddSupportedFeatures(features, caps);

      cacheLineSize := cpu.cacheLineSize;

      vzeroNeeded := false;
      if cpu.flags.avx {
        if !builtForAvx {
          vzeroNeeded := true;
        }
      }
    }

    /** Probes the processor, once. */
    method Probe()
      requires Valid()
      modifies this
      ensures Valid() && initialized
      ensures features == old(Probed())
      ensures old(initialized) ==> features == old(features) && cacheLineSize == old(cacheLineSize)
      ensures old(initialized) ==> vzeroNeeded == old(vzeroNeeded)
    {
      if initialized {
        return;
      }
      Initialize();
      initialized := true;
    }

    /** The mask of enabled features. */
    method SupportedFeatures() returns (mask: bv32)
      requires Valid()
      modifies this
      ensures Valid() && initialized
      ensures mask == features == old(Probed())
    {
      Probe();
      mask := features;
    }

    /** Whether a feature is enabled. */
    method Enabled(f: CpuFeature) returns (enabled: bool)
      requires Valid()
      modifies this
      ensures Valid() && initialized
      ensures features == old(Probed())
      ensures enabled == IsSet(features, f.Code())
    {
      Probe();
      enabled := features & Mask(f.Code()) != 0;
    }

    /** Turns a feature on and leaves every other bit as the probe left it. */
    method Enable(f: CpuFeature)
      requires Valid()
      modifies this
      ensures Valid() && initialized
      ensures features == WithFeature(old(Probed()), f)
    {
      Probe();
      features := WithFeature(features, f);
    }

    /** Turns a feature off and leaves every other bit as the probe left it. */
    method Disable(f: CpuFeature)
      requires Valid()
      modifies this
      ensures Valid() && initialized
      ensures features == WithoutFeature(old(Probed()), f)
    {
      Probe();
      features := WithoutFeature(features, f);
    }

    /** The cache line size of the probed processor. */
    method CacheLineSize() returns (size: bv32)
      requires Valid()
      modifies this
      ensures Valid() && initialized
      ensures features == old(Probed())
      ensures size == CacheLineSizeOf(host)
    {
      Probe();
      size := cacheLineSize;
    }

    /** Whether AVX code must issue VZEROUPPER before SSE code runs. */
    method VZeroNeeded() returns (needed: bool)
      requires Valid()
      modifies this
      ensures Valid() && initialized
      ensures features == old(Probed())
      ensures needed == NeedsVZeroUpper(host, builtForAvx)
    {
      Probe();
      needed := vzeroNeeded;
    }
  }

  /** After `Enable(f)` the feature is enabled and every other feature `g` is as the
      probe left it. */
  lemma EnableChangesOnlyThatBit(before: bv32, f: CpuFeature, g: CpuFeature)
    ensures IsSet(WithFeature(before, f), g.Code()) == (f == g || IsSet(before, g.Code()))
  {
    FeatureBitSet(before, f, g);
    CodesAreDistinct(f, g);
  }

  /** After `Disable(f)` the feature is disabled and every other feature `g` is as the
      probe left it. */
  lemma DisableChangesOnlyThatBit(before: bv32, f: CpuFeature, g: CpuFeature)
    ensures IsSet(WithoutFeature(before, f), g.Code()) == (f != g && IsSet(before, g.Code()))
  {
    FeatureBitCleared(before, f, g);
    CodesAreDistinct(f, g);
  }

  /** A client of the cache: the first query probes, a second query returns the same
      mask, and after enabling a feature it is enabled, after disabling it it is not. */
  method ProbeScenario(host: Host, builtForAvx: bool, f: CpuFeature)
    returns (first: bv32, second: bv32, enabled: bool, disabled: bool)
    ensures first == second == FeatureMask(CapabilitiesOf(host))
    ensures enabled && !disabled
  {
    var cpu := new CPU(host, builtForAvx);
    first := cpu.SupportedFeatures();
    second := cpu.SupportedFeatures();
    cpu.Enable(f);
    EnableChangesOnlyThatBit(first, f, f);
    enabled := cpu.Enabled(f);
    cpu.Disable(f);
    DisableChangesOnlyThatBit(WithFeature(first, f), f, f);
    disabled := cpu.Enabled(f);
  }
}
