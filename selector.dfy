/**
 * The outer `cfg_if!` of src/imp.rs: which of the five `tid_impl` bodies a
 * target compiles, written once as the cfg tree of the source and once as the
 * decision order (single-threaded, then register read on the allow list, then
 * `pthread_self` on unix, then `GetCurrentThreadId` on windows, then
 * `thread_local!`), and proved to agree.
 */
module Selector {
  import opened TargetCfg

  /** The five bodies of `tid_impl`. */
  datatype Strategy =
    | StaticByte          // address of a process-wide static byte
    | RegisterRead        // inline asm read of the thread pointer
    | PthreadSelf         // `pthread_self()`, normalised
    | GetCurrentThreadId  // `GetCurrentThreadId()`, widened
    | ThreadLocal         // address of a `thread_local!` byte

  // ---------------------------------------------------------------------------
  // The cfg conditions as written in the source.

  /** `any(thrid_unsafely_assume_target_is_single_threaded, all(wasm, not(atomics)))` */
  const SingleThreadedCfg: Cfg :=
    Any([Is(SingleThreadedFlag),
         All([Is(TargetFamily(WasmFamily)), Not(Is(AtomicsFeature))])])

  /** The "no asm cases": miri, `force_no_asm`, an odd pointer width, or a width/arch mismatch. */
  const NoAsmCfg: Cfg :=
    Any([Is(Miri),
         Is(ForceNoAsmFeature),
         Not(Any([Is(PointerWidth(32)), Is(PointerWidth(64))])),
         Any([All([Not(Is(PointerWidth(64))), Any([Is(TargetArch(X86_64)), Is(TargetArch(Aarch64))])]),
              All([Not(Is(PointerWidth(32))), Any([Is(TargetArch(X86)), Is(TargetArch(Arm))])])])])

  /** The allow list of (OS, arch) pairs the register read is used on, one `all(...)` at a time. */
  const MacosFast: Cfg := All([Is(TargetOs(Macos)), Any([Is(TargetArch(X86_64)), Is(TargetArch(Aarch64))])])
  const WindowsFast: Cfg := All([Win, Any([Is(TargetArch(X86)), Is(TargetArch(X86_64)), Is(TargetArch(Aarch64))])])
  const LinuxFast: Cfg :=
    All([Is(TargetOs(Linux)),
         Any([Is(TargetArch(X86)), Is(TargetArch(X86_64)), Is(TargetArch(Aarch64))]),
         Any([Is(TargetEnv(Musl)), Is(TargetEnv(Gnu))])])
  const MacosX86Experimental: Cfg :=
    All([Is(AsmOnExperimentalTargetsFeature), Is(TargetOs(Macos)), Is(TargetArch(X86))])
  const AppleMobileExperimental: Cfg :=
    All([Is(AsmOnExperimentalTargetsFeature), Any([Is(TargetOs(Ios)), Is(TargetOs(Tvos))]), Is(TargetArch(Aarch64))])
  const WindowsArmExperimental: Cfg := All([Is(AsmOnExperimentalTargetsFeature), Win, Is(TargetArch(Arm))])
  const Riscv32Experimental: Cfg := All([Is(AsmOnExperimentalTargetsFeature), Is(TargetArch(Riscv32))])
  const Riscv64Experimental: Cfg := All([Is(AsmOnExperimentalTargetsFeature), Is(TargetArch(Riscv64))])

  const FastTargetsCfg: Cfg :=
    Any([MacosFast, WindowsFast, LinuxFast, MacosX86Experimental, AppleMobileExperimental,
         WindowsArmExperimental, Riscv32Experimental, Riscv64Experimental])

  const RegisterReadCfg: Cfg := All([Not(NoAsmCfg), FastTargetsCfg])

  /** The outer `cfg_if!`, arm by arm. */
  const Strategies: seq<Branch<Strategy>> :=
    [Branch(SingleThreadedCfg, StaticByte),
     Branch(RegisterReadCfg, RegisterRead),
     Branch(Unix, PthreadSelf),
     Branch(Win, GetCurrentThreadId),
     Else(ThreadLocal)]

  // ---------------------------------------------------------------------------
  // The same conditions stated over the target's facts.

  /** The target is single-threaded by the user's assertion or by being wasm without atomics. */
  predicate SingleThreadedTarget(t: Target) {
    t.assumeSingleThreaded || (WasmFamily in t.families && !t.atomics)
  }

  /** Inline asm is allowed and its pointer width agrees with the architecture. */
  predicate AsmUsable(t: Target) {
    && !t.miri
    && !t.forceNoAsm
    && t.pointerWidth in {32, 64}
    && (t.arch in {X86_64, Aarch64} ==> t.pointerWidth == 64)
    && (t.arch in {X86, Arm} ==> t.pointerWidth == 32)
  }

  /** Which OSes an allow-list row applies to. */
  datatype Platform = OnOs(os: Os) | OnWindows | OnAnyOs

  /**
   * One allow-list row: a platform, an architecture, whether the row needs the
   * experimental-targets feature, and whether it needs the gnu or musl libc.
   */
  datatype AllowRow = AllowRow(platform: Platform, arch: Arch, experimental: bool, needsGnuOrMusl: bool)

  predicate OnPlatform(p: Platform, t: Target) {
    match p
    case OnOs(o) => t.os == o
    case OnWindows => WindowsFamily in t.families
    case OnAnyOs => true
  }

  predicate RowAdmits(row: AllowRow, t: Target) {
    && OnPlatform(row.platform, t)
    && t.arch == row.arch
    && (row.experimental ==> t.asmOnExperimentalTargets)
    && (row.needsGnuOrMusl ==> t.env in {Gnu, Musl})
  }

  /** The allow list flattened into one row per (platform, arch) pair. */
  const AllowTable: seq<AllowRow> :=
    [AllowRow(OnOs(Macos), X86_64, false, false),
     AllowRow(OnOs(Macos), Aarch64, false, false),
     AllowRow(OnWindows, X86, false, false),
     AllowRow(OnWindows, X86_64, false, false),
     AllowRow(OnWindows, Aarch64, false, false),
     AllowRow(OnOs(Linux), X86, false, true),
     AllowRow(OnOs(Linux), X86_64, false, true),
     AllowRow(OnOs(Linux), Aarch64, false, true),
     AllowRow(OnOs(Macos), X86, true, false),
     AllowRow(OnOs(Ios), Aarch64, true, false),
     AllowRow(OnOs(Tvos), Aarch64, true, false),
     AllowRow(OnWindows, Arm, true, false),
     AllowRow(OnAnyOs, Riscv32, true, false),
     AllowRow(OnAnyOs, Riscv64, true, false)]

  /** Some row of the allow table at index `i` or later admits the target. */
  predicate AdmittedFrom(i: nat, t: Target)
    decreases |AllowTable| - i
  {
    i < |AllowTable| && (RowAdmits(AllowTable[i], t) || AdmittedFrom(i + 1, t))
  }

  predicate AllowListed(t: Target) {
    AdmittedFrom(0, t)
  }

  /** The register read is compiled in. */
  predicate UsesRegister(t: Target) {
    !SingleThreadedTarget(t) && AsmUsable(t) && AllowListed(t)
  }

  /** The pointer-width test and the width/arch mismatch test of the "no asm cases". */
  lemma WidthCfgsIff(t: Target)
    ensures Holds(NoAsmCfg.options[2], t) <==> t.pointerWidth != 32 && t.pointerWidth != 64
    ensures Holds(NoAsmCfg.options[3], t) <==>
      || (t.pointerWidth != 64 && (t.arch == X86_64 || t.arch == Aarch64))
      || (t.pointerWidth != 32 && (t.arch == X86 || t.arch == Arm))
  {
    var p32, p64 := Is(PointerWidth(32)), Is(PointerWidth(64));
    var is64 := Any([Is(TargetArch(X86_64)), Is(TargetArch(Aarch64))]);
    var is32 := Any([Is(TargetArch(X86)), Is(TargetArch(Arm))]);
    Any2(p32, p64, t);
    Any2(Is(TargetArch(X86_64)), Is(TargetArch(Aarch64)), t);
    Any2(Is(TargetArch(X86)), Is(TargetArch(Arm)), t);
    All2(Not(p64), is64, t);
    All2(Not(p32), is32, t);
    Any2(All([Not(p64), is64]), All([Not(p32), is32]), t);
  }

  /** The "no asm cases" condition is exactly the failure of `AsmUsable`. */
  lemma NoAsmCfgIffUnusable(t: Target)
    ensures Holds(NoAsmCfg, t) <==> !AsmUsable(t)
  {
    WidthCfgsIff(t);
    var ps := NoAsmCfg.options;
    assert !AnyFrom(ps, 4, t);
    assert AnyFrom(ps, 3, t) <==> Holds(ps[3], t);
    assert AnyFrom(ps, 2, t) <==> Holds(ps[2], t) || AnyFrom(ps, 3, t);
    assert AnyFrom(ps, 1, t) <==> t.forceNoAsm || AnyFrom(ps, 2, t);
    assert AnyFrom(ps, 0, t) <==> t.miri || AnyFrom(ps, 1, t);
  }

  lemma SingleThreadedCfgIffTarget(t: Target)
    ensures Holds(SingleThreadedCfg, t) <==> SingleThreadedTarget(t)
  {
    All2(Is(TargetFamily(WasmFamily)), Not(Is(AtomicsFeature)), t);
    Any2(Is(SingleThreadedFlag), All([Is(TargetFamily(WasmFamily)), Not(Is(AtomicsFeature))]), t);
  }

  /** Each stable `all(...)` of the allow list admits exactly the targets of its table rows. */
  lemma MacosArmIffRows(t: Target)
    ensures Holds(MacosFast, t) <==> RowAdmits(AllowTable[0], t) || RowAdmits(AllowTable[1], t)
  {
    Any2(Is(TargetArch(X86_64)), Is(TargetArch(Aarch64)), t);
    All2(Is(TargetOs(Macos)), Any([Is(TargetArch(X86_64)), Is(TargetArch(Aarch64))]), t);
  }

  lemma WindowsArmIffRows(t: Target)
    ensures Holds(WindowsFast, t) <==>
      RowAdmits(AllowTable[2], t) || RowAdmits(AllowTable[3], t) || RowAdmits(AllowTable[4], t)
  {
    var arches := Any([Is(TargetArch(X86)), Is(TargetArch(X86_64)), Is(TargetArch(Aarch64))]);
    Any3(Is(TargetArch(X86)), Is(TargetArch(X86_64)), Is(TargetArch(Aarch64)), t);
    All2(Win, arches, t);
  }

  lemma LinuxArmIffRows(t: Target)
    ensures Holds(LinuxFast, t) <==>
      RowAdmits(AllowTable[5], t) || RowAdmits(AllowTable[6], t) || RowAdmits(AllowTable[7], t)
  {
    var arches := Any([Is(TargetArch(X86)), Is(TargetArch(X86_64)), Is(TargetArch(Aarch64))]);
    var libc := Any([Is(TargetEnv(Musl)), Is(TargetEnv(Gnu))]);
    Any3(Is(TargetArch(X86)), Is(TargetArch(X86_64)), Is(TargetArch(Aarch64)), t);
    Any2(Is(TargetEnv(Musl)), Is(TargetEnv(Gnu)), t);
    All3(Is(TargetOs(Linux)), arches, libc, t);
  }

  /** Each experimental `all(...)` of the allow list admits exactly the targets of its table rows. */
  lemma ExperimentalArmsIffRows(t: Target)
    ensures Holds(MacosX86Experimental, t) <==> RowAdmits(AllowTable[8], t)
    ensures Holds(AppleMobileExperimental, t) <==>
      RowAdmits(AllowTable[9], t) || RowAdmits(AllowTable[10], t)
    ensures Holds(WindowsArmExperimental, t) <==> RowAdmits(AllowTable[11], t)
    ensures Holds(Riscv32Experimental, t) <==> RowAdmits(AllowTable[12], t)
    ensures Holds(Riscv64Experimental, t) <==> RowAdmits(AllowTable[13], t)
  {
    var exp := Is(AsmOnExperimentalTargetsFeature);
    All3(exp, Is(TargetOs(Macos)), Is(TargetArch(X86)), t);
    Any2(Is(TargetOs(Ios)), Is(TargetOs(Tvos)), t);
    All3(exp, Any([Is(TargetOs(Ios)), Is(TargetOs(Tvos))]), Is(TargetArch(Aarch64)), t);
    All3(exp, Win, Is(TargetArch(Arm)), t);
    All2(exp, Is(TargetArch(Riscv32)), t);
    All2(exp, Is(TargetArch(Riscv64)), t);
  }

  /** The allow table, read as one disjunction of its rows. */
  lemma AllowListedIffSomeRow(t: Target)
    ensures AllowListed(t) <==>
      || RowAdmits(AllowTable[0], t) || RowAdmits(AllowTable[1], t) || RowAdmits(AllowTable[2], t)
      || RowAdmits(AllowTable[3], t) || RowAdmits(AllowTable[4], t) || RowAdmits(AllowTable[5], t)
      || RowAdmits(AllowTable[6], t) || RowAdmits(AllowTable[7], t) || RowAdmits(AllowTable[8], t)
      || RowAdmits(AllowTable[9], t) || RowAdmits(AllowTable[10], t) || RowAdmits(AllowTable[11], t)
      || RowAdmits(AllowTable[12], t) || RowAdmits(AllowTable[13], t)
  {
    assert !AdmittedFrom(14, t);
    assert AdmittedFrom(13, t) <==> RowAdmits(AllowTable[13], t);
    assert AdmittedFrom(12, t) <==> RowAdmits(AllowTable[12], t) || AdmittedFrom(13, t);
    assert AdmittedFrom(11, t) <==> RowAdmits(AllowTable[11], t) || AdmittedFrom(12, t);
    assert AdmittedFrom(10, t) <==> RowAdmits(AllowTable[10], t) || AdmittedFrom(11, t);
    assert AdmittedFrom(9, t) <==> RowAdmits(AllowTable[9], t) || AdmittedFrom(10, t);
    assert AdmittedFrom(8, t) <==> RowAdmits(AllowTable[8], t) || AdmittedFrom(9, t);
    assert AdmittedFrom(7, t) <==> RowAdmits(AllowTable[7], t) || AdmittedFrom(8, t);
    assert AdmittedFrom(6, t) <==> RowAdmits(AllowTable[6], t) || AdmittedFrom(7, t);
    assert AdmittedFrom(5, t) <==> RowAdmits(AllowTable[5], t) || AdmittedFrom(6, t);
    assert AdmittedFrom(4, t) <==> RowAdmits(AllowTable[4], t) || AdmittedFrom(5, t);
    assert AdmittedFrom(3, t) <==> RowAdmits(AllowTable[3], t) || AdmittedFrom(4, t);
    assert AdmittedFrom(2, t) <==> RowAdmits(AllowTable[2], t) || AdmittedFrom(3, t);
    assert AdmittedFrom(1, t) <==> RowAdmits(AllowTable[1], t) || AdmittedFrom(2, t);
  }

  /** The nested allow-list condition admits exactly the targets some table row admits. */
  lemma FastTargetsCfgIffAllowListed(t: Target)
    ensures Holds(FastTargetsCfg, t) <==> AllowListed(t)
  {
    AllowListedIffSomeRow(t);
    MacosArmIffRows(t);
    WindowsArmIffRows(t);
    LinuxArmIffRows(t);
    ExperimentalArmsIffRows(t);
    var ps := FastTargetsCfg.options;
    assert !AnyFrom(ps, 8, t);
    assert AnyFrom(ps, 7, t) <==> Holds(ps[7], t);
    assert AnyFrom(ps, 6, t) <==> Holds(ps[6], t) || AnyFrom(ps, 7, t);
    assert AnyFrom(ps, 5, t) <==> Holds(ps[5], t) || AnyFrom(ps, 6, t);
    assert AnyFrom(ps, 4, t) <==> Holds(ps[4], t) || AnyFrom(ps, 5, t);
    assert AnyFrom(ps, 3, t) <==> Holds(ps[3], t) || AnyFrom(ps, 4, t);
    assert AnyFrom(ps, 2, t) <==> Holds(ps[2], t) || AnyFrom(ps, 3, t);
    assert AnyFrom(ps, 1, t) <==> Holds(ps[1], t) || AnyFrom(ps, 2, t);
  }

  /** The register-read arm holds exactly when the target uses the register read, single-threadedness aside. */
  lemma RegisterReadCfgIff(t: Target)
    ensures Holds(RegisterReadCfg, t) <==> AsmUsable(t) && AllowListed(t)
  {
    NoAsmCfgIffUnusable(t);
    FastTargetsCfgIffAllowListed(t);
    All2(Not(NoAsmCfg), FastTargetsCfg, t);
  }

  /** The strategy of the first arm that holds, stated through the reference predicates. */
  lemma FirstArmIsDecisionOrder(t: Target)
    ensures FirstMatch(Strategies, t).Some?
    ensures var s := Strategies[FirstMatch(Strategies, t).value].body;
      && (s == StaticByte <==> SingleThreadedTarget(t))
      && (s == RegisterRead <==> UsesRegister(t))
      && (s == PthreadSelf <==> !SingleThreadedTarget(t) && !UsesRegister(t) && UnixFamily in t.families)
      && (s == GetCurrentThreadId <==>
            !SingleThreadedTarget(t) && !UsesRegister(t) && UnixFamily !in t.families
            && WindowsFamily in t.families)
      && (s == ThreadLocal <==>
            !SingleThreadedTarget(t) && !UsesRegister(t) && UnixFamily !in t.families
            && WindowsFamily !in t.families)
  {
    ElseMakesTotal(Strategies, t);
    SingleThreadedCfgIffTarget(t);
    RegisterReadCfgIff(t);
    var i := FirstMatch(Strategies, t).value;
    assert Strategies[0].cond == SingleThreadedCfg;
    assert Strategies[1].cond == RegisterReadCfg;
    assert Strategies[2].cond == Unix && Strategies[3].cond == Win;
    assert i == 0 || i == 1 || i == 2 || i == 3 || i == 4;
  }

  // ---------------------------------------------------------------------------

  /**
   * The body the outer `cfg_if!` compiles for a target. Its contract is the
   * decision order: every target gets exactly one strategy, and each strategy
   * is chosen exactly when no earlier one applies and its own condition holds.
   */
  function Select(t: Target): (s: Strategy)
    ensures s == StaticByte <==> SingleThreadedTarget(t)
    ensures s == RegisterRead <==> UsesRegister(t)
    ensures s == PthreadSelf <==>
      !SingleThreadedTarget(t) && !UsesRegister(t) && UnixFamily in t.families
    ensures s == GetCurrentThreadId <==>
      !SingleThreadedTarget(t) && !UsesRegister(t) && UnixFamily !in t.families
      && WindowsFamily in t.families
    ensures s == ThreadLocal <==>
      !SingleThreadedTarget(t) && !UsesRegister(t) && UnixFamily !in t.families
      && WindowsFamily !in t.families
  {
    FirstArmIsDecisionOrder(t);
    CfgIf(Strategies, t).value
  }

  // ---------------------------------------------------------------------------
  // Properties of the selection.

  /** `cfg_if!` compiles exactly one of the five bodies, and it is the one `Select` names. */
  lemma ExactlyOneBody(t: Target)
    ensures exists i :: 0 <= i < |Strategies| && Holds(Gate(Strategies, i), t)
                        && Strategies[i].body == Select(t)
    ensures forall i, j :: 0 <= i < j < |Strategies| ==>
              !(Holds(Gate(Strategies, i), t) && Holds(Gate(Strategies, j), t))
  {
    ElseMakesTotal(Strategies, t);
    var i := FirstMatch(Strategies, t).value;
    GateHoldsIffFirst(Strategies, i, t);
    forall i, j | 0 <= i < j < |Strategies|
      ensures !(Holds(Gate(Strategies, i), t) && Holds(Gate(Strategies, j), t))
    {
      GatesExclusive(Strategies, i, j, t);
    }
  }

  /** None of the "no asm cases" ever gets the register read. */
  lemma NoRegisterReadWithoutAsm(t: Target)
    requires || t.miri || t.forceNoAsm || t.pointerWidth !in {32, 64}
             || (t.arch in {X86_64, Aarch64} && t.pointerWidth != 64)
             || (t.arch in {X86, Arm} && t.pointerWidth != 32)
    ensures Select(t) != RegisterRead
  {
  }

  /** The pairs added as experimental get the register read only with `asm_on_experimental_targets`. */
  lemma ExperimentalPairsNeedFeature(t: Target)
    requires Consistent(t) && Select(t) == RegisterRead
    requires || (t.os == Macos && t.arch == X86)
             || (t.os in {Ios, Tvos} && t.arch == Aarch64)
             || (t.os == Windows && t.arch == Arm)
             || t.arch in {Riscv32, Riscv64}
    ensures t.asmOnExperimentalTargets
  {
    AllowListedIffSomeRow(t);
  }

  /** Linux on x86, x86_64 or aarch64 gets the register read only with the gnu or musl libc. */
  lemma LinuxNeedsGnuOrMusl(t: Target)
    requires Consistent(t) && Select(t) == RegisterRead
    requires t.os == Linux && t.arch !in {Riscv32, Riscv64}
    ensures t.env in {Gnu, Musl}
  {
    AllowListedIffSomeRow(t);
  }
}
