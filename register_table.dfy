/**
 * The inner `cfg_if!` of the register-read body of src/imp.rs: which inline
 * `asm!` read of the thread pointer a target gets, or the `compile_error!`
 * when no arm matches. The table is kept twice: as written, and with its two
 * defects repaired (tvos/aarch64 has no arm; linux/x86 passes a misspelt
 * `asm!` option). The rest of the model uses the repaired table.
 */
module RegisterTable {
  import opened TargetCfg
  import opened Selector

  /** One inline `asm!` read: the template and the option words passed to `options(...)`. */
  datatype AsmRead = AsmRead(template: string, options: seq<string>)

  /** What a target compiles in the register-read body. */
  datatype InnerBody = Read(asm: AsmRead) | MismatchError(message: string)

  /** The message of the `compile_error!` in the final `else`. */
  const MismatchMessage := "bug: mismatch between `cfg_if`s"

  /** The option words `asm!` understands. */
  const AsmOptionWords: set<string> :=
    {"pure", "nomem", "readonly", "preserves_flags", "noreturn", "nostack",
     "att_syntax", "raw", "may_unwind"}

  /**
   * `asm!` accepts the options: each is a word it knows, and `nomem` and
   * `readonly` are not given together.
   */
  predicate AsmAccepts(r: AsmRead) {
    && (forall o | o in r.options :: o in AsmOptionWords)
    && !("nomem" in r.options && "readonly" in r.options)
  }

  const ReadsMemory := ["nostack", "readonly", "preserves_flags"]
  const NoMemory := ["nostack", "nomem", "preserves_flags"]

  const MacosX86_64Read := AsmRead("mov {}, gs:0", ReadsMemory)
  const MacosX86Read := AsmRead("mov {}, fs:0", ReadsMemory)
  const AppleAarch64Read := AsmRead("mrs {}, tpidrro_el0", NoMemory)
  const WindowsX86_64Read := AsmRead("mov {}, gs:48", ReadsMemory)
  const WindowsX86Read := AsmRead("mov {}, fs:24", ReadsMemory)
  const WindowsAarch64Read := AsmRead("mov {}, x18", NoMemory)
  const WindowsArmRead := AsmRead("mrc p15, #0, {}, c13, c0, #2", NoMemory)
  const LinuxX86_64Read := AsmRead("mov {}, fs:0", ReadsMemory)
  const LinuxX86Read := AsmRead("mov {}, gs:0", ReadsMemory)
  const LinuxX86ReadAsWritten := AsmRead("mov {}, gs:0", ["nostack", "readonly", "preserves_flag"])
  const LinuxAarch64Read := AsmRead("mrs {}, tpidr_el0", NoMemory)
  const RiscvRead := AsmRead("mov {}, tp", NoMemory)

  function OsArch(os: Os, arch: Arch): Cfg {
    All([Is(TargetOs(os)), Is(TargetArch(arch))])
  }

  function WinArch(arch: Arch): Cfg {
    All([Win, Is(TargetArch(arch))])
  }

  const AppleAarch64AsWritten: Cfg :=
    All([Any([Is(TargetOs(Macos)), Is(TargetOs(Ios))]), Is(TargetArch(Aarch64))])
  const AppleAarch64: Cfg :=
    All([Any([Is(TargetOs(Macos)), Is(TargetOs(Ios)), Is(TargetOs(Tvos))]), Is(TargetArch(Aarch64))])
  const Riscv: Cfg := Any([Is(TargetArch(Riscv32)), Is(TargetArch(Riscv64))])

  /** The inner `cfg_if!` as the source writes it. */
  const ReadsAsWritten: seq<Branch<InnerBody>> :=
    [Branch(OsArch(Macos, X86_64), Read(MacosX86_64Read)),
     Branch(OsArch(Macos, X86), Read(MacosX86Read)),
     Branch(AppleAarch64AsWritten, Read(AppleAarch64Read)),
     Branch(WinArch(X86_64), Read(WindowsX86_64Read)),
     Branch(WinArch(X86), Read(WindowsX86Read)),
     Branch(WinArch(Aarch64), Read(WindowsAarch64Read)),
     Branch(WinArch(Arm), Read(WindowsArmRead)),
     Branch(OsArch(Linux, X86_64), Read(LinuxX86_64Read)),
     Branch(OsArch(Linux, X86), Read(LinuxX86ReadAsWritten)),
     Branch(OsArch(Linux, Aarch64), Read(LinuxAarch64Read)),
     Branch(Riscv, Read(RiscvRead)),
     Else(MismatchError(MismatchMessage))]

  /** The inner `cfg_if!` with tvos added to the Apple aarch64 arm and the linux/x86 option spelt right. */
  const Reads: seq<Branch<InnerBody>> :=
    ReadsAsWritten[2 := Branch(AppleAarch64, Read(AppleAarch64Read))]
                  [8 := Branch(OsArch(Linux, X86), Read(LinuxX86Read))]

  /** The read each row of the allow table should get, row by row. */
  const RowReads: seq<AsmRead> :=
    [MacosX86_64Read, AppleAarch64Read,
     WindowsX86Read, WindowsX86_64Read, WindowsAarch64Read,
     LinuxX86Read, LinuxX86_64Read, LinuxAarch64Read,
     MacosX86Read, AppleAarch64Read, AppleAarch64Read, WindowsArmRead,
     RiscvRead, RiscvRead]

  // ---------------------------------------------------------------------------
  // Evaluating the two tables.

  lemma OsArchIff(os: Os, arch: Arch, t: Target)
    ensures Holds(OsArch(os, arch), t) <==> t.os == os && t.arch == arch
  {
    All2(Is(TargetOs(os)), Is(TargetArch(arch)), t);
  }

  lemma WinArchIff(arch: Arch, t: Target)
    ensures Holds(WinArch(arch), t) <==> WindowsFamily in t.families && t.arch == arch
  {
    All2(Win, Is(TargetArch(arch)), t);
  }

  lemma AppleAndRiscvIff(t: Target)
    ensures Holds(AppleAarch64AsWritten, t) <==> t.os in {Macos, Ios} && t.arch == Aarch64
    ensures Holds(AppleAarch64, t) <==> t.os in {Macos, Ios, Tvos} && t.arch == Aarch64
    ensures Holds(Riscv, t) <==> t.arch in {Riscv32, Riscv64}
  {
    Any2(Is(TargetOs(Macos)), Is(TargetOs(Ios)), t);
    All2(Any([Is(TargetOs(Macos)), Is(TargetOs(Ios))]), Is(TargetArch(Aarch64)), t);
    Any3(Is(TargetOs(Macos)), Is(TargetOs(Ios)), Is(TargetOs(Tvos)), t);
    All2(Any([Is(TargetOs(Macos)), Is(TargetOs(Ios)), Is(TargetOs(Tvos))]), Is(TargetArch(Aarch64)), t);
    Any2(Is(TargetArch(Riscv32)), Is(TargetArch(Riscv64)), t);
  }

  /** Every arm condition of both tables, stated over the target's facts. */
  lemma ArmConditions(t: Target)
    ensures |ReadsAsWritten| == 12 && |Reads| == 12
    ensures forall i | 0 <= i < 12 && i != 2 && i != 8 :: Reads[i] == ReadsAsWritten[i]
    ensures Reads[8].cond == ReadsAsWritten[8].cond
    ensures Holds(ReadsAsWritten[0].cond, t) <==> t.os == Macos && t.arch == X86_64
    ensures Holds(ReadsAsWritten[1].cond, t) <==> t.os == Macos && t.arch == X86
    ensures Holds(ReadsAsWritten[2].cond, t) <==> t.os in {Macos, Ios} && t.arch == Aarch64
    ensures Holds(Reads[2].cond, t) <==> t.os in {Macos, Ios, Tvos} && t.arch == Aarch64
    ensures Holds(ReadsAsWritten[3].cond, t) <==> WindowsFamily in t.families && t.arch == X86_64
    ensures Holds(ReadsAsWritten[4].cond, t) <==> WindowsFamily in t.families && t.arch == X86
    ensures Holds(ReadsAsWritten[5].cond, t) <==> WindowsFamily in t.families && t.arch == Aarch64
    ensures Holds(ReadsAsWritten[6].cond, t) <==> WindowsFamily in t.families && t.arch == Arm
    ensures Holds(ReadsAsWritten[7].cond, t) <==> t.os == Linux && t.arch == X86_64
    ensures Holds(ReadsAsWritten[8].cond, t) <==> t.os == Linux && t.arch == X86
    ensures Holds(ReadsAsWritten[9].cond, t) <==> t.os == Linux && t.arch == Aarch64
    ensures Holds(ReadsAsWritten[10].cond, t) <==> t.arch in {Riscv32, Riscv64}
    ensures Holds(ReadsAsWritten[11].cond, t)
  {
    OsArchIff(Macos, X86_64, t);
    OsArchIff(Macos, X86, t);
    AppleAndRiscvIff(t);
    WinArchIff(X86_64, t);
    WinArchIff(X86, t);
    WinArchIff(Aarch64, t);
    WinArchIff(Arm, t);
    OsArchIff(Linux, X86_64, t);
    OsArchIff(Linux, X86, t);
    OsArchIff(Linux, Aarch64, t);
  }

  /** The body the inner `cfg_if!` compiles, as the source writes it. */
  function SourceAsWritten(t: Target): InnerBody
  {
    ElseMakesTotal(ReadsAsWritten, t);
    CfgIf(ReadsAsWritten, t).value
  }

  /**
   * The body the repaired inner `cfg_if!` compiles: every read it picks is one
   * `asm!` accepts, and it reaches the `compile_error!` only when none of the
   * eleven read arms holds.
   */
  function RepairedSource(t: Target): (b: InnerBody)
    ensures b.Read? ==> AsmAccepts(b.asm)
    ensures b.MismatchError? <==> forall i | 0 <= i < 11 :: !Holds(Reads[i].cond, t)
  {
    ElseMakesTotal(Reads, t);
    RepairedReadsAccepted();
    var r := FirstMatch(Reads, t).value;
    assert r == 0 || r == 1 || r == 2 || r == 3 || r == 4 || r == 5 || r == 6 || r == 7
        || r == 8 || r == 9 || r == 10 || r == 11;
    CfgIf(Reads, t).value
  }

  // ---------------------------------------------------------------------------
  // Properties of the two tables.

  /** Every read of the repaired table passes `asm!`'s option check; the linux/x86 one as written does not. */
  lemma RepairedReadsAccepted()
    ensures forall k | 0 <= k < |RowReads| :: AsmAccepts(RowReads[k])
    ensures forall i | 0 <= i < |Reads| && Reads[i].body.Read? :: AsmAccepts(Reads[i].body.asm)
    ensures !AsmAccepts(LinuxX86ReadAsWritten)
  {
    assert "preserves_flag" !in AsmOptionWords;
    assert LinuxX86ReadAsWritten.options[2] == "preserves_flag";
  }

  /**
   * Coverage: every target a row of the allow list admits gets a read from
   * the repaired table, and it is the read that row is meant to get.
   */
  lemma SourceCoversAllowList(t: Target, k: nat)
    requires k < |AllowTable| && Consistent(t) && RowAdmits(AllowTable[k], t)
    ensures RepairedSource(t) == Read(RowReads[k])
  {
    ArmConditions(t);
    ElseMakesTotal(Reads, t);
    var r := FirstMatch(Reads, t).value;
    assert r == 0 || r == 1 || r == 2 || r == 3 || r == 4 || r == 5 || r == 6 || r == 7
        || r == 8 || r == 9 || r == 10 || r == 11;
    assert k == 0 || k == 1 || k == 2 || k == 3 || k == 4 || k == 5 || k == 6 || k == 7
        || k == 8 || k == 9 || k == 10 || k == 11 || k == 12 || k == 13;
  }

  /**
   * The table as written agrees with the repaired one on every row but two:
   * tvos/aarch64 (row 10) falls through to the `compile_error!`, and
   * linux/x86 (row 5) gets the read with the misspelt option.
   */
  lemma SourceAsWrittenForRow(t: Target, k: nat)
    requires k < |AllowTable| && Consistent(t) && RowAdmits(AllowTable[k], t)
    ensures SourceAsWritten(t) ==
      if k == 10 then MismatchError(MismatchMessage)
      else if k == 5 then Read(LinuxX86ReadAsWritten)
      else Read(RowReads[k])
  {
    ArmConditions(t);
    ElseMakesTotal(ReadsAsWritten, t);
    var r := FirstMatch(ReadsAsWritten, t).value;
    assert r == 0 || r == 1 || r == 2 || r == 3 || r == 4 || r == 5 || r == 6 || r == 7
        || r == 8 || r == 9 || r == 10 || r == 11;
    assert k == 0 || k == 1 || k == 2 || k == 3 || k == 4 || k == 5 || k == 6 || k == 7
        || k == 8 || k == 9 || k == 10 || k == 11 || k == 12 || k == 13;
  }

  /** aarch64-apple-tvos with `asm_on_experimental_targets`. */
  const TvosAarch64 := Target(Tvos, Aarch64, {UnixFamily}, OtherEnv, 64, true, false, false, true, false)

  /** i686-unknown-linux-gnu. */
  const LinuxX86Gnu := Target(Linux, X86, {UnixFamily}, Gnu, 32, true, false, false, false, false)

  /** The outer allow list admits tvos/aarch64, but the inner table as written has no arm for it. */
  lemma TvosAarch64HitsMismatch()
    ensures Select(TvosAarch64) == RegisterRead
    ensures SourceAsWritten(TvosAarch64) == MismatchError(MismatchMessage)
    ensures RepairedSource(TvosAarch64) == Read(AppleAarch64Read)
  {
    AllowListedIffSomeRow(TvosAarch64);
    SourceAsWrittenForRow(TvosAarch64, 10);
    SourceCoversAllowList(TvosAarch64, 10);
  }

  /** i686 linux gets the register read, and as written its `asm!` options are rejected. */
  lemma LinuxX86OptionRejected()
    ensures Select(LinuxX86Gnu) == RegisterRead
    ensures SourceAsWritten(LinuxX86Gnu) == Read(LinuxX86ReadAsWritten)
    ensures !AsmAccepts(SourceAsWritten(LinuxX86Gnu).asm)
    ensures RepairedSource(LinuxX86Gnu) == Read(LinuxX86Read) && AsmAccepts(LinuxX86Read)
  {
    AllowListedIffSomeRow(LinuxX86Gnu);
    SourceAsWrittenForRow(LinuxX86Gnu, 5);
    SourceCoversAllowList(LinuxX86Gnu, 5);
    RepairedReadsAccepted();
  }
}
