/**
 * What building src/imp.rs for a target produces: one `tid_impl` body, or a
 * build error (the `compile_error!` of the inner table, or `asm!` rejecting
 * an option word).
 */
module Compilation {
  import opened TargetCfg
  import opened Selector
  import opened RegisterTable

  /** The `tid_impl` a build contains. */
  datatype TidImpl =
    | StaticByteAddress
    | ReadRegister(read: AsmRead)
    | CallPthreadSelf
    | CallGetCurrentThreadId
    | ThreadLocalAddress

  datatype BuildError = CfgMismatch(message: string) | AsmOptionRejected(read: AsmRead)

  datatype Build = Built(impl: TidImpl) | Failed(error: BuildError)

  function StrategyOf(impl: TidImpl): Strategy {
    match impl
    case StaticByteAddress => StaticByte
    case ReadRegister(_) => RegisterRead
    case CallPthreadSelf => PthreadSelf
    case CallGetCurrentThreadId => GetCurrentThreadId
    case ThreadLocalAddress => ThreadLocal
  }

  /** Expands the selected outer body, given what the inner table compiles for the target. */
  function Expand(s: Strategy, inner: InnerBody): Build {
    match s
    case StaticByte => Built(StaticByteAddress)
    case RegisterRead =>
      (match inner
       case MismatchError(m) => Failed(CfgMismatch(m))
       case Read(r) => if AsmAccepts(r) then Built(ReadRegister(r)) else Failed(AsmOptionRejected(r)))
    case PthreadSelf => Built(CallPthreadSelf)
    case GetCurrentThreadId => Built(CallGetCurrentThreadId)
    case ThreadLocal => Built(ThreadLocalAddress)
  }

  /** Every target the allow list admits has an arm in the repaired inner table. */
  lemma AllowListedHasRead(t: Target)
    requires AllowListed(t)
    ensures RepairedSource(t).Read?
  {
    AllowListedIffSomeRow(t);
    ArmConditions(t);
    assert || Holds(Reads[0].cond, t) || Holds(Reads[1].cond, t) || Holds(Reads[2].cond, t)
           || Holds(Reads[3].cond, t) || Holds(Reads[4].cond, t) || Holds(Reads[5].cond, t)
           || Holds(Reads[6].cond, t) || Holds(Reads[7].cond, t) || Holds(Reads[8].cond, t)
           || Holds(Reads[9].cond, t) || Holds(Reads[10].cond, t);
  }

  /**
   * Building with the repaired table always succeeds (the `asm!` templates
   * themselves are not checked): the body is the one the
   * outer `cfg_if!` selects, and a register read is always one `asm!` accepts.
   */
  function Compile(t: Target): (b: Build)
    ensures b.Built?
    ensures StrategyOf(b.impl) == Select(t)
    ensures b.impl.ReadRegister? ==> AsmAccepts(b.impl.read) && RepairedSource(t) == Read(b.impl.read)
  {
    if Select(t) == RegisterRead then AllowListedHasRead(t); Expand(Select(t), RepairedSource(t))
    else Expand(Select(t), RepairedSource(t))
  }

  /** Building as the source is written. */
  function CompileAsWritten(t: Target): Build {
    Expand(Select(t), SourceAsWritten(t))
  }

  /** Away from tvos/aarch64 both tables pick the same arm, so they differ only on linux/x86. */
  lemma TablesAgreeOffTvos(t: Target)
    requires !(t.os == Tvos && t.arch == Aarch64)
    ensures FirstMatch(ReadsAsWritten, t) == FirstMatch(Reads, t)
    ensures SourceAsWritten(t) == RepairedSource(t) || FirstMatch(Reads, t) == Some(8)
    ensures FirstMatch(Reads, t) == Some(8) <==>
      WindowsFamily !in t.families && t.os == Linux && t.arch == X86
  {
    ArmConditions(t);
    SameCondsSameMatch(ReadsAsWritten, Reads, t);
    ElseMakesTotal(Reads, t);
    var q := FirstMatch(Reads, t).value;
    assert q == 0 || q == 1 || q == 2 || q == 3 || q == 4 || q == 5 || q == 6 || q == 7
        || q == 8 || q == 9 || q == 10 || q == 11;
  }

  /** On tvos/aarch64 outside windows the table as written falls through to the `compile_error!`. */
  lemma TvosFallsThrough(t: Target)
    requires t.os == Tvos && t.arch == Aarch64 && WindowsFamily !in t.families
    ensures SourceAsWritten(t) == MismatchError(MismatchMessage)
    ensures RepairedSource(t) == Read(AppleAarch64Read)
  {
    ArmConditions(t);
    ElseMakesTotal(ReadsAsWritten, t);
    ElseMakesTotal(Reads, t);
    var r := FirstMatch(ReadsAsWritten, t).value;
    var q := FirstMatch(Reads, t).value;
    assert q <= 2;
    assert r == 0 || r == 1 || r == 2 || r == 3 || r == 4 || r == 5 || r == 6 || r == 7
        || r == 8 || r == 9 || r == 10 || r == 11;
  }

  /**
   * The build as written fails for exactly two kinds of target the selector
   * sends to the register read: tvos/aarch64, which reaches the
   * `compile_error!`, and linux/x86, whose `asm!` options are rejected.
   * Every build that succeeds is the one `Compile` gives. (On a target that is
   * not `Consistent`, tvos/aarch64 in the windows family, the two tables pick
   * different arms.)
   */
  lemma CompileAsWrittenFailures(t: Target)
    requires Consistent(t)
    ensures CompileAsWritten(t).Failed? <==>
      && Select(t) == RegisterRead
      && ((t.os == Tvos && t.arch == Aarch64) || (t.os == Linux && t.arch == X86))
    ensures CompileAsWritten(t).Failed? && t.os == Tvos ==> CompileAsWritten(t).error == CfgMismatch(MismatchMessage)
    ensures CompileAsWritten(t).Failed? && t.os == Linux ==>
      CompileAsWritten(t).error == AsmOptionRejected(LinuxX86ReadAsWritten)
    ensures CompileAsWritten(t).Built? ==> CompileAsWritten(t) == Compile(t)
  {
    RepairedReadsAccepted();
    if t.os == Tvos && t.arch == Aarch64 {
      TvosFallsThrough(t);
    } else {
      TablesAgreeOffTvos(t);
    }
    if Select(t) == RegisterRead {
      AllowListedHasRead(t);
    }
  }
}
