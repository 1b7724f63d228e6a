# thrid: the build-time choice of `tid_impl`, modelled in Dafny

thrid gives every thread a cheap, non-zero `usize` identifier. Its file
`src/imp.rs` decides at build time, through two nested `cfg_if!` cascades, how
that identifier is obtained:

- the address of a static byte on single-threaded targets;
- an inline `asm!` read of the thread pointer on an allow list of (OS, arch)
  pairs;
- `pthread_self()` on other unix targets, normalised so that 0 never comes out;
- `GetCurrentThreadId()` on other windows targets;
- the address of a `thread_local!` byte everywhere else.

The model has five modules, one per file:

- `TargetCfg` (target_cfg.dfy) holds the target facts a `cfg` attribute can
  observe and the `cfg` expression language (`not`, `any`, `all` over atoms).
  It also gives `cfg_if!` its meaning: the first arm whose condition holds
  compiles. It proves that the gate `cfg_if!` puts on each arm, "this
  condition and none before it", holds for exactly the first matching arm.
  It follows that at most one body compiles, and exactly one when the
  cascade ends in `else`.
- `Selector` (selector.dfy) writes out the outer cascade of src/imp.rs
  condition by condition, as a literal `Cfg` tree. A second, independent
  statement of it is given over the target's fields: a flattened allow table
  with one row per (platform, arch) pair, and predicates for "single
  threaded" and "asm usable". `Select` is the body the cascade compiles. Its
  contract is the decision order stated through those reference predicates.
- `RegisterTable` (register_table.dfy) holds the inner cascade of the
  register-read body, which maps each (OS, arch) pair to one `asm!` read or,
  when no arm matches, to the `compile_error!`. The table is kept as written
  and also with its two defects repaired (see Findings). It proves that the
  repaired table gives every allow-listed target the read meant for its
  row.
- `Compilation` (compilation.dfy) builds a target: the selected body, with
  the inner read filled in. It proves that a build with the repaired table
  never fails, as far as the `cfg` resolution and the `asm!` option rules
  modelled here go. It also characterises exactly which targets the code as
  written fails to build.
- `ThreadId` (thread_id.dfy) models what the compiled body returns. A `usize`
  of pointer width `w` is a number below 2^w, and `!0usize` is 2^w - 1. The
  `pthread_self` normalisation is proved to give a non-zero id, to panic
  exactly on the raw all-ones value, and to be injective. The
  `GetCurrentThreadId` widening is proved to preserve the value.

## Model

| member | source | states |
|---|---|---|
| TargetCfg.AnyHoldsIffSome | src/imp.rs:23-28 | `any(...)` holds exactly when one of its operands holds |
| TargetCfg.AllHoldsIffEvery | src/imp.rs:35-58 | `all(...)` holds exactly when every one of its operands holds |
| TargetCfg.FirstMatch | src/imp.rs:22-233 | the arm `cfg_if!` picks: its condition holds, no earlier condition holds, and nothing is picked only when no condition holds |
| TargetCfg.SameCondsSameMatch | src/imp.rs:97-181 | two cascades whose conditions agree arm by arm on a target pick the same arm |
| TargetCfg.CfgIf | src/imp.rs:22-233 | a cascade compiles some body exactly when some arm condition holds, and that body is the one of an arm whose condition holds and no earlier condition does |
| TargetCfg.GateHoldsIffFirst | src/imp.rs:22-233 | the `cfg` that `cfg_if!` puts on arm i holds exactly when arm i is the first arm whose condition holds |
| TargetCfg.GatesExclusive | src/imp.rs:22-233 | no two arm gates hold together, so no two bodies compile |
| TargetCfg.ElseMakesTotal | src/imp.rs:224-233 | a cascade ending in `else` compiles some body for every target |
| Selector.SingleThreadedCfgIffTarget | src/imp.rs:23-28 | the first condition holds exactly for targets with the single-threaded flag, or for wasm without atomics |
| Selector.WidthCfgsIff | src/imp.rs:43-57 | the pointer-width tests reject widths other than 32 and 64, and widths that mismatch the arch |
| Selector.NoAsmCfgIffUnusable | src/imp.rs:37-58 | the "no asm cases" hold exactly when asm is not usable: miri, `force_no_asm`, an odd width or a width/arch mismatch |
| Selector.MacosArmIffRows | src/imp.rs:62 | the macos clause admits exactly macos on x86_64 and aarch64 |
| Selector.WindowsArmIffRows | src/imp.rs:65 | the windows clause admits exactly the windows family on x86, x86_64 and aarch64 |
| Selector.LinuxArmIffRows | src/imp.rs:68-72 | the linux clause admits exactly linux on x86, x86_64 and aarch64 with the gnu or musl env |
| Selector.ExperimentalArmsIffRows | src/imp.rs:79-87 | each experimental clause admits exactly its rows, all of which need `asm_on_experimental_targets` |
| Selector.AllowListedIffSomeRow | src/imp.rs:60-88 | a target is allow-listed exactly when one of the 14 (platform, arch) rows admits it |
| Selector.FastTargetsCfgIffAllowListed | src/imp.rs:60-88 | the nested `any(...)` of allowed targets holds exactly for the allow-listed targets |
| Selector.RegisterReadCfgIff | src/imp.rs:35-89 | the register-read condition holds exactly when asm is usable and the target is allow-listed |
| Selector.FirstArmIsDecisionOrder | src/imp.rs:22-233 | the arm picked by the outer cascade is the one the decision order names |
| Selector.Select | src/imp.rs:22-233 | every target gets exactly one of the five bodies. Static byte iff single-threaded; register read iff not single-threaded, asm usable and allow-listed; then `pthread_self` iff unix, then `GetCurrentThreadId` iff windows, else `thread_local!` |
| Selector.ExactlyOneBody | src/imp.rs:22-233 | exactly one of the five arm gates holds, and its body is `Select`'s |
| Selector.NoRegisterReadWithoutAsm | src/imp.rs:37-58 | none of the "no asm cases" ever gets the register read |
| Selector.ExperimentalPairsNeedFeature | src/imp.rs:79-87 | macos/x86, ios and tvos on aarch64, windows/arm and riscv get the register read only with `asm_on_experimental_targets` |
| Selector.LinuxNeedsGnuOrMusl | src/imp.rs:66-72 | linux on x86, x86_64 or aarch64 gets the register read only with the gnu or musl env (riscv, at lines 86-87, tests no OS or env) |
| RegisterTable.OsArchIff | src/imp.rs:98-105 | an `all(target_os, target_arch)` arm holds exactly for that OS and arch |
| RegisterTable.WinArchIff | src/imp.rs:119-144 | an `all(windows, target_arch)` arm holds exactly for the windows family on that arch |
| RegisterTable.AppleAndRiscvIff | src/imp.rs:112-172 | the Apple aarch64 arm covers macos and ios (the repaired one adds tvos); the riscv arm covers riscv32 and riscv64 |
| RegisterTable.ArmConditions | src/imp.rs:97-181 | each of the twelve inner arm conditions, stated over the target's fields |
| RegisterTable.RepairedSource | src/imp.rs:97-181 | the repaired inner table only ever picks reads whose options `asm!` accepts, and reaches the `compile_error!` exactly when none of its eleven read arms holds |
| RegisterTable.RepairedReadsAccepted | src/imp.rs:100-178 | every read of the repaired table passes `asm!`'s option check, and the linux/x86 read as written does not |
| RegisterTable.SourceCoversAllowList | src/imp.rs:60-181 | coverage: every target an allow-list row admits gets that row's read from the repaired inner table, never the `compile_error!` |
| RegisterTable.SourceAsWrittenForRow | src/imp.rs:83-180 | the table as written agrees with the repaired one on every row except tvos/aarch64, which reaches the `compile_error!`, and linux/x86, which gets the misspelt option |
| RegisterTable.TvosAarch64HitsMismatch | src/imp.rs:83-180 | aarch64-apple-tvos with `asm_on_experimental_targets` is sent to the register read, and the inner table as written has no arm for it |
| RegisterTable.LinuxX86OptionRejected | src/imp.rs:158-164 | i686-unknown-linux-gnu is sent to the register read, and its `asm!` options as written are rejected |
| Compilation.AllowListedHasRead | src/imp.rs:97-181 | every allow-listed target gets a read from the repaired inner table |
| Compilation.Compile | src/imp.rs:22-233 | with the repaired table every target builds (its `cfg`s resolve and its `asm!` options pass), with the body `Select` names; a register read is the one the inner table picks and its options are accepted |
| Compilation.TablesAgreeOffTvos | src/imp.rs:97-181 | away from tvos/aarch64 both inner tables pick the same arm, and their bodies differ only on linux/x86 |
| Compilation.TvosFallsThrough | src/imp.rs:112-180 | on tvos/aarch64 the table as written reaches the `compile_error!` and the repaired one gives the `tpidrro_el0` read |
| Compilation.CompileAsWrittenFailures | src/imp.rs:22-233 | the build as written fails exactly for register-read targets on tvos/aarch64 (the `compile_error!`) or linux/x86 (rejected options); every other build equals `Compile`'s |
| ThreadId.AllOnes | src/imp.rs:197 | `!0usize` is 2^w - 1 and non-zero |
| ThreadId.NormalizePthreadSelf | src/imp.rs:193-208 | raw 0 gives `!0usize`, a raw `!0usize` panics and nothing else does, every other raw value is returned unchanged, and every id returned is non-zero and a `usize` |
| ThreadId.NormalizeRoundTrip | src/imp.rs:194-206 | every raw handle that does not panic is recovered from its identifier |
| ThreadId.NormalizeInjective | src/imp.rs:194-206 | distinct raw handles that do not panic give distinct identifiers |
| ThreadId.WidenThreadId | src/imp.rs:217 | the `u32` to `usize` cast gives a `usize`, and keeps the value when `usize` has at least 32 bits |
| ThreadId.Tid | src/imp.rs:29-232 | under the platform's contract every body returns a non-zero `usize`, and only the `pthread_self` body panics, exactly on a raw `!0usize` |

## Left out

- The machine semantics of the `asm!` reads (src/imp.rs:100-178): what the registers hold at run time is a parameter of `ThreadId.Tid`. A read is kept as its template and its option words.
- `asm!`'s option check is reduced to two rules: every word must be one `asm!` knows, and `nomem` must not be combined with `readonly`. Nothing else about `asm!` operands is modelled, and the templates are not checked against any assembler, so "builds" in `Compilation.Compile` means only that the `cfg`s resolve and the option words pass.
- The `asm_maybe_with_pure!` macro (src/imp.rs:5-20): both of its arms expand to the same `asm!`, so the `unsound_pure_asm` feature changes nothing observable.
- The `libc` feature (src/imp.rs:190-192) only chooses where `pthread_self` is declared. The function is modelled by its result.
- The foreign calls `pthread_self` and `GetCurrentThreadId`, and the addresses of the static byte and of the `thread_local!` byte, are fields of `ThreadId.Machine`. The allocator and linker facts behind them are not modelled.
- That an identifier is stable for a thread and distinct across live threads: these are properties of the OS and ABI, not of this code.
- The `debug_assert!`s (src/imp.rs:183, 221, 230) and the `new_unchecked` calls rely on the platform never handing out 0. These reliances are the preconditions of `ThreadId.PlatformContract`; they are assumed, not checked.
- `target_os`, `target_arch` and `target_env` range only over the values src/imp.rs tests, plus one "other" value each. Pointer widths are any natural number.
- `TargetCfg.Consistent` (the windows family goes with `target_os = "windows"`) is required only where a lemma needs it. Without it, a tvos/aarch64 target in the windows family would pick a windows arm of the inner table.
- A raw `pthread_self` of `!0usize` fails the `assert!` at src/imp.rs:204. That is a panic, which the model records as the `Panic` outcome with the assertion's message; unwinding is not modelled.

## Findings

| source | as written | input that shows it | evidently intended | confidence | as-written member | corrected member |
|---|---|---|---|---|---|---|
| src/imp.rs:83, src/imp.rs:112 | the allow list admits tvos on aarch64 with `asm_on_experimental_targets`, but the inner Apple aarch64 arm tests only macos and ios, so the build falls through to the `compile_error!` at line 180 | aarch64-apple-tvos with feature `asm_on_experimental_targets` | the Apple aarch64 arm also covers tvos, reading `tpidrro_el0` | high, not executed | RegisterTable.TvosAarch64HitsMismatch | RegisterTable.SourceCoversAllowList |
| src/imp.rs:163 | the linux/x86 read passes the option `preserves_flag`, which `asm!` does not know, so the build is rejected | i686-unknown-linux-gnu (linux, x86, 32-bit, gnu) | the option `preserves_flags`, as in every other arm | high, not executed | RegisterTable.LinuxX86OptionRejected | RegisterTable.RepairedReadsAccepted |
