/**
 * Build-time facts about a compilation target, the `cfg` predicate language
 * that `#[cfg(...)]` attributes are written in, and the semantics of the
 * `cfg_if!` cascade that src/imp.rs uses to pick exactly one body.
 */
module TargetCfg {

  datatype Option<T> = None | Some(value: T)

  /** `target_os`, restricted to the values src/imp.rs tests; every other OS is `OtherOs`. */
  datatype Os = Macos | Ios | Tvos | Linux | Windows | OtherOs

  /** `target_arch`, restricted to the values src/imp.rs tests. */
  datatype Arch = X86 | X86_64 | Aarch64 | Arm | Riscv32 | Riscv64 | OtherArch

  /** `target_family`: a target may belong to several (emscripten is both unix and wasm). */
  datatype Family = UnixFamily | WindowsFamily | WasmFamily

  /** `target_env`, restricted to the values src/imp.rs tests. */
  datatype Env = Gnu | Musl | OtherEnv

  /** Everything the `cfg` attributes of src/imp.rs can observe about one build. */
  datatype Target = Target(
    os: Os,
    arch: Arch,
    families: set<Family>,
    env: Env,
    pointerWidth: nat,
    // target_feature = "atomics"
    atomics: bool,
    // cfg(miri)
    miri: bool,
    // feature = "force_no_asm"
    forceNoAsm: bool,
    // feature = "asm_on_experimental_targets"
    asmOnExperimentalTargets: bool,
    // cfg(thrid_unsafely_assume_target_is_single_threaded), set through rustc flags
    assumeSingleThreaded: bool)

  /** On every real target `windows` (the family) and `target_os = "windows"` go together. */
  predicate Consistent(t: Target) {
    WindowsFamily in t.families <==> t.os == Windows
  }

  /** One configuration predicate: a `name` or `name = "value"` test. */
  datatype Atom =
    | SingleThreadedFlag
    | Miri
    | ForceNoAsmFeature
    | AsmOnExperimentalTargetsFeature
    | AtomicsFeature
    | TargetFamily(family: Family)
    | TargetOs(os: Os)
    | TargetArch(arch: Arch)
    | TargetEnv(env: Env)
    | PointerWidth(bits: nat)

  /** The `cfg` expression language: atoms combined by `not`, `any` and `all`. */
  datatype Cfg = Is(atom: Atom) | Not(inner: Cfg) | Any(options: seq<Cfg>) | All(options: seq<Cfg>)

  /** `unix` and `windows` are shorthands for `target_family = "..."`. */
  const Unix := Is(TargetFamily(UnixFamily))
  const Win := Is(TargetFamily(WindowsFamily))

  predicate AtomHolds(a: Atom, t: Target) {
    match a
    case SingleThreadedFlag => t.assumeSingleThreaded
    case Miri => t.miri
    case ForceNoAsmFeature => t.forceNoAsm
    case AsmOnExperimentalTargetsFeature => t.asmOnExperimentalTargets
    case AtomicsFeature => t.atomics
    case TargetFamily(f) => f in t.families
    case TargetOs(o) => t.os == o
    case TargetArch(x) => t.arch == x
    case TargetEnv(e) => t.env == e
    case PointerWidth(b) => t.pointerWidth == b
  }

  /** Whether the target satisfies a `cfg` expression. */
  predicate Holds(c: Cfg, t: Target)
    decreases c, 1
  {
    match c
    case Is(a) => AtomHolds(a, t)
    case Not(p) => !Holds(p, t)
    case Any(ps) => AnyFrom(ps, 0, t)
    case All(ps) => AllFrom(ps, 0, t)
  }

  /** Some operand at index `i` or later holds. */
  predicate AnyFrom(ps: seq<Cfg>, i: nat, t: Target)
    decreases ps, 0, |ps| - i
  {
    i < |ps| && (Holds(ps[i], t) || AnyFrom(ps, i + 1, t))
  }

  /** Every operand at index `i` or later holds. */
  predicate AllFrom(ps: seq<Cfg>, i: nat, t: Target)
    decreases ps, 0, |ps| - i
  {
    i < |ps| ==> Holds(ps[i], t) && AllFrom(ps, i + 1, t)
  }

  lemma {:induction false} AnyFromIffSome(ps: seq<Cfg>, i: nat, t: Target)
    ensures AnyFrom(ps, i, t) <==> exists j :: i <= j < |ps| && Holds(ps[j], t)
    decreases |ps| - i
  {
    if i < |ps| {
      AnyFromIffSome(ps, i + 1, t);
    }
  }

  lemma {:induction false} AllFromIffEvery(ps: seq<Cfg>, i: nat, t: Target)
    ensures AllFrom(ps, i, t) <==> forall j :: i <= j < |ps| ==> Holds(ps[j], t)
    decreases |ps| - i
  {
    if i < |ps| {
      AllFromIffEvery(ps, i + 1, t);
    }
  }

  /** `any(...)` holds exactly when one of its operands does; `any()` never holds. */
  lemma AnyHoldsIffSome(ps: seq<Cfg>, t: Target)
    ensures Holds(Any(ps), t) <==> exists i :: 0 <= i < |ps| && Holds(ps[i], t)
  {
    AnyFromIffSome(ps, 0, t);
  }

  /** `all(...)` holds exactly when every operand does; `all()` always holds. */
  lemma AllHoldsIffEvery(ps: seq<Cfg>, t: Target)
    ensures Holds(All(ps), t) <==> forall i :: 0 <= i < |ps| ==> Holds(ps[i], t)
  {
    AllFromIffEvery(ps, 0, t);
  }

  // Short `any`/`all` lists written out, for evaluating the literal trees of src/imp.rs.

  lemma Any2(a: Cfg, b: Cfg, t: Target)
    ensures Holds(Any([a, b]), t) <==> Holds(a, t) || Holds(b, t)
  {
    var ps := [a, b];
    assert !AnyFrom(ps, 2, t);
    assert AnyFrom(ps, 1, t) <==> Holds(b, t);
    assert AnyFrom(ps, 0, t) <==> Holds(a, t) || AnyFrom(ps, 1, t);
  }

  lemma Any3(a: Cfg, b: Cfg, c: Cfg, t: Target)
    ensures Holds(Any([a, b, c]), t) <==> Holds(a, t) || Holds(b, t) || Holds(c, t)
  {
    var ps := [a, b, c];
    assert !AnyFrom(ps, 3, t);
    assert AnyFrom(ps, 2, t) <==> Holds(c, t);
    assert AnyFrom(ps, 1, t) <==> Holds(b, t) || AnyFrom(ps, 2, t);
    assert AnyFrom(ps, 0, t) <==> Holds(a, t) || AnyFrom(ps, 1, t);
  }

  lemma All2(a: Cfg, b: Cfg, t: Target)
    ensures Holds(All([a, b]), t) <==> Holds(a, t) && Holds(b, t)
  {
    var ps := [a, b];
    assert AllFrom(ps, 2, t);
    assert AllFrom(ps, 1, t) <==> Holds(b, t);
    assert AllFrom(ps, 0, t) <==> Holds(a, t) && AllFrom(ps, 1, t);
  }

  lemma All3(a: Cfg, b: Cfg, c: Cfg, t: Target)
    ensures Holds(All([a, b, c]), t) <==> Holds(a, t) && Holds(b, t) && Holds(c, t)
  {
    var ps := [a, b, c];
    assert AllFrom(ps, 3, t);
    assert AllFrom(ps, 2, t) <==> Holds(c, t);
    assert AllFrom(ps, 1, t) <==> Holds(b, t) && AllFrom(ps, 2, t);
    assert AllFrom(ps, 0, t) <==> Holds(a, t) && AllFrom(ps, 1, t);
  }

  /** One arm of a `cfg_if!`: the body compiled when `cond` is the first condition to hold. */
  datatype Branch<T> = Branch(cond: Cfg, body: T)

  /** The final `else { ... }` of a `cfg_if!` is an arm whose condition is `all()`. */
  function Else<T>(body: T): (a: Branch<T>)
    ensures forall t :: Holds(a.cond, t)
  {
    Branch(All([]), body)
  }

  function Conds<T>(arms: seq<Branch<T>>): (cs: seq<Cfg>)
    ensures |cs| == |arms|
    ensures forall i :: 0 <= i < |arms| ==> cs[i] == arms[i].cond
  {
    if arms == [] then [] else [arms[0].cond] + Conds(arms[1..])
  }

  /**
   * The `cfg` attribute that `cfg_if!` puts on the body of arm `i`: its own condition,
   * and none of the conditions written before it.
   */
  function Gate<T>(arms: seq<Branch<T>>, i: nat): Cfg
    requires i < |arms|
  {
    All([arms[i].cond, Not(Any(Conds(arms[..i])))])
  }

  /** The index of the first arm whose condition holds, if any. */
  function FirstMatch<T>(arms: seq<Branch<T>>, t: Target): (r: Option<nat>)
    ensures r.Some? ==> r.value < |arms| && Holds(arms[r.value].cond, t)
    ensures r.Some? ==> forall j :: 0 <= j < r.value ==> !Holds(arms[j].cond, t)
    ensures r.None? ==> forall j :: 0 <= j < |arms| ==> !Holds(arms[j].cond, t)
    decreases |arms|
  {
    if |arms| == 0 then None
    else if Holds(arms[0].cond, t) then Some(0)
    else match FirstMatch(arms[1..], t)
      case None => None
      case Some(k) => Some(k + 1)
  }

  /** Two cascades whose conditions agree arm by arm on a target pick the same arm for it. */
  lemma {:induction false} SameCondsSameMatch<T>(a: seq<Branch<T>>, b: seq<Branch<T>>, t: Target)
    requires |a| == |b|
    requires forall i | 0 <= i < |a| :: Holds(a[i].cond, t) == Holds(b[i].cond, t)
    ensures FirstMatch(a, t) == FirstMatch(b, t)
    decreases |a|
  {
    if |a| > 0 && !Holds(a[0].cond, t) {
      SameCondsSameMatch(a[1..], b[1..], t);
    }
  }

  /** The body a `cfg_if!` compiles for a target: that of the first arm that holds. */
  function CfgIf<T>(arms: seq<Branch<T>>, t: Target): (r: Option<T>)
    ensures r.Some? <==> exists i :: 0 <= i < |arms| && Holds(arms[i].cond, t)
    ensures r.Some? ==> exists i :: 0 <= i < |arms| && Holds(arms[i].cond, t)
                          && (forall j :: 0 <= j < i ==> !Holds(arms[j].cond, t))
                          && r.value == arms[i].body
  {
    match FirstMatch(arms, t)
    case None => None
    case Some(i) => Some(arms[i].body)
  }

  /** The gate of arm `i` holds exactly when arm `i` is the first arm that holds. */
  lemma {:induction false} GateHoldsIffFirst<T>(arms: seq<Branch<T>>, i: nat, t: Target)
    requires i < |arms|
    ensures Holds(Gate(arms, i), t) <==> FirstMatch(arms, t) == Some(i)
  {
    var earlier := Conds(arms[..i]);
    AnyHoldsIffSome(earlier, t);
    var both := [arms[i].cond, Not(Any(earlier))];
    assert AllFrom(both, 2, t);
    assert AllFrom(both, 1, t) <==> !Holds(Any(earlier), t);
    assert forall j :: 0 <= j < i ==> earlier[j] == arms[j].cond;
  }

  /** `cfg_if!` never compiles two bodies for one target. */
  lemma GatesExclusive<T>(arms: seq<Branch<T>>, i: nat, j: nat, t: Target)
    requires i < |arms| && j < |arms| && i != j
    ensures !(Holds(Gate(arms, i), t) && Holds(Gate(arms, j), t))
  {
    GateHoldsIffFirst(arms, i, t);
    GateHoldsIffFirst(arms, j, t);
  }

  /** A `cfg_if!` ending in `else` compiles exactly one body for every target. */
  lemma ElseMakesTotal<T>(arms: seq<Branch<T>>, t: Target)
    requires |arms| > 0 && arms[|arms| - 1].cond == All([])
    ensures FirstMatch(arms, t).Some?
    ensures exists i :: 0 <= i < |arms| && Holds(Gate(arms, i), t)
  {
    var i := FirstMatch(arms, t).value;
    GateHoldsIffFirst(arms, i, t);
  }
}
