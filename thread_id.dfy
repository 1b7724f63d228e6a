/**
 * What the compiled `tid_impl` returns. A `usize` of pointer width `w` is a
 * natural number below 2^w; `!0usize`, all ones, is 2^w - 1. The values the
 * platform supplies (addresses, register contents, the results of
 * `pthread_self` and `GetCurrentThreadId`) are parameters.
 */
module ThreadId {
  import opened Compilation

  function Pow2(n: nat): (r: nat)
    ensures r >= 1
  {
    if n == 0 then 1 else 2 * Pow2(n - 1)
  }

  lemma {:induction false} Pow2Monotone(a: nat, b: nat)
    requires a <= b
    ensures Pow2(a) <= Pow2(b)
    decreases b
  {
    if a < b {
      Pow2Monotone(a, b - 1);
    }
  }

  /** `!0usize` for pointer width `w`. */
  function AllOnes(w: nat): (r: nat)
    requires w > 0
    ensures r > 0 && r == Pow2(w) - 1
  {
    Pow2Monotone(1, w);
    Pow2(w) - 1
  }

  /** A returned identifier, or the panic of the `assert!`. */
  datatype Outcome = Id(value: nat) | Panic(message: string)

  const SentinelAssertMessage := "assertion failed: thread_id != !0usize"

  /**
   * The handling of `pthread_self()`: 0 becomes `!0usize`, a raw `!0usize`
   * panics, every other value is returned as it is.
   */
  function NormalizePthreadSelf(raw: nat, w: nat): (r: Outcome)
    requires w > 0 && raw < Pow2(w)
    ensures r.Panic? <==> raw == AllOnes(w)
    ensures r.Id? ==> 0 < r.value < Pow2(w)
    ensures raw == 0 ==> r == Id(AllOnes(w))
    ensures raw != 0 && raw != AllOnes(w) ==> r == Id(raw)
  {
    if raw == 0 then Id(AllOnes(w))
    else if raw == AllOnes(w) then Panic(SentinelAssertMessage)
    else Id(raw)
  }

  /** Recovers the raw `pthread_self()` value from the identifier returned for it. */
  function RawHandle(id: nat, w: nat): nat
    requires w > 0
  {
    if id == AllOnes(w) then 0 else id
  }

  /** Every value that does not panic is recovered from its identifier. */
  lemma NormalizeRoundTrip(raw: nat, w: nat)
    requires w > 0 && raw < Pow2(w) && raw != AllOnes(w)
    ensures NormalizePthreadSelf(raw, w).Id?
    ensures RawHandle(NormalizePthreadSelf(raw, w).value, w) == raw
  {
  }

  /** Distinct raw handles give distinct identifiers. */
  lemma NormalizeInjective(a: nat, b: nat, w: nat)
    requires w > 0 && a < Pow2(w) && b < Pow2(w)
    requires NormalizePthreadSelf(a, w).Id? && NormalizePthreadSelf(b, w).Id?
    requires NormalizePthreadSelf(a, w) == NormalizePthreadSelf(b, w)
    ensures a == b
  {
    NormalizeRoundTrip(a, w);
    NormalizeRoundTrip(b, w);
  }

  /** `a % b` is `a` when `a` is already below `b`. */
  lemma ModBelow(a: nat, b: nat)
    requires a < b
    ensures a % b == a
  {
  }

  /** `GetCurrentThreadId() as usize`: a `u32` cast to `usize`. */
  function WidenThreadId(id: nat, w: nat): (r: nat)
    requires id < Pow2(32)
    ensures r < Pow2(w)
    ensures w >= 32 ==> r == id
  {
    if w >= 32 then
      Pow2Monotone(32, w);
      ModBelow(id, Pow2(w));
      id % Pow2(w)
    else
      id % Pow2(w)
  }

  /** What the platform supplies when `tid_impl` runs, each a `usize` (the thread id a `u32`). */
  datatype Machine = Machine(
    staticByteAddress: nat,
    threadPointer: nat,
    pthreadSelf: nat,
    currentThreadId: nat,
    threadLocalAddress: nat)

  /**
   * What the compiled body relies on without checking it: a static or
   * thread-local address is never null, the register holds a non-zero
   * pointer, `GetCurrentThreadId` never returns 0 (and windows pointers are
   * at least 32 bits wide). `pthread_self` may return anything.
   */
  predicate PlatformContract(impl: TidImpl, w: nat, m: Machine) {
    && w > 0
    && (impl == StaticByteAddress ==> 0 < m.staticByteAddress < Pow2(w))
    && (impl.ReadRegister? ==> 0 < m.threadPointer < Pow2(w))
    && (impl == CallPthreadSelf ==> m.pthreadSelf < Pow2(w))
    && (impl == CallGetCurrentThreadId ==> 0 < m.currentThreadId < Pow2(32) && w >= 32)
    && (impl == ThreadLocalAddress ==> 0 < m.threadLocalAddress < Pow2(w))
  }

  /**
   * One call of the compiled `tid_impl`. Under the platform's contract the
   * result is a non-zero `usize`, and only the `pthread_self` body can panic,
   * exactly when the raw handle is `!0usize`.
   */
  function Tid(impl: TidImpl, w: nat, m: Machine): (r: Outcome)
    requires PlatformContract(impl, w, m)
    ensures r.Id? ==> 0 < r.value < Pow2(w)
    ensures r.Panic? <==> impl == CallPthreadSelf && m.pthreadSelf == AllOnes(w)
  {
    match impl
    case StaticByteAddress => Id(m.staticByteAddress)
    case ReadRegister(_) => Id(m.threadPointer)
    case CallPthreadSelf => NormalizePthreadSelf(m.pthreadSelf, w)
    case CallGetCurrentThreadId => Id(WidenThreadId(m.currentThreadId, w))
    case ThreadLocalAddress => Id(m.threadLocalAddress)
  }
}
