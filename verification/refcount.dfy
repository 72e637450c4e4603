/**
 * Manual reference counting of backend buffers, as done by `Ref::retain`,
 * `Ref::release` and the `CC_SAFE_RETAIN` / `CC_SAFE_RELEASE` macros.
 *
 * The shared heap is a map from buffer ids to reference counts. A buffer whose
 * count is 0 has been deleted or was never allocated; the allocator may hand a
 * deleted id out again, as an allocator may reuse an address.
 */
module RefCount {
  import opened Wrappers

  /** Identity of a backend buffer (the `backend::Buffer*` pointer value). */
  type BufferId = nat

  type RefCounts = map<BufferId, nat>

  /** Reference count of `b`; 0 for a buffer that is deleted or was never allocated. */
  function Count(rc: RefCounts, b: BufferId): nat
  {
    if b in rc then rc[b] else 0
  }

  /** A buffer is alive while somebody holds a reference to it. */
  predicate Live(rc: RefCounts, b: BufferId)
  {
    Count(rc, b) >= 1
  }

  /** 1 if the (possibly null) pointer `p` points at `b`, else 0. */
  function Ref(p: Option<BufferId>, b: BufferId): nat
  {
    if p == Some(b) then 1 else 0
  }

  /** `Ref::retain`: the buffer must be alive; its count goes up by one. */
  function Retain(rc: RefCounts, b: BufferId): (r: RefCounts)
    requires Live(rc, b)
    ensures Count(r, b) == Count(rc, b) + 1
    ensures forall x :: x != b ==> Count(r, x) == Count(rc, x)
  {
    rc[b := rc[b] + 1]
  }

  /**
   * `Ref::release`: the buffer must be alive; its count goes down by one and
   * the buffer is deleted exactly when the count reaches zero.
   */
  function Release(rc: RefCounts, b: BufferId): (r: RefCounts)
    requires Live(rc, b)
    ensures Count(r, b) == Count(rc, b) - 1
    ensures !Live(r, b) <==> Count(rc, b) == 1
    ensures forall x :: x != b ==> Count(r, x) == Count(rc, x)
  {
    rc[b := rc[b] - 1]
  }

  /** `CC_SAFE_RETAIN(p)`: retain when `p` is not null, otherwise do nothing. */
  function SafeRetain(rc: RefCounts, p: Option<BufferId>): (r: RefCounts)
    requires p.Some? ==> Live(rc, p.value)
    ensures forall x :: Count(r, x) == Count(rc, x) + Ref(p, x)
  {
    match p
    case None => rc
    case Some(b) => Retain(rc, b)
  }

  /** `CC_SAFE_RELEASE(p)`: release when `p` is not null, otherwise do nothing. */
  function SafeRelease(rc: RefCounts, p: Option<BufferId>): (r: RefCounts)
    requires p.Some? ==> Live(rc, p.value)
    ensures forall x :: Count(r, x) == Count(rc, x) - Ref(p, x)
  {
    match p
    case None => rc
    case Some(b) => Release(rc, b)
  }

  /**
   * The device's answer to `newBuffer` is usable: either allocation failed
   * (null), or the returned buffer is not alive once `released` has lost the
   * one reference about to be dropped.
   */
  predicate FreshAfter(rc: RefCounts, released: Option<BufferId>, answer: Option<BufferId>)
  {
    answer.Some? ==> Count(rc, answer.value) == Ref(released, answer.value)
  }

  /**
   * Registers the result of `Device::newBuffer`: a new buffer starts with
   * count 1, a reference owned by whoever asked for it; a null answer
   * (allocation failure) changes nothing.
   */
  function Allocate(rc: RefCounts, answer: Option<BufferId>): (r: RefCounts)
    requires answer.Some? ==> !Live(rc, answer.value)
    ensures answer.Some? ==> Count(r, answer.value) == 1
    ensures forall x :: Count(r, x) == Count(rc, x) + Ref(answer, x)
  {
    match answer
    case None => rc
    case Some(b) => rc[b := 1]
  }

}
