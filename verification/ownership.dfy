/**
 * Reference ownership across every `CustomCommand` object alive at once.
 *
 * A world is the sequence of live command objects (each slot is one object,
 * so two slots are two distinct objects and one slot is one object) and the
 * shared reference counts. Each non-null buffer field of each object owns one
 * reference. `Sound` says the counts cover all owned references, so no object
 * ever points at a deleted buffer; `Surplus` is the part of a buffer's count
 * that no command owns (references held by callers, or leaked ones).
 */
module Ownership {
  import opened Wrappers
  import opened RefCount
  import C = CustomCommand

  datatype World = World(cmds: seq<C.Command>, rc: RefCounts)

  /** References to `b` owned by the commands `cs`, one per buffer field pointing at it. */
  function Owned(cs: seq<C.Command>, b: BufferId): nat
    decreases |cs|
  {
    if |cs| == 0 then 0 else Owned(cs[..|cs| - 1], b) + C.Holds(cs[|cs| - 1], b)
  }

  /** The counts cover every reference the commands own. */
  ghost predicate Sound(w: World)
  {
    forall b :: Owned(w.cmds, b) <= Count(w.rc, b)
  }

  /** The references to `b` that no command owns. */
  function Surplus(w: World, b: BufferId): int
  {
    Count(w.rc, b) - Owned(w.cmds, b)
  }

  /** No buffer gained or lost a reference outside the commands' own ones: nothing leaked, nothing over-released. */
  ghost predicate Conserves(w: World, w': World)
  {
    forall b :: Surplus(w', b) == Surplus(w, b)
  }

  /** `cs` without the object in slot `i`. */
  function RemoveAt(cs: seq<C.Command>, i: nat): (r: seq<C.Command>)
    requires i < |cs|
    ensures |r| == |cs| - 1
    ensures forall k :: 0 <= k < i ==> r[k] == cs[k]
    ensures forall k :: i <= k < |r| ==> r[k] == cs[k + 1]
  {
    cs[..i] + cs[i + 1..]
  }

  // ---------------------------------------------------------------------
  // Counting owned references

  lemma {:induction false} OwnedConcat(a: seq<C.Command>, b: seq<C.Command>, x: BufferId)
    ensures Owned(a + b, x) == Owned(a, x) + Owned(b, x)
    decreases |b|
  {
    if |b| == 0 {
      assert a + b == a;
    } else {
      var b' := b[..|b| - 1];
      assert (a + b)[..|a + b| - 1] == a + b';
      assert (a + b)[|a + b| - 1] == b[|b| - 1];
      OwnedConcat(a, b', x);
    }
  }

  lemma OwnedSingle(c: C.Command, x: BufferId)
    ensures Owned([c], x) == C.Holds(c, x)
  {
  }

  /** Owned references split around slot `i`. */
  lemma OwnedSplit(cs: seq<C.Command>, i: nat, x: BufferId)
    requires i < |cs|
    ensures Owned(cs, x) == Owned(cs[..i], x) + C.Holds(cs[i], x) + Owned(cs[i + 1..], x)
  {
    assert cs == cs[..i] + [cs[i]] + cs[i + 1..];
    OwnedConcat(cs[..i] + [cs[i]], cs[i + 1..], x);
    OwnedConcat(cs[..i], [cs[i]], x);
    OwnedSingle(cs[i], x);
  }

  /** Replacing the object in slot `i` trades its references for the new object's. */
  lemma OwnedUpdate(cs: seq<C.Command>, i: nat, c: C.Command, x: BufferId)
    requires i < |cs|
    ensures Owned(cs[i := c], x) == Owned(cs, x) - C.Holds(cs[i], x) + C.Holds(c, x)
  {
    var cs' := cs[i := c];
    assert cs'[..i] == cs[..i] && cs'[i + 1..] == cs[i + 1..];
    OwnedSplit(cs, i, x);
    OwnedSplit(cs', i, x);
  }

  /** Removing slot `i` gives up exactly that object's references. */
  lemma OwnedRemove(cs: seq<C.Command>, i: nat, x: BufferId)
    requires i < |cs|
    ensures Owned(RemoveAt(cs, i), x) == Owned(cs, x) - C.Holds(cs[i], x)
  {
    OwnedSplit(cs, i, x);
    OwnedConcat(cs[..i], cs[i + 1..], x);
  }

  /** Appending an object adds exactly its references. */
  lemma OwnedAppend(cs: seq<C.Command>, c: C.Command, x: BufferId)
    ensures Owned(cs + [c], x) == Owned(cs, x) + C.Holds(c, x)
  {
  }

  /** Two distinct objects together own no more than all objects do. */
  lemma HeldPairWithinOwned(cs: seq<C.Command>, i: nat, j: nat, x: BufferId)
    requires i < |cs| && j < |cs| && i != j
    ensures C.Holds(cs[i], x) + C.Holds(cs[j], x) <= Owned(cs, x)
  {
    var blank := cs[i].(vertexBuffer := None, indexBuffer := None);
    OwnedUpdate(cs, i, blank, x);
    OwnedSplit(cs[i := blank], j, x);
  }

  /**
   * In a sound world every object is backed by the counts on its own, so in
   * particular no object points at a deleted buffer.
   */
  lemma SoundBacksEach(w: World, i: nat)
    requires Sound(w) && i < |w.cmds|
    ensures C.Backed(w.cmds[i], w.rc)
    ensures C.BuffersLive(w.cmds[i], w.rc)
  {
    forall x ensures C.Holds(w.cmds[i], x) <= Count(w.rc, x) {
      OwnedSplit(w.cmds, i, x);
    }
    var c := w.cmds[i];
    if c.vertexBuffer.Some? {
      assert C.Holds(c, c.vertexBuffer.value) >= 1;
    }
    if c.indexBuffer.Some? {
      assert C.Holds(c, c.indexBuffer.value) >= 1;
    }
  }

  /** A world reached without leaking or over-releasing from a sound world is sound. */
  lemma ConservesKeepsSound(w: World, w': World)
    requires Sound(w) && Conserves(w, w')
    ensures Sound(w')
  {
    forall b ensures Owned(w'.cmds, b) <= Count(w'.rc, b) {
      assert Surplus(w', b) == Surplus(w, b);
    }
  }

  /**
   * Replacing slot `i` by an object and counts that keep every buffer's
   * unowned part unchanged conserves the whole world.
   */
  lemma ReplaceConserves(w: World, i: nat, e: C.Effect)
    requires i < |w.cmds|
    requires forall b :: Count(e.rc, b) - C.Holds(e.cmd, b) == Count(w.rc, b) - C.Holds(w.cmds[i], b)
    ensures Conserves(w, World(w.cmds[i := e.cmd], e.rc))
  {
    forall b ensures Surplus(World(w.cmds[i := e.cmd], e.rc), b) == Surplus(w, b) {
      OwnedUpdate(w.cmds, i, e.cmd, b);
    }
  }

  // ---------------------------------------------------------------------
  // Object lifetime: copy construction, assignment, destruction

  /** `CustomCommand copy(w.cmds[j])`: a new object equal to the source; the source is untouched. */
  function CopyConstructAt(w: World, j: nat): (w': World)
    requires Sound(w) && j < |w.cmds|
    ensures |w'.cmds| == |w.cmds| + 1
    ensures w'.cmds[..|w.cmds|] == w.cmds
    ensures w'.cmds[|w.cmds|] == w.cmds[j]
    ensures forall b :: Count(w'.rc, b) == Count(w.rc, b) + C.Holds(w.cmds[j], b)
  {
    SoundBacksEach(w, j);
    var e := C.CopyConstruct(w.cmds[j], w.rc);
    var cs := w.cmds + [e.cmd];
    assert cs[..|w.cmds|] == w.cmds;
    World(cs, e.rc)
  }

  /**
   * `w.cmds[i] = w.cmds[j]`: the base object is assigned, then
   * `cleanupInternal` empties the target and `copyInternal` copies from the
   * source as it is AFTER that cleanup. For two distinct objects the target
   * becomes a copy of the source; for self-assignment the source was just
   * emptied, so both buffers end null and each loses its reference.
   */
  function AssignAt(w: World, i: nat, j: nat): (w': World)
    requires Sound(w) && i < |w.cmds| && j < |w.cmds|
    ensures |w'.cmds| == |w.cmds|
    ensures forall k :: 0 <= k < |w.cmds| && k != i ==> w'.cmds[k] == w.cmds[k]
    ensures i != j ==> w'.cmds[i] == w.cmds[j]
    ensures i != j ==> forall b :: Count(w'.rc, b) == Count(w.rc, b) - C.Holds(w.cmds[i], b) + C.Holds(w.cmds[j], b)
    ensures i == j ==> w'.cmds[i] == w.cmds[i].(vertexBuffer := None, indexBuffer := None)
    ensures i == j ==> forall b :: Count(w'.rc, b) == Count(w.rc, b) - C.Holds(w.cmds[i], b)
  {
    SoundBacksEach(w, i);
    var target := w.cmds[i].(base := w.cmds[j].base);
    assert forall b :: C.Holds(target, b) == C.Holds(w.cmds[i], b);
    var cleaned := C.CleanupInternal(target, w.rc);
    var cs := w.cmds[i := cleaned.cmd];
    var source := cs[j];
    assert C.BuffersLive(source, cleaned.rc) by {
      if i != j {
        forall x | C.Holds(source, x) >= 1 ensures Live(cleaned.rc, x) {
          HeldPairWithinOwned(w.cmds, i, j, x);
        }
        if source.vertexBuffer.Some? {
          assert C.Holds(source, source.vertexBuffer.value) >= 1;
        }
        if source.indexBuffer.Some? {
          assert C.Holds(source, source.indexBuffer.value) >= 1;
        }
      }
    }
    var copied := C.CopyInternal(cs[i], source, cleaned.rc);
    World(cs[i := copied.cmd], copied.rc)
  }

  /** The destructor of the object in slot `i`: its references are released and the slot disappears. */
  function DestroyAt(w: World, i: nat): (w': World)
    requires Sound(w) && i < |w.cmds|
    ensures w'.cmds == RemoveAt(w.cmds, i)
    ensures forall b :: Count(w'.rc, b) == Count(w.rc, b) - C.Holds(w.cmds[i], b)
  {
    SoundBacksEach(w, i);
    World(RemoveAt(w.cmds, i), C.Destroy(w.cmds[i], w.rc))
  }

  lemma CopyConstructKeepsBalance(w: World, j: nat)
    requires Sound(w) && j < |w.cmds|
    ensures Sound(CopyConstructAt(w, j))
    ensures Conserves(w, CopyConstructAt(w, j))
  {
  }

  lemma AssignKeepsBalance(w: World, i: nat, j: nat)
    requires Sound(w) && i < |w.cmds| && j < |w.cmds|
    ensures Sound(AssignAt(w, i, j))
    ensures Conserves(w, AssignAt(w, i, j))
  {
    var w' := AssignAt(w, i, j);
    assert w'.cmds == w.cmds[i := w'.cmds[i]];
    forall b ensures Surplus(w', b) == Surplus(w, b) && Owned(w'.cmds, b) <= Count(w'.rc, b) {
      OwnedUpdate(w.cmds, i, w'.cmds[i], b);
    }
  }

  lemma DestroyKeepsBalance(w: World, i: nat)
    requires Sound(w) && i < |w.cmds|
    ensures Sound(DestroyAt(w, i))
    ensures Conserves(w, DestroyAt(w, i))
  {
    var w' := DestroyAt(w, i);
    forall b ensures Surplus(w', b) == Surplus(w, b) && Owned(w'.cmds, b) <= Count(w'.rc, b) {
      OwnedRemove(w.cmds, i, b);
    }
  }

  /** Copying a command and destroying the copy leaves every object and every count as before. */
  lemma CopyThenDestroyRestores(w: World, j: nat)
    requires Sound(w) && j < |w.cmds|
    ensures Sound(CopyConstructAt(w, j))
    ensures DestroyAt(CopyConstructAt(w, j), |w.cmds|).cmds == w.cmds
    ensures forall b :: Count(DestroyAt(CopyConstructAt(w, j), |w.cmds|).rc, b) == Count(w.rc, b)
  {
  }

  // ---------------------------------------------------------------------
  // The public operations on one object

  datatype Op =
    | OpInitOrder(globalZOrder: C.Float)
    | OpInitBlend(globalZOrder: C.Float, blendFunc: C.BlendFunc)
    | OpCreateVertexBuffer(vertexSize: C.u32, capacity: C.u32, usage: C.BufferUsage, answer: Option<BufferId>)
    | OpCreateIndexBuffer(format: C.IndexFormat, capacity: C.u32, usage: C.BufferUsage, answer: Option<BufferId>)
    | OpSetVertexBuffer(buffer: Option<BufferId>)
    | OpSetIndexBuffer(buffer: Option<BufferId>, format: C.IndexFormat)
    | OpUpdateVertexBufferAt(data: seq<bv8>, offset: C.u32, length: C.u32)
    | OpUpdateIndexBufferAt(data: seq<bv8>, offset: C.u32, length: C.u32)
    | OpUpdateVertexBuffer(data: seq<bv8>, length: C.u32)
    | OpUpdateIndexBuffer(data: seq<bv8>, length: C.u32)

  /** What each operation demands of its caller beyond a sound world. */
  predicate Allowed(c: C.Command, rc: RefCounts, op: Op)
  {
    match op
    case OpCreateVertexBuffer(_, _, _, answer) => FreshAfter(rc, c.vertexBuffer, answer)
    case OpCreateIndexBuffer(_, _, _, answer) => FreshAfter(rc, c.indexBuffer, answer)
    case OpSetVertexBuffer(buffer) => buffer.Some? ==> Live(rc, buffer.value)
    case OpSetIndexBuffer(buffer, _) => buffer.Some? ==> Live(rc, buffer.value)
    case OpUpdateVertexBufferAt(_, _, _) => c.vertexBuffer.Some?
    case OpUpdateVertexBuffer(_, _) => c.vertexBuffer.Some?
    case OpUpdateIndexBufferAt(_, _, _) => c.indexBuffer.Some?
    case OpUpdateIndexBuffer(_, _) => c.indexBuffer.Some?
    case _ => true
  }

  /**
   * The references an operation leaks: a setter that changes the pointer (or,
   * for the index buffer, the format) leaves the previously held buffer with
   * one reference nobody owns.
   */
  function Leaked(c: C.Command, op: Op, b: BufferId): nat
  {
    match op
    case OpSetVertexBuffer(buffer) =>
      if c.vertexBuffer != buffer then Ref(c.vertexBuffer, b) else 0
    case OpSetIndexBuffer(buffer, format) =>
      if c.indexBuffer != buffer || c.indexFormat != format then Ref(c.indexBuffer, b) else 0
    case _ => 0
  }

  /** One operation on one object, with the effect its C++ member function has. */
  function Apply(c: C.Command, rc: RefCounts, op: Op): (e: C.Effect)
    requires C.BuffersLive(c, rc) && Allowed(c, rc, op)
    ensures forall b :: Count(e.rc, b) - C.Holds(e.cmd, b) == Count(rc, b) - C.Holds(c, b) + Leaked(c, op, b)
    ensures C.IndexSizeConsistent(c) ==> C.IndexSizeConsistent(e.cmd)
  {
    match op
    case OpInitOrder(order) => C.Effect(C.InitOrder(c, order), rc)
    case OpInitBlend(order, blendFunc) => C.Effect(C.InitBlend(c, order, blendFunc), rc)
    case OpCreateVertexBuffer(vertexSize, capacity, usage, answer) =>
      var a := C.CreateVertexBuffer(c, rc, vertexSize, capacity, usage, answer);
      C.Effect(a.cmd, a.rc)
    case OpCreateIndexBuffer(format, capacity, usage, answer) =>
      var a := C.CreateIndexBuffer(c, rc, format, capacity, usage, answer);
      C.Effect(a.cmd, a.rc)
    case OpSetVertexBuffer(buffer) => C.SetVertexBuffer(c, rc, buffer)
    case OpSetIndexBuffer(buffer, format) => C.SetIndexBuffer(c, rc, buffer, format)
    case OpUpdateVertexBufferAt(data, offset, length) =>
      var u := C.UpdateVertexBufferAt(c, rc, data, offset, length);
      C.Effect(u.cmd, u.rc)
    case OpUpdateIndexBufferAt(data, offset, length) =>
      var u := C.UpdateIndexBufferAt(c, rc, data, offset, length);
      C.Effect(u.cmd, u.rc)
    case OpUpdateVertexBuffer(data, length) =>
      var u := C.UpdateVertexBuffer(c, rc, data, length);
      C.Effect(u.cmd, u.rc)
    case OpUpdateIndexBuffer(data, length) =>
      var u := C.UpdateIndexBuffer(c, rc, data, length);
      C.Effect(u.cmd, u.rc)
  }

  /** Operation `op` on the object in slot `i`; every other object is untouched. */
  function Step(w: World, i: nat, op: Op): (w': World)
    requires Sound(w) && i < |w.cmds| && Allowed(w.cmds[i], w.rc, op)
    ensures |w'.cmds| == |w.cmds|
    ensures forall k :: 0 <= k < |w.cmds| && k != i ==> w'.cmds[k] == w.cmds[k]
  {
    SoundBacksEach(w, i);
    var e := Apply(w.cmds[i], w.rc, op);
    World(w.cmds[i := e.cmd], e.rc)
  }

  /**
   * Every operation keeps each buffer's unowned references, except that a
   * setter which changes its pointer (or index format) leaks exactly one
   * reference to the buffer held before.
   */
  lemma StepSurplus(w: World, i: nat, op: Op)
    requires Sound(w) && i < |w.cmds| && Allowed(w.cmds[i], w.rc, op)
    ensures forall b :: Surplus(Step(w, i, op), b) == Surplus(w, b) + Leaked(w.cmds[i], op, b)
  {
    SoundBacksEach(w, i);
    var e := Apply(w.cmds[i], w.rc, op);
    assert Step(w, i, op) == World(w.cmds[i := e.cmd], e.rc);
    forall b ensures Surplus(Step(w, i, op), b) == Surplus(w, b) + Leaked(w.cmds[i], op, b) {
      OwnedUpdate(w.cmds, i, e.cmd, b);
    }
  }

  lemma StepKeepsBalance(w: World, i: nat, op: Op)
    requires Sound(w) && i < |w.cmds| && Allowed(w.cmds[i], w.rc, op)
    ensures Sound(Step(w, i, op))
    ensures !op.OpSetVertexBuffer? && !op.OpSetIndexBuffer? ==> Conserves(w, Step(w, i, op))
  {
    StepSurplus(w, i, op);
  }

  // ---------------------------------------------------------------------
  // Whole programs

  /** One statement of a program using the command API. */
  datatype Action =
    | CopyStmt(source: nat)
    | AssignStmt(target: nat, source: nat)
    | DestroyStmt(target: nat)
    | CallStmt(target: nat, op: Op)

  /** The statement's objects exist and its operation's demands are met. */
  predicate Permitted(w: World, a: Action)
  {
    match a
    case CopyStmt(j) => j < |w.cmds|
    case AssignStmt(i, j) => i < |w.cmds| && j < |w.cmds|
    case DestroyStmt(i) => i < |w.cmds|
    case CallStmt(i, op) => i < |w.cmds| && Allowed(w.cmds[i], w.rc, op)
  }

  predicate CallsNoSetter(script: seq<Action>)
  {
    forall k :: 0 <= k < |script| && script[k].CallStmt? ==>
      !script[k].op.OpSetVertexBuffer? && !script[k].op.OpSetIndexBuffer?
  }

  function Do(w: World, a: Action): (w': World)
    requires Sound(w) && Permitted(w, a)
    ensures Sound(w')
    ensures (a.CallStmt? ==> !a.op.OpSetVertexBuffer? && !a.op.OpSetIndexBuffer?) ==> Conserves(w, w')
  {
    match a
    case CopyStmt(j) => CopyConstructKeepsBalance(w, j); CopyConstructAt(w, j)
    case AssignStmt(i, j) => AssignKeepsBalance(w, i, j); AssignAt(w, i, j)
    case DestroyStmt(i) => DestroyKeepsBalance(w, i); DestroyAt(w, i)
    case CallStmt(i, op) => StepKeepsBalance(w, i, op); Step(w, i, op)
  }

  /**
   * Runs a program from a sound world; `None` when some statement violates
   * its precondition (a caller bug the C++ code meets with an assertion or
   * undefined behaviour). Every world reached is sound, and a program that
   * never calls a setter neither leaks nor over-releases any reference.
   */
  function Run(w: World, script: seq<Action>): (r: Option<World>)
    requires Sound(w)
    ensures r.Some? ==> Sound(r.value)
    ensures r.Some? && CallsNoSetter(script) ==> Conserves(w, r.value)
    decreases |script|
  {
    if |script| == 0 then Some(w)
    else if !Permitted(w, script[0]) then None
    else
      assert CallsNoSetter(script) ==> CallsNoSetter(script[1..]) by {
        if CallsNoSetter(script) {
          forall k | 0 <= k < |script[1..]| && script[1..][k].CallStmt?
            ensures !script[1..][k].op.OpSetVertexBuffer? && !script[1..][k].op.OpSetIndexBuffer?
          {
            assert script[1..][k] == script[k + 1];
          }
        }
      }
      Run(Do(w, script[0]), script[1..])
  }

  /** Every object's cached index size agrees with its index format. */
  predicate IndexSizesConsistent(w: World)
  {
    forall k :: 0 <= k < |w.cmds| ==> C.IndexSizeConsistent(w.cmds[k])
  }

  /**
   * Every statement keeps index sizes consistent: `createIndexBuffer` and a
   * changing `setIndexBuffer` recompute the size, copies carry it along, and
   * no other operation touches format or size. A short-circuited
   * `setIndexBuffer` recomputes nothing, so it would not repair a size that
   * was already wrong.
   */
  lemma DoKeepsIndexSizes(w: World, a: Action)
    requires Sound(w) && Permitted(w, a) && IndexSizesConsistent(w)
    ensures IndexSizesConsistent(Do(w, a))
  {
  }

  /** A program run from consistent index sizes ends with consistent index sizes. */
  lemma {:induction false} RunKeepsIndexSizes(w: World, script: seq<Action>)
    requires Sound(w) && IndexSizesConsistent(w)
    ensures Run(w, script).Some? ==> IndexSizesConsistent(Run(w, script).value)
    decreases |script|
  {
    if |script| > 0 && Permitted(w, script[0]) {
      DoKeepsIndexSizes(w, script[0]);
      RunKeepsIndexSizes(Do(w, script[0]), script[1..]);
    }
  }

  /** After any program run from a sound world, no object points at a deleted buffer. */
  lemma RunNeverDangles(w: World, script: seq<Action>)
    requires Sound(w)
    ensures var r := Run(w, script);
            r.Some? ==> forall i :: 0 <= i < |r.value.cmds| ==> C.BuffersLive(r.value.cmds[i], r.value.rc)
  {
    var r := Run(w, script);
    if r.Some? {
      forall i | 0 <= i < |r.value.cmds| ensures C.BuffersLive(r.value.cmds[i], r.value.rc) {
        SoundBacksEach(r.value, i);
      }
    }
  }

}
