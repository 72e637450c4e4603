/**
 * Three behaviours of the C++ code that break the ownership rule "each
 * non-null buffer field owns exactly one reference": each is stated as
 * written, next to a corrected operation that keeps every count balanced.
 */
module Findings {
  import opened Wrappers
  import opened RefCount
  import C = CustomCommand
  import opened Ownership

  // ---------------------------------------------------------------------
  // Self-assignment

  /**
   * As written, `cmd = cmd` runs `cleanupInternal()` on the object it is
   * about to copy from: the command loses its vertex buffer, and a buffer it
   * was the only owner of is deleted.
   */
  lemma SelfAssignDropsBuffers(w: World, i: nat, b: BufferId)
    requires Sound(w) && i < |w.cmds|
    requires w.cmds[i].vertexBuffer == Some(b) && Count(w.rc, b) == C.Holds(w.cmds[i], b)
    ensures AssignAt(w, i, i).cmds[i].vertexBuffer == None
    ensures !Live(AssignAt(w, i, i).rc, b)
  {
  }

  /**
   * `operator=` guarded against self-assignment: assigning an object to
   * itself changes nothing; assigning from another object copies it, and
   * either way no reference leaks or is over-released.
   */
  function AssignGuarded(w: World, i: nat, j: nat): (w': World)
    requires Sound(w) && i < |w.cmds| && j < |w.cmds|
    ensures i == j ==> w' == w
    ensures |w'.cmds| == |w.cmds| && w'.cmds[i] == w.cmds[j]
    ensures forall k :: 0 <= k < |w.cmds| && k != i ==> w'.cmds[k] == w.cmds[k]
    ensures Sound(w') && Conserves(w, w')
  {
    if i == j then w
    else
      AssignKeepsBalance(w, i, j);
      AssignAt(w, i, j)
  }

  // ---------------------------------------------------------------------
  // Setters that do not release

  /**
   * As written, `setVertexBuffer` with a different pointer leaves the
   * previously held buffer with one reference more than its owners hold.
   */
  lemma SetVertexBufferLeaksOld(w: World, i: nat, previous: BufferId, buffer: Option<BufferId>)
    requires Sound(w) && i < |w.cmds|
    requires w.cmds[i].vertexBuffer == Some(previous) && buffer != Some(previous)
    requires buffer.Some? ==> Live(w.rc, buffer.value)
    ensures Surplus(Step(w, i, OpSetVertexBuffer(buffer)), previous) == Surplus(w, previous) + 1
  {
    StepSurplus(w, i, OpSetVertexBuffer(buffer));
  }

  /**
   * As written, `setIndexBuffer` with the buffer already held but another
   * format retains that buffer a second time, though the command still holds
   * it only once.
   */
  lemma SetIndexBufferRetainsTwice(w: World, i: nat, b: BufferId, format: C.IndexFormat)
    requires Sound(w) && i < |w.cmds|
    requires w.cmds[i].indexBuffer == Some(b) && w.cmds[i].indexFormat != format && Live(w.rc, b)
    ensures Step(w, i, OpSetIndexBuffer(Some(b), format)).cmds[i].indexBuffer == Some(b)
    ensures Count(Step(w, i, OpSetIndexBuffer(Some(b), format)).rc, b) == Count(w.rc, b) + 1
    ensures Surplus(Step(w, i, OpSetIndexBuffer(Some(b), format)), b) == Surplus(w, b) + 1
  {
    SoundBacksEach(w, i);
    StepSurplus(w, i, OpSetIndexBuffer(Some(b), format));
  }

  /**
   * `setVertexBuffer` that releases what it replaces: the same pointer is a
   * no-op; another pointer is retained and the old one released, so the
   * command's unowned references stay as they were.
   */
  function SetVertexBufferReleasing(c: C.Command, rc: RefCounts, buffer: Option<BufferId>): (r: C.Effect)
    requires c.vertexBuffer.Some? ==> Live(rc, c.vertexBuffer.value)
    requires buffer.Some? ==> Live(rc, buffer.value)
    ensures c.vertexBuffer == buffer ==> r == C.Effect(c, rc)
    ensures r.cmd == c.(vertexBuffer := buffer)
    ensures forall b :: Count(r.rc, b) - C.Holds(r.cmd, b) == Count(rc, b) - C.Holds(c, b)
  {
    if c.vertexBuffer == buffer then C.Effect(c, rc)
    else
      var rc1 := SafeRetain(rc, buffer);
      C.Effect(c.(vertexBuffer := buffer), SafeRelease(rc1, c.vertexBuffer))
  }

  /**
   * `setIndexBuffer` that releases what it replaces: a new format for the
   * same pointer touches no count; another pointer is retained and the old
   * one released. Format and index size are kept consistent.
   */
  function SetIndexBufferReleasing(c: C.Command, rc: RefCounts, buffer: Option<BufferId>,
                                   format: C.IndexFormat): (r: C.Effect)
    requires c.indexBuffer.Some? ==> Live(rc, c.indexBuffer.value)
    requires buffer.Some? ==> Live(rc, buffer.value)
    ensures c.indexBuffer == buffer && c.indexFormat == format ==> r == C.Effect(c, rc)
    ensures r.cmd.indexBuffer == buffer && r.cmd.indexFormat == format
    ensures C.IndexSizeConsistent(c) ==> C.IndexSizeConsistent(r.cmd)
    ensures forall b :: Count(r.rc, b) - C.Holds(r.cmd, b) == Count(rc, b) - C.Holds(c, b)
  {
    if c.indexBuffer == buffer && c.indexFormat == format then C.Effect(c, rc)
    else
      var c1 := c.(indexBuffer := buffer, indexFormat := format, indexSize := C.ComputeIndexSize(format));
      if c.indexBuffer == buffer then C.Effect(c1, rc)
      else
        var rc1 := SafeRetain(rc, buffer);
        C.Effect(c1, SafeRelease(rc1, c.indexBuffer))
  }

  /** The releasing vertex setter on slot `i` neither leaks nor over-releases. */
  function SetVertexBufferReleasingAt(w: World, i: nat, buffer: Option<BufferId>): (w': World)
    requires Sound(w) && i < |w.cmds|
    requires buffer.Some? ==> Live(w.rc, buffer.value)
    ensures |w'.cmds| == |w.cmds| && w'.cmds[i].vertexBuffer == buffer
    ensures forall k :: 0 <= k < |w.cmds| && k != i ==> w'.cmds[k] == w.cmds[k]
    ensures Sound(w') && Conserves(w, w')
  {
    SoundBacksEach(w, i);
    var e := SetVertexBufferReleasing(w.cmds[i], w.rc, buffer);
    ReplaceConserves(w, i, e);
    ConservesKeepsSound(w, World(w.cmds[i := e.cmd], e.rc));
    World(w.cmds[i := e.cmd], e.rc)
  }

  /** The releasing index setter on slot `i` neither leaks nor over-releases. */
  function SetIndexBufferReleasingAt(w: World, i: nat, buffer: Option<BufferId>, format: C.IndexFormat): (w': World)
    requires Sound(w) && i < |w.cmds|
    requires buffer.Some? ==> Live(w.rc, buffer.value)
    ensures |w'.cmds| == |w.cmds| && w'.cmds[i].indexBuffer == buffer && w'.cmds[i].indexFormat == format
    ensures forall k :: 0 <= k < |w.cmds| && k != i ==> w'.cmds[k] == w.cmds[k]
    ensures Sound(w') && Conserves(w, w')
  {
    SoundBacksEach(w, i);
    var e := SetIndexBufferReleasing(w.cmds[i], w.rc, buffer, format);
    ReplaceConserves(w, i, e);
    ConservesKeepsSound(w, World(w.cmds[i := e.cmd], e.rc));
    World(w.cmds[i := e.cmd], e.rc)
  }

}
