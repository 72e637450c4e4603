/**
 * `cocos2d::CustomCommand`: the resource-bookkeeping half of a render
 * command, as an immutable record. Every C++ member function becomes a pure
 * transition from a command (and, where buffers are retained or released,
 * the shared reference counts) to the new command (and new counts).
 */
module CustomCommand {
  import opened Wrappers
  import opened RefCount

  /** `unsigned int`: the width used for sizes and capacities. */
  const U32_MODULUS: int := 0x1_0000_0000

  type u32 = x: int | 0 <= x < U32_MODULUS

  /** `sizeof(unsigned short)` and `sizeof(unsigned int)` on the supported platforms. */
  const SIZEOF_USHORT: nat := 2
  const SIZEOF_UINT: nat := 4

  /** A `float` field (global order, line width): stored and copied, never computed with. */
  datatype Float = Float(bits: bv32)

  /** A value the model only copies: a `std::function` callback, base-class state, ... */
  datatype Opaque = Opaque(id: nat)

  datatype IndexFormat = U_SHORT | U_INT

  datatype DrawType = ARRAY | ELEMENT

  datatype PrimitiveType = POINT | LINE | LINE_STRIP | TRIANGLE | TRIANGLE_STRIP

  datatype BufferUsage = STATIC | DYNAMIC

  datatype BufferType = VERTEX | INDEX

  datatype BlendFactor =
    | ZERO | ONE
    | SRC_COLOR | ONE_MINUS_SRC_COLOR
    | SRC_ALPHA | ONE_MINUS_SRC_ALPHA
    | DST_COLOR | ONE_MINUS_DST_COLOR
    | DST_ALPHA | ONE_MINUS_DST_ALPHA
    | CONSTANT_ALPHA | SRC_ALPHA_SATURATE | ONE_MINUS_CONSTANT_ALPHA | BLEND_COLOR

  /** `BlendFunc`: one source and one destination factor. */
  datatype BlendFunc = BlendFunc(src: BlendFactor, dst: BlendFactor)

  /**
   * The blend part of the pipeline descriptor. `rest` stands for the
   * descriptor's other fields (blend operations, write mask), which no
   * operation here touches.
   */
  datatype BlendDescriptor = BlendDescriptor(
    blendEnabled: bool,
    sourceRGBBlendFactor: BlendFactor,
    destinationRGBBlendFactor: BlendFactor,
    sourceAlphaBlendFactor: BlendFactor,
    destinationAlphaBlendFactor: BlendFactor,
    rest: Opaque)

  /**
   * The `RenderCommand` base object, copied wholesale by its own copy
   * constructor and assignment operator. `rest` stands for its depth,
   * transform, flags, type tag and the rest of the pipeline descriptor.
   */
  datatype RenderBase = RenderBase(globalOrder: Float, blend: BlendDescriptor, rest: Opaque)

  datatype Command = Command(
    base: RenderBase,
    vertexBuffer: Option<BufferId>,
    indexBuffer: Option<BufferId>,
    vertexDrawStart: nat,
    vertexDrawCount: nat,
    indexDrawOffset: nat,
    indexDrawCount: nat,
    drawType: DrawType,
    primitiveType: PrimitiveType,
    indexFormat: IndexFormat,
    lineWidth: Float,
    indexSize: nat,
    vertexCapacity: nat,
    indexCapacity: nat,
    beforeCallback: Opaque,
    afterCallback: Opaque)

  /** A command together with the reference counts after one of its operations. */
  datatype Effect = Effect(cmd: Command, rc: RefCounts)

  /** What `Device::newBuffer` was asked for. */
  datatype BufferRequest = BufferRequest(size: u32, kind: BufferType, usage: BufferUsage)

  /** The result of a `create*Buffer` call: the new state and the device request it made. */
  datatype Allocation = Allocation(cmd: Command, rc: RefCounts, request: BufferRequest)

  /** The foreign call an `update*Buffer` makes on the buffer object. */
  datatype BufferCall =
    | UpdateSubData(buffer: BufferId, data: seq<bv8>, offset: u32, length: u32)
    | UpdateData(buffer: BufferId, data: seq<bv8>, length: u32)

  /** The result of an `update*Buffer` call: the state after it and the call it made. */
  datatype Update = Update(cmd: Command, rc: RefCounts, call: BufferCall)

  /** `unsigned int` multiplication, which wraps around modulo 2^32. */
  function MulU32(a: u32, b: u32): (r: u32)
    ensures a * b < U32_MODULUS ==> r == a * b
    ensures (r - a * b) % U32_MODULUS == 0
  {
    (a * b) % U32_MODULUS
  }

  // ---------------------------------------------------------------------
  // Index size

  /** `computeIndexSize`: 2 bytes for `U_SHORT`, 4 bytes for every other format. */
  function ComputeIndexSize(format: IndexFormat): (r: nat)
    ensures r == SIZEOF_USHORT <==> format == U_SHORT
    ensures format != U_SHORT ==> r == SIZEOF_UINT
  {
    if format == U_SHORT then SIZEOF_USHORT else SIZEOF_UINT
  }

  /** The cached `_indexSize` agrees with `_indexFormat`. */
  predicate IndexSizeConsistent(c: Command)
  {
    c.indexSize == ComputeIndexSize(c.indexFormat)
  }

  // ---------------------------------------------------------------------
  // Ownership

  /** How many references to `b` the command owns: one per buffer field pointing at it. */
  function Holds(c: Command, b: BufferId): nat
  {
    Ref(c.vertexBuffer, b) + Ref(c.indexBuffer, b)
  }

  /** The counts cover every reference the command owns. */
  ghost predicate Backed(c: Command, rc: RefCounts)
  {
    forall b :: Holds(c, b) <= Count(rc, b)
  }

  /** Every buffer the command points at is alive. */
  predicate BuffersLive(c: Command, rc: RefCounts)
  {
    && (c.vertexBuffer.Some? ==> Live(rc, c.vertexBuffer.value))
    && (c.indexBuffer.Some? ==> Live(rc, c.indexBuffer.value))
  }

  /** Every field outside the two buffer pointers and the base object agrees. */
  predicate SameDrawState(a: Command, b: Command)
  {
    a.(base := b.base, vertexBuffer := b.vertexBuffer, indexBuffer := b.indexBuffer) == b
  }

  // ---------------------------------------------------------------------
  // Copying and cleanup

  /**
   * `copyInternal(other)`: overwrite every field of `dst` below the base
   * object with `src`'s, then retain the (non-null) buffers just copied.
   */
  function CopyInternal(dst: Command, src: Command, rc: RefCounts): (r: Effect)
    requires BuffersLive(src, rc)
    ensures r.cmd.base == dst.base
    ensures SameDrawState(r.cmd, src)
    ensures r.cmd.vertexBuffer == src.vertexBuffer && r.cmd.indexBuffer == src.indexBuffer
    ensures forall b :: Count(r.rc, b) == Count(rc, b) + Holds(src, b)
  {
    var rc1 := SafeRetain(rc, src.vertexBuffer);
    var rc2 := SafeRetain(rc1, src.indexBuffer);
    Effect(src.(base := dst.base), rc2)
  }

  /**
   * `cleanupInternal`: release each non-null buffer once and null both
   * pointers; a null pointer is left alone.
   */
  function CleanupInternal(c: Command, rc: RefCounts): (r: Effect)
    requires Backed(c, rc)
    ensures r.cmd.vertexBuffer == None && r.cmd.indexBuffer == None
    ensures r.cmd.base == c.base && SameDrawState(r.cmd, c)
    ensures forall b :: Count(r.rc, b) == Count(rc, b) - Holds(c, b)
  {
    var rc1 := SafeRelease(rc, c.vertexBuffer);
    assert c.indexBuffer.Some? ==> Holds(c, c.indexBuffer.value) <= Count(rc, c.indexBuffer.value);
    var rc2 := SafeRelease(rc1, c.indexBuffer);
    Effect(c.(vertexBuffer := None, indexBuffer := None), rc2)
  }

  /**
   * The copy constructor: `RenderCommand(other)` copies the base object and
   * `copyInternal(other)` the rest, so the new command equals `other`, and
   * each buffer `other` points at gains one reference.
   */
  function CopyConstruct(other: Command, rc: RefCounts): (r: Effect)
    requires BuffersLive(other, rc)
    ensures r.cmd == other
    ensures forall b :: Count(r.rc, b) == Count(rc, b) + Holds(other, b)
  {
    CopyInternal(other, other, rc)
  }

  /** The destructor: `cleanupInternal`, after which the object is gone. */
  function Destroy(c: Command, rc: RefCounts): (r: RefCounts)
    requires Backed(c, rc)
    ensures forall b :: Count(r, b) == Count(rc, b) - Holds(c, b)
  {
    CleanupInternal(c, rc).rc
  }

  // ---------------------------------------------------------------------
  // init overloads

  /** `init(globalZOrder)`: only the global order changes. */
  function InitOrder(c: Command, globalZOrder: Float): (r: Command)
    ensures r.base.globalOrder == globalZOrder
    ensures r.(base := r.base.(globalOrder := c.base.globalOrder)) == c
  {
    c.(base := c.base.(globalOrder := globalZOrder))
  }

  /**
   * `init(globalZOrder, blendFunc)`: sets the global order and enables
   * blending with the same factors for the RGB and the alpha channel.
   */
  function InitBlend(c: Command, globalZOrder: Float, blendFunc: BlendFunc): (r: Command)
    ensures r.base.globalOrder == globalZOrder
    ensures r.base.blend.blendEnabled
    ensures r.base.blend.sourceRGBBlendFactor == r.base.blend.sourceAlphaBlendFactor == blendFunc.src
    ensures r.base.blend.destinationRGBBlendFactor == r.base.blend.destinationAlphaBlendFactor == blendFunc.dst
    ensures r.base.blend.rest == c.base.blend.rest && r.base.rest == c.base.rest
    ensures r.(base := c.base) == c
  {
    var blend := c.base.blend.(
      blendEnabled := true,
      sourceRGBBlendFactor := blendFunc.src,
      sourceAlphaBlendFactor := blendFunc.src,
      destinationRGBBlendFactor := blendFunc.dst,
      destinationAlphaBlendFactor := blendFunc.dst);
    c.(base := c.base.(globalOrder := globalZOrder, blend := blend))
  }

  // ---------------------------------------------------------------------
  // Self-allocated buffers

  /**
   * `createVertexBuffer(vertexSize, capacity, usage)`: drop the old vertex
   * buffer, make the whole capacity drawable, and adopt the buffer the device
   * returns for a request of `vertexSize * capacity` bytes (null when the
   * device fails). `answer` is the device's reply.
   */
  function CreateVertexBuffer(c: Command, rc: RefCounts, vertexSize: u32, capacity: u32,
                              usage: BufferUsage, answer: Option<BufferId>): (r: Allocation)
    requires c.vertexBuffer.Some? ==> Live(rc, c.vertexBuffer.value)
    requires FreshAfter(rc, c.vertexBuffer, answer)
    ensures r.cmd.vertexBuffer == answer
    ensures r.cmd.vertexCapacity == capacity && r.cmd.vertexDrawCount == capacity
    ensures r.request.kind == VERTEX && r.request.usage == usage
    ensures vertexSize * capacity < U32_MODULUS ==> r.request.size == vertexSize * capacity
    ensures (r.request.size - vertexSize * capacity) % U32_MODULUS == 0
    ensures r.cmd.(vertexBuffer := c.vertexBuffer, vertexCapacity := c.vertexCapacity,
                   vertexDrawCount := c.vertexDrawCount) == c
    ensures answer.Some? ==> Count(r.rc, answer.value) == 1
    ensures forall b :: Count(r.rc, b) == Count(rc, b) - Ref(c.vertexBuffer, b) + Ref(answer, b)
  {
    var rc1 := SafeRelease(rc, c.vertexBuffer);
    var c1 := c.(vertexCapacity := capacity, vertexDrawCount := capacity);
    var request := BufferRequest(MulU32(vertexSize, capacity), VERTEX, usage);
    Allocation(c1.(vertexBuffer := answer), Allocate(rc1, answer), request)
  }

  /**
   * `createIndexBuffer(format, capacity, usage)`: drop the old index
   * buffer, record the format and its index size, make the whole capacity
   * drawable, and adopt the buffer the device returns for a request of
   * `indexSize * capacity` bytes.
   */
  function CreateIndexBuffer(c: Command, rc: RefCounts, format: IndexFormat, capacity: u32,
                             usage: BufferUsage, answer: Option<BufferId>): (r: Allocation)
    requires c.indexBuffer.Some? ==> Live(rc, c.indexBuffer.value)
    requires FreshAfter(rc, c.indexBuffer, answer)
    ensures r.cmd.indexBuffer == answer
    ensures r.cmd.indexFormat == format && IndexSizeConsistent(r.cmd)
    ensures r.cmd.indexCapacity == capacity && r.cmd.indexDrawCount == capacity
    ensures r.request.kind == INDEX && r.request.usage == usage
    ensures r.request.size == (ComputeIndexSize(format) * capacity) % U32_MODULUS
    ensures r.cmd.(indexBuffer := c.indexBuffer, indexFormat := c.indexFormat,
                   indexSize := c.indexSize, indexCapacity := c.indexCapacity,
                   indexDrawCount := c.indexDrawCount) == c
    ensures answer.Some? ==> Count(r.rc, answer.value) == 1
    ensures forall b :: Count(r.rc, b) == Count(rc, b) - Ref(c.indexBuffer, b) + Ref(answer, b)
  {
    var rc1 := SafeRelease(rc, c.indexBuffer);
    var size := ComputeIndexSize(format);
    var c1 := c.(indexFormat := format, indexSize := size,
                 indexCapacity := capacity, indexDrawCount := capacity);
    var request := BufferRequest(MulU32(size, capacity), INDEX, usage);
    Allocation(c1.(indexBuffer := answer), Allocate(rc1, answer), request)
  }

  /** Ten `U_SHORT` indices take a 20-byte buffer, ten `U_INT` indices a 40-byte one. */
  lemma IndexBufferSizes(c: Command, rc: RefCounts, usage: BufferUsage, answer: Option<BufferId>)
    requires c.indexBuffer.Some? ==> Live(rc, c.indexBuffer.value)
    requires FreshAfter(rc, c.indexBuffer, answer)
    ensures CreateIndexBuffer(c, rc, U_SHORT, 10, usage, answer).cmd.indexSize == 2
    ensures CreateIndexBuffer(c, rc, U_SHORT, 10, usage, answer).request.size == 20
    ensures CreateIndexBuffer(c, rc, U_INT, 10, usage, answer).cmd.indexSize == 4
    ensures CreateIndexBuffer(c, rc, U_INT, 10, usage, answer).request.size == 40
  {
  }

  // ---------------------------------------------------------------------
  // Caller-owned buffers

  /**
   * `setVertexBuffer(buffer)`: nothing happens when the pointer is already
   * held; otherwise the field takes `buffer`, which gains a reference. The
   * previously held buffer keeps its count: it is not released.
   */
  function SetVertexBuffer(c: Command, rc: RefCounts, buffer: Option<BufferId>): (r: Effect)
    requires buffer.Some? ==> Live(rc, buffer.value)
    ensures c.vertexBuffer == buffer ==> r == Effect(c, rc)
    ensures r.cmd == c.(vertexBuffer := buffer)
    ensures c.vertexBuffer != buffer ==> forall b :: Count(r.rc, b) == Count(rc, b) + Ref(buffer, b)
    ensures forall b :: Count(r.rc, b) >= Count(rc, b)
  {
    if c.vertexBuffer == buffer then Effect(c, rc)
    else Effect(c.(vertexBuffer := buffer), SafeRetain(rc, buffer))
  }

  /**
   * `setIndexBuffer(buffer, format)`: nothing happens when both the pointer
   * and the format are already held; otherwise the field takes `buffer`,
   * which gains a reference (a second one when it was already held), and
   * the format and its index size are recorded. The previously held buffer
   * is not released.
   */
  function SetIndexBuffer(c: Command, rc: RefCounts, buffer: Option<BufferId>, format: IndexFormat): (r: Effect)
    requires buffer.Some? ==> Live(rc, buffer.value)
    ensures c.indexBuffer == buffer && c.indexFormat == format ==> r == Effect(c, rc)
    ensures !(c.indexBuffer == buffer && c.indexFormat == format) ==>
              && r.cmd == c.(indexBuffer := buffer, indexFormat := format, indexSize := ComputeIndexSize(format))
              && IndexSizeConsistent(r.cmd)
              && forall b :: Count(r.rc, b) == Count(rc, b) + Ref(buffer, b)
    ensures r.cmd.indexBuffer == buffer && r.cmd.indexFormat == format
    ensures forall b :: Count(r.rc, b) >= Count(rc, b)
  {
    if c.indexBuffer == buffer && c.indexFormat == format then Effect(c, rc)
    else
      var c1 := c.(indexBuffer := buffer);
      var rc1 := SafeRetain(rc, buffer);
      Effect(c1.(indexFormat := format, indexSize := ComputeIndexSize(format)), rc1)
  }

  /** Setting the same vertex buffer twice is the same as setting it once. */
  lemma SetVertexBufferIdempotent(c: Command, rc: RefCounts, buffer: Option<BufferId>)
    requires buffer.Some? ==> Live(rc, buffer.value)
    ensures var once := SetVertexBuffer(c, rc, buffer);
            SetVertexBuffer(once.cmd, once.rc, buffer) == once
  {
  }

  /** Setting the same index buffer and format twice is the same as setting them once. */
  lemma SetIndexBufferIdempotent(c: Command, rc: RefCounts, buffer: Option<BufferId>, format: IndexFormat)
    requires buffer.Some? ==> Live(rc, buffer.value)
    ensures var once := SetIndexBuffer(c, rc, buffer, format);
            SetIndexBuffer(once.cmd, once.rc, buffer, format) == once
  {
  }

  // ---------------------------------------------------------------------
  // Updating buffer contents

  /**
   * `updateVertexBuffer(data, offset, length)`: asserts a vertex buffer is
   * present and forwards a sub-range update to it; the command and every
   * count stay as they are.
   */
  function UpdateVertexBufferAt(c: Command, rc: RefCounts, data: seq<bv8>, offset: u32, length: u32): (r: Update)
    requires c.vertexBuffer.Some?
    ensures r.cmd == c && r.rc == rc
    ensures r.call.UpdateSubData? && Some(r.call.buffer) == c.vertexBuffer
    ensures r.call.data == data && r.call.offset == offset && r.call.length == length
  {
    Update(c, rc, UpdateSubData(c.vertexBuffer.value, data, offset, length))
  }

  /**
   * `updateIndexBuffer(data, offset, length)`: asserts an index buffer is
   * present and forwards a sub-range update to it; nothing else changes.
   */
  function UpdateIndexBufferAt(c: Command, rc: RefCounts, data: seq<bv8>, offset: u32, length: u32): (r: Update)
    requires c.indexBuffer.Some?
    ensures r.cmd == c && r.rc == rc
    ensures r.call.UpdateSubData? && Some(r.call.buffer) == c.indexBuffer
    ensures r.call.data == data && r.call.offset == offset && r.call.length == length
  {
    Update(c, rc, UpdateSubData(c.indexBuffer.value, data, offset, length))
  }

  /**
   * `updateVertexBuffer(data, length)`: asserts a vertex buffer is present
   * and forwards a whole-buffer update to it; nothing else changes.
   */
  function UpdateVertexBuffer(c: Command, rc: RefCounts, data: seq<bv8>, length: u32): (r: Update)
    requires c.vertexBuffer.Some?
    ensures r.cmd == c && r.rc == rc
    ensures r.call.UpdateData? && Some(r.call.buffer) == c.vertexBuffer
    ensures r.call.data == data && r.call.length == length
  {
    Update(c, rc, UpdateData(c.vertexBuffer.value, data, length))
  }

  /**
   * `updateIndexBuffer(data, length)`: asserts an index buffer is present
   * and forwards a whole-buffer update to it; nothing else changes.
   */
  function UpdateIndexBuffer(c: Command, rc: RefCounts, data: seq<bv8>, length: u32): (r: Update)
    requires c.indexBuffer.Some?
    ensures r.cmd == c && r.rc == rc
    ensures r.call.UpdateData? && Some(r.call.buffer) == c.indexBuffer
    ensures r.call.data == data && r.call.length == length
  {
    Update(c, rc, UpdateData(c.indexBuffer.value, data, length))
  }

}
