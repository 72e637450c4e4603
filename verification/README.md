# CustomCommand buffer bookkeeping, modelled in Dafny

This project models `cocos2d::CustomCommand` (`cocos/renderer/CCCustomCommand.cpp`).
That class is the render command that owns one optional vertex buffer and one optional
index buffer, its draw range, its primitive and index format, and its blend state.
The model covers the class's resource bookkeeping: which buffer gains or loses a
reference, which fields each member function copies or leaves alone, and how the cached
`_indexSize` follows `_indexFormat`.

- `wrappers.dfy`: `Option`, used for every pointer that may be null.
- `refcount.dfy` (`RefCount`): the shared heap as a map from buffer ids to reference
  counts. It covers `retain`, `release` (deletion when the count reaches zero),
  `CC_SAFE_RETAIN` and `CC_SAFE_RELEASE`. It also covers the allocation done by
  `Device::newBuffer`. The device's answer is a parameter: null means allocation failed.
  A non-null answer is a buffer that is not alive, and it starts with count 1, owned by
  the caller. Count 1 is the usual `Ref` convention and is an assumption here.
- `command.dfy` (`CustomCommand`): the command as an immutable record. Each C++ member
  function is a pure transition from a command and the counts to a new command and new
  counts. The `create*Buffer` functions also return the request sent to the device. The
  `update*Buffer` functions also return the call forwarded to the buffer.
- `ownership.dfy` (`Ownership`): every command object alive at once, as a sequence of
  slots, together with the counts.
  - Copy construction, `operator=` and the destructor act on slots. Self-assignment is
    assignment from a slot to the same slot, so the source can be aliased exactly as in C++.
  - `Sound` says the counts cover every reference the commands own. `Surplus` is the part
    of a count that no command owns.
  - Every operation keeps `Sound`. Every operation except the two setters keeps each
    buffer's surplus. A setter leaks exactly one reference to the buffer it held when it
    replaces a non-null pointer, or when it gives the index buffer it already holds a new
    format. Replacing a null pointer leaks nothing. `Run` carries both facts across whole
    programs.
  - Every statement keeps each object's cached index size consistent with its index
    format. A short-circuited `setIndexBuffer` recomputes nothing, so it would not repair
    a size that was already wrong.
- `findings.dfy` (`Findings`): the three ownership defects of the source, as written and
  corrected (see "## Findings").

`unsigned int` products (`vertexSize * capacity`, `_indexSize * capacity`) are modelled
modulo 2^32, as C++ computes them. They are not required to fit.

## Model

| member | source | states |
|---|---|---|
| RefCount.SafeRetain | cocos/renderer/CCCustomCommand.cpp:83-84 | a non-null live pointer gains exactly one reference; a null pointer changes no count |
| RefCount.SafeRelease | cocos/renderer/CCCustomCommand.cpp:89-90 | a non-null live pointer loses exactly one reference; a null pointer changes no count |
| RefCount.Allocate | cocos/renderer/CCCustomCommand.cpp:120-121 | a buffer the device returns starts with count 1 and no other count changes; a failed allocation changes nothing |
| CustomCommand.MulU32 | cocos/renderer/CCCustomCommand.cpp:121 | the byte size is the product when it fits in 32 bits, and congruent to it modulo 2^32 otherwise |
| CustomCommand.ComputeIndexSize | cocos/renderer/CCCustomCommand.cpp:182-188 | the size is 2 exactly when the format is `U_SHORT`, and 4 for every other format |
| CustomCommand.CopyInternal | cocos/renderer/CCCustomCommand.cpp:58-85 | every field below the base object, both buffer pointers included, is the source's; the base object stays; each buffer the source holds gains one reference per pointer |
| CustomCommand.CleanupInternal | cocos/renderer/CCCustomCommand.cpp:87-91 | both pointers end null; each non-null one loses exactly one reference; nothing happens for null pointers; no other field changes |
| CustomCommand.CopyConstruct | cocos/renderer/CCCustomCommand.cpp:38-41 | the copy equals the original in every field and buffer id; each non-null buffer gains exactly one reference |
| CustomCommand.Destroy | cocos/renderer/CCCustomCommand.cpp:53-56 | each buffer loses one reference per pointer the command holds to it |
| CustomCommand.InitOrder | cocos/renderer/CCCustomCommand.cpp:98-101 | the global order is set and every other field, buffers included, is unchanged |
| CustomCommand.InitBlend | cocos/renderer/CCCustomCommand.cpp:103-111 | the global order is set; blending is enabled; both source factors equal `blendFunc.src` and both destination factors equal `blendFunc.dst`; the rest of the descriptor and of the command is unchanged |
| CustomCommand.CreateVertexBuffer | cocos/renderer/CCCustomCommand.cpp:113-122 | the old vertex buffer loses one reference; capacity and draw count equal `capacity`; a VERTEX buffer of `vertexSize * capacity` bytes (mod 2^32) is requested and becomes the vertex buffer with count 1; index-side fields are unchanged |
| CustomCommand.CreateIndexBuffer | cocos/renderer/CCCustomCommand.cpp:124-135 | the old index buffer loses one reference; the format is stored and the index size agrees with it; capacity and draw count equal `capacity`; an INDEX buffer of `computeIndexSize(format) * capacity` bytes is requested and adopted; vertex-side fields are unchanged |
| CustomCommand.IndexBufferSizes | cocos/renderer/CCCustomCommand.cpp:124-135 | ten `U_SHORT` indices give index size 2 and a 20-byte request; ten `U_INT` indices give index size 4 and a 40-byte request |
| CustomCommand.SetVertexBuffer | cocos/renderer/CCCustomCommand.cpp:149-156 | the same pointer changes nothing; otherwise the field becomes `buffer`, which gains one reference if non-null, and no count ever decreases |
| CustomCommand.SetIndexBuffer | cocos/renderer/CCCustomCommand.cpp:158-168 | the same pointer and format change nothing; otherwise the pointer, the format and a consistent index size are stored, `buffer` gains one reference if non-null, and no count ever decreases |
| CustomCommand.SetVertexBufferIdempotent | cocos/renderer/CCCustomCommand.cpp:149-152 | setting the same vertex buffer a second time changes neither the command nor any count |
| CustomCommand.SetIndexBufferIdempotent | cocos/renderer/CCCustomCommand.cpp:158-161 | setting the same index buffer and format a second time changes neither the command nor any count |
| CustomCommand.UpdateVertexBufferAt | cocos/renderer/CCCustomCommand.cpp:137-141 | requires a vertex buffer; forwards a sub-range update with the given data, offset and length to that buffer; the command and all counts are unchanged |
| CustomCommand.UpdateIndexBufferAt | cocos/renderer/CCCustomCommand.cpp:143-147 | requires an index buffer; forwards a sub-range update to that buffer; the command and all counts are unchanged |
| CustomCommand.UpdateVertexBuffer | cocos/renderer/CCCustomCommand.cpp:170-174 | requires a vertex buffer; forwards a whole-buffer update to that buffer; the command and all counts are unchanged |
| CustomCommand.UpdateIndexBuffer | cocos/renderer/CCCustomCommand.cpp:176-180 | requires an index buffer; forwards a whole-buffer update to that buffer; the command and all counts are unchanged |
| Ownership.CopyConstructAt | cocos/renderer/CCCustomCommand.cpp:38-41 | a new object equal to the source is added; every existing object, the source included, is unchanged; the source's buffers each gain one reference per pointer |
| Ownership.AssignAt | cocos/renderer/CCCustomCommand.cpp:43-51 | from a distinct object, the target becomes the source, loses its old references and gains the source's; for self-assignment, both pointers end null and each loses its reference; other objects are unchanged |
| Ownership.DestroyAt | cocos/renderer/CCCustomCommand.cpp:53-56 | the object disappears and gives up exactly its own references |
| Ownership.CopyConstructKeepsBalance | cocos/renderer/CCCustomCommand.cpp:58-85 | copy construction keeps the counts covering all owned references, and no buffer's unowned references change |
| Ownership.AssignKeepsBalance | cocos/renderer/CCCustomCommand.cpp:43-51 | assignment, self-assignment included, keeps the counts covering all owned references and neither leaks nor over-releases |
| Ownership.DestroyKeepsBalance | cocos/renderer/CCCustomCommand.cpp:53-56 | destruction keeps the counts covering all owned references and neither leaks nor over-releases |
| Ownership.CopyThenDestroyRestores | cocos/renderer/CCCustomCommand.cpp:38-56 | copying a command and destroying the copy restores every object and every count |
| Ownership.Apply | cocos/renderer/CCCustomCommand.cpp:98-180 | each public operation keeps the command's unowned references, except that a changing setter leaks one reference to the non-null buffer it held; no operation breaks the agreement of index size and format |
| Ownership.Step | cocos/renderer/CCCustomCommand.cpp:98-180 | an operation on one object leaves every other object untouched |
| Ownership.StepSurplus | cocos/renderer/CCCustomCommand.cpp:149-168 | across all objects, each buffer's unowned references stay the same after an operation, except for exactly one extra on the buffer a changing setter replaced |
| Ownership.StepKeepsBalance | cocos/renderer/CCCustomCommand.cpp:113-135 | every operation keeps the counts covering all owned references; init, create and update operations also neither leak nor over-release |
| Ownership.DoKeepsIndexSizes | cocos/renderer/CCCustomCommand.cpp:124-168 | copies, assignments, destructions and every operation keep each object's index size equal to `computeIndexSize` of its format |
| Ownership.RunKeepsIndexSizes | cocos/renderer/CCCustomCommand.cpp:124-188 | a whole program started with consistent index sizes ends with consistent index sizes |
| Ownership.Run | cocos/renderer/CCCustomCommand.cpp:38-180 | every state a program of copies, assignments, destructions and operations reaches has covered counts; a program without setter calls neither leaks nor over-releases |
| Ownership.RunNeverDangles | cocos/renderer/CCCustomCommand.cpp:38-180 | after any program, no command points at a deleted buffer |
| Findings.SelfAssignDropsBuffers | cocos/renderer/CCCustomCommand.cpp:43-51 | as written, self-assignment nulls the vertex buffer and deletes it when the command was its only owner |
| Findings.AssignGuarded | cocos/renderer/CCCustomCommand.cpp:43-51 | with a self-assignment guard, assigning an object to itself changes nothing; any assignment neither leaks nor over-releases |
| Findings.SetVertexBufferLeaksOld | cocos/renderer/CCCustomCommand.cpp:149-156 | as written, replacing a vertex buffer leaves the old one with one reference that nobody owns |
| Findings.SetIndexBufferRetainsTwice | cocos/renderer/CCCustomCommand.cpp:158-168 | as written, the same index buffer with a new format gains a second reference while the command still holds it once |
| Findings.SetVertexBufferReleasing | cocos/renderer/CCCustomCommand.cpp:149-156 | the corrected setter stores the pointer and keeps every buffer's unowned references |
| Findings.SetIndexBufferReleasing | cocos/renderer/CCCustomCommand.cpp:158-168 | the corrected setter stores pointer and format, keeps the index size consistent, and keeps every buffer's unowned references |
| Findings.SetVertexBufferReleasingAt | cocos/renderer/CCCustomCommand.cpp:149-156 | across all objects, the corrected vertex setter keeps the counts covering all owned references and neither leaks nor over-releases |
| Findings.SetIndexBufferReleasingAt | cocos/renderer/CCCustomCommand.cpp:158-168 | across all objects, the corrected index setter keeps the counts covering all owned references and neither leaks nor over-releases |

## Left out

- The default constructor (cocos/renderer/CCCustomCommand.cpp:33-36): the members' initial values live in the class header, which is not part of this model. A world may start from any sound state.
- `init(depth, modelViewTransform, flags)` (cocos/renderer/CCCustomCommand.cpp:93-96): it only calls `RenderCommand::init`, which is not part of this model.
- The `RenderCommand` base object: it is an opaque value that is copied wholesale. Only the global order and the blend descriptor are visible.
- Float fields (global order, line width): these are stored bit patterns. The component does no arithmetic on them.
- `_beforeCallback` and `_afterCallback`: these are opaque tokens that are only copied.
- Buffer contents: `Buffer::updateData` and `updateSubData` are foreign calls, so they are recorded as a `BufferCall`. No byte round trip is modelled.
- `Device::getInstance()`: the device's reply to `newBuffer` is a parameter, and the requested size, kind and usage are returned.
- `assert(_vertexBuffer)` and `assert(_indexBuffer)`: these are preconditions. A build without assertions would dereference null, and that is not modelled.
- `sizeof(unsigned short)` and `sizeof(unsigned int)`: fixed at 2 and 4.
- The enumerations of blend factors, primitive types and usages: their constructor lists follow backend headers that are not part of this model, and no operation inspects their values.
- `IndexFormat` has only `U_SHORT` and `U_INT`, so the "every other format" branch of `computeIndexSize` (cocos/renderer/CCCustomCommand.cpp:186-187) is reached only by `U_INT`.
- Concurrency: the component has none, and reference counting is not atomic.

## Findings

| source | as written | input that shows it | evidently intended | confidence | as-written member | corrected member |
|---|---|---|---|---|---|---|
| cocos/renderer/CCCustomCommand.cpp:43-51 | `cleanupInternal()` runs before `copyInternal(other)` with no self-assignment check, so `other` has already been emptied | a command that is the only owner of its vertex buffer, assigned to itself | self-assignment leaves the command and every count unchanged | high; not executed | Findings.SelfAssignDropsBuffers | Findings.AssignGuarded |
| cocos/renderer/CCCustomCommand.cpp:149-156 | the new pointer is retained, but the replaced one is never released | a command holding buffer b with count 1, given another live buffer by `setVertexBuffer` | the replaced buffer loses the reference the command owned | medium; not executed | Findings.SetVertexBufferLeaksOld | Findings.SetVertexBufferReleasingAt |
| cocos/renderer/CCCustomCommand.cpp:158-168 | any change of pointer or format retains the new pointer without releasing the old one, even when both are the same buffer | a command holding index buffer b in `U_SHORT`, given `setIndexBuffer(b, U_INT)` | a format change alone touches no count; a pointer change releases the replaced buffer | medium; not executed | Findings.SetIndexBufferRetainsTwice | Findings.SetIndexBufferReleasingAt |

Everywhere else the model follows the code as written. The corrected members exist only
in `Findings`. Self-assignment is often described as leaving counts unchanged, but the
code releases both buffers and nulls them, and the model follows the code.
