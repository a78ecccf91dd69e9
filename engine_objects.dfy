/**
 * The Filament engine objects the ImGui bridge owns, as recorded state: every
 * object the engine creates is a fresh `Handle`, and a GPU buffer is its
 * handle and its capacity. The invariants that tie the bridge's fields to
 * these objects are stated here over plain values.
 */
module EngineObjects {
  import opened Wrappers

  /** An engine object (view, scene, camera, texture, buffer, material instance). */
  type Handle = nat

  /** A vertex or index buffer: its handle and the element count it holds. */
  datatype GpuBuffer = GpuBuffer(handle: Handle, capacity: nat)

  /** A staging vector of `length` elements is as long as its buffer's
    * capacity, and empty while there is no buffer. */
  predicate StagedFor(buffer: Option<GpuBuffer>, length: nat)
  {
    if buffer.Some? then length == buffer.value.capacity else length == 0
  }

  /** The handle, if any, was issued before `next`. */
  predicate IssuedBefore(h: Option<Handle>, next: Handle)
  {
    h.Some? ==> h.value < next
  }

  /** Every object the bridge owns was created before `next`. */
  predicate AllIssuedBefore(view: Option<Handle>, scene: Option<Handle>, camera: Option<Handle>,
                            fontAtlas: Option<Handle>, vertexBuffer: Option<GpuBuffer>,
                            indexBuffer: Option<GpuBuffer>, pool: seq<Handle>, next: Handle)
  {
    IssuedBefore(view, next) && IssuedBefore(scene, next) && IssuedBefore(camera, next) &&
    IssuedBefore(fontAtlas, next) &&
    (vertexBuffer.Some? ==> vertexBuffer.value.handle < next) &&
    (indexBuffer.Some? ==> indexBuffer.value.handle < next) &&
    (forall k :: 0 <= k < |pool| ==> pool[k] < next)
  }

  /** Without an engine, none of the bridge's objects exist. */
  predicate AllNull(hasEngine: bool, view: Option<Handle>, scene: Option<Handle>, camera: Option<Handle>,
                    fontAtlas: Option<Handle>, vertexBuffer: Option<GpuBuffer>,
                    indexBuffer: Option<GpuBuffer>, pool: seq<Handle>)
  {
    !hasEngine ==>
      view.None? && scene.None? && camera.None? && fontAtlas.None? &&
      vertexBuffer.None? && indexBuffer.None? && pool == []
  }
}
