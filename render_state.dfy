/**
 * `crates/cgdraw_render/src/state.rs`: the per-frame list of finalized batches.
 *
 * The GPU buffers of a batch are replaced by the sequences that would have
 * been uploaded into them.
 */
module Render {
  import opened Base
  import opened CoreTypes
  import opened WgpuTypes

  /** A finalized batch: vertex and index data, element count and topology. */
  datatype VertexBufferState = VertexBufferState(
    vertexBuffer: seq<Vertex>,
    indexBuffer: seq<u16>,
    numElements: u32,
    primitiveTopology: PrimitiveTopology)

  /**
   * The aggregator.  It is generic in the batch type because the repository
   * holds two shapes of batch (with and without a topology); `vertices` is
   * the source's `buffers.vertices`.
   */
  class RenderState<B> {
    var vertices: seq<B>

    /** `RenderState::default`: no batches yet. */
    constructor ()
      ensures vertices == []
    {
      vertices := [];
    }

    /**
     * `add_vertex_buffer_state`: never fails, has no bound, and puts the batch,
     * unchanged, after all the earlier ones, which keep their order.
     */
    method AddVertexBufferState(batch: B)
      modifies this
      ensures vertices == old(vertices) + [batch]
      ensures |vertices| == |old(vertices)| + 1 && vertices[|vertices| - 1] == batch
    {
      vertices := vertices + [batch];
    }
  }
}
