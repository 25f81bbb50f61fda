/**
 * `crates/cgdraw_app/src/graphics/step.rs`: the batch in progress.  `End`
 * derives the index list when none was given, packages the batch and returns
 * the step to its default, empty state.
 */
module Steps {
  import opened Base
  import opened CoreTypes
  import opened Primitives
  import opened Render

  /** The indices 0, 1, ..., k-1, as collected from the range `0..k`. */
  function IndexRange(k: nat): (r: seq<u16>)
    requires k <= U16_LIMIT
    ensures |r| == k
    ensures forall i :: 0 <= i < k ==> r[i] as int == i
  {
    if k == 0 then [] else IndexRange(k - 1) + [(k - 1) as u16]
  }

  /**
   * The indices `end` synthesizes for `vertexCount` vertices: the range
   * `0..(vertexCount as u16)`, so the count wraps modulo 65536.
   */
  function SynthesizedIndices(vertexCount: nat): (r: seq<u16>)
    ensures |r| == vertexCount % U16_LIMIT
    ensures vertexCount < U16_LIMIT ==> |r| == vertexCount
    ensures forall i :: 0 <= i < |r| ==> r[i] as int == i
  {
    IndexRange(TruncateU16(vertexCount) as nat)
  }

  /**
   * The batch `end` produces from a step with primitive `p`: the vertices as
   * given; the index list as given when it is not empty, otherwise the
   * identity sequence over the vertices (modulo 65536, and never checked
   * against the vertex count); as many elements as indices; and the topology
   * of `p`.
   */
  function Finalize(p: Primitive, indices: seq<u16>, vertices: seq<Vertex>): (b: VertexBufferState)
    ensures b.vertexBuffer == vertices
    ensures indices != [] ==> b.indexBuffer == indices
    ensures indices == [] ==> |b.indexBuffer| == |vertices| % U16_LIMIT
    ensures indices == [] ==> forall i :: 0 <= i < |b.indexBuffer| ==> b.indexBuffer[i] as int == i
    ensures b.numElements as int == |b.indexBuffer| % U32_LIMIT
    ensures b.primitiveTopology == ToWgpuPrimitive(p)
  {
    var finalIndices := if indices == [] then SynthesizedIndices(|vertices|) else indices;
    VertexBufferState(vertices, finalIndices, TruncateU32(|finalIndices|), ToWgpuPrimitive(p))
  }

  /** Below 65536 vertices and with no index list, the batch draws every vertex once, in order. */
  lemma ImplicitElementCount(p: Primitive, vertices: seq<Vertex>)
    requires |vertices| < U16_LIMIT
    ensures Finalize(p, [], vertices).numElements as int == |vertices|
    ensures Finalize(p, [], vertices).indexBuffer == IndexRange(|vertices|)
  {
    var b := Finalize(p, [], vertices);
    var r := IndexRange(|vertices|);
    assert |b.indexBuffer| == |r|;
    assert forall i :: 0 <= i < |r| ==> b.indexBuffer[i] == r[i];
  }

  /** At 65536 vertices the `as u16` cast wraps to 0: the batch gets no indices and draws nothing. */
  lemma ImplicitIndicesWrap(p: Primitive, vertices: seq<Vertex>)
    requires |vertices| == U16_LIMIT
    ensures Finalize(p, [], vertices).indexBuffer == []
    ensures Finalize(p, [], vertices).numElements == 0
  {
  }

  /** An explicit index list decides the element count, whatever the vertex count. */
  lemma ExplicitElementCount(p: Primitive, indices: seq<u16>, vertices: seq<Vertex>)
    requires indices != [] && |indices| < U32_LIMIT
    ensures Finalize(p, indices, vertices).numElements as int == |indices|
  {
  }

  /** `GraphicRenderStepBuffer`: primitive kind, index list and vertex list. */
  class GraphicRenderStepBuffer {
    var primitive: Option<Primitive>
    var indices: seq<u16>
    var vertices: seq<Vertex>

    /** The state of `default()`, to which `End` returns. */
    predicate IsDefault()
      reads this
    {
      primitive == None && indices == [] && vertices == []
    }

    /** `GraphicRenderStepBuffer::default`. */
    constructor ()
      ensures IsDefault()
    {
      primitive := None;
      indices := [];
      vertices := [];
    }

    /** The setter `primitive`. */
    method SetPrimitive(p: Primitive)
      modifies this
      ensures primitive == Some(p)
      ensures indices == old(indices) && vertices == old(vertices)
    {
      primitive := Some(p);
    }

    /** The setter `indices`: replaces the list, it does not append to it. */
    method SetIndices(newIndices: seq<u16>)
      modifies this
      ensures indices == newIndices
      ensures primitive == old(primitive) && vertices == old(vertices)
    {
      indices := newIndices;
    }

    /** The setter `vertices`: replaces the list. */
    method SetVertices(newVertices: seq<Vertex>)
      modifies this
      ensures vertices == newVertices
      ensures primitive == old(primitive) && indices == old(indices)
    {
      vertices := newVertices;
    }

    /** `init`: sets the primitive (a triangle list when none is given) and clears both lists. */
    method Init(p: Option<Primitive>)
      modifies this
      ensures primitive == Some(if p.Some? then p.value else TriangleList)
      ensures indices == [] && vertices == []
    {
      primitive := if p.Some? then Some(p.value) else Some(TriangleList);
      indices := [];
      vertices := [];
    }

    /**
     * `end`: the batch of `Finalize`, after which the step is back in its
     * default state.  Without a primitive (`init` never called) the source
     * panics on `unwrap`.
     */
    method End() returns (batch: VertexBufferState)
      requires primitive.Some?
      modifies this
      ensures batch == Finalize(old(primitive).value, old(indices), old(vertices))
      ensures IsDefault()
    {
      if indices == [] {
        indices := SynthesizedIndices(|vertices|);
      }
      var topology := ToWgpuPrimitive(primitive.value);
      batch := VertexBufferState(vertices, indices, TruncateU32(|indices|), topology);
      primitive := None;
      indices := [];
      vertices := [];
    }
  }
}
