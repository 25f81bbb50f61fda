/** `crates/cgdraw_app/src/graphics/primitive.rs`: the primitive kind of a batch. */
module Primitives {
  import opened Base
  import W = WgpuTypes

  datatype Primitive = TriangleList | LineList | PointList

  /** `Primitive::to_wgpu_primitive`: each kind goes to the topology of the same name. */
  function ToWgpuPrimitive(p: Primitive): (t: W.PrimitiveTopology)
    ensures !t.LineStrip? && !t.TriangleStrip?
  {
    match p
    case TriangleList => W.TriangleList
    case LineList => W.LineList
    case PointList => W.PointList
  }

  /** The partial inverse of `ToWgpuPrimitive`: strips have no primitive kind. */
  function FromWgpuPrimitive(t: W.PrimitiveTopology): (r: Option<Primitive>)
    ensures r.None? <==> t.LineStrip? || t.TriangleStrip?
  {
    match t
    case TriangleList => Some(TriangleList)
    case LineList => Some(LineList)
    case PointList => Some(PointList)
    case LineStrip => None
    case TriangleStrip => None
  }

  /** The mapping is undone by its inverse, so no two kinds share a topology. */
  lemma ToWgpuPrimitiveRoundTrip(p: Primitive)
    ensures FromWgpuPrimitive(ToWgpuPrimitive(p)) == Some(p)
  {
  }

  lemma ToWgpuPrimitiveInjective(p: Primitive, q: Primitive)
    ensures ToWgpuPrimitive(p) == ToWgpuPrimitive(q) <==> p == q
  {
    ToWgpuPrimitiveRoundTrip(p);
    ToWgpuPrimitiveRoundTrip(q);
  }

  /** Every topology other than a strip is reached. */
  lemma ToWgpuPrimitiveOnto(t: W.PrimitiveTopology)
    requires !t.LineStrip? && !t.TriangleStrip?
    ensures ToWgpuPrimitive(FromWgpuPrimitive(t).value) == t
  {
  }
}
