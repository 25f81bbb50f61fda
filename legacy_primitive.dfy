/**
 * `crates/cgdraw_app/src/primitive.rs`: an older copy of the primitive kind,
 * with the same variants and the same mapping to topologies.
 */
module LegacyPrimitives {
  import W = WgpuTypes
  import Primitives

  datatype Primitive = TriangleList | LineList | PointList

  function ToWgpuPrimitive(p: Primitive): (t: W.PrimitiveTopology)
    ensures !t.LineStrip? && !t.TriangleStrip?
  {
    match p
    case TriangleList => W.TriangleList
    case LineList => W.LineList
    case PointList => W.PointList
  }

  /** The variant of the current enum with the same name. */
  function ToCurrent(p: Primitive): Primitives.Primitive
  {
    match p
    case TriangleList => Primitives.TriangleList
    case LineList => Primitives.LineList
    case PointList => Primitives.PointList
  }

  /** Both copies send a variant to the same topology. */
  lemma AgreesWithCurrent(p: Primitive)
    ensures ToWgpuPrimitive(p) == Primitives.ToWgpuPrimitive(ToCurrent(p))
  {
  }

  /** The older mapping is injective too: the current inverse undoes it. */
  lemma ToWgpuPrimitiveInjective(p: Primitive, q: Primitive)
    ensures ToWgpuPrimitive(p) == ToWgpuPrimitive(q) <==> p == q
  {
    AgreesWithCurrent(p);
    AgreesWithCurrent(q);
    Primitives.ToWgpuPrimitiveRoundTrip(ToCurrent(p));
    Primitives.ToWgpuPrimitiveRoundTrip(ToCurrent(q));
  }
}
