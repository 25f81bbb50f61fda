/** The part of the graphics library's interface that the batching core names. */
module WgpuTypes {

  /** The mirror of `wgpu::PrimitiveTopology`. */
  datatype PrimitiveTopology = PointList | LineList | LineStrip | TriangleList | TriangleStrip
}
