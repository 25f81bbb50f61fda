# cgdraw batching core in Dafny

This project models the per-frame vertex batching engine of `cgdraw`, a small
real-time 3D rendering framework, together with the camera registry of its
application type. An application's draw callback receives a `Graphics` value.
Through it the callback describes geometry:

- `begin(primitive)` opens a render step (the batch in progress);
- `v3d(x, y, z)` appends a vertex transformed by the current matrix and tagged with the current colour;
- `indices(list)` gives an explicit index list;
- `end()` finalizes the step into a `VertexBufferState`, appended to the frame's `RenderState`.

The transform is a single matrix that every operation right-multiplies. The
repository holds an older `Graphics` with `save_vertice`/`draw` and no
begin/end discipline, and an older copy of the `Primitive` enum. Each is
modelled as a revision of its own.

Modules, and what each covers:

| module | covers |
|---|---|
| `Base` | no source file: Rust's `u16`/`u32` and their `as` casts, `Option`, and `Result` for panics |
| `Matrices` | `Matrix4x4` of `cgdraw_math/src/matrix.rs` and its builders, kept abstract (see below) |
| `CoreTypes` | `cgdraw_core/src/color/mod.rs` and `color/srgb.rs` (`Color`, `to_vector`), and `Vertex` of `cgdraw_core/src/graphic/vertex.rs` |
| `WgpuTypes` | no source file: a mirror of `wgpu::PrimitiveTopology` |
| `Primitives` / `LegacyPrimitives` | `graphics/primitive.rs` / `primitive.rs` |
| `Render` | `cgdraw_render/src/state.rs` |
| `Transforms` | `graphics/transform.rs` |
| `Steps` | `graphics/step.rs` |
| `Graphics` | `graphics/mod.rs` (current facade) |
| `LegacyGraphics` | `graphics.rs` (older facade) |
| `Application` | `cgdraw_app/src/lib.rs` |

How the model is built:

- **State that the source updates in place is a class.** This covers `RenderState`, `GraphicsTransform`, `GraphicRenderStepBuffer`, both `Graphics`, and `App`. Its methods carry `modifies` clauses and state the whole new state.
- **Each facade also has a value-level specification.** A `Frame` datatype, a `Call` datatype, `Exec` for one call and `Run` for a sequence of calls describe it. Every method is proved to perform exactly one `Exec` step (`ensures Snapshot() == Exec(old(Snapshot()), call)`). The properties of call sequences are lemmas about `Run`.
- **A panic of the source has two forms.** In a method it is a `requires`. In the value-level model it is an explicit `Err` outcome.
- **`Matrix4x4` is the free monoid over its elementary builders.** The source does not show the identity, the product or the `from_*` builders. A matrix is therefore the word of builder factors it is a product of: `Identity` is the empty word and `Mul` is concatenation. Equations between words hold of the real matrices as well. So the transform facts proved here are about which product is formed and in which order. `Apply` gives a word its effect on a point. It computes translations and scalings exactly, over reals. Rotations and matrices from outside stay symbolic (`Point.Image`).
- **The GPU buffers of a batch hold the sequences that would be uploaded into them.** This stands in for `create_buffer` and `create_buffer_for_index`.
- **`RenderState` is one generic class `RenderState<B>`.** It serves both shapes of `VertexBufferState`: the current one carries a topology, the older one used by `graphics.rs` does not.
- **`App` goes with the older facade.** `lib.rs` builds its `Graphics` with `Graphics::new(&mut render_state, &State)`, which is the older facade's signature. So `App.Redraw` hands out a `LegacyGraphics.Graphics`.
- **Some method names differ from the source.** The Rust setters `primitive`/`indices`/`vertices` share their names with fields, so here they are `SetPrimitive`/`SetIndices`/`SetVertices`. The facades' `color` is `SetColor`.

Consequences of the code that a user may not expect:

- **Scale then translate.** Every transform call right-multiplies (`M := M * E`). So `scale(s,s,s)` then `translate(t,t,t)` sends the origin to `(s*t, s*t, s*t)`: the translation is scaled (`Matrices.ScaleThenTranslateOrigin`). The order translate-then-scale gives `(t,t,t)` (`Matrices.TranslateThenScaleOrigin`).
- **Synthesized indices.** Without an index list, `end()` builds `0..(n as u16)`, so from 65536 vertices on the count wraps: at exactly 65536 vertices the batch has no indices and draws nothing (`Steps.ImplicitIndicesWrap`).
- **Missing index list in the older facade.** The older facade's `draw` never synthesizes indices: an empty list gives a batch of 0 elements (`LegacyGraphics.RevisionsDifferWithoutIndices`).

## Model

| member | source | states |
|---|---|---|
| Base.TruncateU16 | crates/cgdraw_app/src/graphics/step.rs:63 | `n as u16` is the unique u16 congruent to n modulo 65536: values below 65536 are kept, larger ones shrink |
| Base.TruncateU32 | crates/cgdraw_app/src/graphics/step.rs:79 | `n as u32` is the unique u32 congruent to n modulo 2^32: values below 2^32 are kept, larger ones shrink |
| Matrices.MulIdentity | crates/cgdraw_app/src/graphics/transform.rs:7-13 | the identity is neutral on both sides of the product |
| Matrices.MulAssociative | crates/cgdraw_app/src/graphics/transform.rs:17-39 | the product of matrices is associative |
| Matrices.ApplyMul | crates/cgdraw_app/src/graphics/mod.rs:61-63 | applying `A * B` to a point applies `B` first, then `A` |
| Matrices.ApplyIdentity | crates/cgdraw_app/src/graphics/mod.rs:61-63 | the identity leaves every point in place |
| Matrices.TranslationsAddOffsets | crates/cgdraw_app/src/graphics/transform.rs:17-19 | under translations only, a vertex lands at its local position plus the summed offsets |
| Matrices.ScaleThenTranslateOrigin | crates/cgdraw_app/src/graphics/transform.rs:17-39 | scale(s) then translate(t) sends the origin to (s*t, s*t, s*t): the translation is scaled |
| Matrices.TranslateThenScaleOrigin | crates/cgdraw_app/src/graphics/transform.rs:17-39 | translate(t) then scale(s) sends the origin to (t, t, t) |
| CoreTypes.FromRaw | crates/cgdraw_core/src/color/srgb.rs:9-23 | each channel is its byte divided by 255: it lies in [0, 1] and scales back to the byte |
| CoreTypes.ToVectorFollowsTable | crates/cgdraw_core/src/color/mod.rs:42-77 | two colours give the same vector exactly when the table gives them the same bytes |
| CoreTypes.SynonymColours | crates/cgdraw_core/src/color/mod.rs:47-60 | GREEN and LIME, and PURPLE and VIOLET, are indistinguishable once drawn; GREEN and DARKGREEN are not |
| CoreTypes.Emit | crates/cgdraw_app/src/graphics/mod.rs:61-67 | an emitted vertex carries the colour vector current at the call |
| CoreTypes.EmitAll | crates/cgdraw_app/src/graphics/mod.rs:60-76 | one vertex per local point, in order, each transformed by the matrix in the current colour |
| Primitives.ToWgpuPrimitive | crates/cgdraw_app/src/graphics/primitive.rs:10-16 | every primitive maps to a list topology, never to a strip |
| Primitives.FromWgpuPrimitive | crates/cgdraw_app/src/graphics/primitive.rs:10-16 | the inverse mapping is undefined exactly on the strip topologies |
| Primitives.ToWgpuPrimitiveRoundTrip | crates/cgdraw_app/src/graphics/primitive.rs:12-14 | TriangleList, LineList and PointList map back to themselves through the inverse |
| Primitives.ToWgpuPrimitiveInjective | crates/cgdraw_app/src/graphics/primitive.rs:10-16 | distinct primitives give distinct topologies (both directions) |
| Primitives.ToWgpuPrimitiveOnto | crates/cgdraw_app/src/graphics/primitive.rs:10-16 | every non-strip topology is the image of a primitive |
| LegacyPrimitives.ToWgpuPrimitive | crates/cgdraw_app/src/primitive.rs:8-14 | the older copy also maps into the list topologies only |
| LegacyPrimitives.AgreesWithCurrent | crates/cgdraw_app/src/primitive.rs:10-12 | the older copy maps each variant to the same topology as the current enum |
| LegacyPrimitives.ToWgpuPrimitiveInjective | crates/cgdraw_app/src/primitive.rs:8-14 | the older mapping is injective |
| Render.RenderState.constructor | crates/cgdraw_render/src/state.rs:22-30 | a default render state has no batches |
| Render.RenderState.AddVertexBufferState | crates/cgdraw_render/src/state.rs:33-35 | appends the batch unchanged as the last element, length grows by one, earlier batches keep their order, no failure |
| Transforms.Next | crates/cgdraw_app/src/graphics/transform.rs:17-64 | a composing operation appends its elementary factor on the right; load_identity gives the identity; load(m) gives m |
| Transforms.FactorsOf | crates/cgdraw_app/src/graphics/transform.rs:17-39 | the elementary matrices of a call sequence, in call order |
| Transforms.RunAppend | crates/cgdraw_app/src/graphics/transform.rs:15-65 | running two call sequences one after the other is running their concatenation |
| Transforms.ComposeInCallOrder | crates/cgdraw_app/src/graphics/transform.rs:17-39 | without loads, op1..opn turn M into M * E1 * ... * En: call order is composition order |
| Transforms.TwoOperations | crates/cgdraw_app/src/graphics/transform.rs:17-39 | op1 then op2 gives (M * E1) * E2 |
| Transforms.LoadIdentityForgets | crates/cgdraw_app/src/graphics/transform.rs:57-59 | load_identity gives the identity whatever the history, and twice is the same as once |
| Transforms.LoadDiscardsHistory | crates/cgdraw_app/src/graphics/transform.rs:62-64 | after load(m) only the later operations matter, starting from m |
| Transforms.LoadIdentityThenOne | crates/cgdraw_app/src/graphics/transform.rs:17-59 | load_identity then one operation leaves exactly that operation's elementary matrix |
| Transforms.GraphicsTransform.constructor | crates/cgdraw_app/src/graphics/transform.rs:7-13 | the default matrix is the identity |
| Transforms.GraphicsTransform.Translate | crates/cgdraw_app/src/graphics/transform.rs:17-19 | matrix := matrix * from_translate(x, y, z) |
| Transforms.GraphicsTransform.Rotate | crates/cgdraw_app/src/graphics/transform.rs:22-24 | matrix := matrix * from_rotate(ax, ay, az) |
| Transforms.GraphicsTransform.RotateX | crates/cgdraw_app/src/graphics/transform.rs:27-29 | matrix := matrix * from_rotate_x(angle) |
| Transforms.GraphicsTransform.RotateY | crates/cgdraw_app/src/graphics/transform.rs:32-34 | matrix := matrix * from_rotate_y(angle) |
| Transforms.GraphicsTransform.Scale | crates/cgdraw_app/src/graphics/transform.rs:37-39 | matrix := matrix * from_scale(x, y, z) |
| Transforms.GraphicsTransform.LoadIdentity | crates/cgdraw_app/src/graphics/transform.rs:57-59 | the matrix becomes the identity |
| Transforms.GraphicsTransform.Load | crates/cgdraw_app/src/graphics/transform.rs:62-64 | the matrix becomes exactly the argument |
| Steps.IndexRange | crates/cgdraw_app/src/graphics/step.rs:63 | the collected range 0..k has k elements and element i is i |
| Steps.SynthesizedIndices | crates/cgdraw_app/src/graphics/step.rs:61-64 | synthesized indices number the vertex count modulo 65536, each equal to its position |
| Steps.Finalize | crates/cgdraw_app/src/graphics/step.rs:59-81 | vertices as given; a non-empty index list kept unchecked; an empty one replaced by 0..(n mod 65536); element count = index count; topology of the primitive |
| Steps.ImplicitElementCount | crates/cgdraw_app/src/graphics/step.rs:61-79 | below 65536 vertices and without indices, the count is the vertex count and the indices are 0..n-1 |
| Steps.ImplicitIndicesWrap | crates/cgdraw_app/src/graphics/step.rs:63 | with exactly 65536 vertices and no indices, the u16 wrap leaves no indices and 0 elements |
| Steps.ExplicitElementCount | crates/cgdraw_app/src/graphics/step.rs:79 | with an explicit index list, the count is its length whatever the vertex count |
| Steps.GraphicRenderStepBuffer.constructor | crates/cgdraw_app/src/graphics/step.rs:19-27 | a default step has no primitive and empty lists |
| Steps.GraphicRenderStepBuffer.SetPrimitive | crates/cgdraw_app/src/graphics/step.rs:32-34 | sets the primitive, lists unchanged |
| Steps.GraphicRenderStepBuffer.SetIndices | crates/cgdraw_app/src/graphics/step.rs:37-39 | replaces the whole index list, other fields unchanged |
| Steps.GraphicRenderStepBuffer.SetVertices | crates/cgdraw_app/src/graphics/step.rs:42-44 | replaces the whole vertex list, other fields unchanged |
| Steps.GraphicRenderStepBuffer.Init | crates/cgdraw_app/src/graphics/step.rs:47-56 | init(Some p) sets p, init(None) sets TriangleList; both lists cleared |
| Steps.GraphicRenderStepBuffer.End | crates/cgdraw_app/src/graphics/step.rs:59-90 | returns the batch of Finalize; requires a primitive (unwrap panics otherwise); the step is back in its default state |
| Graphics.NewFrame | crates/cgdraw_app/src/graphics/mod.rs:39-54 | a new facade has no open step, colour WHITE, the identity transform and the given batches |
| Graphics.Exec | crates/cgdraw_app/src/graphics/mod.rs:60-130 | a call panics exactly when begin meets an open step or v3d/indices/end meet none, with the matching panic; only end changes the batches |
| Graphics.RunAppend | crates/cgdraw_app/src/graphics/mod.rs:58-131 | a call sequence can be split: the second part runs from where the first stopped, and a panic stops everything |
| Graphics.BatchesOnlyGrow | crates/cgdraw_app/src/graphics/mod.rs:113-130 | over any panic-free call sequence, earlier batches stay in place and exactly one batch is added per end |
| Graphics.RunV3ds | crates/cgdraw_app/src/graphics/mod.rs:60-76 | with an open step, v3d calls append their vertices at the end, in order, earlier vertices unchanged |
| Graphics.BeginVerticesEnd | crates/cgdraw_app/src/graphics/mod.rs:99-130 | begin(p); v3d x n; end adds exactly one batch holding the emitted vertices, finalized without explicit indices, and closes the step |
| Graphics.BeginVerticesEndCount | crates/cgdraw_app/src/graphics/mod.rs:99-130 | for n < 65536 that batch has primitive p, indices 0..n-1 and element count n (0 for no vertex) |
| Graphics.BeginVerticesIndicesEnd | crates/cgdraw_app/src/graphics/mod.rs:80-130 | with indices(l) before end, the batch uses l as its index list |
| Graphics.RedSquare | crates/cgdraw_app/src/graphics/mod.rs:60-130 | begin(TriangleList); color(RED); four v3d; indices([0,1,2,2,3,0]); end gives one batch of 4 red vertices and 6 elements |
| Graphics.IndicesReplace | crates/cgdraw_app/src/graphics/mod.rs:80-88 | indices replaces the list: after two calls only the last remains |
| Graphics.SetColorOnlyChangesColor | crates/cgdraw_app/src/graphics/mod.rs:94-96 | color changes the current colour only; open step and batches untouched |
| Graphics.UseWithoutBegin | crates/cgdraw_app/src/graphics/mod.rs:60-117 | v3d, indices or end with no open step panic, whatever follows |
| Graphics.DoubleBegin | crates/cgdraw_app/src/graphics/mod.rs:101-103 | two begin calls without end between them panic |
| Graphics.Graphics.constructor | crates/cgdraw_app/src/graphics/mod.rs:39-54 | no open step, colour WHITE, fresh identity transform, the given render state |
| Graphics.Graphics.V3d | crates/cgdraw_app/src/graphics/mod.rs:60-76 | requires an open step; appends one vertex at xyz of matrix * (x, y, z, 1) in the current colour; nothing else changes |
| Graphics.Graphics.Indices | crates/cgdraw_app/src/graphics/mod.rs:80-88 | requires an open step; replaces its index list; nothing else changes |
| Graphics.Graphics.SetColor | crates/cgdraw_app/src/graphics/mod.rs:94-96 | only the current colour changes |
| Graphics.Graphics.Begin | crates/cgdraw_app/src/graphics/mod.rs:99-110 | requires no open step; opens a fresh step with primitive p and empty lists |
| Graphics.Graphics.End | crates/cgdraw_app/src/graphics/mod.rs:113-130 | requires an open step; appends exactly the finalized batch to the render state and leaves no open step |
| LegacyGraphics.AxisTransformsMoveOneAxis | crates/cgdraw_app/src/graphics.rs:78-112 | scale_x/y/z and translate_x/y/z act on their own axis only (scale 1, offset 0 elsewhere) |
| LegacyGraphics.Batch | crates/cgdraw_app/src/graphics.rs:56-64 | the batch of draw holds the pending vertices and the given indices unchanged; element count = index count, 0 for an empty list |
| LegacyGraphics.NewFrame | crates/cgdraw_app/src/graphics.rs:25-37 | WHITE, no pending vertices, identity transform |
| LegacyGraphics.Exec | crates/cgdraw_app/src/graphics.rs:40-131 | only draw changes the batches; draw empties the pending vertices and keeps colour and transform |
| LegacyGraphics.RunAppend | crates/cgdraw_app/src/graphics.rs:40-131 | a call sequence can be split into two runs |
| LegacyGraphics.RunSaveVertices | crates/cgdraw_app/src/graphics.rs:41-50 | save_vertice needs no begin and appends each transformed vertex in the current colour, in order |
| LegacyGraphics.SaveThenDraw | crates/cgdraw_app/src/graphics.rs:41-70 | save_vertice x n; draw(l) adds exactly one batch of all pending vertices with l, then clears them |
| LegacyGraphics.RevisionsAgreeWithIndices | crates/cgdraw_app/src/graphics.rs:56-70 | with an explicit index list both revisions produce the same vertex data, index data and count |
| LegacyGraphics.RevisionsDifferWithoutIndices | crates/cgdraw_app/src/graphics.rs:63 | without indices the current revision draws n elements, the older one 0 |
| LegacyGraphics.Graphics.constructor | crates/cgdraw_app/src/graphics.rs:25-37 | WHITE colour vector, no pending vertices, identity transform |
| LegacyGraphics.Graphics.SaveVertice | crates/cgdraw_app/src/graphics.rs:41-50 | appends one vertex at xyz of transform * (x, y, z, 1) in the current colour, without any check |
| LegacyGraphics.Graphics.SetColor | crates/cgdraw_app/src/graphics.rs:52-54 | replaces the colour vector; saved vertices keep theirs |
| LegacyGraphics.Graphics.Draw | crates/cgdraw_app/src/graphics.rs:56-70 | appends one batch of the pending vertices and given indices; pending vertices emptied; colour and transform kept |
| LegacyGraphics.Graphics.LoadIdentity | crates/cgdraw_app/src/graphics.rs:74-76 | the transform becomes the identity |
| LegacyGraphics.Graphics.ScaleX | crates/cgdraw_app/src/graphics.rs:78-82 | transform := transform * from_scale(s, 1, 1) |
| LegacyGraphics.Graphics.ScaleY | crates/cgdraw_app/src/graphics.rs:84-88 | transform := transform * from_scale(1, s, 1) |
| LegacyGraphics.Graphics.ScaleZ | crates/cgdraw_app/src/graphics.rs:90-94 | transform := transform * from_scale(1, 1, s) |
| LegacyGraphics.Graphics.TranslateX | crates/cgdraw_app/src/graphics.rs:96-100 | transform := transform * from_translate(d, 0, 0) |
| LegacyGraphics.Graphics.TranslateY | crates/cgdraw_app/src/graphics.rs:102-106 | transform := transform * from_translate(0, d, 0) |
| LegacyGraphics.Graphics.TranslateZ | crates/cgdraw_app/src/graphics.rs:108-112 | transform := transform * from_translate(0, 0, d) |
| LegacyGraphics.Graphics.RotateX | crates/cgdraw_app/src/graphics.rs:114-118 | transform := transform * from_rotate_x(angle) |
| LegacyGraphics.Graphics.RotateY | crates/cgdraw_app/src/graphics.rs:120-124 | transform := transform * from_rotate_y(angle) |
| LegacyGraphics.Graphics.RotateZ | crates/cgdraw_app/src/graphics.rs:126-130 | transform := transform * from_rotate_z(angle) |
| Application.FindCamera | crates/cgdraw_app/src/lib.rs:126-130 | the position of the first camera, in insertion order, whose id matches; none exactly when no camera matches |
| Application.FirstMatchIsStable | crates/cgdraw_app/src/lib.rs:111-130 | adding a camera never changes which camera an already-found id selects |
| Application.DefaultRegistry | crates/cgdraw_app/src/lib.rs:22-33 | no cameras, no current camera, no projection |
| Application.AppendCamera | crates/cgdraw_app/src/lib.rs:106-119 | one more camera with the given id after the earlier ones; other fields unchanged |
| Application.SelectInitialCamera | crates/cgdraw_app/src/lib.rs:121-135 | succeeds exactly when no camera is chosen and one matches, choosing the first match; InitialCameraAlreadySet exactly when a camera is chosen (checked first); CameraNotFound exactly when none is chosen and none matches |
| Application.SetProjection | crates/cgdraw_app/src/lib.rs:137-141 | replaces the projection; cameras and current camera untouched |
| Application.RunCheck | crates/cgdraw_app/src/lib.rs:41-47 | run passes exactly when there are cameras and an initial camera; no cameras gives NoCameras (checked first); cameras without an initial camera give NoInitialCamera |
| Application.BuilderChainRuns | crates/cgdraw_app/src/lib.rs:106-141 | default, add_camera(id), initial_camera(id), camera_projection passes the run checks with that camera chosen |
| Application.InitialCameraOnce | crates/cgdraw_app/src/lib.rs:122-124 | a second initial_camera always panics |
| Application.App.constructor | crates/cgdraw_app/src/lib.rs:22-33 | empty registry, no GPU state |
| Application.App.AddCamera | crates/cgdraw_app/src/lib.rs:106-119 | appends exactly one camera with the id; earlier cameras and other fields unchanged |
| Application.App.InitialCamera | crates/cgdraw_app/src/lib.rs:121-135 | requires no chosen camera and a match (else panic); chooses the first match; nothing else changes |
| Application.App.CameraProjection | crates/cgdraw_app/src/lib.rs:137-141 | replaces the projection only |
| Application.App.Start | crates/cgdraw_app/src/lib.rs:41-49 | requires the run checks to pass; creates the GPU state with the chosen camera |
| Application.App.Redraw | crates/cgdraw_app/src/lib.rs:62-78 | once started, each redraw gives a fresh Graphics over a fresh, empty render state, so no batch carries over |

## Left out

- GPU work is not modelled: buffer creation, surface acquisition and its retry, the render pass and `Render::build`. Batches store the vertex and index sequences instead of buffers.
- The window, the OS events and the `window.run` event loop of `run` are not modelled. Only the checks before the loop, the creation of the GPU state and the fresh render state per redraw are. The event handler callbacks (`Setup`, `Update`, `Draw`, ...) are not.
- Floating-point numbers are not modelled. Coordinates and colour channels are reals, so f32 rounding (of a channel's division by 255, for one) is not captured.
- The bodies of the matrix builders are not part of this model. `Matrices.Apply` computes only translations and scalings exactly; rotations and foreign matrices are symbolic.
- Matrices.ApplyFactor: takes `from_translate` and `from_scale` to be the standard homogeneous translation and scaling matrices, applied to column vectors. Only the column layout of `Matrix4x4` is in the source at hand (`crates/cgdraw_math/src/matrix.rs:3-8`); `Matrices.ScaleThenTranslateOrigin` and `Matrices.TranslateThenScaleOrigin` rest on this reading.
- The camera and projection maths is not modelled (`Camera::new`, look-at, perspective, the resize of the projection on redraw). A camera is its id and attributes; a projection is its parameters.
- `palette::Srgb::new` is taken to store its three channels unchanged; the `palette` crate is not part of this model.
- `State` (the wgpu device) is not modelled, and neither is the `state` argument of `Graphics::new`.
- Fields that are `pub` in the source are not modelled as open to outside writes. This covers the step's fields and the older facade's `graphic_state`; the model changes them only through the modelled methods.
- Application.App.Redraw: states only the frame the draw callback receives, not what the callback does with it.
