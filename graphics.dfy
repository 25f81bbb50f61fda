/**
 * `crates/cgdraw_app/src/graphics/mod.rs`: the current `Graphics` facade.
 *
 * It is a state machine over an optional open step: `Begin` opens one,
 * `V3d` and `Indices` feed it, `End` finalizes it into the render state.
 * Using a step that is not open, or opening a second one, panics.
 *
 * `Frame`, `Exec` and `Run` are the value-level specification of the facade;
 * each method of the class is proved to perform exactly one `Exec` step.
 */
module Graphics {
  import opened Base
  import opened Matrices
  import opened CoreTypes
  import opened Primitives
  import opened Render
  import opened Steps
  import opened Transforms

  /** The open step: `begin` always gives it a primitive. */
  datatype OpenStep = OpenStep(primitive: Primitive, indices: seq<u16>, vertices: seq<Vertex>)

  /** Everything the facade can observe or change. */
  datatype Frame = Frame(
    step: Option<OpenStep>,
    color: Color,
    matrix: Matrix,
    batches: seq<VertexBufferState>)

  /** One call on the facade; `Transform` is a call on its public field `t`. */
  datatype Call =
    | Begin(primitive: Primitive)
    | V3d(x: real, y: real, z: real)
    | Indices(indices: seq<u16>)
    | SetColor(color: Color)
    | End
    | Transform(op: TransformOp)

  /** The two usage errors, each a panic in the source. */
  datatype Panic = StepAlreadyBegun | StepNotBegun

  /** The frame of `Graphics::new` over a render state holding `batches`. */
  function NewFrame(batches: seq<VertexBufferState>): (f: Frame)
    ensures f.step.None? && f.color == WHITE && f.matrix == Identity() && f.batches == batches
  {
    Frame(None, WHITE, Identity(), batches)
  }

  /** The effect of one call, or the panic it raises. */
  function Exec(f: Frame, c: Call): (r: Result<Frame, Panic>)
    ensures r.Err? <==> (c.Begin? && f.step.Some?) || ((c.V3d? || c.Indices? || c.End?) && f.step.None?)
    ensures r.Err? ==> r.error == (if c.Begin? then StepAlreadyBegun else StepNotBegun)
    ensures r.Ok? && !c.End? ==> r.value.batches == f.batches
  {
    match c
    case Begin(p) =>
      if f.step.Some? then Err(StepAlreadyBegun)
      else Ok(f.(step := Some(OpenStep(p, [], []))))
    case V3d(x, y, z) =>
      if f.step.None? then Err(StepNotBegun)
      else
        var v := Emit(f.matrix, ToVector(f.color), Vec3(x, y, z));
        Ok(f.(step := Some(f.step.value.(vertices := f.step.value.vertices + [v]))))
    case Indices(list) =>
      if f.step.None? then Err(StepNotBegun)
      else Ok(f.(step := Some(f.step.value.(indices := list))))
    case SetColor(col) => Ok(f.(color := col))
    case End =>
      if f.step.None? then Err(StepNotBegun)
      else
        var s := f.step.value;
        Ok(f.(step := None, batches := f.batches + [Finalize(s.primitive, s.indices, s.vertices)]))
    case Transform(op) => Ok(f.(matrix := Next(f.matrix, op)))
  }

  /** A sequence of calls, stopping at the first panic. */
  function Run(f: Frame, calls: seq<Call>): Result<Frame, Panic>
    decreases |calls|
  {
    if calls == [] then Ok(f)
    else
      match Exec(f, calls[0])
      case Err(e) => Err(e)
      case Ok(g) => Run(g, calls[1..])
  }

  /** The number of `End` calls in a sequence. */
  function CountEnds(calls: seq<Call>): nat
  {
    if calls == [] then 0 else (if calls[0].End? then 1 else 0) + CountEnds(calls[1..])
  }

  /** One `V3d` call per local point, in order. */
  function V3ds(ps: seq<Vec3>): (calls: seq<Call>)
    ensures |calls| == |ps|
    ensures calls == seq(|ps|, i requires 0 <= i < |ps| => Call.V3d(ps[i].x, ps[i].y, ps[i].z))
  {
    if ps == [] then [] else [V3d(ps[0].x, ps[0].y, ps[0].z)] + V3ds(ps[1..])
  }

  /** Running `a + b` is running `a`, then `b` from where `a` left off. */
  lemma {:induction false} RunAppend(f: Frame, a: seq<Call>, b: seq<Call>)
    ensures Run(f, a + b) == match Run(f, a) case Ok(g) => Run(g, b) case Err(e) => Err(e)
    decreases |a|
  {
    if a == [] {
      assert a + b == b;
    } else {
      assert (a + b)[0] == a[0];
      assert (a + b)[1..] == a[1..] + b;
      match Exec(f, a[0])
      case Err(_) =>
      case Ok(g) => RunAppend(g, a[1..], b);
    }
  }

  /**
   * The render state is append-only: whatever calls succeed, the earlier
   * batches stay in place, in order, and exactly one batch is added per `End`.
   */
  lemma {:induction false} BatchesOnlyGrow(f: Frame, calls: seq<Call>)
    requires Run(f, calls).Ok?
    ensures |Run(f, calls).value.batches| == |f.batches| + CountEnds(calls)
    ensures Run(f, calls).value.batches[..|f.batches|] == f.batches
    decreases |calls|
  {
    if calls != [] {
      var g := Exec(f, calls[0]).value;
      BatchesOnlyGrow(g, calls[1..]);
      assert g.batches[..|f.batches|] == f.batches;
      assert Run(f, calls).value.batches[..|g.batches|][..|f.batches|]
          == Run(f, calls).value.batches[..|f.batches|];
    }
  }

  /** The frame `f` with `vs` appended to the vertices of its open step. */
  function Extended(f: Frame, vs: seq<Vertex>): Frame
    requires f.step.Some?
  {
    f.(step := Some(f.step.value.(vertices := f.step.value.vertices + vs)))
  }

  /** With an open step, `V3d` calls append their vertices, in order, in the current colour. */
  lemma {:induction false} RunV3ds(f: Frame, ps: seq<Vec3>)
    requires f.step.Some?
    ensures Run(f, V3ds(ps)) == Ok(Extended(f, EmitAll(f.matrix, ToVector(f.color), ps)))
    decreases |ps|
  {
    var c := ToVector(f.color);
    if ps == [] {
      assert f.step.value.vertices + [] == f.step.value.vertices;
      assert f.step == Some(f.step.value);
    } else {
      var calls := V3ds(ps);
      var v := Emit(f.matrix, c, ps[0]);
      var g := Extended(f, [v]);
      assert calls[0] == Call.V3d(ps[0].x, ps[0].y, ps[0].z);
      assert calls[1..] == V3ds(ps[1..]);
      ExecV3d(f, ps[0]);
      assert Run(f, calls) == Run(g, V3ds(ps[1..]));
      RunV3ds(g, ps[1..]);
      EmitAllCons(f.matrix, c, ps);
      ExtendedTwice(f, [v], EmitAll(f.matrix, c, ps[1..]));
    }
  }

  /** One `v3d` in an open step appends the emitted vertex and changes nothing else. */
  lemma ExecV3d(f: Frame, p: Vec3)
    requires f.step.Some?
    ensures Exec(f, Call.V3d(p.x, p.y, p.z)) == Ok(Extended(f, [Emit(f.matrix, ToVector(f.color), p)]))
  {
  }

  /** Extending twice is extending once by the concatenation. */
  lemma ExtendedTwice(f: Frame, a: seq<Vertex>, b: seq<Vertex>)
    requires f.step.Some?
    ensures Extended(Extended(f, a), b) == Extended(f, a + b)
  {
    assert (f.step.value.vertices + a) + b == f.step.value.vertices + (a + b);
  }

  /**
   * `begin(p); v3d` for each point; `end()`, from a frame with no open step,
   * adds exactly one batch, of primitive `p`, holding the emitted vertices and
   * no explicit index list, and leaves no open step.
   */
  lemma BeginVerticesEnd(f: Frame, p: Primitive, ps: seq<Vec3>)
    requires f.step.None?
    ensures Run(f, [Begin(p)] + V3ds(ps) + [End])
         == Ok(f.(batches := f.batches + [Finalize(p, [], EmitAll(f.matrix, ToVector(f.color), ps))]))
  {
    var vs := EmitAll(f.matrix, ToVector(f.color), ps);
    var g := f.(step := Some(OpenStep(p, [], [])));
    assert Run(f, [Begin(p)]) == Ok(g) by {
      assert Exec(f, Begin(p)) == Ok(g);
      assert [Begin(p)][1..] == [];
    }
    RunAppend(f, [Begin(p)], V3ds(ps));
    RunV3ds(g, ps);
    var h := g.(step := Some(OpenStep(p, [], vs)));
    assert [] + vs == vs;
    assert Run(f, [Begin(p)] + V3ds(ps)) == Ok(h);
    RunAppend(f, [Begin(p)] + V3ds(ps), [End]);
    assert Run(h, [End]) == Exec(h, End) by {
      assert [End][1..] == [];
    }
  }

  /**
   * The batch of `BeginVerticesEnd` with fewer than 65536 vertices: topology of
   * `p`, indices 0..n-1 and element count n (0 when no vertex was given).
   */
  lemma BeginVerticesEndCount(f: Frame, p: Primitive, ps: seq<Vec3>)
    requires f.step.None? && |ps| < U16_LIMIT
    ensures Run(f, [Begin(p)] + V3ds(ps) + [End]).Ok?
    ensures |Run(f, [Begin(p)] + V3ds(ps) + [End]).value.batches| == |f.batches| + 1
    ensures var b := Run(f, [Begin(p)] + V3ds(ps) + [End]).value.batches[|f.batches|];
            b.numElements as int == |ps| && b.indexBuffer == IndexRange(|ps|)
            && b.primitiveTopology == ToWgpuPrimitive(p)
  {
    BeginVerticesEnd(f, p, ps);
    ImplicitElementCount(p, EmitAll(f.matrix, ToVector(f.color), ps));
  }

  /**
   * `begin(p); v3d` for each point; `indices(list); end()` adds exactly one
   * batch: the emitted vertices with `list` as its index list.
   */
  lemma BeginVerticesIndicesEnd(f: Frame, p: Primitive, ps: seq<Vec3>, list: seq<u16>)
    requires f.step.None?
    ensures Run(f, [Begin(p)] + V3ds(ps) + [Indices(list), End])
         == Ok(f.(batches := f.batches + [Finalize(p, list, EmitAll(f.matrix, ToVector(f.color), ps))]))
  {
    var vs := EmitAll(f.matrix, ToVector(f.color), ps);
    var g := f.(step := Some(OpenStep(p, [], [])));
    assert Run(f, [Begin(p)]) == Ok(g) by {
      assert Exec(f, Begin(p)) == Ok(g);
      assert [Begin(p)][1..] == [];
    }
    RunAppend(f, [Begin(p)], V3ds(ps));
    RunV3ds(g, ps);
    var h := g.(step := Some(OpenStep(p, [], vs)));
    assert [] + vs == vs;
    assert Run(f, [Begin(p)] + V3ds(ps)) == Ok(h);
    RunAppend(f, [Begin(p)] + V3ds(ps), [Indices(list), End]);
    var k := h.(step := Some(OpenStep(p, list, vs)));
    assert Run(h, [Indices(list), End]) == Run(k, [End]) by {
      assert Exec(h, Indices(list)) == Ok(k);
      assert [Indices(list), End][1..] == [End];
    }
    assert Run(k, [End]) == Exec(k, End) by {
      assert [End][1..] == [];
    }
  }

  /**
   * A red square: `begin(TriangleList); color(RED)`, four vertices,
   * `indices([0, 1, 2, 2, 3, 0]); end()` gives one triangle-list batch of four
   * red vertices and six elements.
   */
  lemma RedSquare(f: Frame)
    requires f.step.None?
    ensures var calls := [Begin(TriangleList), SetColor(RED)]
                       + V3ds([Vec3(-0.5, 0.5, 0.0), Vec3(0.5, 0.5, 0.0), Vec3(0.5, -0.5, 0.0), Vec3(-0.5, -0.5, 0.0)])
                       + [Indices([0, 1, 2, 2, 3, 0]), End];
            && Run(f, calls).Ok?
            && |Run(f, calls).value.batches| == |f.batches| + 1
            && var b := Run(f, calls).value.batches[|f.batches|];
            && b.primitiveTopology == WgpuTypes.TriangleList
            && |b.vertexBuffer| == 4
            && (forall i :: 0 <= i < 4 ==> b.vertexBuffer[i].color == ToVector(RED))
            && b.indexBuffer == [0, 1, 2, 2, 3, 0]
            && b.numElements == 6
  {
    var ps := [Vec3(-0.5, 0.5, 0.0), Vec3(0.5, 0.5, 0.0), Vec3(0.5, -0.5, 0.0), Vec3(-0.5, -0.5, 0.0)];
    var list: seq<u16> := [0, 1, 2, 2, 3, 0];
    var g := f.(color := RED);
    assert Run(f, [SetColor(RED)]) == Ok(g) by {
      assert [SetColor(RED)][1..] == [];
    }
    assert [Begin(TriangleList), SetColor(RED)] == [Begin(TriangleList)] + [SetColor(RED)];
    // Setting the colour first and opening the step second ends in the same frame.
    var o := f.(step := Some(OpenStep(TriangleList, [], [])));
    assert Run(f, [Begin(TriangleList), SetColor(RED)]) == Ok(o.(color := RED)) by {
      assert Exec(f, Begin(TriangleList)) == Ok(o);
      assert [Begin(TriangleList), SetColor(RED)][1..] == [SetColor(RED)];
      assert [SetColor(RED)][1..] == [];
    }
    assert Run(g, [Begin(TriangleList)]) == Ok(o.(color := RED)) by {
      assert [Begin(TriangleList)][1..] == [];
    }
    var rest := V3ds(ps) + [Indices(list), End];
    assert [Begin(TriangleList), SetColor(RED)] + V3ds(ps) + [Indices(list), End]
        == [Begin(TriangleList), SetColor(RED)] + rest;
    assert [Begin(TriangleList)] + V3ds(ps) + [Indices(list), End] == [Begin(TriangleList)] + rest;
    RunAppend(f, [Begin(TriangleList), SetColor(RED)], rest);
    RunAppend(g, [Begin(TriangleList)], rest);
    BeginVerticesIndicesEnd(g, TriangleList, ps, list);
  }

  /** A second `indices` call replaces the first list: only the last one remains. */
  lemma IndicesReplace(f: Frame, first: seq<u16>, second: seq<u16>)
    requires f.step.Some?
    ensures Run(f, [Indices(first), Indices(second)]) == Run(f, [Indices(second)])
    ensures Run(f, [Indices(second)]) == Ok(f.(step := Some(f.step.value.(indices := second))))
  {
    assert [Indices(first), Indices(second)][1..] == [Indices(second)];
    assert [Indices(second)][1..] == [];
  }

  /** `color` changes the current colour and nothing else. */
  lemma SetColorOnlyChangesColor(f: Frame, c: Color)
    ensures Exec(f, SetColor(c)) == Ok(f.(color := c))
    ensures Exec(f, SetColor(c)).value.step == f.step
    ensures Exec(f, SetColor(c)).value.batches == f.batches
  {
  }

  /** `v3d`, `indices` and `end` with no open step panic, whatever follows. */
  lemma UseWithoutBegin(f: Frame, c: Call, rest: seq<Call>)
    requires f.step.None? && (c.V3d? || c.Indices? || c.End?)
    ensures Run(f, [c] + rest) == Err(StepNotBegun)
  {
    assert ([c] + rest)[0] == c;
  }

  /** Two `begin` calls without an `end` between them panic. */
  lemma DoubleBegin(f: Frame, p: Primitive, q: Primitive, rest: seq<Call>)
    requires f.step.None?
    ensures Run(f, [Begin(p), Begin(q)] + rest) == Err(StepAlreadyBegun)
  {
    var calls := [Begin(p), Begin(q)] + rest;
    assert calls[0] == Begin(p);
    assert calls[1..][0] == Begin(q);
  }

  /** The facade itself: a borrowed render state, an optional step, a colour and a transform. */
  class Graphics {
    const renderState: RenderState<VertexBufferState>
    var bufferStep: GraphicRenderStepBuffer?
    var color: Color
    const t: GraphicsTransform

    /** An open step always has its primitive, set by `Begin`. */
    predicate Valid()
      reads this, bufferStep
    {
      bufferStep != null ==> bufferStep.primitive.Some?
    }

    /** The value the facade currently stands for. */
    function Snapshot(): Frame
      reads this, bufferStep, t, renderState
      requires Valid()
    {
      Frame(
        if bufferStep == null then None
        else Some(OpenStep(bufferStep.primitive.value, bufferStep.indices, bufferStep.vertices)),
        color, t.matrix, renderState.vertices)
    }

    /** `Graphics::new`: no open step, white, the identity transform. */
    constructor (renderState: RenderState<VertexBufferState>)
      ensures Valid() && fresh(t)
      ensures this.renderState == renderState
      ensures bufferStep == null && color == WHITE && t.matrix == Identity()
      ensures Snapshot() == NewFrame(renderState.vertices)
    {
      this.renderState := renderState;
      bufferStep := null;
      color := WHITE;
      t := new GraphicsTransform();
    }


    /**
     * `v3d`: appends one vertex, at the x, y, z of the transform applied to
     * (x, y, z, 1), in the current colour; nothing else changes.
     */
    method V3d(x: real, y: real, z: real)
      requires Valid() && bufferStep != null
      modifies bufferStep
      ensures Valid()
      ensures bufferStep.vertices
           == old(bufferStep.vertices) + [Vertex(Apply(t.matrix, At(x, y, z)), ToVector(color))]
      ensures bufferStep.primitive == old(bufferStep.primitive)
      ensures bufferStep.indices == old(bufferStep.indices)
      ensures Snapshot() == Exec(old(Snapshot()), Call.V3d(x, y, z)).value
    {
      var vertex := Vertex(Apply(t.matrix, At(x, y, z)), ToVector(color));
      bufferStep.vertices := bufferStep.vertices + [vertex];
    }

    /** `indices`: replaces the open step's index list. */
    method Indices(indices: seq<u16>)
      requires Valid() && bufferStep != null
      modifies bufferStep
      ensures Valid()
      ensures bufferStep.indices == indices
      ensures bufferStep.primitive == old(bufferStep.primitive)
      ensures bufferStep.vertices == old(bufferStep.vertices)
      ensures Snapshot() == Exec(old(Snapshot()), Call.Indices(indices)).value
    {
      bufferStep.SetIndices(indices);
    }

    /** `color`: sets the colour of later vertices. */
    method SetColor(c: Color)
      requires Valid()
      modifies this`color
      ensures Valid()
      ensures color == c
      ensures Snapshot() == Exec(old(Snapshot()), Call.SetColor(c)).value
    {
      color := c;
    }

    /** `begin`: opens a fresh step of primitive `p` with empty lists. */
    method Begin(p: Primitive)
      requires Valid() && bufferStep == null
      modifies this`bufferStep
      ensures Valid()
      ensures bufferStep != null && fresh(bufferStep)
      ensures bufferStep.primitive == Some(p) && bufferStep.indices == [] && bufferStep.vertices == []
      ensures Snapshot() == Exec(old(Snapshot()), Call.Begin(p)).value
    {
      var step := new GraphicRenderStepBuffer();
      step.Init(Some(p));
      bufferStep := step;
    }

    /** `end`: finalizes the open step, appends the batch and leaves no open step. */
    method End()
      requires Valid() && bufferStep != null
      modifies this`bufferStep, bufferStep, renderState
      ensures Valid()
      ensures bufferStep == null
      ensures renderState.vertices
           == old(renderState.vertices)
              + [Finalize(old(bufferStep.primitive.value), old(bufferStep.indices), old(bufferStep.vertices))]
      ensures Snapshot() == Exec(old(Snapshot()), Call.End).value
    {
      var step := bufferStep;
      bufferStep := null;
      var batch := step.End();
      renderState.AddVertexBufferState(batch);
      bufferStep := null;
    }
  }
}
