/**
 * `crates/cgdraw_app/src/graphics.rs`: the older `Graphics` facade.
 *
 * There is no begin/end discipline: `SaveVertice` always appends to a pending
 * vertex list, and `Draw` turns the pending vertices and an explicit index
 * list into one batch, without synthesizing indices, then clears the list.
 * Its batch has no topology (the older shape of `VertexBufferState`).
 */
module LegacyGraphics {
  import opened Base
  import opened Matrices
  import opened CoreTypes
  import R = Render
  import Primitives
  import G = Graphics

  /** The older finalized batch: vertex data, index data and element count. */
  datatype VertexBufferState = VertexBufferState(vertexBuffer: seq<Vertex>, indexBuffer: seq<u16>, numElements: u32)

  /** Everything the older facade can observe or change. */
  datatype Frame = Frame(color: ColorVector, vertices: seq<Vertex>, matrix: Matrix, batches: seq<VertexBufferState>)

  /** One call on the older facade. */
  datatype Call =
    | SaveVertice(x: real, y: real, z: real)
    | SetColor(c: Color)
    | Draw(indices: seq<u16>)
    | LoadIdentity
    | ScaleX(s: real) | ScaleY(s: real) | ScaleZ(s: real)
    | TranslateX(d: real) | TranslateY(d: real) | TranslateZ(d: real)
    | RotateX(angle: Rad) | RotateY(angle: Rad) | RotateZ(angle: Rad)

  /** The calls that right-multiply the transform by an elementary matrix. */
  predicate IsAxisTransform(c: Call)
  {
    !c.SaveVertice? && !c.SetColor? && !c.Draw? && !c.LoadIdentity?
  }

  /** The elementary matrix of a one-axis call; the other axes get scale 1 or offset 0. */
  function AxisFactor(c: Call): Factor
    requires IsAxisTransform(c)
  {
    match c
    case ScaleX(s) => FromScale(Vec3(s, 1.0, 1.0))
    case ScaleY(s) => FromScale(Vec3(1.0, s, 1.0))
    case ScaleZ(s) => FromScale(Vec3(1.0, 1.0, s))
    case TranslateX(d) => FromTranslate(Vec3(d, 0.0, 0.0))
    case TranslateY(d) => FromTranslate(Vec3(0.0, d, 0.0))
    case TranslateZ(d) => FromTranslate(Vec3(0.0, 0.0, d))
    case RotateX(a) => FromRotateX(a)
    case RotateY(a) => FromRotateY(a)
    case RotateZ(a) => FromRotateZ(a)
  }

  /** Each one-axis scale or translation moves a point along its own axis only. */
  lemma AxisTransformsMoveOneAxis(c: Call, x: real, y: real, z: real)
    requires c.ScaleX? || c.ScaleY? || c.ScaleZ? || c.TranslateX? || c.TranslateY? || c.TranslateZ?
    ensures var q := Apply(Elementary(AxisFactor(c)), At(x, y, z));
            match c
            case ScaleX(s) => q == At(x * s, y, z)
            case ScaleY(s) => q == At(x, y * s, z)
            case ScaleZ(s) => q == At(x, y, z * s)
            case TranslateX(d) => q == At(x + d, y, z)
            case TranslateY(d) => q == At(x, y + d, z)
            case TranslateZ(d) => q == At(x, y, z + d)
            case _ => false
  {
    assert Elementary(AxisFactor(c)).factors[1..] == [];
  }

  /** The batch `draw` builds: the pending vertices, the given indices as they are, and their count. */
  function Batch(vertices: seq<Vertex>, indices: seq<u16>): (b: VertexBufferState)
    ensures b.vertexBuffer == vertices && b.indexBuffer == indices
    ensures b.numElements as int == |indices| % U32_LIMIT
    ensures indices == [] ==> b.numElements == 0
  {
    VertexBufferState(vertices, indices, TruncateU32(|indices|))
  }

  /** The frame of `Graphics::new` over a render state holding `batches`. */
  function NewFrame(batches: seq<VertexBufferState>): (f: Frame)
    ensures f.color == ToVector(WHITE) && f.vertices == [] && f.matrix == Identity() && f.batches == batches
  {
    Frame(ToVector(WHITE), [], Identity(), batches)
  }

  /** The effect of one call; the older facade never panics. */
  function Exec(f: Frame, c: Call): (g: Frame)
    ensures !c.Draw? ==> g.batches == f.batches
    ensures c.Draw? ==> g.vertices == [] && g.color == f.color && g.matrix == f.matrix
  {
    match c
    case SaveVertice(x, y, z) => f.(vertices := f.vertices + [Emit(f.matrix, f.color, Vec3(x, y, z))])
    case SetColor(col) => f.(color := ToVector(col))
    case Draw(list) => f.(vertices := [], batches := f.batches + [Batch(f.vertices, list)])
    case LoadIdentity => f.(matrix := Identity())
    case _ => f.(matrix := Mul(f.matrix, Elementary(AxisFactor(c))))
  }

  function Run(f: Frame, calls: seq<Call>): Frame
    decreases |calls|
  {
    if calls == [] then f else Run(Exec(f, calls[0]), calls[1..])
  }

  /** One `SaveVertice` call per local point, in order. */
  function SaveVertices(ps: seq<Vec3>): (calls: seq<Call>)
    ensures |calls| == |ps|
    ensures calls == seq(|ps|, i requires 0 <= i < |ps| => Call.SaveVertice(ps[i].x, ps[i].y, ps[i].z))
  {
    if ps == [] then [] else [SaveVertice(ps[0].x, ps[0].y, ps[0].z)] + SaveVertices(ps[1..])
  }

  lemma {:induction false} RunAppend(f: Frame, a: seq<Call>, b: seq<Call>)
    ensures Run(f, a + b) == Run(Run(f, a), b)
    decreases |a|
  {
    if a == [] {
      assert a + b == b;
    } else {
      assert (a + b)[0] == a[0];
      assert (a + b)[1..] == a[1..] + b;
      RunAppend(Exec(f, a[0]), a[1..], b);
    }
  }

  /** The frame `f` with `vs` appended to its pending vertices. */
  function Saved(f: Frame, vs: seq<Vertex>): Frame
  {
    f.(vertices := f.vertices + vs)
  }

  /** `save_vertice` needs no begin: it always appends, in the current colour. */
  lemma {:induction false} RunSaveVertices(f: Frame, ps: seq<Vec3>)
    ensures Run(f, SaveVertices(ps)) == Saved(f, EmitAll(f.matrix, f.color, ps))
    decreases |ps|
  {
    if ps == [] {
      assert f.vertices + [] == f.vertices;
    } else {
      var v := Emit(f.matrix, f.color, ps[0]);
      RunSaveVerticesStep(f, ps);
      RunSaveVertices(Saved(f, [v]), ps[1..]);
      EmitAllCons(f.matrix, f.color, ps);
      SavedTwice(f, [v], EmitAll(f.matrix, f.color, ps[1..]));
    }
  }

  /** Running `save_vertice` calls performs the first one, then the rest. */
  lemma RunSaveVerticesStep(f: Frame, ps: seq<Vec3>)
    requires ps != []
    ensures Run(f, SaveVertices(ps)) == Run(Saved(f, [Emit(f.matrix, f.color, ps[0])]), SaveVertices(ps[1..]))
  {
    var calls := SaveVertices(ps);
    assert calls[1..] == SaveVertices(ps[1..]);
    ExecSaveVertice(f, ps[0]);
  }

  /** Saving twice is saving once the concatenation. */
  lemma SavedTwice(f: Frame, a: seq<Vertex>, b: seq<Vertex>)
    ensures Saved(Saved(f, a), b) == Saved(f, a + b)
  {
    assert (f.vertices + a) + b == f.vertices + (a + b);
  }

  /** One `save_vertice` appends the emitted vertex and changes nothing else. */
  lemma ExecSaveVertice(f: Frame, p: Vec3)
    ensures Exec(f, SaveVertice(p.x, p.y, p.z)) == Saved(f, [Emit(f.matrix, f.color, p)])
  {
  }

  /**
   * Saving vertices and drawing appends exactly one batch: every pending
   * vertex with the explicit indices; the pending list is then empty and the
   * colour and transform are kept.
   */
  lemma SaveThenDraw(f: Frame, ps: seq<Vec3>, indices: seq<u16>)
    ensures Run(f, SaveVertices(ps) + [Draw(indices)])
         == f.(vertices := [],
               batches := f.batches + [Batch(f.vertices + EmitAll(f.matrix, f.color, ps), indices)])
  {
    RunAppend(f, SaveVertices(ps), [Draw(indices)]);
    RunSaveVertices(f, ps);
    assert [Draw(indices)][1..] == [];
  }

  /**
   * The two revisions agree when an index list is given: from the same colour
   * and transform, `begin; v3d...; indices(l); end` and `save_vertice...; draw(l)`
   * produce the same vertex data, index data and element count.
   */
  lemma RevisionsAgreeWithIndices(current: G.Frame, older: Frame, p: Primitives.Primitive, ps: seq<Vec3>, list: seq<u16>)
    requires current.step.None? && older.vertices == []
    requires older.color == ToVector(current.color) && older.matrix == current.matrix
    requires list != []
    ensures G.Run(current, [G.Begin(p)] + G.V3ds(ps) + [G.Indices(list), G.End]).Ok?
    ensures var c := G.Run(current, [G.Begin(p)] + G.V3ds(ps) + [G.Indices(list), G.End]).value.batches;
            var o := Run(older, SaveVertices(ps) + [Draw(list)]).batches;
            && |c| == |current.batches| + 1 && |o| == |older.batches| + 1
            && c[|current.batches|].vertexBuffer == o[|older.batches|].vertexBuffer
            && c[|current.batches|].indexBuffer == o[|older.batches|].indexBuffer
            && c[|current.batches|].numElements == o[|older.batches|].numElements
  {
    G.BeginVerticesIndicesEnd(current, p, ps, list);
    SaveThenDraw(older, ps, list);
    assert [] + EmitAll(older.matrix, older.color, ps) == EmitAll(older.matrix, older.color, ps);
  }

  /**
   * Without an index list the revisions differ: for 1 to 65535 vertices the
   * current one draws every vertex, the older one draws nothing.
   */
  lemma RevisionsDifferWithoutIndices(current: G.Frame, older: Frame, p: Primitives.Primitive, ps: seq<Vec3>)
    requires current.step.None? && 0 < |ps| < U16_LIMIT
    ensures G.Run(current, [G.Begin(p)] + G.V3ds(ps) + [G.End]).Ok?
    ensures var c := G.Run(current, [G.Begin(p)] + G.V3ds(ps) + [G.End]).value.batches;
            var o := Run(older, SaveVertices(ps) + [Draw([])]).batches;
            && |c| == |current.batches| + 1 && |o| == |older.batches| + 1
            && c[|current.batches|].numElements as int == |ps|
            && o[|older.batches|].numElements == 0
  {
    G.BeginVerticesEndCount(current, p, ps);
    SaveThenDraw(older, ps, []);
  }

  /** The older facade: a borrowed render state, pending vertices, a colour vector and a transform. */
  class Graphics {
    const renderState: R.RenderState<VertexBufferState>
    var color: ColorVector
    var vertices: seq<Vertex>
    var transformMatrix: Matrix

    function Snapshot(): Frame
      reads this, renderState
    {
      Frame(color, vertices, transformMatrix, renderState.vertices)
    }

    /** `Graphics::new`: white, no pending vertices, the identity transform. */
    constructor (renderState: R.RenderState<VertexBufferState>)
      ensures this.renderState == renderState
      ensures color == ToVector(WHITE) && vertices == [] && transformMatrix == Identity()
      ensures Snapshot() == NewFrame(renderState.vertices)
    {
      this.renderState := renderState;
      color := ToVector(WHITE);
      vertices := [];
      transformMatrix := Identity();
    }

    /** `save_vertice`: appends one vertex, transformed, in the current colour; no begin needed. */
    method SaveVertice(x: real, y: real, z: real)
      modifies this`vertices
      ensures vertices == old(vertices) + [Vertex(Apply(transformMatrix, At(x, y, z)), color)]
      ensures Snapshot() == Exec(old(Snapshot()), Call.SaveVertice(x, y, z))
    {
      var vertex := Vertex(Apply(transformMatrix, At(x, y, z)), color);
      vertices := vertices + [vertex];
    }

    /** `color`: stores the colour's vector; saved vertices keep theirs. */
    method SetColor(c: Color)
      modifies this`color
      ensures color == ToVector(c)
      ensures Snapshot() == Exec(old(Snapshot()), Call.SetColor(c))
    {
      color := ToVector(c);
    }

    /** `draw`: one batch of the pending vertices and the given indices, then no pending vertices. */
    method Draw(indices: seq<u16>)
      modifies this`vertices, renderState
      ensures renderState.vertices == old(renderState.vertices) + [Batch(old(vertices), indices)]
      ensures vertices == []
      ensures Snapshot() == Exec(old(Snapshot()), Call.Draw(indices))
    {
      var batch := VertexBufferState(vertices, indices, TruncateU32(|indices|));
      renderState.AddVertexBufferState(batch);
      vertices := [];
    }

    method LoadIdentity()
      modifies this`transformMatrix
      ensures transformMatrix == Identity()
      ensures Snapshot() == Exec(old(Snapshot()), Call.LoadIdentity)
    {
      transformMatrix := Identity();
    }

    method ScaleX(s: real)
      modifies this`transformMatrix
      ensures transformMatrix == Mul(old(transformMatrix), Elementary(FromScale(Vec3(s, 1.0, 1.0))))
      ensures Snapshot() == Exec(old(Snapshot()), Call.ScaleX(s))
    {
      transformMatrix := Mul(transformMatrix, Elementary(FromScale(Vec3(s, 1.0, 1.0))));
    }

    method ScaleY(s: real)
      modifies this`transformMatrix
      ensures transformMatrix == Mul(old(transformMatrix), Elementary(FromScale(Vec3(1.0, s, 1.0))))
      ensures Snapshot() == Exec(old(Snapshot()), Call.ScaleY(s))
    {
      transformMatrix := Mul(transformMatrix, Elementary(FromScale(Vec3(1.0, s, 1.0))));
    }

    method ScaleZ(s: real)
      modifies this`transformMatrix
      ensures transformMatrix == Mul(old(transformMatrix), Elementary(FromScale(Vec3(1.0, 1.0, s))))
      ensures Snapshot() == Exec(old(Snapshot()), Call.ScaleZ(s))
    {
      transformMatrix := Mul(transformMatrix, Elementary(FromScale(Vec3(1.0, 1.0, s))));
    }

    method TranslateX(d: real)
      modifies this`transformMatrix
      ensures transformMatrix == Mul(old(transformMatrix), Elementary(FromTranslate(Vec3(d, 0.0, 0.0))))
      ensures Snapshot() == Exec(old(Snapshot()), Call.TranslateX(d))
    {
      transformMatrix := Mul(transformMatrix, Elementary(FromTranslate(Vec3(d, 0.0, 0.0))));
    }

    method TranslateY(d: real)
      modifies this`transformMatrix
      ensures transformMatrix == Mul(old(transformMatrix), Elementary(FromTranslate(Vec3(0.0, d, 0.0))))
      ensures Snapshot() == Exec(old(Snapshot()), Call.TranslateY(d))
    {
      transformMatrix := Mul(transformMatrix, Elementary(FromTranslate(Vec3(0.0, d, 0.0))));
    }

    method TranslateZ(d: real)
      modifies this`transformMatrix
      ensures transformMatrix == Mul(old(transformMatrix), Elementary(FromTranslate(Vec3(0.0, 0.0, d))))
      ensures Snapshot() == Exec(old(Snapshot()), Call.TranslateZ(d))
    {
      transformMatrix := Mul(transformMatrix, Elementary(FromTranslate(Vec3(0.0, 0.0, d))));
    }

    method RotateX(angle: Rad)
      modifies this`transformMatrix
      ensures transformMatrix == Mul(old(transformMatrix), Elementary(FromRotateX(angle)))
      ensures Snapshot() == Exec(old(Snapshot()), Call.RotateX(angle))
    {
      transformMatrix := Mul(transformMatrix, Elementary(FromRotateX(angle)));
    }

    method RotateY(angle: Rad)
      modifies this`transformMatrix
      ensures transformMatrix == Mul(old(transformMatrix), Elementary(FromRotateY(angle)))
      ensures Snapshot() == Exec(old(Snapshot()), Call.RotateY(angle))
    {
      transformMatrix := Mul(transformMatrix, Elementary(FromRotateY(angle)));
    }

    method RotateZ(angle: Rad)
      modifies this`transformMatrix
      ensures transformMatrix == Mul(old(transformMatrix), Elementary(FromRotateZ(angle)))
      ensures Snapshot() == Exec(old(Snapshot()), Call.RotateZ(angle))
    {
      transformMatrix := Mul(transformMatrix, Elementary(FromRotateZ(angle)));
    }
  }
}
