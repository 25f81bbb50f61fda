/**
 * `crates/cgdraw_app/src/graphics/transform.rs`: the accumulated transform of
 * the `Graphics` facade.  Every operation right-multiplies the matrix by an
 * elementary matrix, so operations act on a vertex in the reverse of the
 * order in which they are called.
 */
module Transforms {
  import opened Matrices

  /** One call on a `GraphicsTransform`. */
  datatype TransformOp =
    | Translate(x: real, y: real, z: real)
    | Rotate(angleX: Rad, angleY: Rad, angleZ: Rad)
    | RotateX(angle: Rad)
    | RotateY(angle: Rad)
    | Scale(x: real, y: real, z: real)
    | LoadIdentity
    | Load(matrix: Matrix)

  /** True of the operations that multiply by an elementary matrix. */
  predicate Composes(op: TransformOp)
  {
    !op.LoadIdentity? && !op.Load?
  }

  /** The elementary matrix an operation multiplies by. */
  function FactorOf(op: TransformOp): Factor
    requires Composes(op)
  {
    match op
    case Translate(x, y, z) => FromTranslate(Vec3(x, y, z))
    case Rotate(ax, ay, az) => FromRotate(ax, ay, az)
    case RotateX(a) => FromRotateX(a)
    case RotateY(a) => FromRotateY(a)
    case Scale(x, y, z) => FromScale(Vec3(x, y, z))
  }

  /** The matrix after one operation. */
  function Next(m: Matrix, op: TransformOp): (r: Matrix)
    ensures Composes(op) ==> r.factors == m.factors + [FactorOf(op)]
    ensures op.LoadIdentity? ==> r == Identity()
    ensures op.Load? ==> r == op.matrix
  {
    match op
    case LoadIdentity => Identity()
    case Load(n) => n
    case _ => Mul(m, Elementary(FactorOf(op)))
  }

  /** The matrix after a sequence of operations, in call order. */
  function Run(m: Matrix, ops: seq<TransformOp>): Matrix
    decreases |ops|
  {
    if ops == [] then m else Run(Next(m, ops[0]), ops[1..])
  }

  /** The elementary matrices of a sequence of composing operations, in call order. */
  function FactorsOf(ops: seq<TransformOp>): (fs: seq<Factor>)
    requires forall i :: 0 <= i < |ops| ==> Composes(ops[i])
    ensures |fs| == |ops|
    ensures forall i :: 0 <= i < |ops| ==> fs[i] == FactorOf(ops[i])
  {
    if ops == [] then [] else [FactorOf(ops[0])] + FactorsOf(ops[1..])
  }

  /** Running operations one after another is running their concatenation. */
  lemma {:induction false} RunAppend(m: Matrix, a: seq<TransformOp>, b: seq<TransformOp>)
    ensures Run(m, a + b) == Run(Run(m, a), b)
    decreases |a|
  {
    if a == [] {
      assert a + b == b;
    } else {
      assert (a + b)[0] == a[0];
      assert (a + b)[1..] == a[1..] + b;
      RunAppend(Next(m, a[0]), a[1..], b);
    }
  }

  /**
   * Without loads, the matrix after op1, ..., opn is M * E1 * ... * En: call
   * order is composition order.
   */
  lemma {:induction false} ComposeInCallOrder(m: Matrix, ops: seq<TransformOp>)
    requires forall i :: 0 <= i < |ops| ==> Composes(ops[i])
    ensures Run(m, ops) == Mul(m, Product(FactorsOf(ops)))
    decreases |ops|
  {
    if ops == [] {
      MulIdentity(m);
    } else {
      var rest := ops[1..];
      assert forall i :: 0 <= i < |rest| ==> Composes(rest[i]) by {
        forall i | 0 <= i < |rest| ensures Composes(rest[i]) {
          assert rest[i] == ops[i + 1];
        }
      }
      var e := Elementary(FactorOf(ops[0]));
      assert Next(m, ops[0]) == Mul(m, e);
      ComposeInCallOrder(Mul(m, e), rest);
      MulAssociative(m, e, Product(FactorsOf(rest)));
      assert Mul(e, Product(FactorsOf(rest))) == Product(FactorsOf(ops));
    }
  }

  /** Two operations form M * E1 * E2. */
  lemma TwoOperations(m: Matrix, op1: TransformOp, op2: TransformOp)
    requires Composes(op1) && Composes(op2)
    ensures Run(m, [op1, op2]) == Mul(Mul(m, Elementary(FactorOf(op1))), Elementary(FactorOf(op2)))
  {
    var m1 := Next(m, op1);
    assert m1 == Mul(m, Elementary(FactorOf(op1)));
    assert [op1, op2][1..] == [op2];
    assert Run(m, [op1, op2]) == Run(m1, [op2]);
    assert Run(m1, [op2]) == Run(Next(m1, op2), []);
  }

  /** `load_identity` forgets the whole history, and a second one changes nothing. */
  lemma {:induction false} LoadIdentityForgets(m: Matrix, ops: seq<TransformOp>)
    ensures Run(m, ops + [LoadIdentity]) == Identity()
    ensures Run(m, ops + [LoadIdentity, LoadIdentity]) == Run(m, ops + [LoadIdentity])
  {
    RunAppend(m, ops, [LoadIdentity]);
    RunAppend(m, ops, [LoadIdentity, LoadIdentity]);
    assert [LoadIdentity, LoadIdentity][1..] == [LoadIdentity];
  }

  /** `load(n)` discards every earlier operation: only what follows it matters. */
  lemma {:induction false} LoadDiscardsHistory(m: Matrix, before: seq<TransformOp>, n: Matrix, after: seq<TransformOp>)
    ensures Run(m, before + [Load(n)] + after) == Run(n, after)
  {
    RunAppend(m, before + [Load(n)], after);
    RunAppend(m, before, [Load(n)]);
  }

  /** After `load_identity`, one operation leaves exactly its elementary matrix. */
  lemma LoadIdentityThenOne(m: Matrix, op: TransformOp)
    requires Composes(op)
    ensures Run(m, [LoadIdentity, op]) == Elementary(FactorOf(op))
  {
    assert [LoadIdentity, op][1..] == [op];
    assert Run(m, [LoadIdentity, op]) == Run(Identity(), [op]);
    assert Run(Identity(), [op]) == Run(Next(Identity(), op), []);
    MulIdentity(Elementary(FactorOf(op)));
  }

  /** The transform owned by a `Graphics` value: a single matrix. */
  class GraphicsTransform {
    var matrix: Matrix

    /** `GraphicsTransform::default`: the identity. */
    constructor ()
      ensures matrix == Identity()
    {
      matrix := Identity();
    }

    method Translate(x: real, y: real, z: real)
      modifies this
      ensures matrix == Mul(old(matrix), Elementary(FromTranslate(Vec3(x, y, z))))
      ensures matrix == Next(old(matrix), TransformOp.Translate(x, y, z))
    {
      matrix := Mul(matrix, Elementary(FromTranslate(Vec3(x, y, z))));
    }

    method Rotate(angleX: Rad, angleY: Rad, angleZ: Rad)
      modifies this
      ensures matrix == Mul(old(matrix), Elementary(FromRotate(angleX, angleY, angleZ)))
      ensures matrix == Next(old(matrix), TransformOp.Rotate(angleX, angleY, angleZ))
    {
      matrix := Mul(matrix, Elementary(FromRotate(angleX, angleY, angleZ)));
    }

    method RotateX(angle: Rad)
      modifies this
      ensures matrix == Mul(old(matrix), Elementary(FromRotateX(angle)))
      ensures matrix == Next(old(matrix), TransformOp.RotateX(angle))
    {
      matrix := Mul(matrix, Elementary(FromRotateX(angle)));
    }

    method RotateY(angle: Rad)
      modifies this
      ensures matrix == Mul(old(matrix), Elementary(FromRotateY(angle)))
      ensures matrix == Next(old(matrix), TransformOp.RotateY(angle))
    {
      matrix := Mul(matrix, Elementary(FromRotateY(angle)));
    }

    method Scale(x: real, y: real, z: real)
      modifies this
      ensures matrix == Mul(old(matrix), Elementary(FromScale(Vec3(x, y, z))))
      ensures matrix == Next(old(matrix), TransformOp.Scale(x, y, z))
    {
      matrix := Mul(matrix, Elementary(FromScale(Vec3(x, y, z))));
    }

    method LoadIdentity()
      modifies this
      ensures matrix == Identity()
    {
      matrix := Identity();
    }

    method Load(m: Matrix)
      modifies this
      ensures matrix == m
    {
      matrix := m;
    }
  }
}
