/**
 * The 4x4 matrices of `cgdraw_math`, kept abstract.
 *
 * The source shows neither `Matrix4x4::identity`, nor the product, nor the
 * elementary builders (`from_translate`, `from_scale`, `from_rotate*`).  A
 * matrix is therefore modelled as a word over those builders: the free monoid
 * in which `Identity` is the empty word and `Mul` is concatenation.  Every
 * equation proved between words holds of the real matrices as well, so the
 * facts proved here are about WHICH product is formed and in WHICH order.
 * `Apply` gives a word its effect on a point: translations and scalings are
 * computed exactly (on reals), rotations and foreign matrices stay symbolic.
 */
module Matrices {

  /** An angle in radians (`Rad<f32>`). */
  datatype Rad = Rad(radians: real)

  datatype Vec3 = Vec3(x: real, y: real, z: real)

  /** One elementary matrix, named by the builder that produces it. */
  datatype Factor =
    | FromTranslate(offset: Vec3)
    | FromScale(factors: Vec3)
    | FromRotate(angleX: Rad, angleY: Rad, angleZ: Rad)
    | FromRotateX(angle: Rad)
    | FromRotateY(angle: Rad)
    | FromRotateZ(angle: Rad)
      /** A matrix computed outside the model (a camera matrix, say). */
    | External(tag: nat)

  /** The product of its factors, leftmost first. */
  datatype Matrix = Product(factors: seq<Factor>)

  function Identity(): Matrix
  {
    Product([])
  }

  function Elementary(f: Factor): Matrix
  {
    Product([f])
  }

  function Mul(a: Matrix, b: Matrix): Matrix
  {
    Product(a.factors + b.factors)
  }

  lemma MulIdentity(m: Matrix)
    ensures Mul(Identity(), m) == m && Mul(m, Identity()) == m
  {
    assert m.factors + [] == m.factors;
  }

  lemma MulAssociative(a: Matrix, b: Matrix, c: Matrix)
    ensures Mul(Mul(a, b), c) == Mul(a, Mul(b, c))
  {
    assert (a.factors + b.factors) + c.factors == a.factors + (b.factors + c.factors);
  }

  /**
   * A point in space.  `At` is a point with known coordinates; `Image(f, p)`
   * is the image of `p` under a factor whose effect is not computed here.
   */
  datatype Point = At(x: real, y: real, z: real) | Image(factor: Factor, source: Point)

  /** The effect of one elementary matrix on the point (x, y, z, 1). */
  function ApplyFactor(f: Factor, p: Point): Point
  {
    match (f, p)
    case (FromTranslate(t), At(x, y, z)) => At(x + t.x, y + t.y, z + t.z)
    case (FromScale(s), At(x, y, z)) => At(x * s.x, y * s.y, z * s.z)
    case _ => Image(f, p)
  }

  /**
   * The x, y, z of `m * (p, 1)`.  The rightmost factor acts first, so the
   * factor multiplied in last is the one closest to the vertex.
   */
  function Apply(m: Matrix, p: Point): Point
    decreases |m.factors|
  {
    if m.factors == [] then p
    else ApplyFactor(m.factors[0], Apply(Product(m.factors[1..]), p))
  }

  /** Applying a product is applying its right operand, then its left one. */
  lemma {:induction false} ApplyMul(a: Matrix, b: Matrix, p: Point)
    ensures Apply(Mul(a, b), p) == Apply(a, Apply(b, p))
    decreases |a.factors|
  {
    if a.factors == [] {
      assert Mul(a, b) == b;
    } else {
      var rest := Product(a.factors[1..]);
      assert Mul(a, b).factors[0] == a.factors[0];
      assert Mul(a, b).factors[1..] == Mul(rest, b).factors;
      ApplyMul(rest, b, p);
    }
  }

  lemma ApplyIdentity(p: Point)
    ensures Apply(Identity(), p) == p
  {
  }

  /** True of a word made of translations only. */
  predicate OnlyTranslations(m: Matrix)
  {
    forall i :: 0 <= i < |m.factors| ==> m.factors[i].FromTranslate?
  }

  /** The sum of the offsets of the translations of a word. */
  function Offset(m: Matrix): Vec3
    decreases |m.factors|
  {
    if m.factors == [] then Vec3(0.0, 0.0, 0.0)
    else
      var t := if m.factors[0].FromTranslate? then m.factors[0].offset else Vec3(0.0, 0.0, 0.0);
      var r := Offset(Product(m.factors[1..]));
      Vec3(t.x + r.x, t.y + r.y, t.z + r.z)
  }

  /** A vertex moved by translations only lands at its position plus their offsets. */
  lemma {:induction false} TranslationsAddOffsets(m: Matrix, x: real, y: real, z: real)
    requires OnlyTranslations(m)
    ensures Apply(m, At(x, y, z)) == At(x + Offset(m).x, y + Offset(m).y, z + Offset(m).z)
    decreases |m.factors|
  {
    if m.factors != [] {
      var rest := Product(m.factors[1..]);
      assert OnlyTranslations(rest) by {
        forall i | 0 <= i < |rest.factors| ensures rest.factors[i].FromTranslate? {
          assert rest.factors[i] == m.factors[i + 1];
        }
      }
      TranslationsAddOffsets(rest, x, y, z);
    }
  }

  /**
   * `scale(s, s, s)` followed by `translate(t, t, t)` forms S * T, so the
   * origin lands at (s*t, s*t, s*t): the translation IS scaled.
   */
  lemma ScaleThenTranslateOrigin(s: real, t: real)
    ensures Apply(Mul(Mul(Identity(), Elementary(FromScale(Vec3(s, s, s)))),
                      Elementary(FromTranslate(Vec3(t, t, t)))),
                  At(0.0, 0.0, 0.0))
         == At(s * t, s * t, s * t)
  {
    var m := Mul(Mul(Identity(), Elementary(FromScale(Vec3(s, s, s)))),
                 Elementary(FromTranslate(Vec3(t, t, t))));
    assert m.factors == [FromScale(Vec3(s, s, s)), FromTranslate(Vec3(t, t, t))];
    var inner := Product(m.factors[1..]);
    assert inner.factors == [FromTranslate(Vec3(t, t, t))];
    assert inner.factors[1..] == [];
    assert Apply(inner, At(0.0, 0.0, 0.0)) == At(t, t, t);
    assert Apply(m, At(0.0, 0.0, 0.0)) == ApplyFactor(FromScale(Vec3(s, s, s)), At(t, t, t));
  }

  /** `translate(t, t, t)` followed by `scale(s, s, s)` leaves the origin at (t, t, t). */
  lemma TranslateThenScaleOrigin(s: real, t: real)
    ensures Apply(Mul(Mul(Identity(), Elementary(FromTranslate(Vec3(t, t, t)))),
                      Elementary(FromScale(Vec3(s, s, s)))),
                  At(0.0, 0.0, 0.0))
         == At(t, t, t)
  {
    var m := Mul(Mul(Identity(), Elementary(FromTranslate(Vec3(t, t, t)))),
                 Elementary(FromScale(Vec3(s, s, s))));
    assert m.factors == [FromTranslate(Vec3(t, t, t)), FromScale(Vec3(s, s, s))];
    var inner := Product(m.factors[1..]);
    assert inner.factors == [FromScale(Vec3(s, s, s))];
    assert inner.factors[1..] == [];
    assert Apply(inner, At(0.0, 0.0, 0.0)) == At(0.0, 0.0, 0.0);
    assert Apply(m, At(0.0, 0.0, 0.0)) == ApplyFactor(FromTranslate(Vec3(t, t, t)), At(0.0, 0.0, 0.0));
  }
}
