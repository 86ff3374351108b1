/** Transform math shared by the camera and the entities: 3-vectors of reals,
    4x4 matrices as terms over glm's constructors, and the point semantics of
    the affine terms.

    glm's numerics are not modelled. A matrix is the expression that builds it,
    so two matrices are equal exactly when they were built by the same calls in
    the same order; that is what lets the composition order be checked. Sine and
    cosine are supplied by the caller as a `Trig` value. */
module Transforms {
  import opened Wrappers

  /** A glm.vec3 of reals; 32-bit float rounding is not modelled. */
  datatype Vec3 = Vec3(x: real, y: real, z: real) {
    function Plus(o: Vec3): Vec3 {
      Vec3(x + o.x, y + o.y, z + o.z)
    }

    function Times(k: real): Vec3 {
      Vec3(x * k, y * k, z * k)
    }
  }

  /** The unit axes glm.rotate is called with: vec3(1,0,0), vec3(0,1,0), vec3(0,0,1). */
  datatype Axis = XAxis | YAxis | ZAxis

  /** Sine and cosine of an angle given in DEGREES (glm.radians folded in). */
  datatype Trig = Trig(sin: real -> real, cos: real -> real)

  /** A 4x4 matrix as the glm expression that produced it. `Product(a, b)` is `a @ b`. */
  datatype Mat =
    | Rotate(degrees: real, axis: Axis)                    // glm.rotate(glm.radians(degrees), axis)
    | Translate(offset: Vec3)                              // glm.translate(offset)
    | Scale(factors: Vec3)                                 // glm.scale(factors)
    | Perspective(fov: real, aspect: real, near: real, far: real)  // glm.perspective
    | LookAt(eye: VecTerm, center: VecTerm, up: VecTerm)   // glm.lookAt
    | Product(left: Mat, right: Mat)

  /** A vector computed from matrices: a literal, a sum, or `m @ v`. */
  datatype VecTerm =
    | Point(v: Vec3)
    | Sum(a: VecTerm, b: VecTerm)
    | Transformed(m: Mat, arg: VecTerm)

  /** The rotation `yaw @ pitch @ roll`: pitch about X from orientation.x, yaw
      about Y from orientation.y, roll about Z from orientation.z. */
  function Rotation(orientation: Vec3): Mat {
    Product(Product(Rotate(orientation.y, YAxis), Rotate(orientation.x, XAxis)),
            Rotate(orientation.z, ZAxis))
  }

  /** An entity's model matrix: `rotation @ translate(position) @ scale(s, s, s)`. */
  function ModelTransform(position: Vec3, orientation: Vec3, scale: real): Mat {
    Product(Product(Rotation(orientation), Translate(position)),
            Scale(Vec3(scale, scale, scale)))
  }

  /** The factors of a product, left to right; matrix products are associative,
      so this list is what a product means up to parenthesisation. */
  function Factors(m: Mat): (fs: seq<Mat>)
    ensures |fs| >= 1
    ensures forall k :: 0 <= k < |fs| ==> !fs[k].Product?
    ensures !m.Product? ==> fs == [m]
  {
    if m.Product? then Factors(m.left) + Factors(m.right) else [m]
  }

  /** The factors of a model matrix are yaw, pitch, roll, translation and scale,
      in that order: the rotation is outermost, the scale innermost. */
  lemma {:induction false} ModelTransformFactors(position: Vec3, orientation: Vec3, scale: real)
    ensures Factors(ModelTransform(position, orientation, scale))
         == [Rotate(orientation.y, YAxis), Rotate(orientation.x, XAxis), Rotate(orientation.z, ZAxis),
             Translate(position), Scale(Vec3(scale, scale, scale))]
  {
    var r := Rotation(orientation);
    assert Factors(Product(Rotate(orientation.y, YAxis), Rotate(orientation.x, XAxis)))
        == [Rotate(orientation.y, YAxis), Rotate(orientation.x, XAxis)];
    assert Factors(r) == [Rotate(orientation.y, YAxis), Rotate(orientation.x, XAxis), Rotate(orientation.z, ZAxis)];
    assert Factors(Product(r, Translate(position))) == Factors(r) + [Translate(position)];
  }

  /** Rotation of a point about a coordinate axis by `degrees`, right-handed, as
      glm.rotate and glm.rotateY build it. */
  function RotatePoint(axis: Axis, degrees: real, p: Vec3, trig: Trig): Vec3 {
    var s := trig.sin(degrees);
    var c := trig.cos(degrees);
    match axis
    case XAxis => Vec3(p.x, c * p.y - s * p.z, s * p.y + c * p.z)
    case YAxis => Vec3(c * p.x + s * p.z, p.y, c * p.z - s * p.x)
    case ZAxis => Vec3(c * p.x - s * p.y, s * p.x + c * p.y, p.z)
  }

  /** `m @ p` for a point, defined for the affine terms built from rotations,
      translations and scales; None for projection and look-at terms. */
  function ApplyPoint(m: Mat, p: Vec3, trig: Trig): Option<Vec3> {
    match m
    case Rotate(d, a) => Some(RotatePoint(a, d, p, trig))
    case Translate(o) => Some(p.Plus(o))
    case Scale(f) => Some(Vec3(p.x * f.x, p.y * f.y, p.z * f.z))
    case Perspective(_, _, _, _) => None
    case LookAt(_, _, _) => None
    case Product(l, r) =>
      match ApplyPoint(r, p, trig)
      case None => None
      case Some(q) => ApplyPoint(l, q, trig)
  }

  /** The value of a vector term, where its matrices have a point semantics. */
  function EvalVec(t: VecTerm, trig: Trig): Option<Vec3> {
    match t
    case Point(v) => Some(v)
    case Sum(a, b) =>
      (match EvalVec(a, trig)
       case None => None
       case Some(u) =>
         match EvalVec(b, trig)
         case None => None
         case Some(w) => Some(u.Plus(w)))
    case Transformed(m, arg) =>
      match EvalVec(arg, trig)
      case None => None
      case Some(u) => ApplyPoint(m, u, trig)
  }

  /** A rotation term turns a point by roll, then pitch, then yaw. */
  lemma RotationMapsPoint(orientation: Vec3, p: Vec3, trig: Trig)
    ensures var rolled := RotatePoint(ZAxis, orientation.z, p, trig);
            var pitched := RotatePoint(XAxis, orientation.x, rolled, trig);
            ApplyPoint(Rotation(orientation), p, trig) == Some(RotatePoint(YAxis, orientation.y, pitched, trig))
  {
    var rolled := RotatePoint(ZAxis, orientation.z, p, trig);
    var pitched := RotatePoint(XAxis, orientation.x, rolled, trig);
    var yawPitch := Product(Rotate(orientation.y, YAxis), Rotate(orientation.x, XAxis));
    var rollResult := ApplyPoint(Rotate(orientation.z, ZAxis), p, trig);
    assert rollResult.Some? && rollResult.value == rolled;
    assert ApplyPoint(Rotation(orientation), p, trig) == ApplyPoint(yawPitch, rolled, trig);
    var pitchResult := ApplyPoint(Rotate(orientation.x, XAxis), rolled, trig);
    assert pitchResult.Some? && pitchResult.value == pitched;
    var result := ApplyPoint(yawPitch, rolled, trig);
    assert result.Some? && result.value == RotatePoint(YAxis, orientation.y, pitched, trig);
  }

  /** A model matrix scales a local point first, then translates it by the
      position, then rolls, pitches and yaws it: the translation is rotated too. */
  lemma ModelTransformMapsPoint(position: Vec3, orientation: Vec3, scale: real, p: Vec3, trig: Trig)
    ensures var placed := p.Times(scale).Plus(position);
            var rolled := RotatePoint(ZAxis, orientation.z, placed, trig);
            var pitched := RotatePoint(XAxis, orientation.x, rolled, trig);
            ApplyPoint(ModelTransform(position, orientation, scale), p, trig)
              == Some(RotatePoint(YAxis, orientation.y, pitched, trig))
  {
    var placed := p.Times(scale).Plus(position);
    var rolled := RotatePoint(ZAxis, orientation.z, placed, trig);
    var pitched := RotatePoint(XAxis, orientation.x, rolled, trig);
    var yawPitch := Product(Rotate(orientation.y, YAxis), Rotate(orientation.x, XAxis));
    var scaled := ApplyPoint(Scale(Vec3(scale, scale, scale)), p, trig);
    assert scaled.Some? && scaled.value == p.Times(scale);
    var translated := ApplyPoint(Translate(position), p.Times(scale), trig);
    assert translated.Some? && translated.value == placed;
    assert ApplyPoint(Product(Rotation(orientation), Translate(position)), p.Times(scale), trig)
        == ApplyPoint(Rotation(orientation), placed, trig);
    assert ApplyPoint(Rotation(orientation), placed, trig) == ApplyPoint(yawPitch, rolled, trig);
    var result := ApplyPoint(yawPitch, rolled, trig);
    assert result.Some? && result.value == RotatePoint(YAxis, orientation.y, pitched, trig);
  }

  /** An entity at (1, 0, 0) with orientation (0, 90, 0) and scale 2 maps the
      local point (1, 0, 0) to (0, 0, -3): scaled to (2, 0, 0), translated to
      (3, 0, 0), then yawed by 90 degrees. */
  lemma YawedEntityExample(trig: Trig)
    requires trig.sin(0.0) == 0.0 && trig.cos(0.0) == 1.0
    requires trig.sin(90.0) == 1.0 && trig.cos(90.0) == 0.0
    ensures ApplyPoint(ModelTransform(Vec3(1.0, 0.0, 0.0), Vec3(0.0, 90.0, 0.0), 2.0), Vec3(1.0, 0.0, 0.0), trig)
         == Some(Vec3(0.0, 0.0, -3.0))
  {
    QuarterYawedEntity(Vec3(1.0, 0.0, 0.0), Vec3(0.0, 90.0, 0.0), 2.0, Vec3(1.0, 0.0, 0.0), trig);
  }

  /** An entity yawed by 90 degrees, with no pitch or roll, sends a local point
      to its scaled and translated place turned a quarter about Y. */
  lemma QuarterYawedEntity(position: Vec3, orientation: Vec3, scale: real, p: Vec3, trig: Trig)
    requires orientation == Vec3(0.0, 90.0, 0.0)
    requires trig.sin(0.0) == 0.0 && trig.cos(0.0) == 1.0
    requires trig.sin(90.0) == 1.0 && trig.cos(90.0) == 0.0
    ensures var placed := p.Times(scale).Plus(position);
            ApplyPoint(ModelTransform(position, orientation, scale), p, trig) == Some(Vec3(placed.z, placed.y, -placed.x))
  {
    var placed := p.Times(scale).Plus(position);
    ModelTransformMapsPoint(position, orientation, scale, p, trig);
    ZeroTurnFixes(ZAxis, placed, trig);
    ZeroTurnFixes(XAxis, placed, trig);
    QuarterTurnAboutY(placed, trig);
  }

  /** A turn whose sine is 0 and cosine 1 leaves a point where it is. */
  lemma ZeroTurnFixes(axis: Axis, p: Vec3, trig: Trig)
    requires trig.sin(0.0) == 0.0 && trig.cos(0.0) == 1.0
    ensures RotatePoint(axis, 0.0, p, trig) == p
  {
  }

  /** A quarter turn about Y sends (x, y, z) to (z, y, -x). */
  lemma QuarterTurnAboutY(p: Vec3, trig: Trig)
    requires trig.sin(90.0) == 1.0 && trig.cos(90.0) == 0.0
    ensures RotatePoint(YAxis, 90.0, p, trig) == Vec3(p.z, p.y, -p.x)
  {
  }

  /** Rotating about Y keeps the height and, when sin^2 + cos^2 = 1, the
      horizontal length. */
  lemma RotateYPreservesLengths(degrees: real, p: Vec3, trig: Trig)
    requires trig.sin(degrees) * trig.sin(degrees) + trig.cos(degrees) * trig.cos(degrees) == 1.0
    ensures RotatePoint(YAxis, degrees, p, trig).y == p.y
    ensures var q := RotatePoint(YAxis, degrees, p, trig);
            q.x * q.x + q.z * q.z == p.x * p.x + p.z * p.z
  {
    var s, c := trig.sin(degrees), trig.cos(degrees);
    var q := RotatePoint(YAxis, degrees, p, trig);
    calc {
      q.x * q.x + q.z * q.z;
      (c * p.x + s * p.z) * (c * p.x + s * p.z) + (c * p.z - s * p.x) * (c * p.z - s * p.x);
      (c * c + s * s) * (p.x * p.x) + (c * c + s * s) * (p.z * p.z);
      p.x * p.x + p.z * p.z;
    }
  }
}
