/**
 * `CameraFrame`: a pinhole camera given by its origin, the lower-left
 * corner of the image plane and the two vectors spanning that plane.  A
 * point `(s, t)` of the unit square maps to the ray from the origin through
 * `lowerLeftCorner + s * horizontal + t * vertical`.
 */
module Camera {
  import opened Mathematics
  import opened Randomness
  import opened Structs

  datatype CameraFrame = CameraFrame(origin: Float3, lowerLeftCorner: Float3, horizontal: Float3, vertical: Float3)

  /** The point of the image plane at `(s, t)`. */
  function PlanePoint(c: CameraFrame, s: real, t: real): Float3 {
    Add(Add(c.lowerLeftCorner, Scale(s, c.horizontal)), Scale(t, c.vertical))
  }

  /** `GetRay(s, t)`: the ray from the camera origin through the image-plane point at `(s, t)`. */
  function GetRay(c: CameraFrame, s: real, t: real): (r: Ray)
    ensures r.origin == c.origin
    ensures Add(r.origin, r.direction) == PlanePoint(c, s, t)
  {
    Ray(c.origin, Sub(Add(Add(c.lowerLeftCorner, Scale(s, c.horizontal)), Scale(t, c.vertical)), c.origin))
  }

  /**
   * Moving across the image plane moves the ray direction linearly: the
   * direction at `(s, t)` is the direction at the corner plus `s` horizontal
   * and `t` vertical steps.
   */
  lemma GetRayLinear(c: CameraFrame, s: real, t: real)
    ensures GetRay(c, s, t).direction
      == Add(GetRay(c, 0.0, 0.0).direction, Add(Scale(s, c.horizontal), Scale(t, c.vertical)))
  {
  }

  /** The angle in radians of `vfov` degrees. */
  function Radians(vfov: real): real { vfov * PI / 180.0 }

  /**
   * `CameraFrame(vfov, aspect)`: a camera at the origin looking down -z, with
   * an image plane at z = -1 of half height `tan(theta / 2)` and half width
   * `aspect` times that.
   */
  function FieldOfViewFrame(vfov: real, aspect: real): (c: CameraFrame)
    ensures c.origin == Zero
  {
    var theta := Radians(vfov);
    var halfHeight := Tan(theta / 2.0);
    var halfWidth := aspect * halfHeight;
    CameraFrame(Zero, Float3(-halfWidth, -halfHeight, -1.0), Float3(2.0 * halfWidth, 0.0, 0.0), Float3(0.0, 2.0 * halfHeight, 0.0))
  }

  /**
   * Whatever `tan` returns, the centre of the image of a field-of-view camera
   * looks straight down -z, and the two corners are symmetric about it.
   */
  lemma FieldOfViewCentre(vfov: real, aspect: real)
    ensures GetRay(FieldOfViewFrame(vfov, aspect), 0.5, 0.5).direction == Float3(0.0, 0.0, -1.0)
    ensures var lo := GetRay(FieldOfViewFrame(vfov, aspect), 0.0, 0.0).direction;
      var hi := GetRay(FieldOfViewFrame(vfov, aspect), 1.0, 1.0).direction;
      hi == Float3(-lo.x, -lo.y, lo.z) && lo.z == -1.0
  {
  }

  /** The basis `(u, v, w)` of the look-at constructor. */
  function ViewAxis(lookFrom: Float3, lookAt: Float3): Float3 { Normalize(Sub(lookFrom, lookAt)) }
  function RightAxis(lookFrom: Float3, lookAt: Float3, vup: Float3): Float3 { Normalize(Cross(vup, ViewAxis(lookFrom, lookAt))) }
  function UpAxis(lookFrom: Float3, lookAt: Float3, vup: Float3): Float3 { Cross(ViewAxis(lookFrom, lookAt), RightAxis(lookFrom, lookAt, vup)) }

  /**
   * `CameraFrame(lookFrom, lookAt, vup, vfov, aspect)`: the camera sits at
   * `lookFrom`; `w` points back from `lookAt`, `u` is right and `v` up; the
   * image plane is one unit along `-w`.
   */
  function LookAtFrame(lookFrom: Float3, lookAt: Float3, vup: Float3, vfov: real, aspect: real): (c: CameraFrame)
    ensures c.origin == lookFrom
  {
    var theta := Radians(vfov);
    var halfHeight := Tan(theta / 2.0);
    var halfWidth := aspect * halfHeight;
    var w := ViewAxis(lookFrom, lookAt);
    var u := RightAxis(lookFrom, lookAt, vup);
    var v := UpAxis(lookFrom, lookAt, vup);
    var lowerLeftCorner := Sub(Sub(Sub(lookFrom, Scale(halfWidth, u)), Scale(halfHeight, v)), w);
    CameraFrame(lookFrom, lowerLeftCorner, Scale(2.0 * halfWidth, u), Scale(2.0 * halfHeight, v))
  }

  /** The centre ray of a look-at camera points along `-w`, from `lookFrom` towards `lookAt`. */
  lemma LookAtCentre(lookFrom: Float3, lookAt: Float3, vup: Float3, vfov: real, aspect: real)
    ensures GetRay(LookAtFrame(lookFrom, lookAt, vup, vfov, aspect), 0.5, 0.5).direction == Neg(ViewAxis(lookFrom, lookAt))
  {
  }

  /** A vector crossed with another is perpendicular to both. */
  lemma CrossPerpendicular(a: Float3, b: Float3)
    ensures Dot(Cross(a, b), a) == 0.0 && Dot(Cross(a, b), b) == 0.0
  {
  }

  /** Scaling a vector keeps a zero dot product zero. */
  lemma ScalePerpendicular(k: real, a: Float3, b: Float3)
    requires Dot(a, b) == 0.0
    ensures Dot(Scale(k, a), b) == 0.0 && Dot(b, Scale(k, a)) == 0.0
  {
    assert Dot(Scale(k, a), b) == k * Dot(a, b);
    assert Dot(b, Scale(k, a)) == k * Dot(a, b);
  }

  /** Normalizing keeps a vector perpendicular to whatever it was perpendicular to. */
  lemma NormalizePerpendicular(a: Float3, b: Float3)
    requires Dot(a, b) == 0.0
    ensures Dot(Normalize(a), b) == 0.0
  {
    var len := Length(a);
    if len != 0.0 {
      ScalePerpendicular(1.0 / len, a, b);
    }
  }

  /** Three pairwise perpendicular axes stay perpendicular when the first two are scaled. */
  lemma ScaledAxesPerpendicular(p: real, q: real, u: Float3, v: Float3, w: Float3)
    requires Dot(u, w) == 0.0 && Dot(v, w) == 0.0 && Dot(v, u) == 0.0
    ensures Dot(Scale(p, u), w) == 0.0 && Dot(Scale(q, v), w) == 0.0 && Dot(Scale(p, u), Scale(q, v)) == 0.0
  {
    ScalePerpendicular(p, u, w);
    ScalePerpendicular(q, v, w);
    ScalePerpendicular(q, v, u);
    ScalePerpendicular(p, u, Scale(q, v));
  }

  /**
   * The image plane of a look-at camera is perpendicular to the view axis,
   * and its two spanning vectors are perpendicular to each other.
   */
  lemma LookAtPlanePerpendicular(lookFrom: Float3, lookAt: Float3, vup: Float3, vfov: real, aspect: real)
    ensures var c := LookAtFrame(lookFrom, lookAt, vup, vfov, aspect);
      var w := ViewAxis(lookFrom, lookAt);
      Dot(c.horizontal, w) == 0.0 && Dot(c.vertical, w) == 0.0 && Dot(c.horizontal, c.vertical) == 0.0
  {
    var w := ViewAxis(lookFrom, lookAt);
    var u := RightAxis(lookFrom, lookAt, vup);
    var v := UpAxis(lookFrom, lookAt, vup);
    CrossPerpendicular(vup, w);
    NormalizePerpendicular(Cross(vup, w), w);
    CrossPerpendicular(w, u);
    var halfHeight := Tan(Radians(vfov) / 2.0);
    var halfWidth := aspect * halfHeight;
    var c := LookAtFrame(lookFrom, lookAt, vup, vfov, aspect);
    assert c.horizontal == Scale(2.0 * halfWidth, u) && c.vertical == Scale(2.0 * halfHeight, v);
    assert Dot(u, w) == 0.0 && Dot(v, w) == 0.0 && Dot(v, u) == 0.0;
    ScaledAxesPerpendicular(2.0 * halfWidth, 2.0 * halfHeight, u, v, w);
  }

  /** `CameraFrame.Default`: the book's fixed camera at the origin. */
  const Default := CameraFrame(Zero, Float3(-2.0, -1.0, -1.0), Float3(4.0, 0.0, 0.0), Float3(0.0, 2.0, 0.0))

  /** The default camera spans directions from (-2, -1, -1) to (2, 1, -1). */
  lemma DefaultCorners()
    ensures GetRay(Default, 0.0, 0.0).direction == Float3(-2.0, -1.0, -1.0)
    ensures GetRay(Default, 1.0, 1.0).direction == Float3(2.0, 1.0, -1.0)
    ensures GetRay(Default, 0.5, 0.5).direction == Float3(0.0, 0.0, -1.0)
  {
  }

  /**
   * `GetRay(u, v, random)`, the thin-lens overload the focus jobs call: not
   * part of this model.
   */
  const GetRayWithLensFn: (CameraFrame, real, real, Rng) -> Ray

  function GetRayWithLens(c: CameraFrame, s: real, t: real, random: Rng): Ray {
    GetRayWithLensFn(c, s, t, random)
  }
}
