/**
 * `Sphere` and its ray intersection.  The test solves
 * `a t^2 + 2 b t + c = 0` with `a = dot(d, d)`, `b = dot(oc, d)`,
 * `c = dot(oc, oc) - radius^2` (the "half-b" form), tries the nearer root
 * first and fills the hit record only on success.
 */
module Spheres {
  import opened Mathematics
  import opened Structs

  /** A sphere with its surface material. */
  datatype Sphere = Sphere(center: Float3, radius: real, material: Material)

  function Oc(s: Sphere, r: Ray): Float3 { Sub(r.origin, s.center) }
  function QuadA(r: Ray): real { Dot(r.direction, r.direction) }
  function HalfB(s: Sphere, r: Ray): real { Dot(Oc(s, r), r.direction) }
  function QuadC(s: Sphere, r: Ray): real { Dot(Oc(s, r), Oc(s, r)) - s.radius * s.radius }

  function Discriminant(s: Sphere, r: Ray): real {
    HalfB(s, r) * HalfB(s, r) - QuadA(r) * QuadC(s, r)
  }

  /** A positive discriminant rules out a zero direction and a zero radius, so both divisions are defined. */
  lemma DiscriminantPositive(s: Sphere, r: Ray)
    requires Discriminant(s, r) > 0.0
    ensures QuadA(r) > 0.0 && s.radius != 0.0
  {
    DirectionNonZero(s, r);
    RadiusNonZero(s, r);
  }

  lemma DirectionNonZero(s: Sphere, r: Ray)
    requires Discriminant(s, r) > 0.0
    ensures QuadA(r) > 0.0
  {
    var a, b, c, o := QuadA(r), HalfB(s, r), QuadC(s, r), Dot(Oc(s, r), Oc(s, r));
    assert a >= 0.0 by { DotSelfZero(r.direction); }
    assert b * b <= o * a by { CauchySchwarz(Oc(s, r), r.direction); }
    LeadingCoefficientPositive(a, b, c, o);
  }

  /** With `a >= 0` and `b^2 <= o * a`, a positive discriminant `b^2 - a c` forces `a > 0`. */
  lemma LeadingCoefficientPositive(a: real, b: real, c: real, o: real)
    requires a >= 0.0 && b * b <= o * a && b * b - a * c > 0.0
    ensures a > 0.0
  {
  }

  lemma RadiusNonZero(s: Sphere, r: Ray)
    requires Discriminant(s, r) > 0.0
    ensures s.radius != 0.0
  {
    if s.radius == 0.0 {
      CauchySchwarz(Oc(s, r), r.direction);
    }
  }

  /** The smaller root `(-b - sqrt(d)) / a`. */
  function NearRoot(s: Sphere, r: Ray): real
    requires Discriminant(s, r) > 0.0
  {
    DiscriminantPositive(s, r);
    (-HalfB(s, r) - Sqrt(Discriminant(s, r))) / QuadA(r)
  }

  /** The larger root `(-b + sqrt(d)) / a`. */
  function FarRoot(s: Sphere, r: Ray): real
    requires Discriminant(s, r) > 0.0
  {
    DiscriminantPositive(s, r);
    (-HalfB(s, r) + Sqrt(Discriminant(s, r))) / QuadA(r)
  }

  predicate InOpen(t: real, tMin: real, tMax: real) { t < tMax && t > tMin }

  /** The record a hit at `t` writes: the point on the ray, the normal `(p - center) / radius`, the material. */
  function SurfaceRecord(s: Sphere, r: Ray, t: real): (rec: HitRecord)
    requires s.radius != 0.0
    ensures rec.t == t && rec.p == PointAtParameter(r, t) && rec.material == s.material
  {
    var p := PointAtParameter(r, t);
    HitRecord(t, p, Scale(1.0 / s.radius, Sub(p, s.center)), s.material)
  }

  /**
   * `Sphere.Hit`: whether the ray meets the sphere at a parameter strictly
   * inside `(tMin, tMax)`, and the record, which is `rec` itself on a miss.
   */
  function Hit(s: Sphere, r: Ray, tMin: real, tMax: real, rec: HitRecord): (res: (bool, HitRecord))
    ensures !res.0 ==> res.1 == rec
    ensures res.0 ==> Discriminant(s, r) > 0.0 && InOpen(res.1.t, tMin, tMax)
    ensures res.0 <==> Discriminant(s, r) > 0.0
                       && (InOpen(NearRoot(s, r), tMin, tMax) || InOpen(FarRoot(s, r), tMin, tMax))
    ensures res.0 ==> s.radius != 0.0
                      && res.1 == SurfaceRecord(s, r, if InOpen(NearRoot(s, r), tMin, tMax) then NearRoot(s, r) else FarRoot(s, r))
  {
    if Discriminant(s, r) > 0.0 then
      DiscriminantPositive(s, r);
      var near := NearRoot(s, r);
      if InOpen(near, tMin, tMax) then
        (true, SurfaceRecord(s, r, near))
      else
        var far := FarRoot(s, r);
        if InOpen(far, tMin, tMax) then (true, SurfaceRecord(s, r, far)) else (false, rec)
    else
      (false, rec)
  }

  /** The nearer root is never past the farther one. */
  lemma RootsOrdered(s: Sphere, r: Ray)
    requires Discriminant(s, r) > 0.0
    ensures NearRoot(s, r) <= FarRoot(s, r)
  {
    DiscriminantPositive(s, r);
    var a, b, q := QuadA(r), HalfB(s, r), Sqrt(Discriminant(s, r));
    assert (-b + q) - (-b - q) >= 0.0;
    assert (-b + q) / a - (-b - q) / a == ((-b + q) - (-b - q)) / a;
  }

  /** A tangent or missing ray (discriminant at most zero) never hits, whatever the interval. */
  lemma NoHitWithoutPositiveDiscriminant(s: Sphere, r: Ray, tMin: real, tMax: real, rec: HitRecord)
    requires Discriminant(s, r) <= 0.0
    ensures Hit(s, r, tMin, tMax, rec) == (false, rec)
  {
  }

  /** A sphere of radius zero is never hit: its discriminant is at most zero by Cauchy-Schwarz. */
  lemma {:induction false} ZeroRadiusNeverHits(s: Sphere, r: Ray, tMin: real, tMax: real, rec: HitRecord)
    requires s.radius == 0.0
    ensures Hit(s, r, tMin, tMax, rec) == (false, rec)
  {
    CauchySchwarz(Oc(s, r), r.direction);
    assert Discriminant(s, r) <= 0.0;
  }

  /**
   * The accepted parameter is the smallest root of the quadratic inside the
   * interval: the nearer root wins whenever both are inside.
   */
  lemma HitTakesSmallestRoot(s: Sphere, r: Ray, tMin: real, tMax: real, rec: HitRecord)
    requires Hit(s, r, tMin, tMax, rec).0
    ensures var t := Hit(s, r, tMin, tMax, rec).1.t;
      t == NearRoot(s, r) || t == FarRoot(s, r)
    ensures forall u :: u in {NearRoot(s, r), FarRoot(s, r)} && InOpen(u, tMin, tMax) ==> Hit(s, r, tMin, tMax, rec).1.t <= u
  {
    RootsOrdered(s, r);
  }

  /** On a hit the record does not depend on the record passed in. */
  lemma HitRecordIndependent(s: Sphere, r: Ray, tMin: real, tMax: real, rec1: HitRecord, rec2: HitRecord)
    ensures Hit(s, r, tMin, tMax, rec1).0 == Hit(s, r, tMin, tMax, rec2).0
    ensures Hit(s, r, tMin, tMax, rec1).0 ==> Hit(s, r, tMin, tMax, rec1).1 == Hit(s, r, tMin, tMax, rec2).1
  {
  }

  /**
   * Narrowing the far end of the interval to `c <= tMax`: a hit closer than
   * `c` is found again with the same record, and nothing is found otherwise.
   * This is what lets the closest-so-far scan pass its running bound down.
   */
  lemma HitNarrowed(s: Sphere, r: Ray, tMin: real, tMax: real, c: real, rec1: HitRecord, rec2: HitRecord)
    requires c <= tMax
    ensures var (h, hr) := Hit(s, r, tMin, tMax, rec1);
      h && hr.t < c ==> Hit(s, r, tMin, c, rec2) == (true, hr)
    ensures var (h, hr) := Hit(s, r, tMin, tMax, rec1);
      !(h && hr.t < c) ==> !Hit(s, r, tMin, c, rec2).0
  {
    if Discriminant(s, r) > 0.0 {
      RootsOrdered(s, r);
    }
  }

  /** `(p + t d - c)` expanded as a quadratic in `t`. */
  lemma DotExpand(u: Float3, v: Float3, t: real)
    ensures Dot(Add(u, Scale(t, v)), Add(u, Scale(t, v))) == Dot(u, u) + 2.0 * t * Dot(u, v) + t * t * Dot(v, v)
  {
  }

  /** Both roots solve `a t^2 + 2 b t + c = 0` when `sqrt` is exact. */
  lemma RootSolvesQuadratic(a: real, b: real, c: real, q: real, sign: real, t: real)
    requires a > 0.0 && q * q == b * b - a * c && (sign == 1.0 || sign == -1.0)
    requires t == (-b + sign * q) / a
    ensures a * t * t + 2.0 * b * t + c == 0.0
  {
    assert a * t == -b + sign * q;
    assert sign * sign == 1.0;
    calc {
      a * (a * t * t + 2.0 * b * t + c);
      (a * t) * (a * t) + 2.0 * b * (a * t) + a * c;
      (-b + sign * q) * (-b + sign * q) + 2.0 * b * (-b + sign * q) + a * c;
      sign * sign * (q * q) - b * b + a * c;
      0.0;
    }
  }

  /** A parameter solving the quadratic puts the point on the sphere. */
  lemma RootOnSurface(s: Sphere, r: Ray, t: real)
    requires QuadA(r) * t * t + 2.0 * HalfB(s, r) * t + QuadC(s, r) == 0.0
    ensures var pc := Sub(PointAtParameter(r, t), s.center);
      Dot(pc, pc) == s.radius * s.radius
  {
    var oc := Oc(s, r);
    assert Sub(PointAtParameter(r, t), s.center) == Add(oc, Scale(t, r.direction));
    DotExpand(oc, r.direction, t);
  }

  /** The normal `pc / radius` of a point at distance `|radius|` from the centre. */
  lemma NormalOfSurfacePoint(pc: Float3, radius: real)
    requires radius != 0.0 && Dot(pc, pc) == radius * radius
    ensures Dot(Scale(1.0 / radius, pc), Scale(1.0 / radius, pc)) == 1.0
    ensures Dot(Scale(1.0 / radius, pc), pc) == radius
  {
    var k := 1.0 / radius;
    assert Dot(Scale(k, pc), Scale(k, pc)) == k * k * Dot(pc, pc);
    assert k * radius == 1.0;
    assert k * k * (radius * radius) == (k * radius) * (k * radius);
    assert Dot(Scale(k, pc), pc) == k * Dot(pc, pc);
    assert k * (radius * radius) == (k * radius) * radius;
  }

  /**
   * With an exact `sqrt`, the recorded point lies on the sphere and the normal
   * has unit length; `dot(normal, p - center)` equals the radius, so the normal
   * points outward for a positive radius and inward for a negative one.
   */
  lemma HitOnSurface(s: Sphere, r: Ray, tMin: real, tMax: real, rec: HitRecord)
    requires SqrtExact()
    requires Hit(s, r, tMin, tMax, rec).0
    ensures var hr := Hit(s, r, tMin, tMax, rec).1;
      Dot(Sub(hr.p, s.center), Sub(hr.p, s.center)) == s.radius * s.radius
      && Dot(hr.normal, hr.normal) == 1.0
      && Dot(hr.normal, Sub(hr.p, s.center)) == s.radius
  {
    var hr := Hit(s, r, tMin, tMax, rec).1;
    DiscriminantPositive(s, r);
    var q: real := Sqrt(Discriminant(s, r));
    assert q * q == Discriminant(s, r);
    RootIsOnSphere(s, r, QuadA(r), HalfB(s, r), QuadC(s, r), q, hr.t);
    NormalOfSurfacePoint(Sub(hr.p, s.center), s.radius);
  }

  /** Either root `(-b -+ q) / a`, `q` the root of the discriminant, is a point on the sphere. */
  lemma RootIsOnSphere(s: Sphere, r: Ray, a: real, b: real, c: real, q: real, t: real)
    requires a == QuadA(r) && b == HalfB(s, r) && c == QuadC(s, r) && a > 0.0
    requires q * q == b * b - a * c && (t == (-b - q) / a || t == (-b + q) / a)
    ensures var pc := Sub(PointAtParameter(r, t), s.center);
      Dot(pc, pc) == s.radius * s.radius
  {
    if t == (-b - q) / a {
      assert t == (-b + -1.0 * q) / a;
      RootSolvesQuadratic(a, b, c, q, -1.0, t);
    } else {
      assert t == (-b + 1.0 * q) / a;
      RootSolvesQuadratic(a, b, c, q, 1.0, t);
    }
    RootOnSurface(s, r, t);
  }
}
