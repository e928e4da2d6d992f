/**
 * `ChapterFive`: the sphere shaded by its normal.  `HitSphere` returns the
 * smaller parameter at which the ray's line meets the sphere (-1 when
 * `b^2 - 4ac < 0`); a pixel whose parameter is positive shows
 * `0.5 * (n + 1)`, `n` the unit vector from the fixed point (0, 0, -1) to
 * the hit point, and the others show the sky.  The pixel loop is the one
 * of `ChapterFour`.
 */
module ChapterFive {
  import opened Mathematics
  import opened Randomness
  import opened Structs
  import opened Indexing
  import opened Render
  import Spheres
  import Utils
  import Extension
  import Scatter
  import ChapterFour

  /** The radius `Color` passes to `HitSphere`. */
  const Radius: real := 0.5

  /** The point the shading normal is measured from, whatever `spherePosition` is. */
  const NormalOrigin := Float3(0.0, 0.0, -1.0)

  /**
   * `HitSphere(center, radius, r)`: -1 when the discriminant is negative,
   * otherwise `(-b - sqrt(d)) / 2a`, a tangent ray included.
   */
  function HitSphere(center: Float3, radius: real, r: Ray): real {
    var oc := Sub(r.origin, center);
    var a := Dot(r.direction, r.direction);
    var b := 2.0 * Dot(oc, r.direction);
    var discriminant := ChapterFour.FullDiscriminant(center, radius, r);
    if discriminant < 0.0 then -1.0 else Quot(-b - Sqrt(discriminant), 2.0 * a)
  }

  /**
   * A negative discriminant returns -1, and then the whole line of the ray
   * stays outside the sphere.
   */
  lemma MissStaysOutside(center: Float3, radius: real, r: Ray)
    requires ChapterFour.FullDiscriminant(center, radius, r) < 0.0
    ensures HitSphere(center, radius, r) == -1.0
    ensures forall t :: ChapterFour.SurfaceGap(center, radius, r, t) > 0.0
  {
    var s := Spheres.Sphere(center, radius, DefaultMaterial);
    var a, h, c := Spheres.QuadA(r), Spheres.HalfB(s, r), Spheres.QuadC(s, r);
    ChapterFour.FullDiscriminantIsFourTimes(center, radius, r, DefaultMaterial);
    DotSelfZero(r.direction);
    NegativeDiscriminantLead(a, h, c);
    forall t
      ensures ChapterFour.SurfaceGap(center, radius, r, t) > 0.0
    {
      ChapterFour.GapIsQuadratic(center, radius, r, a, h, c, t);
      QuadraticPositive(a, h, c, t);
    }
  }

  /** `h^2 - a c < 0` with `a >= 0` forces `a > 0`. */
  lemma NegativeDiscriminantLead(a: real, h: real, c: real)
    requires a >= 0.0 && h * h - a * c < 0.0
    ensures a > 0.0
  {
    SquareZero(h);
    if a == 0.0 {
      assert false;
    }
  }

  /** A quadratic `a t^2 + 2 h t + c` with `a > 0` and `h^2 - a c < 0` is positive everywhere. */
  lemma QuadraticPositive(a: real, h: real, c: real, t: real)
    requires a > 0.0 && h * h - a * c < 0.0
    ensures a * t * t + 2.0 * h * t + c > 0.0
  {
    ChapterFour.CompletedSquare(a, h, c, t);
    SquareZero(a * t + h);
    PositiveFactor(a, a * t * t + 2.0 * h * t + c, (a * t + h) * (a * t + h), h * h - a * c);
  }

  /** `a g = sq - d` with `a > 0`, `sq >= 0` and `d < 0` makes `g` positive. */
  lemma PositiveFactor(a: real, g: real, sq: real, d: real)
    requires a > 0.0 && sq >= 0.0 && d < 0.0 && a * g == sq - d
    ensures g > 0.0
  {
  }

  /**
   * With an exact `sqrt`, the full-b root is the general sphere test's half-b
   * root: `HitSphere` gives `NearRoot` whenever the discriminant is positive.
   */
  lemma HalfForm(center: Float3, radius: real, r: Ray)
    requires SqrtExact() && ChapterFour.FullDiscriminant(center, radius, r) >= 0.0
    requires Dot(r.direction, r.direction) > 0.0
    ensures var s := Spheres.Sphere(center, radius, DefaultMaterial);
      var d := Spheres.Discriminant(s, r);
      d >= 0.0 && HitSphere(center, radius, r) == (-Spheres.HalfB(s, r) - Sqrt(d)) / Spheres.QuadA(r)
  {
    var s := Spheres.Sphere(center, radius, DefaultMaterial);
    var a, h, d := Spheres.QuadA(r), Spheres.HalfB(s, r), Spheres.Discriminant(s, r);
    var full := ChapterFour.FullDiscriminant(center, radius, r);
    ChapterFour.FullDiscriminantIsFourTimes(center, radius, r, DefaultMaterial);
    var q := Sqrt(d);
    assert q * q == d;
    assert Sqrt(full) * Sqrt(full) == full;
    assert (2.0 * q) * (2.0 * q) == full;
    SquareRootUnique(Sqrt(full), 2.0 * q);
    assert Sub(r.origin, center) == Spheres.Oc(s, r);
    assert HitSphere(center, radius, r) == (-(2.0 * h) - 2.0 * q) / (2.0 * a);
    assert (-(2.0 * h) - 2.0 * q) / (2.0 * a) == (-h - q) / a;
  }

  /** The general sphere test's smaller root is what `HitSphere` returns. */
  lemma HitSphereIsNearRoot(center: Float3, radius: real, r: Ray, m: Material)
    requires SqrtExact() && Spheres.Discriminant(Spheres.Sphere(center, radius, m), r) > 0.0
    ensures HitSphere(center, radius, r) == Spheres.NearRoot(Spheres.Sphere(center, radius, m), r)
  {
    var s := Spheres.Sphere(center, radius, m);
    ChapterFour.FullDiscriminantIsFourTimes(center, radius, r, m);
    Spheres.DiscriminantPositive(s, r);
    HalfForm(center, radius, r);
    var s0 := Spheres.Sphere(center, radius, DefaultMaterial);
    assert Spheres.HalfB(s0, r) == Spheres.HalfB(s, r) && Spheres.Discriminant(s0, r) == Spheres.Discriminant(s, r);
  }

  /**
   * With an exact `sqrt` and a ray with a direction, a non-negative
   * discriminant (a tangent ray included) makes `HitSphere` a parameter on
   * the sphere, and the smallest of them.
   */
  lemma HitSphereNearest(center: Float3, radius: real, r: Ray)
    requires SqrtExact() && ChapterFour.FullDiscriminant(center, radius, r) >= 0.0
    requires Dot(r.direction, r.direction) > 0.0
    ensures ChapterFour.SurfaceGap(center, radius, r, HitSphere(center, radius, r)) == 0.0
    ensures forall t :: ChapterFour.SurfaceGap(center, radius, r, t) == 0.0 ==> HitSphere(center, radius, r) <= t
  {
    var s := Spheres.Sphere(center, radius, DefaultMaterial);
    var a, h, c := Spheres.QuadA(r), Spheres.HalfB(s, r), Spheres.QuadC(s, r);
    HalfForm(center, radius, r);
    var q: real := Sqrt(Spheres.Discriminant(s, r));
    assert q * q == h * h - a * c;
    NearRootIsNearest(center, radius, r, a, h, c, q);
  }

  /** `(-h - q) / a` is a crossing and no crossing comes before it. */
  lemma NearRootIsNearest(center: Float3, radius: real, r: Ray, a: real, h: real, c: real, q: real)
    requires var s := Spheres.Sphere(center, radius, DefaultMaterial);
      a == Spheres.QuadA(r) && h == Spheres.HalfB(s, r) && c == Spheres.QuadC(s, r)
    requires a > 0.0 && q >= 0.0 && q * q == h * h - a * c
    ensures ChapterFour.SurfaceGap(center, radius, r, (-h - q) / a) == 0.0
    ensures forall t :: ChapterFour.SurfaceGap(center, radius, r, t) == 0.0 ==> (-h - q) / a <= t
  {
    var t0 := (-h - q) / a;
    assert t0 == (-h + -1.0 * q) / a;
    Spheres.RootSolvesQuadratic(a, h, c, q, -1.0, t0);
    ChapterFour.RootIsCrossing(center, radius, r, a, h, c, t0);
    forall t | ChapterFour.SurfaceGap(center, radius, r, t) == 0.0
      ensures t0 <= t
    {
      ChapterFour.GapIsQuadratic(center, radius, r, a, h, c, t);
      NearestRoot(a, h, c, q, t);
    }
  }

  /** Every root of `a t^2 + 2 h t + c` is at least `(-h - q) / a`, `q` the root of the discriminant. */
  lemma NearestRoot(a: real, h: real, c: real, q: real, t: real)
    requires a > 0.0 && q >= 0.0 && q * q == h * h - a * c
    requires a * t * t + 2.0 * h * t + c == 0.0
    ensures (-h - q) / a <= t
  {
    ChapterFour.CompletedSquare(a, h, c, t);
    assert (a * t + h) * (a * t + h) == q * q;
    AbsBound(a * t + h, q);
    assert -h - q <= a * t;
    assert (-h - q) / a <= (a * t) / a;
  }

  /**
   * `Color(r)`: in front of the camera (`t > 0`) the unit vector from
   * (0, 0, -1) to the hit point, mapped from [-1, 1] to [0, 1]; the sky
   * otherwise.
   */
  function Color(spherePosition: Float3, r: Ray): Float3 {
    var t := HitSphere(spherePosition, Radius, r);
    if t > 0.0 then
      var n := Normalize(Sub(PointAtParameter(r, t), NormalOrigin));
      Scale(0.5, Float3(n.x + 1.0, n.y + 1.0, n.z + 1.0))
    else Utils.BackgroundColor(r)
  }

  /** A ray whose line misses the sphere shows the sky. */
  lemma MissShowsSky(spherePosition: Float3, r: Ray)
    requires ChapterFour.FullDiscriminant(spherePosition, Radius, r) < 0.0
    ensures Color(spherePosition, r) == Utils.BackgroundColor(r)
  {
    MissStaysOutside(spherePosition, Radius, r);
  }

  /** With an exact `sqrt`, every colour lies in the unit cube, so `ToRgb24` never saturates. */
  lemma ColorInUnitCube(spherePosition: Float3, r: Ray)
    requires SqrtExact()
    ensures Scatter.InUnitCube(Color(spherePosition, r))
  {
    var t := HitSphere(spherePosition, Radius, r);
    if t > 0.0 {
      var v := Sub(PointAtParameter(r, t), NormalOrigin);
      NormalizedComponents(v);
    } else {
      Utils.BackgroundBounds(r);
    }
  }

  /** With an exact `sqrt`, every component of a normalized vector lies in [-1, 1]. */
  lemma NormalizedComponents(v: Float3)
    requires SqrtExact()
    ensures var n := Normalize(v);
      -1.0 <= n.x <= 1.0 && -1.0 <= n.y <= 1.0 && -1.0 <= n.z <= 1.0
  {
    var len := Length(v);
    if len != 0.0 {
      assert len * len == Dot(v, v);
      var k := 1.0 / len;
      assert Dot(Scale(k, v), Scale(k, v)) == k * k * Dot(v, v);
      assert k * len == 1.0;
      assert k * k * (len * len) == (k * len) * (k * len);
      UnitComponents(Normalize(v));
    }
  }

  /** A vector of length 1 has components in [-1, 1]. */
  lemma UnitComponents(n: Float3)
    requires Dot(n, n) == 1.0
    ensures -1.0 <= n.x <= 1.0 && -1.0 <= n.y <= 1.0 && -1.0 <= n.z <= 1.0
  {
    SquareZero(n.x);
    SquareZero(n.y);
    SquareZero(n.z);
    AbsBound(n.x, 1.0);
    AbsBound(n.y, 1.0);
    AbsBound(n.z, 1.0);
  }

  /** A positive parameter needs a non-negative discriminant and a ray with a direction. */
  lemma InFront(center: Float3, radius: real, r: Ray)
    requires HitSphere(center, radius, r) > 0.0
    ensures ChapterFour.FullDiscriminant(center, radius, r) >= 0.0 && Dot(r.direction, r.direction) > 0.0
  {
    var discriminant := ChapterFour.FullDiscriminant(center, radius, r);
    var a := Dot(r.direction, r.direction);
    var b := 2.0 * Dot(Sub(r.origin, center), r.direction);
    var x := -b - Sqrt(discriminant);
    assert HitSphere(center, radius, r) == if discriminant < 0.0 then -1.0 else Quot(x, 2.0 * a);
    assert discriminant >= 0.0;
    assert Quot(x, 2.0 * a) > 0.0;
    assert 2.0 * a != 0.0;
    DotSelfZero(r.direction);
  }

  /**
   * With the sphere at (0, 0, -1), where the chapter puts it, a hit in front
   * of the camera shows `0.5 * (N + 1)`, `N` the outward unit normal
   * `(p - center) / radius` at the hit point.
   */
  lemma CenteredShading(r: Ray)
    requires SqrtExact() && HitSphere(NormalOrigin, Radius, r) > 0.0
    ensures var pc := Sub(PointAtParameter(r, HitSphere(NormalOrigin, Radius, r)), NormalOrigin);
      var normal := Scale(1.0 / Radius, pc);
      Dot(normal, normal) == 1.0 && Color(NormalOrigin, r) == Scale(0.5, Add(normal, One))
  {
    var t := HitSphere(NormalOrigin, Radius, r);
    InFront(NormalOrigin, Radius, r);
    HitSphereNearest(NormalOrigin, Radius, r);
    SqrtOfSquare(0.25, 0.5);
    CenteredSteps(r, t, Sub(PointAtParameter(r, t), NormalOrigin));
  }

  /** `CenteredShading` from the root of 0.25 and the hit point on the sphere. */
  lemma CenteredSteps(r: Ray, t: real, pc: Float3)
    requires Sqrt(0.25) == 0.5 && t == HitSphere(NormalOrigin, Radius, r) && t > 0.0
    requires pc == Sub(PointAtParameter(r, t), NormalOrigin) && ChapterFour.SurfaceGap(NormalOrigin, Radius, r, t) == 0.0
    ensures var normal := Scale(1.0 / Radius, pc);
      Dot(normal, normal) == 1.0 && Color(NormalOrigin, r) == Scale(0.5, Add(normal, One))
  {
    assert Dot(pc, pc) == 0.25;
    Spheres.NormalOfSurfacePoint(pc, Radius);
    NormalizeByLength(pc, 0.5);
    ShadeAtParameter(NormalOrigin, r, t, Normalize(pc));
  }

  /**
   * Away from (0, 0, -1) the shading ignores the sphere's position: the
   * sphere at (0, 0, -2), looked at straight ahead, is hit at 1.5 with
   * outward normal (0, 0, 1), yet the vector the pixel is shaded by runs
   * from (0, 0, -1) to the hit point, the opposite way, and the pixel shows
   * the colour of normal (0, 0, -1).
   */
  lemma ShiftedSphereShading(center: Float3, r: Ray)
    requires SqrtExact() && center == ShiftedCenter && r == StraightAhead
    ensures var t := HitSphere(center, Radius, r);
      t == 1.5 && Scale(1.0 / Radius, Sub(PointAtParameter(r, t), center)) == Float3(0.0, 0.0, 1.0)
      && Sub(PointAtParameter(r, t), NormalOrigin) == Float3(0.0, 0.0, -0.5)
      && Color(center, r) == Float3(0.5, 0.5, 0.0)
  {
    SqrtOfSquare(1.0, 1.0);
    ShiftedRoot(center, r);
    ShiftedHitPoint();
    BackwardShading(center, r);
  }

  /** The straight-ahead ray meets the sphere at `ShiftedCenter` first at 1.5. */
  lemma ShiftedRoot(center: Float3, r: Ray)
    requires Sqrt(1.0) == 1.0 && center == ShiftedCenter && r == StraightAhead
    ensures HitSphere(center, Radius, r) == 1.5
  {
    ShiftedCoefficients();
    NearRootOf(center, Radius, r, 1.0, -4.0, 1.0);
  }

  /**
   * A hit whose shading vector is (0, 0, -0.5), as in `ShiftedSphereShading`,
   * is coloured (0.5, 0.5, 0), the colour of the normal (0, 0, -1), wherever
   * the sphere is.
   */
  lemma BackwardShading(center: Float3, r: Ray)
    requires SqrtExact() && HitSphere(center, Radius, r) > 0.0
    requires Sub(PointAtParameter(r, HitSphere(center, Radius, r)), NormalOrigin) == Float3(0.0, 0.0, -0.5)
    ensures Color(center, r) == Float3(0.5, 0.5, 0.0)
  {
    var v := Sub(PointAtParameter(r, HitSphere(center, Radius, r)), NormalOrigin);
    SqrtOfSquare(0.25, 0.5);
    BackwardNormal(v);
    BackwardColor(center, r, Normalize(v));
  }

  /** A hit in front whose shading normal is (0, 0, -1) is coloured (0.5, 0.5, 0). */
  lemma BackwardColor(center: Float3, r: Ray, n: Float3)
    requires HitSphere(center, Radius, r) > 0.0
    requires n == Normalize(Sub(PointAtParameter(r, HitSphere(center, Radius, r)), NormalOrigin))
    requires n == Float3(0.0, 0.0, -1.0)
    ensures Color(center, r) == Float3(0.5, 0.5, 0.0)
  {
    ShadeAtParameter(center, r, HitSphere(center, Radius, r), n);
    BackwardNormalColor(n);
  }

  /** (0, 0, -0.5) normalizes to (0, 0, -1). */
  lemma BackwardNormal(v: Float3)
    requires Sqrt(0.25) == 0.5 && v == Float3(0.0, 0.0, -0.5)
    ensures Normalize(v) == Float3(0.0, 0.0, -1.0)
  {
    ShiftedNormal(v, 0.5);
    NormalizeByLength(v, 0.5);
  }

  /** A vector of non-zero length `len` normalizes to itself divided by `len`. */
  lemma NormalizeByLength(v: Float3, len: real)
    requires Length(v) == len && len != 0.0
    ensures Normalize(v) == Scale(1.0 / len, v)
  {
  }

  /** A sphere centred one unit behind `NormalOrigin`. */
  const ShiftedCenter := Float3(0.0, 0.0, -2.0)

  /** The ray from the origin straight down the view axis. */
  const StraightAhead := Ray(Zero, Float3(0.0, 0.0, -1.0))

  /** The discriminant and coefficients of `StraightAhead` against the sphere at `ShiftedCenter`. */
  lemma ShiftedCoefficients()
    ensures ChapterFour.FullDiscriminant(ShiftedCenter, Radius, StraightAhead) == 1.0
    ensures Dot(StraightAhead.direction, StraightAhead.direction) == 1.0
    ensures 2.0 * Dot(Sub(StraightAhead.origin, ShiftedCenter), StraightAhead.direction) == -4.0
  {
    var oc := Sub(StraightAhead.origin, ShiftedCenter);
    assert oc == Float3(0.0, 0.0, 2.0);
  }

  /** `HitSphere` on a non-negative discriminant, with its coefficients and root bound to names. */
  lemma NearRootOf(center: Float3, radius: real, r: Ray, a: real, b: real, q: real)
    requires ChapterFour.FullDiscriminant(center, radius, r) >= 0.0
    requires a == Dot(r.direction, r.direction) && b == 2.0 * Dot(Sub(r.origin, center), r.direction)
    requires q == Sqrt(ChapterFour.FullDiscriminant(center, radius, r))
    ensures HitSphere(center, radius, r) == Quot(-b - q, 2.0 * a)
  {
  }

  /** `Color` at a ray whose `HitSphere` parameter `t` is positive, with shading normal `n`. */
  lemma ShadeAtParameter(center: Float3, r: Ray, t: real, n: Float3)
    requires t == HitSphere(center, Radius, r) && t > 0.0
    requires n == Normalize(Sub(PointAtParameter(r, t), NormalOrigin))
    ensures Color(center, r) == Scale(0.5, Float3(n.x + 1.0, n.y + 1.0, n.z + 1.0))
  {
  }

  /** The points and vectors of the hit at 1.5 on the sphere at `ShiftedCenter`. */
  lemma ShiftedHitPoint()
    ensures Scale(1.0 / Radius, Sub(PointAtParameter(StraightAhead, 1.5), ShiftedCenter)) == Float3(0.0, 0.0, 1.0)
    ensures Sub(PointAtParameter(StraightAhead, 1.5), NormalOrigin) == Float3(0.0, 0.0, -0.5)
  {
    assert PointAtParameter(StraightAhead, 1.5) == Float3(0.0, 0.0, -1.5);
  }

  /** (0, 0, -0.5) has length 0.5 and direction (0, 0, -1). */
  lemma ShiftedNormal(v: Float3, len: real)
    requires v == Float3(0.0, 0.0, -0.5) && len == 0.5
    ensures Dot(v, v) == len * len && Scale(1.0 / len, v) == Float3(0.0, 0.0, -1.0)
  {
    assert 1.0 / len == 2.0;
  }

  /** The normal (0, 0, -1) is shaded (0.5, 0.5, 0). */
  lemma BackwardNormalColor(n: Float3)
    requires n == Float3(0.0, 0.0, -1.0)
    ensures Scale(0.5, Float3(n.x + 1.0, n.y + 1.0, n.z + 1.0)) == Float3(0.5, 0.5, 0.0)
  {
  }

  /** With an exact `sqrt`, the root of `y * y` is `y` for `y >= 0`. */
  lemma SqrtOfSquare(x: real, y: real)
    requires SqrtExact() && y >= 0.0 && x == y * y
    ensures Sqrt(x) == y
  {
    var s: real := Sqrt(x);
    assert s * s == y * y;
    SquareRootUnique(s, y);
  }

  /** `ToRgb24` of the colour of pixel `(i, j)`; the generator is not used. */
  function FiveShade(spherePosition: Float3, width: nat, height: nat): (nat, nat, Rng) -> (Color24, Rng) {
    (i: nat, j: nat, r: Rng) => (Extension.ToRgb24(Color(spherePosition, ChapterFour.ViewRay(i, j, width, height))), r)
  }

  /** `ChapterFive.Job`. */
  class Job {
    /** `size`. */
    const width: nat
    const height: nat
    const spherePosition: Float3
    /** `Pixels`: written, never read. */
    const pixels: array<Color24>

    constructor (width: nat, height: nat, spherePosition: Float3, pixels: array<Color24>)
      ensures this.width == width && this.height == height && this.spherePosition == spherePosition
      ensures this.pixels == pixels
    {
      this.width, this.height, this.spherePosition, this.pixels := width, height, spherePosition, pixels;
    }

    /**
     * `Execute()`: rows bottom to top, columns left to right; pixel `(i, j)`
     * at `j * nx + i` is the colour of its unjittered ray, and the rest of
     * the buffer is left alone.
     */
    method Execute()
      requires width * height <= pixels.Length
      modifies pixels
      ensures forall i, j :: 0 <= i < width && 0 <= j < height ==>
        RowMajor(width, i, j) < width * height
        && pixels[RowMajor(width, i, j)] == Extension.ToRgb24(Color(spherePosition, ChapterFour.ViewRay(i, j, width, height)))
      ensures pixels[width * height..] == old(pixels[width * height..])
    {
      var shade := FiveShade(spherePosition, width, height);
      var rng := InitState(DefaultSeed);
      RenderRows(shade, width, height, rng, pixels);
      forall i, j | 0 <= i < width && 0 <= j < height
        ensures RowMajor(width, i, j) < width * height
          && pixels[RowMajor(width, i, j)] == Extension.ToRgb24(Color(spherePosition, ChapterFour.ViewRay(i, j, width, height)))
      {
        RenderedPixel(shade, width, height, i, j, rng);
      }
    }
  }

  /** `ChapterFive`, the chapter object. */
  class ChapterFive {
    var spherePositionZ: real
    /** `sphereColor`: declared, never read by this chapter. */
    var sphereColor: Float3

    constructor ()
      ensures spherePositionZ == NormalOrigin.z && sphereColor == ChapterFour.DefaultSphereColor
    {
      spherePositionZ, sphereColor := NormalOrigin.z, ChapterFour.DefaultSphereColor;
    }

    /**
     * `DrawToTexture()`: a job on the book's 200 by 100 image with the
     * sphere at (0, 0, spherePositionZ), run to completion.
     */
    method DrawToTexture() returns (pixels: array<Color24>)
      ensures pixels.Length == ChapterFour.DefaultWidth * ChapterFour.DefaultHeight
      ensures forall i, j :: 0 <= i < ChapterFour.DefaultWidth && 0 <= j < ChapterFour.DefaultHeight ==>
        RowMajor(ChapterFour.DefaultWidth, i, j) < pixels.Length
        && pixels[RowMajor(ChapterFour.DefaultWidth, i, j)]
           == Extension.ToRgb24(Color(Float3(0.0, 0.0, spherePositionZ),
                                      ChapterFour.ViewRay(i, j, ChapterFour.DefaultWidth, ChapterFour.DefaultHeight)))
    {
      var width, height := ChapterFour.DefaultWidth, ChapterFour.DefaultHeight;
      pixels := new Color24[width * height](_ => Color24(0, 0, 0));
      var job := new Job(width, height, Float3(0.0, 0.0, spherePositionZ), pixels);
      job.Execute();
    }
  }
}
