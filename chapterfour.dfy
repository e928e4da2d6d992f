/**
 * `ChapterFour`: the first sphere.  Every pixel of a 200 by 100 image casts
 * an unjittered ray from the origin through the default viewport, and the
 * pixel is `sphereColor` when the ray's line meets a sphere of radius 0.5
 * at `spherePosition` in two points (`b^2 - 4ac > 0`), the sky otherwise.
 * The test looks at the whole line: a sphere behind the camera is drawn
 * too.
 */
module ChapterFour {
  import opened Mathematics
  import opened Randomness
  import opened Structs
  import opened Indexing
  import opened Render
  import Spheres
  import Utils
  import Extension
  import Camera

  /** The radius `Color` passes to `HitSphere`. */
  const Radius: real := 0.5

  /** `spherePositionZ` as the chapter starts: the sphere is at (0, 0, -1). */
  const DefaultSpherePosition := Float3(0.0, 0.0, -1.0)

  /** `sphereColor` as the chapter starts: red. */
  const DefaultSphereColor := Float3(1.0, 0.0, 0.0)

  /** `Constants.DefaultImageSize`, the size of the book's image. */
  const DefaultWidth: nat := 200
  const DefaultHeight: nat := 100

  /** The viewport of the pixel loop: the default camera's corner, spans and origin. */
  const LowerLeftCorner := Float3(-2.0, -1.0, -1.0)
  const Horizontal := Float3(4.0, 0.0, 0.0)
  const Vertical := Float3(0.0, 2.0, 0.0)

  /**
   * The ray of pixel `(i, j)`: `u = i / nx`, `v = j / ny`, no jitter, from
   * the origin towards `lowerLeftCorner + u * horizontal + v * vertical`.
   */
  function ViewRay(i: nat, j: nat, width: nat, height: nat): Ray {
    var u := Quot(i as real, width as real);
    var v := Quot(j as real, height as real);
    Ray(Zero, Add(Add(LowerLeftCorner, Scale(u, Horizontal)), Scale(v, Vertical)))
  }

  /** The pixel loop's viewport is the default camera's: the ray is `GetRay(Default, i / nx, j / ny)`. */
  lemma ViewRayIsDefaultCamera(i: nat, j: nat, width: nat, height: nat)
    ensures ViewRay(i, j, width, height)
      == Camera.GetRay(Camera.Default, Quot(i as real, width as real), Quot(j as real, height as real))
  {
    var u, v := Quot(i as real, width as real), Quot(j as real, height as real);
    var d := Add(Add(LowerLeftCorner, Scale(u, Horizontal)), Scale(v, Vertical));
    assert Sub(d, Zero) == d;
  }

  /**
   * Pixel `(i, j)` of the image looks through the viewport: `u = i / nx`
   * lies in [0, 1) and so does `v`, so the ray's direction lies between
   * the corners (-2, -1, -1) and (2, 1, -1).
   */
  lemma ViewRayInViewport(i: nat, j: nat, width: nat, height: nat)
    requires i < width && j < height
    ensures var u, v := Quot(i as real, width as real), Quot(j as real, height as real);
      0.0 <= u < 1.0 && 0.0 <= v < 1.0
    ensures var d := ViewRay(i, j, width, height).direction;
      -2.0 <= d.x < 2.0 && -1.0 <= d.y < 1.0 && d.z == -1.0
  {
    var u, v := Quot(i as real, width as real), Quot(j as real, height as real);
    assert u * width as real == i as real;
    assert v * height as real == j as real;
  }

  /** `b^2 - 4ac` of `HitSphere`, with `b = 2 dot(oc, d)` and `c = dot(oc, oc) - radius^2`. */
  function FullDiscriminant(center: Float3, radius: real, r: Ray): real {
    var oc := Sub(r.origin, center);
    var a := Dot(r.direction, r.direction);
    var b := 2.0 * Dot(oc, r.direction);
    var c := Dot(oc, oc) - radius * radius;
    b * b - 4.0 * a * c
  }

  /** The full discriminant is four times the half-b discriminant of the general sphere test. */
  lemma FullDiscriminantIsFourTimes(center: Float3, radius: real, r: Ray, m: Material)
    ensures FullDiscriminant(center, radius, r) == 4.0 * Spheres.Discriminant(Spheres.Sphere(center, radius, m), r)
  {
    var s := Spheres.Sphere(center, radius, m);
    var a, h, c := Spheres.QuadA(r), Spheres.HalfB(s, r), Spheres.QuadC(s, r);
    assert (2.0 * h) * (2.0 * h) - 4.0 * a * c == 4.0 * (h * h - a * c);
  }

  /** `dot(p - center, p - center) - radius^2` at the point of parameter `t`: zero on the sphere. */
  function SurfaceGap(center: Float3, radius: real, r: Ray, t: real): real {
    var pc := Sub(PointAtParameter(r, t), center);
    Dot(pc, pc) - radius * radius
  }

  /** The gap is the quadratic `a t^2 + 2 h t + c` of the general sphere test. */
  lemma GapIsQuadratic(center: Float3, radius: real, r: Ray, a: real, h: real, c: real, t: real)
    requires var s := Spheres.Sphere(center, radius, DefaultMaterial);
      a == Spheres.QuadA(r) && h == Spheres.HalfB(s, r) && c == Spheres.QuadC(s, r)
    ensures SurfaceGap(center, radius, r, t) == a * t * t + 2.0 * h * t + c
  {
    var oc := Sub(r.origin, center);
    var pc := Add(oc, Scale(t, r.direction));
    assert Sub(PointAtParameter(r, t), center) == pc;
    QuadraticGap(oc, r.direction, t, radius, a, h, c);
  }

  /** `|oc + t d|^2 - radius^2`, expanded in powers of `t`. */
  lemma QuadraticGap(oc: Float3, d: Float3, t: real, radius: real, a: real, h: real, c: real)
    requires a == Dot(d, d) && h == Dot(oc, d) && c == Dot(oc, oc) - radius * radius
    ensures var pc := Add(oc, Scale(t, d));
      Dot(pc, pc) - radius * radius == a * t * t + 2.0 * h * t + c
  {
    Spheres.DotExpand(oc, d, t);
    assert t * t * a == a * t * t && 2.0 * t * h == 2.0 * h * t;
  }

  /** A root of the quadratic is a parameter on the sphere. */
  lemma RootIsCrossing(center: Float3, radius: real, r: Ray, a: real, h: real, c: real, t: real)
    requires var s := Spheres.Sphere(center, radius, DefaultMaterial);
      a == Spheres.QuadA(r) && h == Spheres.HalfB(s, r) && c == Spheres.QuadC(s, r)
    requires a * t * t + 2.0 * h * t + c == 0.0
    ensures SurfaceGap(center, radius, r, t) == 0.0
  {
    GapIsQuadratic(center, radius, r, a, h, c, t);
  }

  /**
   * `a (a t^2 + 2 h t + c) = (a t + h)^2 - (h^2 - a c)`: completing the
   * square of the gap.
   */
  lemma CompletedSquare(a: real, h: real, c: real, t: real)
    ensures a * (a * t * t + 2.0 * h * t + c) == (a * t + h) * (a * t + h) - (h * h - a * c)
  {
  }

  /** `HitSphere(center, radius, r)`: the line of the ray meets the sphere in two points. */
  function HitSphere(center: Float3, radius: real, r: Ray): bool {
    FullDiscriminant(center, radius, r) > 0.0
  }

  /** The test agrees with the sign of the general sphere test's discriminant. */
  lemma HitSphereIffDiscriminant(center: Float3, radius: real, r: Ray, m: Material)
    ensures HitSphere(center, radius, r) <==> Spheres.Discriminant(Spheres.Sphere(center, radius, m), r) > 0.0
  {
    FullDiscriminantIsFourTimes(center, radius, r, m);
  }

  /**
   * For a ray with a direction, the test holds exactly when two different
   * parameters put the point on the sphere, whatever their sign.
   */
  lemma HitSphereIffTwoCrossings(center: Float3, radius: real, r: Ray)
    requires SqrtExact() && Dot(r.direction, r.direction) > 0.0
    ensures HitSphere(center, radius, r)
      <==> exists t1, t2 :: t1 < t2 && SurfaceGap(center, radius, r, t1) == 0.0 && SurfaceGap(center, radius, r, t2) == 0.0
  {
    var s := Spheres.Sphere(center, radius, DefaultMaterial);
    var a, h, c := Spheres.QuadA(r), Spheres.HalfB(s, r), Spheres.QuadC(s, r);
    FullDiscriminantIsFourTimes(center, radius, r, DefaultMaterial);
    if HitSphere(center, radius, r) {
      var q := Sqrt(Spheres.Discriminant(s, r));
      assert q * q == h * h - a * c;
      assert q > 0.0 by { SquareZero(q); }
      var t1, t2 := Spheres.NearRoot(s, r), Spheres.FarRoot(s, r);
      assert SurfaceGap(center, radius, r, t1) == 0.0 by {
        Spheres.RootSolvesQuadratic(a, h, c, q, -1.0, t1);
        RootIsCrossing(center, radius, r, a, h, c, t1);
      }
      assert SurfaceGap(center, radius, r, t2) == 0.0 by {
        Spheres.RootSolvesQuadratic(a, h, c, q, 1.0, t2);
        RootIsCrossing(center, radius, r, a, h, c, t2);
      }
      QuotientOrdered(-h - q, -h + q, a);
    } else {
      forall t1, t2 | SurfaceGap(center, radius, r, t1) == 0.0 && SurfaceGap(center, radius, r, t2) == 0.0
        ensures t1 == t2
      {
        OnlyCrossing(center, radius, r, a, h, c, t1);
        OnlyCrossing(center, radius, r, a, h, c, t2);
      }
    }
  }

  /** Dividing by a positive number keeps the order. */
  lemma QuotientOrdered(x: real, y: real, a: real)
    requires x < y && a > 0.0
    ensures x / a < y / a
  {
    assert y / a - x / a == (y - x) / a;
  }

  /** Without a positive discriminant a ray with a direction touches the sphere at `-h / a` at most. */
  lemma OnlyCrossing(center: Float3, radius: real, r: Ray, a: real, h: real, c: real, t: real)
    requires var s := Spheres.Sphere(center, radius, DefaultMaterial);
      a == Spheres.QuadA(r) && h == Spheres.HalfB(s, r) && c == Spheres.QuadC(s, r)
    requires a > 0.0 && h * h - a * c <= 0.0
    ensures SurfaceGap(center, radius, r, t) == 0.0 ==> t == -h / a
  {
    GapIsQuadratic(center, radius, r, a, h, c, t);
    OnlyRoot(a, h, c, t);
  }

  /** With `h^2 - a c <= 0` and `a > 0`, the only root of `a t^2 + 2 h t + c` is `-h / a`. */
  lemma OnlyRoot(a: real, h: real, c: real, t: real)
    requires a > 0.0 && h * h - a * c <= 0.0
    ensures a * t * t + 2.0 * h * t + c == 0.0 ==> t == -h / a
  {
    CompletedSquare(a, h, c, t);
    SquareZero(a * t + h);
    if a * t * t + 2.0 * h * t + c == 0.0 {
      assert a * (a * t * t + 2.0 * h * t + c) == 0.0;
      assert a * t + h == 0.0;
    }
  }

  /**
   * The test looks at the whole line: the default sphere is drawn for a ray
   * pointing away from it, although both crossings lie behind the origin.
   */
  lemma SphereBehindIsHit()
    ensures var r := Ray(Zero, Float3(0.0, 0.0, 1.0));
      HitSphere(DefaultSpherePosition, Radius, r)
      && forall t :: SurfaceGap(DefaultSpherePosition, Radius, r, t) == 0.0 ==> t < 0.0
  {
    var r := Ray(Zero, Float3(0.0, 0.0, 1.0));
    assert Sub(r.origin, DefaultSpherePosition) == r.direction;
    assert FullDiscriminant(DefaultSpherePosition, Radius, r) == 1.0;
    forall t | SurfaceGap(DefaultSpherePosition, Radius, r, t) == 0.0
      ensures t < 0.0
    {
      BehindCrossing(t);
    }
  }

  /** A crossing of the default sphere by the ray along +z from the origin lies behind the origin. */
  lemma BehindCrossing(t: real)
    ensures SurfaceGap(DefaultSpherePosition, Radius, Ray(Zero, Float3(0.0, 0.0, 1.0)), t) == 0.0 ==> t < 0.0
  {
    var p := PointAtParameter(Ray(Zero, Float3(0.0, 0.0, 1.0)), t);
    assert p == Float3(0.0, 0.0, t);
    var pc := Sub(p, DefaultSpherePosition);
    assert pc == Float3(0.0, 0.0, t + 1.0);
    assert Dot(pc, pc) - Radius * Radius == t * t + 2.0 * t + 0.75;
    PositiveBeyondOrigin(t);
  }

  /** `t^2 + 2t + 3/4 = (t + 1/2)(t + 3/2)` vanishes only at negative `t`. */
  lemma PositiveBeyondOrigin(t: real)
    ensures t * t + 2.0 * t + 0.75 == 0.0 ==> t < 0.0
  {
    if t >= 0.0 {
      assert t * t >= 0.0;
    }
  }

  /** `Color(r)`: `sphereColor` when the test holds, the sky otherwise. */
  function Color(spherePosition: Float3, sphereColor: Float3, r: Ray): Float3 {
    if HitSphere(spherePosition, Radius, r) then sphereColor else Utils.BackgroundColor(r)
  }

  /**
   * A ray the general sphere test hits, in any parameter range, is drawn in
   * `sphereColor`; a ray whose line never enters the sphere shows the sky.
   */
  lemma ColorAgreesWithSphereHit(spherePosition: Float3, sphereColor: Float3, r: Ray, m: Material,
                                 tMin: real, tMax: real, rec: HitRecord)
    ensures Spheres.Hit(Spheres.Sphere(spherePosition, Radius, m), r, tMin, tMax, rec).0
      ==> Color(spherePosition, sphereColor, r) == sphereColor
    ensures (forall t :: SurfaceGap(spherePosition, Radius, r, t) >= 0.0)
      ==> Color(spherePosition, sphereColor, r) == Utils.BackgroundColor(r)
  {
    var s := Spheres.Sphere(spherePosition, Radius, m);
    HitSphereIffDiscriminant(spherePosition, Radius, r, m);
    if Spheres.Discriminant(s, r) <= 0.0 {
      Spheres.NoHitWithoutPositiveDiscriminant(s, r, tMin, tMax, rec);
    }
    if HitSphere(spherePosition, Radius, r) {
      EntersSphere(spherePosition, Radius, r);
    }
  }

  /** When the test holds, the point of parameter `-h / a` lies strictly inside the sphere. */
  lemma EntersSphere(center: Float3, radius: real, r: Ray)
    requires HitSphere(center, radius, r)
    ensures exists t :: SurfaceGap(center, radius, r, t) < 0.0
  {
    var s := Spheres.Sphere(center, radius, DefaultMaterial);
    HitSphereIffDiscriminant(center, radius, r, DefaultMaterial);
    Spheres.DiscriminantPositive(s, r);
    var a, h, c := Spheres.QuadA(r), Spheres.HalfB(s, r), Spheres.QuadC(s, r);
    var t := -h / a;
    GapIsQuadratic(center, radius, r, a, h, c, t);
    VertexBelow(a, h, c, t);
  }

  /** With `a > 0` and `h^2 - a c > 0`, `a t^2 + 2 h t + c` is negative at its vertex `t = -h / a`. */
  lemma VertexBelow(a: real, h: real, c: real, t: real)
    requires a > 0.0 && h * h - a * c > 0.0 && t == -h / a
    ensures a * t * t + 2.0 * h * t + c < 0.0
  {
    CompletedSquare(a, h, c, t);
    assert a * t + h == 0.0;
    NegativeFactor(a, a * t * t + 2.0 * h * t + c, h * h - a * c);
  }

  /** `a g = -d` with `a, d > 0` makes `g` negative. */
  lemma NegativeFactor(a: real, g: real, d: real)
    requires a > 0.0 && d > 0.0 && a * g == 0.0 - d
    ensures g < 0.0
  {
  }

  /** `ToRgb24` of the colour of pixel `(i, j)`; the generator is not used. */
  function FourShade(spherePosition: Float3, sphereColor: Float3, width: nat, height: nat): (nat, nat, Rng) -> (Color24, Rng) {
    (i: nat, j: nat, r: Rng) => (Extension.ToRgb24(Color(spherePosition, sphereColor, ViewRay(i, j, width, height))), r)
  }

  /** `ChapterFour.Job`. */
  class Job {
    /** `size`. */
    const width: nat
    const height: nat
    const spherePosition: Float3
    const sphereColor: Float3
    /** `Pixels`: written, never read. */
    const pixels: array<Color24>

    constructor (width: nat, height: nat, spherePosition: Float3, sphereColor: Float3, pixels: array<Color24>)
      ensures this.width == width && this.height == height && this.spherePosition == spherePosition
      ensures this.sphereColor == sphereColor && this.pixels == pixels
    {
      this.width, this.height, this.spherePosition, this.sphereColor, this.pixels := width, height, spherePosition, sphereColor, pixels;
    }

    /**
     * `Execute()`: rows bottom to top, columns left to right; pixel `(i, j)`
     * at `j * nx + i` is the colour of its ray, and the rest of the buffer
     * is left alone.
     */
    method Execute()
      requires width * height <= pixels.Length
      modifies pixels
      ensures forall i, j :: 0 <= i < width && 0 <= j < height ==>
        RowMajor(width, i, j) < width * height
        && pixels[RowMajor(width, i, j)] == Extension.ToRgb24(Color(spherePosition, sphereColor, ViewRay(i, j, width, height)))
      ensures pixels[width * height..] == old(pixels[width * height..])
    {
      var shade := FourShade(spherePosition, sphereColor, width, height);
      var rng := InitState(DefaultSeed);
      RenderRows(shade, width, height, rng, pixels);
      forall i, j | 0 <= i < width && 0 <= j < height
        ensures RowMajor(width, i, j) < width * height
          && pixels[RowMajor(width, i, j)] == Extension.ToRgb24(Color(spherePosition, sphereColor, ViewRay(i, j, width, height)))
      {
        RenderedPixel(shade, width, height, i, j, rng);
      }
    }
  }

  /** `Schedule(dependency)`: never implemented for this chapter. */
  datatype ScheduleOutcome = Scheduled | NotImplemented

  /** `ChapterFour`, the chapter object. */
  class ChapterFour {
    var spherePositionZ: real
    var sphereColor: Float3

    constructor ()
      ensures spherePositionZ == DefaultSpherePosition.z && sphereColor == DefaultSphereColor
    {
      spherePositionZ, sphereColor := DefaultSpherePosition.z, DefaultSphereColor;
    }

    /**
     * `DrawToTexture()`: a job on the book's 200 by 100 image with the
     * sphere at (0, 0, spherePositionZ), run to completion.
     */
    method DrawToTexture() returns (pixels: array<Color24>)
      ensures pixels.Length == DefaultWidth * DefaultHeight
      ensures forall i, j :: 0 <= i < DefaultWidth && 0 <= j < DefaultHeight ==>
        RowMajor(DefaultWidth, i, j) < pixels.Length
        && pixels[RowMajor(DefaultWidth, i, j)]
           == Extension.ToRgb24(Color(Float3(0.0, 0.0, spherePositionZ), sphereColor, ViewRay(i, j, DefaultWidth, DefaultHeight)))
    {
      pixels := new Color24[DefaultWidth * DefaultHeight](_ => Color24(0, 0, 0));
      var job := new Job(DefaultWidth, DefaultHeight, Float3(0.0, 0.0, spherePositionZ), sphereColor, pixels);
      job.Execute();
    }

    /** `Schedule(dependency)`: always throws `NotImplementedException`. */
    method Schedule() returns (outcome: ScheduleOutcome)
      ensures outcome == NotImplemented
    {
      outcome := NotImplemented;
    }
  }
}
