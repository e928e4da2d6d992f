/**
 * `ExampleSphereSets`: the hard-coded scenes of the book's chapters and
 * the seeded random cover scene.
 */
module SphereSets {
  import opened Mathematics
  import opened Randomness
  import opened Structs
  import opened Spheres
  import opened Hittables

  /** `new Sphere(center, radius)`: the two-argument constructor leaves the material at its default. */
  function PlainSphere(center: Float3, radius: real): Sphere {
    Sphere(center, radius, DefaultMaterial)
  }

  /** `default(Sphere)`, the value of a slot of a new array that was never written. */
  const DefaultSphere := Sphere(Zero, 0.0, DefaultMaterial)

  /** `FourVaryingSize`: despite the name, five plain spheres, the last one the ground. */
  function FourVaryingSize(): (w: HitableArray)
    ensures w.IsCreated && w.Length() == 5
    ensures w.Objects[4].radius == 100.0
  {
    HitableArray([
      PlainSphere(Float3(0.35, -0.1, -2.0), 0.4),
      PlainSphere(Float3(-1.4, 0.0, -1.5), 0.5),
      PlainSphere(Float3(1.2, -0.375, -1.5), 0.125),
      PlainSphere(Float3(1.4, -0.45, -1.12), 0.05),
      PlainSphere(Float3(0.0, -100.5, -1.0), 100.0)], true)
  }

  /** `ChapterSixAndSeven`: one sphere on the ground sphere. */
  function ChapterSixAndSeven(): (w: HitableArray)
    ensures w.IsCreated && w.Length() == 2
  {
    HitableArray([
      PlainSphere(Float3(0.0, 0.0, -1.0), 0.5),
      PlainSphere(Float3(0.0, -100.5, -1.0), 100.0)], true)
  }

  /** `ChapterEight`: two Lambertian spheres and two metals of fuzziness 0.3 and 0.1. */
  function ChapterEight(): (w: HitableArray)
    ensures w.IsCreated && w.Length() == 4
    ensures w.Objects[2].material.materialType.Metal? && w.Objects[2].material.fuzziness == 0.3
    ensures w.Objects[3].material.materialType.Metal? && w.Objects[3].material.fuzziness == 0.1
  {
    HitableArray([
      Sphere(Float3(0.0, 0.0, -1.0), 0.5, NewMaterial(Lambertian, Float3(0.8, 0.3, 0.3))),
      Sphere(Float3(0.0, -100.5, -1.0), 100.0, NewMaterial(Lambertian, Float3(0.8, 0.8, 0.0))),
      Sphere(Float3(1.0, 0.0, -1.0), 0.5, NewMaterial(Metal, Float3(0.8, 0.6, 0.2), 0.3)),
      Sphere(Float3(-1.0, 0.0, -1.0), 0.5, NewMaterial(Metal, Float3(0.8, 0.8, 0.8), 0.1))], true)
  }

  /**
   * `FiveWithDielectric`: the scene at the end of chapter 9.  Slots 3 and 4
   * form a hollow glass ball: the same centre, radii 0.5 and -0.45, both
   * dielectric with refraction index 1.5.
   */
  function FiveWithDielectric(): (w: HitableArray)
    ensures w.IsCreated && w.Length() == 5
  {
    var glass := NewMaterial(Dielectric, Zero, 0.0, 1.5);
    HitableArray([
      Sphere(Float3(0.0, 0.0, -1.0), 0.5, NewMaterial(Lambertian, Float3(0.1, 0.2, 0.5))),
      Sphere(Float3(0.0, -100.5, -1.0), 100.0, NewMaterial(Lambertian, Float3(0.8, 0.8, 0.0))),
      Sphere(Float3(1.0, 0.0, -1.0), 0.5, NewMaterial(Metal, Float3(0.8, 0.6, 0.2), 0.3)),
      Sphere(Float3(-1.0, 0.0, -1.0), 0.5, glass),
      Sphere(Float3(-1.0, 0.0, -1.0), -0.45, glass)], true)
  }

  /**
   * The hollow glass ball: its two surfaces share a centre and a material,
   * and with an exact `sqrt` a hit on the inner surface (negative radius)
   * has a normal pointing towards the centre, a hit on the outer one a
   * normal pointing away.
   */
  lemma HollowGlassBall(r: Ray, tMin: real, tMax: real, rec: HitRecord)
    requires SqrtExact()
    ensures var w := FiveWithDielectric();
      w.Objects[3].center == w.Objects[4].center && w.Objects[3].material == w.Objects[4].material
      && w.Objects[3].material.materialType.Dielectric? && w.Objects[3].material.refractionIndex == 1.5
    ensures var inner := FiveWithDielectric().Objects[4];
      var (h, hr) := Spheres.Hit(inner, r, tMin, tMax, rec);
      h ==> Dot(hr.normal, Sub(hr.p, inner.center)) < 0.0
    ensures var outer := FiveWithDielectric().Objects[3];
      var (h, hr) := Spheres.Hit(outer, r, tMin, tMax, rec);
      h ==> Dot(hr.normal, Sub(hr.p, outer.center)) > 0.0
  {
    var w := FiveWithDielectric();
    if Spheres.Hit(w.Objects[4], r, tMin, tMax, rec).0 {
      HitOnSurface(w.Objects[4], r, tMin, tMax, rec);
    }
    if Spheres.Hit(w.Objects[3], r, tMin, tMax, rec).0 {
      HitOnSurface(w.Objects[3], r, tMin, tMax, rec);
    }
  }

  /** The point the random scene keeps its small spheres away from. */
  const CompareCenter := Float3(4.0, 0.2, 0.0)
  /** The grid runs `a` and `b` over -11 .. 10. */
  const GridLow: int := -11
  const GridSide: nat := 22
  const GridCells: nat := 484

  /** The grid cell visited `cell`-th: `a` is the outer loop, `b` the inner one. */
  function CellA(cell: nat): int { GridLow + cell / GridSide }
  function CellB(cell: nat): int { GridLow + cell % GridSide }

  /** `RandomFloat3(ref rng)`: each component the product of two draws, in argument order. */
  function RandomFloat3(rng: Rng): (res: (Float3, Rng))
    ensures 0.0 <= res.0.x < 1.0 && 0.0 <= res.0.y < 1.0 && 0.0 <= res.0.z < 1.0
  {
    var (x1, r1) := NextFloat(rng);
    var (x2, r2) := NextFloat(r1);
    var (y1, r3) := NextFloat(r2);
    var (y2, r4) := NextFloat(r3);
    var (z1, r5) := NextFloat(r4);
    var (z2, r6) := NextFloat(r5);
    UnitIntervalProduct(x1, x2);
    UnitIntervalProduct(y1, y2);
    UnitIntervalProduct(z1, z2);
    (Float3(x1 * x2, y1 * y2, z1 * z2), r6)
  }

  lemma UnitIntervalProduct(a: real, b: real)
    requires 0.0 <= a < 1.0 && 0.0 <= b < 1.0
    ensures 0.0 <= a * b < 1.0
  {
    assert a * b <= 1.0 * b by {
      assert (1.0 - a) * b >= 0.0;
    }
  }

  /** One grid cell of the random scene: whether a sphere is written, which one, and the generator afterwards. */
  datatype Candidate = Candidate(accepted: bool, sphere: Sphere, rng: Rng)

  /**
   * The body of the inner loop for cell `(a, b)`: three draws choose the
   * material and jitter the centre; a centre within 0.9 of `CompareCenter`
   * is skipped, otherwise a sphere of radius 0.2 is made with a random
   * colour.  Glass gets the constructor's default refraction index 1.
   */
  function GridCandidate(a: int, b: int, rng: Rng): (c: Candidate)
    ensures c.accepted ==> c.sphere.radius == 0.2 && c.sphere.center.y == 0.2
                           && Length(Sub(c.sphere.center, CompareCenter)) > 0.9
    ensures c.accepted && c.sphere.material.materialType.Dielectric? ==> c.sphere.material.refractionIndex == 1.0
  {
    var (chooseMat, r1) := NextFloat(rng);
    var (dx, r2) := NextFloat(r1);
    var (dz, r3) := NextFloat(r2);
    var center := Float3(a as real + 0.9 * dx, 0.2, b as real + 0.9 * dz);
    if !(Length(Sub(center, CompareCenter)) > 0.9) then Candidate(false, DefaultSphere, r3)
    else
      var (albedo, r4) := RandomFloat3(r3);
      var materialType := if chooseMat < 0.8 then Lambertian else if chooseMat < 0.95 then Metal else Dielectric;
      Candidate(true, Sphere(center, 0.2, NewMaterial(materialType, albedo)), r4)
  }

  /** The spheres the first `cells` grid cells write, and the generator afterwards. */
  function Grid(cells: nat, rng: Rng): (res: (seq<Sphere>, Rng))
    ensures |res.0| <= cells
  {
    if cells == 0 then ([], rng)
    else
      var (earlier, r) := Grid(cells - 1, rng);
      var c := GridCandidate(CellA(cells - 1), CellB(cells - 1), r);
      (if c.accepted then earlier + [c.sphere] else earlier, c.rng)
  }

  /** The spheres of fewer cells are a prefix of those of more cells. */
  lemma {:induction false} GridPrefix(k: nat, m: nat, rng: Rng)
    requires k <= m
    ensures Grid(k, rng).0 <= Grid(m, rng).0
    decreases m
  {
    if k < m {
      GridPrefix(k, m - 1, rng);
    }
  }

  /** Every sphere of the grid has radius 0.2 and keeps clear of `CompareCenter`. */
  lemma {:induction false} GridSpheresSmall(cells: nat, rng: Rng)
    ensures forall s :: s in Grid(cells, rng).0 ==> s.radius == 0.2 && Length(Sub(s.center, CompareCenter)) > 0.9
  {
    if cells > 0 {
      GridSpheresSmall(cells - 1, rng);
    }
  }

  /** Slot 0: the radius-1000 Lambertian ground. */
  const Ground := Sphere(Float3(0.0, -1000.0, 0.0), 1000.0, NewMaterial(Lambertian, Float3(0.5, 0.5, 0.5)))

  /** The three large spheres written after the grid: glass, Lambertian, metal. */
  const Finale := [
    Sphere(Float3(0.0, 1.0, 0.0), 1.0, NewMaterial(Dielectric, Zero, 0.0, 1.5)),
    Sphere(Float3(-4.0, 1.0, 0.0), 1.0, NewMaterial(Lambertian, Float3(0.4, 0.2, 0.1), 0.0, 1.5)),
    Sphere(Float3(4.0, 1.0, 0.0), 1.0, NewMaterial(Metal, Float3(0.7, 0.6, 0.5)))]

  /** Every sphere the random scene writes, in slot order. */
  function RandomSceneSpheres(seed: UInt): (spheres: seq<Sphere>)
    ensures 4 <= |spheres| <= GridCells + 4
    ensures spheres[0] == Ground && spheres[|spheres| - 3..] == Finale
  {
    [Ground] + Grid(GridCells, InitState(seed)).0 + Finale
  }

  /** The index of cell `(a, b)` in visiting order. */
  function Cell(a: int, b: int): nat
    requires GridLow <= a && GridLow <= b
  {
    (a - GridLow) * 22 + (b - GridLow)
  }

  /** The state of the fill loop after the first `cells` cells: the next free slot, the generator, the slots written. */
  ghost predicate Filled(list: array<Sphere>, cells: nat, rng0: Rng, i: nat, rng: Rng)
    reads list
  {
    var g := Grid(cells, rng0);
    i == 1 + |g.0| && i <= list.Length && rng == g.1 && list[1..i] == g.0
  }

  /** One more cell: the slot the candidate is written to and the generator it leaves. */
  lemma FillStep(list: array<Sphere>, cell: nat, rng0: Rng, i: nat, rng: Rng, c: Candidate)
    requires Filled(list, cell, rng0, i, rng)
    requires c == GridCandidate(CellA(cell), CellB(cell), rng)
    ensures c.accepted ==> Grid(cell + 1, rng0) == (list[1..i] + [c.sphere], c.rng)
    ensures !c.accepted ==> Grid(cell + 1, rng0) == (list[1..i], c.rng)
  {
  }

  /** One cell of the inner loop: draw its candidate and write it to slot `i` when it is accepted. */
  method FillCell(list: array<Sphere>, a: int, b: int, i: nat, rng: Rng, ghost rng0: Rng) returns (next: nat, rngOut: Rng, overflow: bool)
    requires GridLow <= a < GridLow + GridSide as int && GridLow <= b < GridLow + GridSide as int
    requires Filled(list, Cell(a, b), rng0, i, rng)
    modifies list
    ensures !overflow ==> Filled(list, Cell(a, b) + 1, rng0, next, rngOut) && i <= next <= i + 1
    ensures !overflow ==> forall k :: next <= k < list.Length ==> list[k] == old(list[k])
    ensures overflow ==> 1 + |Grid(GridCells, rng0).0| > list.Length
    ensures list[0] == old(list[0])
  {
    ghost var cell := Cell(a, b);
    CellOfLoop(a, b);
    var c := GridCandidate(a, b, rng);
    FillStep(list, cell, rng0, i, rng, c);
    ghost var written := list[1..i];
    next, rngOut, overflow := i, c.rng, false;
    if c.accepted {
      if i >= list.Length {
        GridPrefix(cell + 1, GridCells, rng0);
        return i, c.rng, true;
      }
      list[i] := c.sphere;
      assert list[1..i + 1] == written + [c.sphere];
      next := i + 1;
    }
  }

  /**
   * The inner loop of `RandomScene` for one value of `a`: the 22 cells
   * `(a, -11) .. (a, 10)`.  `overflow` reports the write past the end that
   * throws.
   */
  method FillRow(list: array<Sphere>, a: int, i: nat, rng: Rng, ghost rng0: Rng) returns (next: nat, rngOut: Rng, overflow: bool)
    requires GridLow <= a < GridLow + GridSide as int
    requires Filled(list, Cell(a, GridLow), rng0, i, rng)
    modifies list
    ensures !overflow ==> Filled(list, Cell(a + 1, GridLow), rng0, next, rngOut)
    ensures !overflow ==> i <= next && forall k :: next <= k < list.Length ==> list[k] == old(list[k])
    ensures overflow ==> 1 + |Grid(GridCells, rng0).0| > list.Length
    ensures list[0] == old(list[0])
  {
    next, rngOut, overflow := i, rng, false;
    var b := GridLow;
    while b < GridLow + GridSide as int
      invariant GridLow <= b <= GridLow + GridSide as int
      invariant Filled(list, Cell(a, b), rng0, next, rngOut) && i <= next
      invariant forall k :: next <= k < list.Length ==> list[k] == old(list[k])
      invariant list[0] == old(list[0])
    {
      next, rngOut, overflow := FillCell(list, a, b, next, rngOut, rng0);
      if overflow {
        return;
      }
      b := b + 1;
    }
    assert Cell(a + 1, GridLow) == Cell(a, b) by {
      assert (a + 1 - GridLow) * 22 == (a - GridLow) * 22 + 22;
    }
  }

  /** The two nested loops of `RandomScene`: every grid cell, writing from slot 1 on. */
  method FillGrid(list: array<Sphere>, rng0: Rng) returns (i: nat, overflow: bool)
    requires 1 <= list.Length
    modifies list
    ensures !overflow ==> i == 1 + |Grid(GridCells, rng0).0| && i <= list.Length && list[1..i] == Grid(GridCells, rng0).0
    ensures !overflow ==> forall k :: i <= k < list.Length ==> list[k] == old(list[k])
    ensures overflow ==> 1 + |Grid(GridCells, rng0).0| > list.Length
    ensures list[0] == old(list[0])
  {
    var rng := rng0;
    i := 1;
    var a := GridLow;
    assert Grid(0, rng0) == ([], rng0);
    while a < GridLow + GridSide as int
      invariant GridLow <= a <= GridLow + GridSide as int
      invariant Filled(list, Cell(a, GridLow), rng0, i, rng)
      invariant list[0] == old(list[0])
      invariant forall k :: i <= k < list.Length ==> list[k] == old(list[k])
    {
      i, rng, overflow := FillRow(list, a, i, rng, rng0);
      if overflow {
        return;
      }
      a := a + 1;
    }
    assert Cell(a, GridLow) == GridCells;
    overflow := false;
  }

  /**
   * `RandomScene(n, seed)`: writes the ground at slot 0, one sphere per
   * accepted grid cell at the next free slot, then the three large spheres.
   * The list has `n` slots; a write past the end throws, which is the
   * `None` outcome.  So the scene is built exactly when `n` covers every
   * written sphere, and slots past them keep the default sphere.
   */
  method RandomScene(n: int, seed: UInt) returns (res: Option<HitableArray>)
    ensures var spheres := RandomSceneSpheres(seed);
      (res.Some? <==> n >= |spheres|)
      && (res.Some? ==>
            res.value.IsCreated && |res.value.Objects| == n
            && res.value.Objects[..|spheres|] == spheres
            && forall k :: |spheres| <= k < n ==> res.value.Objects[k] == DefaultSphere)
  {
    var rng0 := InitState(seed);
    ghost var total := Grid(GridCells, rng0).0;
    if n < 1 {
      return None;
    }
    var list := new Sphere[n](_ => DefaultSphere);
    list[0] := Ground;
    var i, overflow := FillGrid(list, rng0);
    if overflow || i + 2 >= n {
      return None;
    }
    ghost var filled := list[..];
    assert forall k :: i <= k < n ==> filled[k] == DefaultSphere;
    list[i] := Finale[0];
    list[i + 1] := Finale[1];
    list[i + 2] := Finale[2];
    assert list[1..i] == filled[1..i] == total;
    assert forall k :: i + 3 <= k < n ==> list[k] == filled[k];
    SceneAssembled(list[..], i, total);
    res := Some(HitableArray(list[..], true));
  }

  /** The slots of the finished list: the ground, the grid spheres, the finale, then default spheres. */
  lemma SceneAssembled(objects: seq<Sphere>, i: nat, total: seq<Sphere>)
    requires 1 <= i && i + 3 <= |objects| && |total| == i - 1
    requires objects[0] == Ground && objects[1..i] == total
    requires objects[i] == Finale[0] && objects[i + 1] == Finale[1] && objects[i + 2] == Finale[2]
    ensures objects[..i + 3] == [Ground] + total + Finale
  {
    assert objects[..i + 3] == [objects[0]] + objects[1..i] + objects[i..i + 3];
  }

  /** The loop counters `(a, b)` visit cell `(a + 11) * 22 + (b + 11)`. */
  lemma CellOfLoop(a: int, b: int)
    requires GridLow <= a < GridLow + GridSide as int && GridLow <= b < GridLow + GridSide as int
    ensures var cell := Cell(a, b);
      cell < GridCells && CellA(cell) == a && CellB(cell) == b
  {
    var cell := Cell(a, b);
    assert cell <= 21 * 22 + 21;
    assert cell / GridSide == a - GridLow && cell % GridSide == b - GridLow;
  }
}
