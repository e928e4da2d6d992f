/**
 * `HitableArray<Sphere>`: the scene, a list of spheres scanned front to back
 * for the closest hit.  Each sphere is tested against the interval
 * `(tMin, closestSoFar)`, so a later sphere must be strictly closer to
 * replace the current record.
 */
module Hittables {
  import opened Mathematics
  import opened Structs
  import opened Spheres

  /** The scene: its spheres and whether its native buffer is allocated. */
  datatype HitableArray = HitableArray(Objects: seq<Sphere>, IsCreated: bool) {
    /** `Length`: the number of spheres, `Objects.Length`. */
    function Length(): nat
    {
      |Objects|
    }
  }

  /** `Dispose`: release the buffer if it was created; an uncreated array is left as it is. */
  function Dispose(world: HitableArray): (r: HitableArray)
    ensures !r.IsCreated
    ensures world.IsCreated ==> r.Length() == 0
    ensures !world.IsCreated ==> r == world
  {
    if world.IsCreated then HitableArray([], false) else world
  }

  /** The loop state of `Hit` after the first `k` spheres. */
  datatype ScanState = ScanState(hitAnything: bool, closestSoFar: real, tempRecord: HitRecord, rec: HitRecord)

  /** The scan as a function: the state after testing `objects[..k]`. */
  function Scan(objects: seq<Sphere>, k: nat, r: Ray, tMin: real, tMax: real, rec: HitRecord): ScanState
    requires k <= |objects|
  {
    if k == 0 then ScanState(false, tMax, DefaultHitRecord, rec)
    else
      var st := Scan(objects, k - 1, r, tMin, tMax, rec);
      var (h, temp) := Spheres.Hit(objects[k - 1], r, tMin, st.closestSoFar, st.tempRecord);
      if h then ScanState(true, temp.t, temp, temp) else st.(tempRecord := temp)
  }

  /** What `Hit` returns: the flag and the final `rec`. */
  function HitResult(world: HitableArray, r: Ray, tMin: real, tMax: real, rec: HitRecord): (bool, HitRecord) {
    var st := Scan(world.Objects, |world.Objects|, r, tMin, tMax, rec);
    (st.hitAnything, st.rec)
  }

  /** `HitableArray.Hit`: the closest-so-far loop. */
  method Hit(world: HitableArray, r: Ray, tMin: real, tMax: real, rec: HitRecord) returns (hitAnything: bool, recOut: HitRecord)
    ensures (hitAnything, recOut) == HitResult(world, r, tMin, tMax, rec)
  {
    var tempRecord := DefaultHitRecord;
    hitAnything := false;
    var closestSoFar := tMax;
    recOut := rec;
    var i := 0;
    while i < |world.Objects|
      invariant 0 <= i <= |world.Objects|
      invariant ScanState(hitAnything, closestSoFar, tempRecord, recOut) == Scan(world.Objects, i, r, tMin, tMax, rec)
    {
      var obj := world.Objects[i];
      var result := Spheres.Hit(obj, r, tMin, closestSoFar, tempRecord);
      tempRecord := result.1;
      if result.0 {
        hitAnything := true;
        closestSoFar := tempRecord.t;
        recOut := tempRecord;
      }
      i := i + 1;
    }
  }

  /** Whether sphere `s` alone is hit inside `(tMin, tMax)`. */
  predicate Hits(s: Sphere, r: Ray, tMin: real, tMax: real) {
    Spheres.Hit(s, r, tMin, tMax, DefaultHitRecord).0
  }

  /** The record sphere `s` alone produces inside `(tMin, tMax)`. */
  function RecordOf(s: Sphere, r: Ray, tMin: real, tMax: real): HitRecord {
    Spheres.Hit(s, r, tMin, tMax, DefaultHitRecord).1
  }

  /** The loop invariant of the scan, stated over the spheres seen so far. */
  ghost predicate ScanInvariant(objects: seq<Sphere>, k: nat, r: Ray, tMin: real, tMax: real, rec: HitRecord)
    requires k <= |objects|
  {
    var st := Scan(objects, k, r, tMin, tMax, rec);
    && st.closestSoFar <= tMax
    && (!st.hitAnything ==>
          st.closestSoFar == tMax && st.rec == rec
          && forall j :: 0 <= j < k ==> !Hits(objects[j], r, tMin, tMax))
    && (st.hitAnything ==>
          st.closestSoFar == st.rec.t
          && exists i :: 0 <= i < k && Hits(objects[i], r, tMin, tMax) && st.rec == RecordOf(objects[i], r, tMin, tMax)
                         && (forall j :: 0 <= j < i && Hits(objects[j], r, tMin, tMax) ==> st.rec.t < RecordOf(objects[j], r, tMin, tMax).t))
    && (forall j :: 0 <= j < k && Hits(objects[j], r, tMin, tMax) ==> st.hitAnything && st.rec.t <= RecordOf(objects[j], r, tMin, tMax).t)
  }

  lemma {:induction false} ScanInvariantHolds(objects: seq<Sphere>, k: nat, r: Ray, tMin: real, tMax: real, rec: HitRecord)
    requires k <= |objects|
    ensures ScanInvariant(objects, k, r, tMin, tMax, rec)
  {
    if k > 0 {
      ScanInvariantHolds(objects, k - 1, r, tMin, tMax, rec);
      var st := Scan(objects, k - 1, r, tMin, tMax, rec);
      var s := objects[k - 1];
      HitNarrowed(s, r, tMin, tMax, st.closestSoFar, DefaultHitRecord, st.tempRecord);
      var st' := Scan(objects, k, r, tMin, tMax, rec);
      if st'.hitAnything && !st.hitAnything {
        assert Hits(s, r, tMin, tMax) && st'.rec == RecordOf(s, r, tMin, tMax);
      } else if st'.hitAnything && st'.rec != st.rec {
        assert Hits(s, r, tMin, tMax) && st'.rec == RecordOf(s, r, tMin, tMax);
      }
    }
  }

  /**
   * The closest-hit theorem.  `Hit` reports a hit exactly when some sphere is
   * hit inside `(tMin, tMax)`; the record is then that of a sphere `i` whose hit
   * is no farther than any other sphere's, and strictly closer than every
   * earlier sphere's, so on a tie the earlier sphere wins.  On a miss `rec`
   * comes back unchanged.
   */
  lemma HitIsClosest(world: HitableArray, r: Ray, tMin: real, tMax: real, rec: HitRecord)
    ensures var (h, res) := HitResult(world, r, tMin, tMax, rec);
      (h <==> exists j :: 0 <= j < |world.Objects| && Hits(world.Objects[j], r, tMin, tMax))
      && (!h ==> res == rec)
      && (h ==> exists i :: 0 <= i < |world.Objects| && Hits(world.Objects[i], r, tMin, tMax)
                  && res == RecordOf(world.Objects[i], r, tMin, tMax)
                  && (forall j :: 0 <= j < |world.Objects| && Hits(world.Objects[j], r, tMin, tMax) ==> res.t <= RecordOf(world.Objects[j], r, tMin, tMax).t)
                  && (forall j :: 0 <= j < i && Hits(world.Objects[j], r, tMin, tMax) ==> res.t < RecordOf(world.Objects[j], r, tMin, tMax).t))
  {
    ScanInvariantHolds(world.Objects, |world.Objects|, r, tMin, tMax, rec);
  }

  /** A hit lies strictly inside the interval and carries the material of a sphere of the scene. */
  lemma HitFromScene(world: HitableArray, r: Ray, tMin: real, tMax: real, rec: HitRecord)
    requires HitResult(world, r, tMin, tMax, rec).0
    ensures var res := HitResult(world, r, tMin, tMax, rec).1;
      tMin < res.t < tMax && exists i :: 0 <= i < |world.Objects| && res.material == world.Objects[i].material
  {
    HitIsClosest(world, r, tMin, tMax, rec);
  }

  /** An empty scene is never hit. */
  lemma EmptyNeverHits(r: Ray, tMin: real, tMax: real, rec: HitRecord)
    ensures HitResult(HitableArray([], true), r, tMin, tMax, rec) == (false, rec)
  {
  }
}
