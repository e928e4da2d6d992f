/**
 * `Utils`: rejection sampling of the unit ball and disc, the sky gradient,
 * the z flip of the camera bridge and buffer reallocation.
 */
module Utils {
  import opened Mathematics
  import opened Randomness
  import opened Structs
  import opened Native

  /**
   * The rejection loops draw until a point is accepted.  The generator's state
   * is 32 bits wide, so the model gives up after 2^32 rejected draws and
   * yields the origin; the source would loop forever there.
   */
  const RejectionAttempts: nat := 0x1_0000_0000

  /** One candidate `2 (x, y, z) - (1, 1, 1)` from three draws, in argument order. */
  function CubeCandidate(rng: Rng): (res: (Float3, Rng))
    ensures -1.0 <= res.0.x < 1.0 && -1.0 <= res.0.y < 1.0 && -1.0 <= res.0.z < 1.0
  {
    var (x, r1) := NextFloat(rng);
    var (y, r2) := NextFloat(r1);
    var (z, r3) := NextFloat(r2);
    (Sub(Scale(2.0, Float3(x, y, z)), One), r3)
  }

  /** The rejection loop of `RandomInUnitSphere` with `fuel` further attempts after this one. */
  function SphereSample(rng: Rng, fuel: nat): (p: Float3)
    ensures Dot(p, p) < 1.0
    ensures -1.0 <= p.x < 1.0 && -1.0 <= p.y < 1.0 && -1.0 <= p.z < 1.0
    decreases fuel
  {
    var (p, next) := CubeCandidate(rng);
    if Dot(p, p) < 1.0 then p
    else if fuel == 0 then Zero
    else SphereSample(next, fuel - 1)
  }

  /** The point `RandomInUnitSphere(rand)` returns; it depends on `rand` alone. */
  function UnitSphereSample(rand: Rng): (p: Float3)
    ensures Dot(p, p) < 1.0
    ensures -1.0 <= p.x < 1.0 && -1.0 <= p.y < 1.0 && -1.0 <= p.z < 1.0
  {
    SphereSample(rand, RejectionAttempts)
  }

  /**
   * `RandomInUnitSphere(Random rand)`: the do-while loop on a local copy of the
   * generator.  The generator is passed by value, so the caller's state does
   * not advance; the point is strictly inside the unit ball.
   */
  method RandomInUnitSphere(rand: Rng) returns (p: Float3)
    ensures p == UnitSphereSample(rand)
    ensures Dot(p, p) < 1.0
  {
    var r := rand;
    var fuel := RejectionAttempts;
    while true
      invariant SphereSample(r, fuel) == UnitSphereSample(rand)
      decreases fuel
    {
      var candidate := CubeCandidate(r);
      p, r := candidate.0, candidate.1;
      if Dot(p, p) < 1.0 {
        return;
      }
      if fuel == 0 {
        p := Zero;
        return;
      }
      fuel := fuel - 1;
    }
  }

  /** One candidate `2 (x, y, 0) - (1, 1, 0)` from two draws. */
  function DiscCandidate(rng: Rng): (res: (Float3, Rng))
    ensures res.0.z == 0.0 && -1.0 <= res.0.x < 1.0 && -1.0 <= res.0.y < 1.0
  {
    var (x, r1) := NextFloat(rng);
    var (y, r2) := NextFloat(r1);
    (Sub(Scale(2.0, Float3(x, y, 0.0)), Float3(1.0, 1.0, 0.0)), r2)
  }

  function DiscSample(rng: Rng, fuel: nat): (p: Float3)
    ensures p.z == 0.0 && Dot(p, p) < 1.0
    decreases fuel
  {
    var (p, next) := DiscCandidate(rng);
    if Dot(p, p) < 1.0 then p
    else if fuel == 0 then Zero
    else DiscSample(next, fuel - 1)
  }

  function UnitDiscSample(rand: Rng): (p: Float3)
    ensures p.z == 0.0 && Dot(p, p) < 1.0
  {
    DiscSample(rand, RejectionAttempts)
  }

  /**
   * `RandomInUnitDisk(this Random rand)`: the same rejection loop in the plane
   * z = 0, drawing on the by-value parameter, so the caller's generator does
   * not advance either.
   */
  method RandomInUnitDisk(rand: Rng) returns (p: Float3)
    ensures p == UnitDiscSample(rand)
    ensures p.z == 0.0 && Dot(p, p) < 1.0
  {
    var r := rand;
    var fuel := RejectionAttempts;
    while true
      invariant DiscSample(r, fuel) == UnitDiscSample(rand)
      decreases fuel
    {
      var candidate := DiscCandidate(r);
      p, r := candidate.0, candidate.1;
      if Dot(p, p) < 1.0 {
        return;
      }
      if fuel == 0 {
        p := Zero;
        return;
      }
      fuel := fuel - 1;
    }
  }

  /** `BackgroundColor`: the sky blends from white at the nadir to `blueGradient` at the zenith. */
  function BackgroundColor(r: Ray): Float3 {
    var unitDirection := Normalize(r.direction);
    var t := 0.5 * (unitDirection.y + 1.0);
    Add(Scale(1.0 - t, One), Scale(t, BlueGradient))
  }

  /** Straight up is `blueGradient`, straight down is white. */
  lemma BackgroundEndpoints(r: Ray)
    requires SqrtExact() && r.direction.x == 0.0 && r.direction.z == 0.0 && r.direction.y != 0.0
    ensures r.direction.y > 0.0 ==> BackgroundColor(r) == BlueGradient
    ensures r.direction.y < 0.0 ==> BackgroundColor(r) == One
  {
    assert r.direction == Float3(0.0, r.direction.y, 0.0);
    NormalizeVertical(r.direction.y);
  }

  /** Every component of the sky lies between its two endpoints. */
  lemma BackgroundBounds(r: Ray)
    requires SqrtExact()
    ensures var c := BackgroundColor(r);
      0.5 <= c.x <= 1.0 && 0.7 <= c.y <= 1.0 && c.z == 1.0
  {
    NormalizeBounds(r.direction);
  }

  /** `FlipZ(input, originZ)`: both branches compute `z' = originZ - z`; x and y are kept. */
  function FlipZ(input: Float3, originZ: real := -1.0): (res: Float3)
    ensures res.x == input.x && res.y == input.y && res.z == originZ - input.z
  {
    if input.z < -1.0 then
      input.(z := input.z * -1.0 + originZ)
    else
      input.(z := input.z * -1.0 + originZ)
  }

  /** Flipping twice about the same origin gives back the input. */
  lemma FlipZInvolution(input: Float3, originZ: real)
    ensures FlipZ(FlipZ(input, originZ), originZ) == input
  {
  }

  /**
   * `ReallocateIfNeeded(ref array, newLength)`: a handle of the right length is
   * kept; otherwise a created one is disposed and a fresh buffer of
   * `newLength` elements replaces it.
   */
  method ReallocateIfNeeded<T>(buffer: NativeArray<T>, newLength: nat, zero: T) returns (result: NativeArray<T>)
    ensures newLength == buffer.Length() ==> result == buffer
    ensures newLength != buffer.Length() ==> result.IsCreated() && result.Length() == newLength && fresh(result.Buffer)
    ensures newLength != buffer.Length() ==> result.Buffer[..] == seq(newLength, _ => zero)
  {
    var oldLength := buffer.Length();
    if newLength == oldLength {
      return buffer;
    }
    var released := DisposeIfCreated(buffer);
    assert !released.IsCreated();
    result := Allocate(newLength, zero);
  }
}
