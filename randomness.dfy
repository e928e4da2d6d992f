/**
 * Unity.Mathematics.Random, kept abstract.  The generator is a 32-bit state;
 * how `InitState` and `NextState` transform it is foreign code, so both are
 * uninterpreted constants.  What the renderer relies on is kept: a generator
 * is a value (copying it copies the state), every draw returns a value
 * taken from the state BEFORE the step and the advanced state, and
 * `NextFloat` lies in [0, 1).
 */
module Randomness {

  const UIntLimit: int := 0x1_0000_0000

  /** A C# `uint`. */
  type UInt = x: int | 0 <= x < 0x1_0000_0000

  /** A float in [0, 1), the range of `NextFloat`. */
  type UnitReal = r: real | 0.0 <= r < 1.0

  /** `Unity.Mathematics.Random`: a struct holding one `uint` of state. */
  datatype Rng = Rng(state: UInt)

  /** `InitState(seed)`: uninterpreted. */
  const InitStateFn: UInt -> Rng
  /** The xorshift step behind every draw: uninterpreted. */
  const NextStateFn: Rng -> Rng
  /** How `NextFloat` turns the state before the step into a float: uninterpreted, in [0, 1). */
  const FloatOfStateFn: Rng -> UnitReal

  function InitState(seed: UInt): Rng { InitStateFn(seed) }

  /** The seed `InitState()` uses when called without one: Unity's default argument. */
  const DefaultSeed: UInt := 0x6E62_4EB7

  /**
   * `NextFloat()` on a `ref Random`: the float made from the state before
   * the step (`NextState()` returns the old state), and the advanced generator.
   */
  function NextFloat(rng: Rng): (UnitReal, Rng) {
    (FloatOfStateFn(rng), NextStateFn(rng))
  }

  /**
   * `NextUInt()` on a `ref Random`: `NextState() - 1u`, the state before the
   * step minus 1 with unsigned wrap-around (a state of 0 draws 2^32 - 1),
   * and the advanced generator.
   */
  function NextUInt(rng: Rng): (r: (UInt, Rng))
    ensures rng.state > 0 ==> r.0 == rng.state - 1
    ensures rng.state == 0 ==> r.0 == UIntLimit - 1
    ensures r.1 == NextStateFn(rng)
  {
    (ToUInt(rng.state - 1), NextStateFn(rng))
  }

  /** C# `(uint)x`: the value modulo 2^32. */
  function ToUInt(x: int): (u: UInt)
    ensures 0 <= x < UIntLimit ==> u == x
  {
    x % UIntLimit
  }

  /**
   * The seed of a batch slot, `(uint)slot + (uint)completedSampleCount + 100`,
   * with the wrap-around of unsigned addition.
   */
  function SlotSeed(slot: int, completedSampleCount: int): (seed: UInt)
    ensures 0 <= slot + completedSampleCount + 100 < UIntLimit ==> seed == slot + completedSampleCount + 100
  {
    ToUInt(ToUInt(slot) + ToUInt(completedSampleCount) + 100)
  }

  lemma SlotSeedNoWrap(slot: nat, completedSampleCount: nat)
    requires slot + completedSampleCount + 100 < UIntLimit
    ensures SlotSeed(slot, completedSampleCount) == slot + completedSampleCount + 100
  {
  }
}
