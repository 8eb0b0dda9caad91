/** Block identifiers and the block classes that the physics code distinguishes. */
module Blocks {

  type byte = x: int | 0 <= x < 256

  const AIR: byte := 0
  const STONE: byte := 1
  const ACTIVE_WATER: byte := 8
  const WATER: byte := 9
  const ACTIVE_LAVA: byte := 10
  const LAVA: byte := 11
  const SAND: byte := 12
  const GRAVEL: byte := 13
  const SPONGE: byte := 19

  predicate IsWater(v: byte) {
    v == ACTIVE_WATER || v == WATER
  }

  predicate IsLava(v: byte) {
    v == ACTIVE_LAVA || v == LAVA
  }

  /** Blocks that fall. */
  predicate IsGrain(v: byte) {
    v == SAND || v == GRAVEL
  }

  /** Blocks that a grain falls through. */
  predicate IsPassable(v: byte) {
    v == AIR || IsWater(v) || IsLava(v)
  }

  /** Blocks that no nested physics step may touch. */
  predicate IsHard(v: byte) {
    !IsPassable(v) && !IsGrain(v)
  }

  /** An edit that makes the water simulator scan a cube around the edited cell. */
  predicate SpongeEdit(oldBlock: byte, v: byte) {
    oldBlock != v && (oldBlock == SPONGE || v == SPONGE)
  }
}
