/** Block identities. The model distinguishes the blocks that the rules in this
    repository test for by name; every other block identity is `Other(id)`. */
module Blocks {

  datatype Block =
    | Air
    | Sponge
    | Water
    | Lava
    | Dirt
    | Grass
    | Mycelium
    | Stone
    | Bedrock
    | Leaves
    | Other(id: nat)

  /** The "is air" test of the block-type table. */
  predicate IsAir(b: Block) {
    b == Air
  }

  /** Water or lava: the liquids that the lake strategy never overwrites. */
  predicate IsLiquid(b: Block) {
    b == Water || b == Lava
  }
}
