# Block areas, mob spawning and five block and item handlers

This project models part of a Minecraft-compatible game server in Dafny. Every
model is a pure function over immutable values, and each one comes with lemmas
about it. It covers:

- **Block areas** (`cBlockArea`). An area is a cuboid of voxels. It may hold
  any of four data types: block identities, block light, sky light, and block
  entities. The model covers:
  - the data-type bit mask and its validity rule;
  - the `Create`, `Clear`, origin and WorldEdit-offset setters;
  - the per-voxel getters and setters, in relative and absolute coordinates;
  - `Fill`, `FillRelCuboid` and `RelLine`;
  - the air and specific-block counters;
  - the eight merge strategies, as a per-block rule. That rule is proved equal
    to the first-match tables in the header's documentation;
  - `Merge` of one area into another;
  - `Crop` and `Expand`;
  - the two rotations around the Y axis and the three mirrors.

  The header declares separate light setters. Here they are `RelSetData` with
  only the light types selected. The block array is indexed x-fastest, then z,
  then y. `Vectors.Index` defines that order, and `Vectors.IndexBijection`
  shows that it is a bijection onto the array.
- **The mob spawner** (`cMobSpawner`). It covers:
  - the family filter of the constructor;
  - the pack-centre test;
  - the biome table of allowed monsters;
  - the choice among the allowed monsters, where each candidate is picked by
    exactly one of the values the random draw ranges over;
  - the per-monster spawn rules;
  - packs: choosing a type once per pack, and the pack-size overrides.
- **The cauldron** (`cBlockCauldronHandler`). It covers:
  - filling and emptying with buckets and bottles;
  - washing dyed leather armour and shulker boxes;
  - rain topping it up;
  - its drop.
- **Ores** (`cBlockOreHandler`). It covers the drops with and without silk
  touch and fortune, and the experience a survival player earns.
- **The ender chest** (`cBlockEnderChestHandler`). It covers the drops, which
  depend on a pickaxe and on silk touch.
- **The fishing rod** (`cItemFishingRodHandler`). It covers:
  - casting, with the lure-shortened bite count-down;
  - reeling in an attached entity, a catch, or nothing;
  - the loot tables for treasure, junk and fish, with their probabilities
    proved by counting draws.

Some inputs are parameters, because the model cannot see or simulate them:

- random draws;
- the block under a floater;
- whether a player is near;
- the weather;
- the plugin hooks' verdicts.

Each draw's documented range is a precondition wherever the source relies on
it.

Files:

- `wrappers.dfy`: `Option`.
- `counting.dfy`: counting the draws that satisfy a predicate.
- `vectors.dfy`: positions, sizes and the array index.
- `blocks.dfy`: the blocks the rules distinguish.
- `block_area.dfy`: the area, its data types, accessors, setters, fills and
  counters.
- `merge_strategies.dfy`: the per-block merge rule and the documented tables.
- `area_merge.dfy`: merging areas.
- `area_geometry.dfy`: crop, expand, rotate and mirror.
- `mob_spawner.dfy`: the mob spawner.
- `items.dfy`: items and enchantments.
- `cauldron.dfy`, `ore.dfy`, `ender_chest.dfy` and `fishing_rod.dfy`: the four
  handlers.

Design choices:

- Only the header of the block area is part of this model. Its `.cpp`
  implementation is not. Where the header is silent, the model makes these
  choices:
  - a getter reads air, block light 0 and sky light 0 for an absent array;
  - `Create` fills a present sky-light array with full light (15), as its
    documentation says; `Expand` fills the new voxels of a present sky-light
    array with 15 too, which the header does not say;
  - the header asserts on invalid data types; `Create` with an invalid
    combination clears the area instead, so that the model stays total;
  - a setter of an absent array does nothing;
  - `Merge` does nothing to the blocks unless both areas hold blocks;
  - `RotateCW` moves +X to +Z.
- `IsValidDataTypeCombination` rejects:
  - block entities without blocks, as the header documents;
  - any bit outside the four defined ones, including the retired metas bit 2
    and the entities bit 16, which the header marks as not supported yet.

## Model

| member | source | states |
|---|---|---|
| Vectors.IndexBijection | src/BlockArea.h:383-390 | the array index of a position inside the area is in range and distinct for distinct positions, and every index in range is the index of exactly one position |
| BlockArea.ToMask | src/BlockArea.h:47-55 | a set of data types encodes into the bits 1, 4, 8 and 32 and so stays below 64 |
| BlockArea.MaskRoundTrip | src/BlockArea.h:47-55 | decoding the mask of any set of data types gives back that set |
| BlockArea.MaskDecodeRoundTrip | src/BlockArea.h:47-55 | a mask that decodes re-encodes to itself, so no undefined bit survives decoding |
| BlockArea.IsValidDataTypeCombination | src/BlockArea.h:47-83 | a mask is valid exactly when it lies in 0..63, has neither the retired bit 2 nor bit 16, and sets the block bit whenever it sets the block-entity bit |
| BlockArea.ValidCombinationIff | src/BlockArea.h:81-83 | a data-type combination is valid exactly when block entities come with blocks |
| BlockArea.BlockEntitiesNeedBlocks | src/BlockArea.h:81-83 | a mask with the block-entity bit and without the block bit is invalid |
| BlockArea.GetDataTypes | src/BlockArea.h:353-354 | the reported mask is a valid combination and names exactly the arrays the area holds |
| BlockArea.Clear | src/BlockArea.h:85-86 | a cleared area holds no data type and has volume zero |
| BlockArea.CoordsValidity | src/BlockArea.h:108-112 | relative coordinates are valid exactly inside `0..size`, and absolute ones exactly inside `origin..origin+size` |
| BlockArea.Create | src/BlockArea.h:90-98 | for a valid combination: origin zero, the given size and data types, air blocks, zero block light, full sky light and no block entities; an invalid combination only clears the area |
| BlockArea.CreateDefault | src/BlockArea.h:93-98 | with the default data types the area holds air blocks and an empty set of block entities, and no light arrays |
| BlockArea.GetRelBlock | src/BlockArea.h:313 | an area without blocks reads air at every voxel |
| BlockArea.GetRelBlockLight | src/BlockArea.h:315 | an area without block light reads 0 at every voxel |
| BlockArea.GetRelBlockSkyLight | src/BlockArea.h:317 | an area without sky light reads 0 at every voxel |
| BlockArea.GetBlock | src/BlockArea.h:314 | an area without blocks reads air at every absolute position |
| BlockArea.GetBlockLight | src/BlockArea.h:316 | an area without block light reads 0 at every absolute position |
| BlockArea.GetBlockSkyLight | src/BlockArea.h:318 | an area without sky light reads 0 at every absolute position |
| BlockArea.AbsoluteIsShiftedRelative | src/BlockArea.h:313-318 | each relative position plus the origin is a valid absolute position, where all three absolute getters read what the relative ones read |
| BlockArea.SetOrigin | src/BlockArea.h:102-106 | the origin takes the new value and nothing else changes |
| BlockArea.SetOriginRelabels | src/BlockArea.h:102-106 | after moving the origin, each voxel reads at its relative position plus the new origin exactly as before |
| BlockArea.SetWEOffset | src/BlockArea.h:306-307 | the WorldEdit offset takes the new value and nothing else changes |
| BlockArea.RelSetData | src/BlockArea.h:471-477 | only the given voxel changes, and only in the selected arrays that are present; invalid coordinates leave the area unchanged |
| BlockArea.SetRelBlock | src/BlockArea.h:293 | the voxel reads the new block when the area holds blocks; every other voxel keeps its block; both lights, the origin, the offset, the data types and the block entities are unchanged |
| BlockArea.SetBlock | src/BlockArea.h:294 | the voxel at the absolute position reads the new block when the area holds blocks; every other absolute position keeps its block; both lights, the origin, the offset, the data types and the block entities are unchanged |
| BlockArea.SetDataAlong | src/BlockArea.h:262-271 | exactly the valid voxels on the line's path change, in the selected arrays that are present |
| BlockArea.LineOutsideIsNoOp | src/BlockArea.h:262-271 | a line whose every point lies outside the area leaves it unchanged |
| BlockArea.Fill | src/BlockArea.h:245-246 | every voxel takes the given value in each selected array that is present, and the other arrays are untouched |
| BlockArea.FillDefault | src/BlockArea.h:245 | with the default lights, a fill sets the selected present arrays to the block, block light 0 and sky light 15; the origin, offset, data types, block entities and all other values stay |
| BlockArea.FillRelCuboid | src/BlockArea.h:250-260 | exactly the voxels inside the cuboid take the given values in each selected array that is present |
| BlockArea.FillRelCuboidWholeIsFill | src/BlockArea.h:245-260 | filling the cuboid that spans the whole area is the same as `Fill` |
| BlockArea.AirSplit | src/BlockArea.h:361-366 | the non-air blocks and the air blocks together number the volume |
| BlockArea.SpecificBelowNonAir | src/BlockArea.h:361-366 | a non-air block occurs no more often than all non-air blocks together |
| BlockArea.NonAirCountUniform | src/BlockArea.h:361-363 | a uniform run has no non-air block if the block is air, and otherwise one per voxel |
| BlockArea.CountNonAirBlocks | src/BlockArea.h:361-363 | the loop returns the number of non-air voxels, which is 0 without blocks and at most the volume |
| BlockArea.CountSpecificBlocks | src/BlockArea.h:365-366 | the loop returns the number of voxels holding the block (0 without blocks), at most the non-air count for a non-air block |
| BlockArea.FillThenCount | src/BlockArea.h:245-246 | after filling with a block, the non-air count is the volume, or 0 if the block is air |
| BlockArea.Extensionality | src/BlockArea.h:313-318 | two areas with the same shape, data types and block entities, whose getters agree everywhere, are equal |
| MergeStrategies.LakeBlock | src/BlockArea.h:191-205 | the lake result is this' block or src's block; a sponge keeps this, air hollows, a liquid in this survives anything but sponge and air, and this changes only for air, a liquid, or stone over dirt, grass or mycelium |
| MergeStrategies.MergeBlock | src/BlockArea.h:177-237 | the merged block is this' block, src's block, air, or (for simple-compare only) stone; overwrite takes src; equal blocks stay, except that difference and simple-compare make them air |
| MergeStrategies.MergeBlockFollowsTable | src/BlockArea.h:177-237 | for every strategy and pair of blocks, the merge rule gives what the first matching row of that strategy's documented table gives |
| MergeStrategies.LakeFollowsTable | src/BlockArea.h:191-205 | the lake rule agrees with the lake table row by row: sponge keeps, air hollows, liquids in this stay, liquids from the source win, stone replaces only dirt, grass and mycelium |
| MergeStrategies.MergeBlockIdempotent | src/BlockArea.h:177-237 | merging the same source block twice equals merging it once, for every strategy except simple-compare |
| MergeStrategies.LakeIdempotent | src/BlockArea.h:191-205 | a second lake merge with the same source block changes nothing |
| MergeStrategies.SimpleCompareNotIdempotent | src/BlockArea.h:223-229 | simple-compare is not idempotent: equal dirt blocks become air, and air against dirt becomes stone |
| MergeStrategies.SpongeIsNoOp | src/BlockArea.h:191-213 | under the lake and sponge-print strategies a sponge in the source leaves this' block as it is |
| AreaMerge.MergedBlocks | src/BlockArea.h:169-175 | each voxel covered by the shifted source takes the strategy's combination of the two blocks, and every other voxel keeps its block |
| AreaMerge.Merge | src/BlockArea.h:241-243 | the merged area keeps its shape, data types, lights and block entities; where both hold blocks, covered voxels combine by the strategy and the rest are unchanged |
| AreaMerge.MergeIdempotent | src/BlockArea.h:169-243 | merging the same source twice at the same place equals merging it once, except under simple-compare |
| AreaMerge.OverwriteCopiesBlocks | src/BlockArea.h:185-186 | overwriting with a same-sized source at offset zero copies the source's blocks |
| AreaMerge.DifferenceWithSelfIsEmpty | src/BlockArea.h:215-221 | the difference of an area with itself has no non-air block |
| AreaMerge.MaskWithSelfIsIdentity | src/BlockArea.h:231-237 | masking an area with itself leaves it unchanged |
| AreaMerge.DisjointMergeIsNoOp | src/BlockArea.h:169-171 | a source placed wholly beside the area along any axis, on either side, changes nothing |
| AreaGeometry.NewSize | src/BlockArea.h:275-288 | rotations and mirrors keep the volume |
| AreaGeometry.TargetSource | src/BlockArea.h:275-288 | where a voxel goes and where a voxel comes from are inverse bijections between the old and the new box |
| AreaGeometry.ImageInBox | src/BlockArea.h:275-288 | block entities inside the area stay inside it after a rotation or mirror |
| AreaGeometry.ImageInverse | src/BlockArea.h:275-288 | the inverse transform moves the block entities back where they were |
| AreaGeometry.ImageHalfTurn | src/BlockArea.h:275-279 | two clockwise turns move block entities where two counter-clockwise turns do |
| AreaGeometry.Apply | src/BlockArea.h:275-288 | the transformed area keeps origin, offset and data types, takes the new size, and each voxel reads its source voxel in every array; block entities move with their voxels |
| AreaGeometry.ApplyInverse | src/BlockArea.h:275-288 | RotateCW undoes RotateCCW and the reverse, and each mirror undoes itself |
| AreaGeometry.HalfTurnAt | src/BlockArea.h:275-279 | after two clockwise and after two counter-clockwise turns, each voxel reads the same |
| AreaGeometry.HalfTurn | src/BlockArea.h:275-279 | two clockwise turns give the same area as two counter-clockwise turns |
| AreaGeometry.FourTurns | src/BlockArea.h:278-279 | four clockwise turns give back the original area |
| AreaGeometry.Crop | src/BlockArea.h:163-164 | the cropped area shrinks by the margins, moves its origin by the lower margins, and every voxel it keeps reads as before at the same absolute position |
| AreaGeometry.Expand | src/BlockArea.h:166-167 | the expanded area grows by the margins; old voxels read as before at the same absolute position, and new ones hold air, no block light and full sky light |
| AreaGeometry.CropUndoesExpand | src/BlockArea.h:163-167 | cropping away the margins just added gives back the original area |
| AreaGeometry.ExpandAfterCrop | src/BlockArea.h:163-167 | expanding a cropped area by the same margins restores size and origin, keeps the kept blocks and both lights, and refills the cut voxels with air, block light 0 and (when present) sky light 15 |
| MobSpawner.NewSpawner | src/MobSpawner.cpp:13-26 | a new spawner starts a new pack with no type chosen, and allows exactly the requested types of its own family |
| MobSpawner.CheckPackCenter | src/MobSpawner.cpp:32-44 | a water family's pack centres on water only, and any other family's pack on air only |
| MobSpawner.PackCenterAgreesWithSpot | src/MobSpawner.cpp:32-44 | wherever a monster of the spawner's family may spawn (squid and guardians for the water family), the target passes the pack-centre test; wolves, whose rule asks for grass, are the exception |
| MobSpawner.GetAllowedMobTypes | src/MobSpawner.cpp:356-475 | a biome offers only monsters with a spawning rule |
| MobSpawner.AllowedIffOffered | src/MobSpawner.cpp:356-475 | a monster is in a biome's allowed set exactly when that biome's rules offer it |
| MobSpawner.MushroomOnlyMooshroom | src/MobSpawner.cpp:362-368 | a mushroom biome allows the mooshroom and nothing else |
| MobSpawner.NonMushroomOffers | src/MobSpawner.cpp:443-472 | outside mushroom biomes, the common and nether monsters are always allowed, and the overworld animals exactly when the biome is not desert, beach or ocean |
| MobSpawner.ChooseFrom | src/MobSpawner.cpp:50-70 | the choice is the invalid type exactly when no offered monster is allowed, and otherwise is an allowed offered monster |
| MobSpawner.ChooseFromReachable | src/MobSpawner.cpp:50-70 | every allowed, offered monster is chosen by some draw |
| MobSpawner.ChooseMobType | src/MobSpawner.cpp:50-70 | the chosen type is invalid exactly when the biome and the spawner allow no monster in common |
| MobSpawner.EveryCandidateReachable | src/MobSpawner.cpp:50-70 | every monster allowed by both the biome and the spawner is chosen by some draw |
| MobSpawner.Candidates | src/MobSpawner.cpp:50-68 | the candidates are exactly the monsters the biome offers and the spawner allows |
| MobSpawner.ChooseFromUniform | src/MobSpawner.cpp:50-70 | for a candidate list without repeats, each allowed offered monster is chosen by exactly one draw below the number of candidates |
| MobSpawner.ChooseMobTypeUniform | src/MobSpawner.cpp:50-70 | each monster the biome offers and the spawner allows is chosen by exactly one of the draws 0 to the number of candidates minus one |
| MobSpawner.SpiderScan | src/MobSpawner.cpp:268-292 | the 2x2 spider scan passes exactly when every column is loaded air and one of them has a solid floor |
| MobSpawner.CanSpawnHere | src/MobSpawner.cpp:76-350 | a spawn needs a height strictly inside the chunk, no bedrock below and a monster with a rule; the target is air, water or grass; squid and guardians need water between heights 45 and 62; a slime or magma cube outside a low slime chunk needs a swamp with both lights at most 7, since the light limit is drawn from 0..7; the spider scan covers four columns, the first being the target |
| MobSpawner.GuardsRejectEveryType | src/MobSpawner.cpp:78-86 | nothing spawns at the top or bottom layer or on bedrock |
| MobSpawner.WaterMobBands | src/MobSpawner.cpp:198-208 | squid spawn exactly in water between heights 45 and 62, and guardians exactly where squid would and with water below |
| MobSpawner.UnruledNeverSpawns | src/MobSpawner.cpp:343-349 | a monster without a spawning rule never spawns |
| MobSpawner.PackSize | src/MobSpawner.cpp:507-518 | wither skeletons come in packs of 5, wolves of 8 and ghasts alone; every other type keeps the caller's maximum |
| MobSpawner.TryToSpawnHere | src/MobSpawner.cpp:481-534 | nothing happens near a player; a new pack chooses a type and the pack-size override, and fails when there is none; otherwise the pack's type spawns exactly when the spawner allows it and the spot's rule passes |
| MobSpawner.NewPack | src/MobSpawner.cpp:540-543 | the spawner starts a new pack and nothing else changes |
| MobSpawner.PackKeepsType | src/MobSpawner.cpp:500-531 | once a pack has a type, later attempts keep the spawner and pack size and spawn only that type, until `NewPack` makes the next attempt choose afresh |
| MobSpawner.CanSpawnAnything | src/MobSpawner.cpp:549-552 | a spawner can spawn something exactly when it allows some type |
| MobSpawner.NothingAllowedNeverSpawns | src/MobSpawner.cpp:549-552 | a spawner that allows nothing never spawns a monster |
| Items.HasColourIffSet | src/Blocks/BlockCauldron.h:106 | an item is dyed exactly when its colour differs from the cleared colour |
| CauldronBlock.OnUse | src/Blocks/BlockCauldron.h:31-163 | for each handled item, the exact new level, statistic and returned item: a bucket empties a full cauldron for a water bucket; a water bucket fills a non-full one for a bucket and counts a fill; a glass bottle takes one level for a potion and counts a use; a water bottle adds one level for a glass bottle; dyed leather is cleared and a coloured shulker box turns purple for one level; creative players get no container back, but washed items in every mode; the block in front is re-sent exactly for placeable items |
| CauldronBlock.BucketRoundTrip | src/Blocks/BlockCauldron.h:45-71 | pouring a water bucket into a non-full cauldron and scooping it up again empties the cauldron and gives back a water bucket |
| CauldronBlock.BottleRoundTrip | src/Blocks/BlockCauldron.h:72-99 | filling a bottle and pouring the potion back restores the level and gives back a glass bottle |
| CauldronBlock.WashIsIdempotent | src/Blocks/BlockCauldron.h:100-114 | washing dyed leather clears its colour for one level, and washing it again changes nothing |
| CauldronBlock.ShulkerWashIsIdempotent | src/Blocks/BlockCauldron.h:115-145 | washing a coloured shulker box makes it purple for one level, and washing it again changes nothing |
| CauldronBlock.OtherItemsChangeNothing | src/Blocks/BlockCauldron.h:43-146 | an item the cauldron does not handle changes neither the level nor the player's items |
| CauldronBlock.OnUpdate | src/Blocks/BlockCauldron.h:178-198 | a rain tick raises the level by one exactly when the weather is wet and the cauldron is not full |
| CauldronBlock.RainFills | src/Blocks/BlockCauldron.h:178-198 | enough wet ticks fill any cauldron, and never past full |
| CauldronBlock.ConvertToPickups | src/Blocks/BlockCauldron.h:22-25 | a broken cauldron drops one cauldron |
| OreBlock.DropMultiplier | src/Blocks/BlockOre.h:37-38 | the fortune multiplier is the floor draw raised to at least one |
| OreBlock.ConvertToPickups | src/Blocks/BlockOre.h:21-52 | silk touch drops the ore itself; otherwise redstone drops the discrete count, lapis the multiplier times the draw (damage 4), diamond, emerald, coal and quartz the multiplier's worth, clay four balls, and any other ore itself |
| OreBlock.FortuneBounds | src/Blocks/BlockOre.h:37-45 | with draws in range, resource ores drop between 1 and fortune+1 items and lapis between 4 and 9*(fortune+1) |
| OreBlock.XpRange | src/Blocks/BlockOre.h:87-120 | each ore's experience range is non-negative and ordered |
| OreBlock.OnBroken | src/Blocks/BlockOre.h:58-126 | orbs spawn exactly for a survival player without silk touch breaking an ore with an experience range, when the draw is positive, and then the orb count is the draw |
| OreBlock.SilkTouchDropsSelfWithoutXp | src/Blocks/BlockOre.h:21-85 | a silk-touch tool makes the ore drop itself and spawn no experience |
| OreBlock.PositiveRangeAlwaysRewards | src/Blocks/BlockOre.h:87-125 | quartz, lapis, redstone, diamond and emerald always reward a survival player without silk touch |
| EnderChestBlock.ConvertToPickups | src/Blocks/BlockEnderChest.h:20-38 | nothing drops without a pickaxe; a silk-touch pickaxe drops the chest itself, and any other pickaxe eight obsidian |
| EnderChestBlock.DropIgnoresPickaxeDetails | src/Blocks/BlockEnderChest.h:23-34 | the drop depends only on whether the pickaxe has silk touch |
| FishingRod.LuckLevel | src/Items/ItemFishingRod.h:159 | the luck of the sea level used is the enchantment level, clamped to 3 |
| FishingRod.CategoryAsWritten | src/Items/ItemFishingRod.h:161-212 | as written, a draw is treasure exactly below the treasure chance, junk exactly from there up to the junk chance, and fish from both chances up |
| FishingRod.JunkUnreachableAsWritten | src/Items/ItemFishingRod.h:162-212 | as written, from luck 2 on no draw yields junk |
| FishingRod.JunkShareAsWritten | src/Items/ItemFishingRod.h:162-263 | as written, junk gets only the junk threshold minus the treasure threshold of the 1000 draws, or none |
| FishingRod.CategoryOf | src/Items/ItemFishingRod.h:161-168 | with stacked thresholds, a draw is treasure below the treasure chance, junk from there up to treasure plus junk, and fish above |
| FishingRod.CategoryShares | src/Items/ItemFishingRod.h:161-168 | with stacked thresholds, treasure and junk each get exactly their table's share of 1000 draws, and fish the rest |
| FishingRod.LuckFavoursTreasure | src/Items/ItemFishingRod.h:161-168 | more luck never turns treasure into something else, and never raises the junk chance |
| FishingRod.TreasureDrop | src/Items/ItemFishingRod.h:168-211 | the treasure draw 0..5 picks the bow, book, rod, name tag, saddle or lily pad, in that order; the bow and the rod carry the drawn damage and enchantment levels, the book 30 levels, and the others are plain single items |
| FishingRod.TreasureShares | src/Items/ItemFishingRod.h:170 | each of the six treasures gets exactly one of the six treasure draws, an equal chance of 1/6 |
| FishingRod.JunkIndex | src/Items/ItemFishingRod.h:214-260 | each junk draw falls into exactly the range of the item it picks |
| FishingRod.JunkShares | src/Items/ItemFishingRod.h:214-260 | each junk item gets exactly its weight of the 83 junk draws: 10, 2, 10, 10, 10, 5, 5, 10, 10, 1 and 10 |
| FishingRod.JunkDrop | src/Items/ItemFishingRod.h:212-263 | a junk drop is a single unenchanted item, damaged exactly when it is a rod or boots, with the drawn rod damage (7..65) or boots damage (7..66) |
| FishingRod.FishAsWritten | src/Items/ItemFishingRod.h:264-285 | as written, draws 0..1 give tropical fish, 2..12 pufferfish, 13..24 salmon and the rest cod |
| FishingRod.FishSharesAsWritten | src/Items/ItemFishingRod.h:264-285 | as written, the four fish get 2, 11, 12 and 75 of 100 draws |
| FishingRod.FishOf | src/Items/ItemFishingRod.h:264-285 | with cumulative thresholds, draws 0..1 give tropical fish, 2..14 pufferfish, 15..39 salmon and the rest cod |
| FishingRod.FishShares | src/Items/ItemFishingRod.h:264-285 | with corrected thresholds, the four fish get 2, 13, 25 and 60 of 100 draws, as labelled |
| FishingRod.LandCatch | src/Items/ItemFishingRod.h:170-305 | one drop of the given category, the drawn experience, the category's statistic counted even when a plugin cancels, and spawning and one point of wear only when none does |
| FishingRod.ReelInLoot | src/Items/ItemFishingRod.h:157-305 | the catch as the code lands it: the category by the thresholds as written at the clamped luck level, the fish by the thresholds as written, the drawn experience, and the statistic, spawning and wear of a landed catch |
| FishingRod.ReelInLootIntended | src/Items/ItemFishingRod.h:157-305 | the same catch with the labelled chances: the category by stacked thresholds and the fish by cumulative ones |
| FishingRod.ReelIn | src/Items/ItemFishingRod.h:108-134 | an attached entity is pulled (wear 5); otherwise a bite lands a catch; otherwise the rod wears by 2 exactly when the block under the floater is air |
| FishingRod.WaterTestIsRedundant | src/Items/ItemFishingRod.h:128-133 | the "not water" part of the empty-reel test never changes its outcome |
| FishingRod.AttachedWins | src/Items/ItemFishingRod.h:114-119 | with an attached entity, the bite, the block below, the luck and the draws make no difference |
| FishingRod.OnItemUse | src/Items/ItemFishingRod.h:65-101 | a click on a face is not handled; a fishing player reels in; otherwise a hook is cast with a count-down equal to the 100..900 draw minus 100 per lure level, and the use fails when the floater cannot be added |
| FishingRod.UseTogglesFishing | src/Items/ItemFishingRod.h:79-99 | a handled use flips whether the player is fishing, and an unhandled one leaves it |

## Left out

- Reading from and writing to a world (`Read`, `Write`, the chunk reader) is left out: it is I/O, and the world is not part of this model.
- `DumpToRawFile`, `CopyTo` and `CopyFrom` are left out. The first is file I/O, and values here are immutable, so copying is assignment.
- `GetBounds`, `GetNonAirCropRelCoords`, `DoWithBlockEntityAt`, `DoWithBlockEntityRelAt` and `ForEachBlockEntity` are left out: they are queries and callbacks outside the block model.
- Block entities are only a set of relative positions. Which entity a block carries, and the reconciliation after a merge (`MergeBlockEntities`, `RescanBlockEntities`), are not modelled.
- AreaMerge.Merge: leaves both light arrays untouched, because the header documents merging of block identities only.
- AreaGeometry.Apply: rotating or mirroring moves blocks but does not re-orient them (stairs, logs and so on); that block-state table is outside this model.
- The deprecated type/meta accessors built on `PaletteUpgrade` are left out: the palette conversion is not part of this model.
- BlockArea.SetDataAlong: takes the voxels of a line as a parameter; the line rasterisation of `RelLine` is not part of this model.
- `src/Generating/Trees.h` is not part of this model.
- MobSpawner.TryToSpawnHere: the distance to the nearest player is a boolean parameter. A failing `NewMonsterFromType` is not modelled: a spawn that passes every test counts as spawned.
- MobSpawner.CanSpawnHere: the time-altered sky light and the random chances are parameters (the `Draws` record, whose slime light limit lies in 0..7). Block transparency is a column property.
- FishingRod.ReelInLoot: enchanting by experience levels is recorded as the level count only. The fly direction of the loot is floating point and left out. So are the player's other statistics.
- FishingRod.ReelIn: the speed given to a pulled entity is floating point and left out; only the pull and the wear are modelled.
- FishingRod.OnItemUse: the floater's position and speed are floating point and left out; whether it could be added to the world is a parameter.
- OreBlock.ConvertToPickups: the redstone count of the fortune-based discrete distribution is a parameter, because that distribution is not part of this model. The uniform real draw for the multiplier is the already-floored draw.
- OreBlock.DropMultiplier: does not model the source's narrowing of the multiplier (and of the lapis count) to a signed byte; counts are unbounded here. Only fortune levels of 127 and above overflow the multiplier.
- CauldronBlock.OnUse: the block re-sent to the client is modelled only as a flag. `IsUseable` and `GetMapBaseColourID` are constants with no behaviour to prove.
- Random numbers, the weather and plugin hooks are parameters throughout, with their documented ranges as preconditions.
- Default arguments are modelled for `Create` (`CreateDefault`) and `Fill` (`FillDefault`). `FillRelCuboid` and the line take their light values explicitly; their defaults are the same constants, `DefaultBlockLight` and `DefaultSkyLight`.
- Integer width: `GetVolume`, the sizes and the array index are 32-bit `int` in the source and unbounded here, so an area whose volume overflows 32 bits is not modelled.
- Blocks.IsAir: recognises a single air block. Other air blocks, and "air with any meta" in `CountNonAirBlocks`, are not distinguished, because the block palette is outside this model. The same applies to the pack-centre test and the empty-reel test of the fishing rod.

## Findings

| source | as written | input that shows it | evidently intended | confidence | as-written member | corrected member |
|---|---|---|---|---|---|---|
| src/Items/ItemFishingRod.h:162-212 | the junk check compares the same 0..999 draw against the junk chance alone, after the treasure check has already taken the draws below the treasure chance | luck of the sea 2: treasure takes draws below 92, and junk needs a draw below 61, so no draw yields junk; at luck 0 junk gets 50 draws, not the labelled 100 | junk takes the draws from the treasure chance up to treasure plus junk, so each category gets its labelled share | medium, not executed | FishingRod.JunkUnreachableAsWritten | FishingRod.CategoryShares |
| src/Items/ItemFishingRod.h:264-285 | the fish thresholds `<= 1`, `<= 12` and `<= 24` are each labelled as their own fish's percentage | draws 2..12 give pufferfish, which is 11 of 100 against the labelled 13; draws 13..24 give salmon, 12 against 25; cod gets 75 against 60 | cumulative thresholds `<= 1`, `<= 14` and `<= 39` give 2, 13, 25 and 60 in a hundred | high, not executed | FishingRod.FishSharesAsWritten | FishingRod.FishShares |

`FishingRod.ReelInLoot`, and through it `FishingRod.ReelIn` and `FishingRod.OnItemUse`, model the code as written: they use `FishingRod.CategoryAsWritten` and `FishingRod.FishAsWritten`. The corrected definitions are `FishingRod.CategoryOf` and `FishingRod.FishOf`, and `FishingRod.ReelInLootIntended` lands a catch with them.
