/** Ore blocks: what a broken ore drops, and the experience a survival
    player earns for breaking it. Random draws are parameters. */
module OreBlock {
  import opened Wrappers
  import opened Items

  /** Whether a tool carries silk touch; no tool carries nothing. */
  predicate HasSilkTouch(tool: Option<Item>) {
    tool.Some? && tool.value.enchantments.silkTouch > 0
  }

  /** The fortune level of a tool; no tool has level 0. */
  function FortuneLevel(tool: Option<Item>): nat {
    if tool.Some? then tool.value.enchantments.fortune else 0
  }

  /** The fortune multiplier: the floor of a uniform real draw in
      `[0, fortune + 2)`, raised to at least one. */
  function DropMultiplier(floorDraw: int): (k: int)
    ensures k >= 1
    ensures k >= floorDraw
    ensures floorDraw >= 1 ==> k == floorDraw
  {
    if floorDraw < 1 then 1 else floorDraw
  }

  /** The pickups of a broken ore. With silk touch the ore drops itself.
      Redstone drops `redstoneCount` dust, the result of the fortune-based
      discrete distribution; lapis drops the multiplier times a draw of 4..9
      (`lapisDraw`) as lapis dye; diamond, emerald, coal and quartz drop the
      multiplier's worth; clay always drops four balls; any other ore drops
      itself. */
  function ConvertToPickups(o: Ore, tool: Option<Item>, redstoneCount: nat, floorDraw: int, lapisDraw: nat): (r: Item)
    ensures HasSilkTouch(tool) ==> r == Single(OreItem(o))
    ensures !HasSilkTouch(tool) ==> match o
      case RedstoneOre => r.itemType == Redstone && r.count == redstoneCount
      case LapisOre => r.itemType == LapisLazuli && r.damage == 4 && r.count == DropMultiplier(floorDraw) * lapisDraw
      case DiamondOre => r == Stack(Diamond, DropMultiplier(floorDraw), 0)
      case EmeraldOre => r == Stack(Emerald, DropMultiplier(floorDraw), 0)
      case CoalOre => r == Stack(Coal, DropMultiplier(floorDraw), 0)
      case NetherQuartzOre => r == Stack(Quartz, DropMultiplier(floorDraw), 0)
      case Clay => r == Stack(ClayBall, 4, 0)
      case OtherOre(_) => r == Single(OreItem(o))
  {
    if HasSilkTouch(tool) then Single(OreItem(o))
    else if o == RedstoneOre then Stack(Redstone, redstoneCount, 0)
    else
      var mult := DropMultiplier(floorDraw);
      match o
      case LapisOre => Stack(LapisLazuli, mult * lapisDraw, 4)
      case DiamondOre => Stack(Diamond, mult, 0)
      case EmeraldOre => Stack(Emerald, mult, 0)
      case CoalOre => Stack(Coal, mult, 0)
      case NetherQuartzOre => Stack(Quartz, mult, 0)
      case Clay => Stack(ClayBall, 4, 0)
      case _ => Single(OreItem(o))
  }

  /** With a draw inside its range, a resource ore drops between one and
      `fortune + 1` items, and lapis between 4 and `9 * (fortune + 1)`. */
  lemma FortuneBounds(o: Ore, tool: Option<Item>, redstoneCount: nat, floorDraw: int, lapisDraw: nat)
    requires !HasSilkTouch(tool)
    requires 0 <= floorDraw < FortuneLevel(tool) + 2
    requires 4 <= lapisDraw <= 9
    ensures o in {DiamondOre, EmeraldOre, CoalOre, NetherQuartzOre} ==>
      1 <= ConvertToPickups(o, tool, redstoneCount, floorDraw, lapisDraw).count <= FortuneLevel(tool) + 1
    ensures o == LapisOre ==>
      4 <= ConvertToPickups(o, tool, redstoneCount, floorDraw, lapisDraw).count <= 9 * (FortuneLevel(tool) + 1)
  {
    var k := DropMultiplier(floorDraw);
    assert 1 <= k <= FortuneLevel(tool) + 1;
    if o == LapisOre {
      assert k * lapisDraw <= k * 9 by { MulLe(k, lapisDraw, 9); }
      assert k * 9 <= (FortuneLevel(tool) + 1) * 9 by { MulLe(9, k, FortuneLevel(tool) + 1); }
      assert k * lapisDraw >= lapisDraw by { MulLe(lapisDraw, 1, k); }
    }
  }

  lemma MulLe(k: int, a: int, b: int)
    requires k >= 0 && a <= b
    ensures k * a <= k * b
  {
  }

  /** Who broke the block: nobody, an entity that is not a player, or a
      player with a game mode and a held item. */
  datatype Digger = NoDigger | NonPlayer | PlayerDigger(survival: bool, held: Item)

  /** The experience range of an ore, or `None` for ores that give none. */
  function XpRange(o: Ore): (r: Option<(int, int)>)
    ensures r.Some? ==> 0 <= r.value.0 <= r.value.1
  {
    match o
    case NetherQuartzOre => Some((2, 5))
    case LapisOre => Some((2, 5))
    case RedstoneOre => Some((1, 5))
    case DiamondOre => Some((3, 7))
    case EmeraldOre => Some((3, 7))
    case CoalOre => Some((0, 2))
    case _ => None
  }

  /** The experience orbs spawned when `o` is broken: only for a survival
      player whose held item has no silk touch, and only when the reward
      drawn from the ore's range is positive. `draw` is that draw. */
  function OnBroken(o: Ore, digger: Digger, draw: int): (orbs: Option<int>)
    requires XpRange(o).Some? ==> XpRange(o).value.0 <= draw <= XpRange(o).value.1
    ensures orbs.Some? ==> orbs.value > 0 && XpRange(o).Some?
    ensures orbs.Some? ==> XpRange(o).value.0 <= orbs.value <= XpRange(o).value.1
    ensures orbs.Some? ==> orbs.value == draw
    ensures orbs.Some? <==>
      && digger.PlayerDigger? && digger.survival && digger.held.enchantments.silkTouch == 0
      && XpRange(o).Some? && draw > 0
  {
    if digger.NoDigger? || digger.NonPlayer? then None
    else if !digger.survival then None
    else if digger.held.enchantments.silkTouch != 0 then None
    else
      var reward := if XpRange(o).Some? then draw else 0;
      if reward > 0 then Some(reward) else None
  }

  /** Breaking an ore with a silk-touch tool in hand drops the ore itself and
      never spawns experience. */
  lemma SilkTouchDropsSelfWithoutXp(o: Ore, held: Item, survival: bool, redstoneCount: nat, floorDraw: int, lapisDraw: nat, draw: int)
    requires held.enchantments.silkTouch > 0
    requires XpRange(o).Some? ==> XpRange(o).value.0 <= draw <= XpRange(o).value.1
    ensures ConvertToPickups(o, Some(held), redstoneCount, floorDraw, lapisDraw).itemType == OreItem(o)
    ensures OnBroken(o, PlayerDigger(survival, held), draw).None?
  {
  }

  /** Ores whose range starts above zero always reward a survival player
      breaking them without silk touch. */
  lemma PositiveRangeAlwaysRewards(o: Ore, held: Item, draw: int)
    requires o in {NetherQuartzOre, LapisOre, RedstoneOre, DiamondOre, EmeraldOre}
    requires held.enchantments.silkTouch == 0
    requires XpRange(o).value.0 <= draw <= XpRange(o).value.1
    ensures OnBroken(o, PlayerDigger(true, held), draw) == Some(draw)
  {
  }
}
