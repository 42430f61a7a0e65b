/** The ender chest block's drops. */
module EnderChestBlock {
  import opened Wrappers
  import opened Items

  /** The pickups of a broken ender chest: nothing unless it is mined with a
      pickaxe; the chest itself with a silk-touch pickaxe; eight obsidian
      otherwise. */
  function ConvertToPickups(tool: Option<Item>): (r: seq<Item>)
    ensures r == [] <==> tool.None? || !IsPickaxe(tool.value.itemType)
    ensures |r| <= 1
    ensures |r| == 1 ==> tool.Some? && IsPickaxe(tool.value.itemType)
    ensures |r| == 1 ==> (r[0].itemType == EnderChest <==> tool.value.enchantments.silkTouch > 0)
    ensures |r| == 1 && r[0].itemType == EnderChest ==> r[0].count == 1
    ensures |r| == 1 && r[0].itemType != EnderChest ==> r[0] == Stack(Obsidian, 8, 0)
  {
    if tool.Some? && IsPickaxe(tool.value.itemType) then
      if tool.value.enchantments.silkTouch > 0 then [Single(EnderChest)]
      else [Stack(Obsidian, 8, 0)]
    else []
  }

  /** The drop depends on the pickaxe's silk touch only, not on its material,
      damage or other enchantments. */
  lemma DropIgnoresPickaxeDetails(a: Item, b: Item)
    requires IsPickaxe(a.itemType) && IsPickaxe(b.itemType)
    requires (a.enchantments.silkTouch > 0) == (b.enchantments.silkTouch > 0)
    ensures ConvertToPickups(Some(a)) == ConvertToPickups(Some(b))
  {
  }
}
