/** Items as the block and item handlers see them: a type, a stack count,
    a damage value, a leather colour and the enchantment levels the handlers
    read. */
module Items {

  /** The sixteen dye colours, used by shulker boxes. */
  datatype DyeColour =
    | White | Orange | Magenta | LightBlue | Yellow | Lime | Pink | Gray
    | LightGray | Cyan | Purple | Blue | Brown | Green | Red | Black

  datatype PickaxeMaterial = WoodenPick | StonePick | IronPick | GoldenPick | DiamondPick | NetheritePick

  /** Blocks that drop ore-like resources, and so also have an item form. */
  datatype Ore =
    | CoalOre | DiamondOre | EmeraldOre | LapisOre | NetherQuartzOre | RedstoneOre | Clay
    | OtherOre(id: nat)

  datatype ItemType =
    // cauldron interaction
    | Bucket | WaterBucket | GlassBottle | Potion
    | LeatherBoots | LeatherCap | LeatherPants | LeatherTunic
    | ShulkerBox(colour: DyeColour)
    | Cauldron
    // fishing loot
    | Bow | Book | FishingRod | NameTag | Saddle | LilyPad
    | Bowl | Leather | RottenFlesh | Stick | StringItem | Bone | BoneMeal | TripwireHook
    | TropicalFish | Pufferfish | Salmon | Cod
    // ore resources and the ender chest
    | Redstone | LapisLazuli | Diamond | Emerald | Coal | Quartz | ClayBall
    | OreItem(ore: Ore)
    | EnderChest | Obsidian
    | Pickaxe(material: PickaxeMaterial)
    | OtherItem(id: nat)

  predicate IsLeatherArmour(t: ItemType) {
    t == LeatherBoots || t == LeatherCap || t == LeatherPants || t == LeatherTunic
  }

  predicate IsPickaxe(t: ItemType) {
    t.Pickaxe?
  }

  /** A colour channel is one byte. */
  type Channel = c: int | 0 <= c < 256

  /** A leather colour. An item without a colour reads as full white on every
      channel. */
  datatype Colour = Colour(red: Channel, green: Channel, blue: Channel)

  const NoColour: Colour := Colour(255, 255, 255)

  /** Whether any channel differs from the cleared value. */
  predicate HasColour(c: Colour) {
    c.red != 255 || c.blue != 255 || c.green != 255
  }

  lemma HasColourIffSet(c: Colour)
    ensures HasColour(c) <==> c != NoColour
  {
  }

  /** The enchantment levels the handlers consult. */
  datatype Enchantments = Enchantments(silkTouch: nat, fortune: nat, lure: nat, luckOfTheSea: nat)

  const NoEnchantments: Enchantments := Enchantments(0, 0, 0, 0)

  datatype Item = Item(itemType: ItemType, count: nat, damage: int, colour: Colour, enchantments: Enchantments)

  /** A fresh stack of `count` items of type `t` with damage value `damage`. */
  function Stack(t: ItemType, count: nat, damage: int): (r: Item)
    ensures r.itemType == t && r.count == count && r.damage == damage
    ensures !HasColour(r.colour) && r.enchantments == NoEnchantments
  {
    Item(t, count, damage, NoColour, NoEnchantments)
  }

  /** One plain item of type `t`. */
  function Single(t: ItemType): Item {
    Stack(t, 1, 0)
  }
}
