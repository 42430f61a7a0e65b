/** The cauldron block: filling and emptying it with buckets and bottles,
    washing dyed leather armour and shulker boxes, and rain topping it up.
    The player's held item, game mode and the world's weather are
    parameters; what the player gets back is part of the outcome. */
module CauldronBlock {
  import opened Wrappers
  import opened Items

  /** The water level of a cauldron, from empty to full. */
  type Level = l: int | 0 <= l <= 3

  const Full: Level := 3

  /** The statistics the cauldron counts. */
  datatype Statistic = FillCauldron | UseCauldron

  /** The result of using a cauldron: its new level, the item that replaces
      one of the held items (if any), the statistic counted (if any), and
      whether the block in front of the clicked face is re-sent to the client
      (only for placeable items). */
  datatype UseOutcome = UseOutcome(level: Level, given: Option<Item>, stat: Option<Statistic>, resend: bool)

  /** The shulker boxes that washing turns purple: every colour except white
      and purple. */
  predicate IsWashableShulker(t: ItemType) {
    t.ShulkerBox? && t.colour != White && t.colour != Purple
  }

  /** Using the cauldron at `level` with `held`. Only survival players get a
      filled or emptied container back; washed armour and shulker boxes are
      handed back in every game mode. */
  function OnUse(level: Level, held: Item, creative: bool, placeable: bool): (r: UseOutcome)
    ensures r.resend <==> placeable
    ensures r.given.Some? || r.stat.Some? ==> r.level != level
    ensures r.level > level ==>
      (held.itemType == WaterBucket && r.level == Full && r.stat == Some(FillCauldron))
      || (held.itemType == Potion && held.damage == 0 && r.level == level + 1)
    ensures r.level < level ==>
      (held.itemType == Bucket && level == Full && r.level == 0)
      || (r.level == level - 1 && (held.itemType == GlassBottle || IsLeatherArmour(held.itemType) || IsWashableShulker(held.itemType)))
    ensures creative && !IsLeatherArmour(held.itemType) && !IsWashableShulker(held.itemType) ==> r.given.None?
    ensures !creative && r.level != level ==> r.given.Some?
    ensures held.itemType == Bucket ==>
      && r.level == (if level == Full then 0 else level)
      && r.stat.None?
      && r.given == (if level == Full && !creative then Some(Single(WaterBucket)) else None)
    ensures held.itemType == WaterBucket ==>
      && r.level == (if level < Full then Full else level)
      && r.stat == (if level < Full then Some(FillCauldron) else None)
      && r.given == (if level < Full && !creative then Some(Single(Bucket)) else None)
    ensures held.itemType == GlassBottle ==>
      && r.level == (if level > 0 then level - 1 else level)
      && r.stat == (if level > 0 then Some(UseCauldron) else None)
      && r.given == (if level > 0 && !creative then Some(Single(Potion)) else None)
    ensures held.itemType == Potion ==>
      && r.level == (if level < Full && held.damage == 0 then level + 1 else level)
      && r.stat.None?
      && r.given == (if level < Full && held.damage == 0 && !creative then Some(Single(GlassBottle)) else None)
    ensures IsLeatherArmour(held.itemType) ==>
      && r.level == (if level > 0 && HasColour(held.colour) then level - 1 else level)
      && r.stat.None?
      && r.given == (if level > 0 && HasColour(held.colour) then Some(held.(colour := NoColour)) else None)
    ensures IsWashableShulker(held.itemType) ==>
      && r.level == (if level > 0 then level - 1 else level)
      && r.stat.None?
      && r.given == (if level > 0 then Some(held.(itemType := ShulkerBox(Purple))) else None)
  {
    var t := held.itemType;
    var (level', given, stat) :=
      if t == Bucket then
        if level == Full then (0, if creative then None else Some(Single(WaterBucket)), None)
        else (level, None, None)
      else if t == WaterBucket then
        if level < Full then (Full, if creative then None else Some(Single(Bucket)), Some(FillCauldron))
        else (level, None, None)
      else if t == GlassBottle then
        if level > 0 then (level - 1, if creative then None else Some(Single(Potion)), Some(UseCauldron))
        else (level, None, None)
      else if t == Potion then
        if level < Full && held.damage == 0 then (level + 1, if creative then None else Some(Single(GlassBottle)), None)
        else (level, None, None)
      else if IsLeatherArmour(t) then
        if level > 0 && HasColour(held.colour) then (level - 1, Some(held.(colour := NoColour)), None)
        else (level, None, None)
      else if IsWashableShulker(t) then
        if level > 0 then (level - 1, Some(held.(itemType := ShulkerBox(Purple))), None)
        else (level, None, None)
      else (level, None, None);
    UseOutcome(level', given, stat, placeable)
  }

  /** A rain tick: a cauldron under wet weather with a view of the sky gains
      one level, up to full. */
  function OnUpdate(level: Level, wet: bool): (r: Level)
    ensures level <= r <= level + 1
    ensures r > level <==> wet && level < Full
  {
    if wet && level < Full then level + 1 else level
  }

  /** A broken cauldron drops one cauldron item. */
  function ConvertToPickups(): (r: seq<Item>)
    ensures |r| == 1 && r[0].itemType == Cauldron && r[0].count == 1
  {
    [Single(Cauldron)]
  }

  // ---- properties --------------------------------------------------------

  /** Filling a bottle and pouring the potion back restores the level, and a
      survival player ends up holding a glass bottle again. */
  lemma BottleRoundTrip(level: Level, bottle: Item, placeable: bool, placeable2: bool)
    requires level > 0 && bottle.itemType == GlassBottle
    ensures var first := OnUse(level, bottle, false, placeable);
            && first.level == level - 1
            && first.given.Some? && first.given.value.itemType == Potion
            && var second := OnUse(first.level, first.given.value, false, placeable2);
               && second.level == level
               && second.given == Some(Single(GlassBottle))
  {
  }

  /** Pouring a water bucket into a non-full cauldron and scooping it up
      again empties the cauldron, and a survival player is left with a water
      bucket. */
  lemma BucketRoundTrip(level: Level, bucket: Item, placeable: bool, placeable2: bool)
    requires level < Full && bucket.itemType == WaterBucket
    ensures var first := OnUse(level, bucket, false, placeable);
            && first.level == Full
            && first.given == Some(Single(Bucket))
            && var second := OnUse(first.level, first.given.value, false, placeable2);
               && second.level == 0
               && second.given == Some(Single(WaterBucket))
  {
  }

  /** Washing dyed leather armour clears its colour and costs one level;
      washing the washed piece again changes nothing. */
  lemma WashIsIdempotent(level: Level, armour: Item, creative: bool, placeable: bool)
    requires level > 0 && IsLeatherArmour(armour.itemType) && HasColour(armour.colour)
    ensures var first := OnUse(level, armour, creative, placeable);
            && first.level == level - 1
            && first.given == Some(armour.(colour := NoColour))
            && var second := OnUse(first.level, first.given.value, creative, placeable);
               && second.level == first.level && second.given.None?
  {
  }

  /** A washed shulker box is purple, and a purple box is not washed again. */
  lemma ShulkerWashIsIdempotent(level: Level, box: Item, creative: bool, placeable: bool)
    requires level > 0 && IsWashableShulker(box.itemType)
    ensures var first := OnUse(level, box, creative, placeable);
            && first.level == level - 1
            && first.given == Some(box.(itemType := ShulkerBox(Purple)))
            && var second := OnUse(first.level, first.given.value, creative, placeable);
               && second.level == first.level && second.given.None?
  {
  }

  /** An item the cauldron does not handle leaves everything as it is. */
  lemma OtherItemsChangeNothing(level: Level, held: Item, creative: bool, placeable: bool)
    requires held.itemType !in {Bucket, WaterBucket, GlassBottle, Potion}
    requires !IsLeatherArmour(held.itemType) && !IsWashableShulker(held.itemType)
    ensures OnUse(level, held, creative, placeable) == UseOutcome(level, None, None, placeable)
  {
  }

  /** Iterated rain ticks. */
  function Rain(level: Level, ticks: nat): (r: Level)
    ensures level <= r
    decreases ticks
  {
    if ticks == 0 then level else Rain(OnUpdate(level, true), ticks - 1)
  }

  /** Rain fills any cauldron within three ticks and never past full. */
  lemma {:induction false} RainFills(level: Level, ticks: nat)
    requires ticks >= Full - level
    ensures Rain(level, ticks) == Full
    decreases ticks
  {
    if ticks > 0 {
      if level < Full {
        RainFills(level + 1, ticks - 1);
      } else {
        RainFills(level, ticks - 1);
      }
    }
  }
}
