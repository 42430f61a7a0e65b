/** The fishing rod: casting a hook, and reeling it in to pull a hooked
    entity, land a catch, or merely wear the rod. The floater's state, the
    block under it, the random draws and the plugin hook's verdict are
    parameters. */
module FishingRod {
  import opened Wrappers
  import opened Items
  import opened Blocks
  import opened Counting

  // ---- the loot category -------------------------------------------------

  /** The luck of the sea level used, clamped to 3. */
  function LuckLevel(enchant: nat): (l: nat)
    ensures l <= 3
    ensures l == enchant || (enchant > 3 && l == 3)
  {
    if enchant < 3 then enchant else 3
  }

  /** Per luck level, out of 1000: the chance of treasure, and the chance of
      junk. */
  const TreasureChances: seq<int> := [50, 71, 92, 113]
  const JunkChances: seq<int> := [100, 81, 61, 42]

  datatype Category = TreasureCat | JunkCat | FishCat

  /** The category as the code picks it: both tables are compared with the
      same draw in 0..999, the junk table as if it were cumulative. */
  function CategoryAsWritten(luck: nat, draw: int): (c: Category)
    requires luck <= 3
    ensures c == TreasureCat <==> draw < TreasureChances[luck]
    ensures c == JunkCat <==> TreasureChances[luck] <= draw < JunkChances[luck]
    ensures c == FishCat <==> TreasureChances[luck] <= draw && JunkChances[luck] <= draw
  {
    if draw < TreasureChances[luck] then TreasureCat
    else if draw < JunkChances[luck] then JunkCat
    else FishCat
  }

  /** From luck level 2 on the treasure threshold is above the junk one, so
      no draw at all yields junk. */
  lemma JunkUnreachableAsWritten(luck: nat, draw: int)
    requires 2 <= luck <= 3
    ensures CategoryAsWritten(luck, draw) != JunkCat
  {
  }

  /** As written, junk gets `max(0, junk - treasure)` of the 1000 draws
      (50 instead of 100 at level 0, 10 instead of 81 at level 1). */
  lemma JunkShareAsWritten(luck: nat)
    requires luck <= 3
    ensures Count(0, 1000, d => CategoryAsWritten(luck, d) == JunkCat) ==
      if JunkChances[luck] > TreasureChances[luck] then JunkChances[luck] - TreasureChances[luck] else 0
  {
    var p := d => CategoryAsWritten(luck, d) == JunkCat;
    if JunkChances[luck] > TreasureChances[luck] {
      CountInterval(0, 1000, TreasureChances[luck], JunkChances[luck], p);
    } else {
      CountNone(0, 1000, p);
    }
  }

  /** The category with the junk chance stacked on the treasure chance, so
      that each table entry is the share of its own category. */
  function CategoryOf(luck: nat, draw: int): (c: Category)
    requires luck <= 3
    ensures c == TreasureCat <==> draw < TreasureChances[luck]
    ensures c == JunkCat <==> TreasureChances[luck] <= draw < TreasureChances[luck] + JunkChances[luck]
    ensures c == FishCat <==> TreasureChances[luck] + JunkChances[luck] <= draw
  {
    if draw < TreasureChances[luck] then TreasureCat
    else if draw < TreasureChances[luck] + JunkChances[luck] then JunkCat
    else FishCat
  }

  /** Each category gets exactly its table's share of the 1000 draws, and
      fish the rest. */
  lemma CategoryShares(luck: nat)
    requires luck <= 3
    ensures Count(0, 1000, d => CategoryOf(luck, d) == TreasureCat) == TreasureChances[luck]
    ensures Count(0, 1000, d => CategoryOf(luck, d) == JunkCat) == JunkChances[luck]
    ensures Count(0, 1000, d => CategoryOf(luck, d) == FishCat) == 1000 - TreasureChances[luck] - JunkChances[luck]
  {
    var t := TreasureChances[luck];
    var j := t + JunkChances[luck];
    CountInterval(0, 1000, 0, t, d => CategoryOf(luck, d) == TreasureCat);
    CountInterval(0, 1000, t, j, d => CategoryOf(luck, d) == JunkCat);
    CountInterval(0, 1000, j, 1000, d => CategoryOf(luck, d) == FishCat);
  }

  /** More luck means more treasure and less junk. */
  lemma LuckFavoursTreasure(l1: nat, l2: nat, draw: int)
    requires l1 <= l2 <= 3
    ensures CategoryOf(l1, draw) == TreasureCat ==> CategoryOf(l2, draw) == TreasureCat
    ensures TreasureChances[l1] <= TreasureChances[l2] && JunkChances[l2] <= JunkChances[l1]
  {
  }

  // ---- the catches -------------------------------------------------------

  /** A caught item and the experience levels it was enchanted with (0 when
      it was not enchanted). */
  datatype Drop = Drop(item: Item, enchantLevels: nat)

  /** The random outcomes one catch may consume: the category draw 0..999,
      the treasure draw 0..5, a treasure damage 0..50, enchantment levels
      22..30, the junk draw 0..82, the damage of a junk rod 7..65 and of junk
      boots 7..66, the fish draw 0..99 and the experience 1..6. */
  datatype LootDraws = LootDraws(
    category: int, treasure: int, treasureDamage: int, enchantLevels: int,
    junk: int, rodDamage: int, bootsDamage: int, fish: int, experience: int)

  predicate DrawsInRange(d: LootDraws) {
    && 0 <= d.category <= 999 && 0 <= d.treasure <= 5 && 0 <= d.treasureDamage <= 50
    && 22 <= d.enchantLevels <= 30 && 0 <= d.junk <= 82 && 7 <= d.rodDamage <= 65
    && 7 <= d.bootsDamage <= 66 && 0 <= d.fish <= 99 && 1 <= d.experience <= 6
  }

  /** The treasures, in the order of the treasure draw. */
  const TreasureLoot: seq<ItemType> := [Bow, Book, FishingRod, NameTag, Saddle, LilyPad]

  /** The six treasures, one per draw. The bow and the rod carry the drawn
      damage and enchantment levels; the book is enchanted with 30 levels. */
  function TreasureDrop(d: LootDraws): (r: Drop)
    requires DrawsInRange(d)
    ensures r.item.itemType == TreasureLoot[d.treasure]
    ensures r.item.itemType in {Bow, FishingRod} ==> r.item.damage == d.treasureDamage && r.enchantLevels == d.enchantLevels
    ensures r.item.itemType == Book ==> r.enchantLevels == 30 && r.item.damage == 0
    ensures r.item.itemType in {NameTag, Saddle, LilyPad} ==> r.item == Single(r.item.itemType) && r.enchantLevels == 0
    ensures r.item.itemType in {Bow, Book, FishingRod, NameTag, Saddle, LilyPad}
    ensures r.enchantLevels > 0 <==> r.item.itemType in {Bow, Book, FishingRod}
    ensures r.item.count == 1 && 0 <= r.item.damage <= 50
  {
    match d.treasure
    case 0 => Drop(Stack(Bow, 1, d.treasureDamage), d.enchantLevels)
    case 1 => Drop(Single(Book), 30)
    case 2 => Drop(Stack(FishingRod, 1, d.treasureDamage), d.enchantLevels)
    case 3 => Drop(Single(NameTag), 0)
    case 4 => Drop(Single(Saddle), 0)
    case _ => Drop(Single(LilyPad), 0)
  }

  /** No treasure is listed twice. */
  lemma TreasureLootDistinct()
    ensures forall i, j :: 0 <= i < j < |TreasureLoot| ==> TreasureLoot[i] != TreasureLoot[j]
  {
  }

  /** Each of the six treasures gets exactly one of the six treasure draws. */
  lemma TreasureShares(k: nat)
    requires k < |TreasureLoot|
    ensures Count(0, 6, t => 0 <= t < |TreasureLoot| && TreasureLoot[t] == TreasureLoot[k]) == 1
  {
    TreasureLootDistinct();
    CountInterval(0, 6, k, k + 1, t => 0 <= t < |TreasureLoot| && TreasureLoot[t] == TreasureLoot[k]);
  }

  /** The junk items, in the order of the junk draw's ranges. */
  const JunkLoot: seq<ItemType> :=
    [Bowl, FishingRod, Leather, LeatherBoots, RottenFlesh, Stick, StringItem, Potion, Bone, BoneMeal, TripwireHook]

  /** Out of 83 junk draws, the share of each junk item: 10 bowls, 2 rods,
      10 leather, 10 boots, 10 rotten flesh, 5 sticks, 5 string, 10 water
      bottles, 10 bones, 1 bone meal and 10 tripwire hooks. */
  const JunkWeights: seq<int> := [10, 2, 10, 10, 10, 5, 5, 10, 10, 1, 10]

  /** The first draw of each junk range, and the end of the last. */
  const JunkCuts: seq<int> := [0, 10, 12, 22, 32, 42, 47, 52, 62, 72, 73, 83]

  /** The position in `JunkLoot` of the junk caught with a draw in 0..82. */
  function JunkIndex(draw: int): (k: nat)
    ensures k < |JunkLoot|
    ensures 0 <= draw < 83 ==> JunkCuts[k] <= draw < JunkCuts[k + 1]
  {
    if draw < 10 then 0
    else if draw < 12 then 1
    else if draw < 22 then 2
    else if draw < 32 then 3
    else if draw < 42 then 4
    else if draw < 47 then 5
    else if draw < 52 then 6
    else if draw < 62 then 7
    else if draw < 72 then 8
    else if draw < 73 then 9
    else 10
  }

  /** The junk item caught with a draw in 0..82. */
  function JunkItem(draw: int): ItemType {
    JunkLoot[JunkIndex(draw)]
  }

  /** Each junk item gets exactly its weight out of the 83 junk draws. */
  lemma JunkShares(k: nat)
    requires k < |JunkLoot|
    ensures Count(0, 83, d => JunkIndex(d) == k) == JunkWeights[k]
  {
    forall d | 0 <= d < 83
      ensures JunkIndex(d) == k <==> JunkCuts[k] <= d < JunkCuts[k + 1]
    {
      var i := JunkIndex(d);
      assert i < k ==> JunkCuts[i + 1] <= JunkCuts[k];
      assert k < i ==> JunkCuts[k + 1] <= JunkCuts[i];
    }
    CountInterval(0, 83, JunkCuts[k], JunkCuts[k + 1], d => JunkIndex(d) == k);
  }

  /** Junk rods and boots come damaged and unenchanted; every other junk
      item is a plain single item. */
  function JunkDrop(d: LootDraws): (r: Drop)
    requires DrawsInRange(d)
    ensures r.item.itemType == JunkItem(d.junk) && r.item.count == 1 && r.enchantLevels == 0
    ensures r.item.damage > 0 <==> r.item.itemType in {FishingRod, LeatherBoots}
    ensures r.item.itemType == FishingRod ==> r.item.damage == d.rodDamage
    ensures r.item.itemType == LeatherBoots ==> r.item.damage == d.bootsDamage
  {
    var t := JunkItem(d.junk);
    if t == FishingRod then Drop(Stack(FishingRod, 1, d.rodDamage), 0)
    else if t == LeatherBoots then Drop(Stack(LeatherBoots, 1, d.bootsDamage), 0)
    else Drop(Single(t), 0)
  }

  /** The fish for a draw in 0..99, as the code picks it. */
  function FishAsWritten(draw: int): (t: ItemType)
    ensures t == TropicalFish <==> draw < 2
    ensures t == Pufferfish <==> 2 <= draw < 13
    ensures t == Salmon <==> 13 <= draw < 25
    ensures t == Cod <==> 25 <= draw
  {
    if draw <= 1 then TropicalFish
    else if draw <= 12 then Pufferfish
    else if draw <= 24 then Salmon
    else Cod
  }

  /** As written, the fish shares are 2, 11, 12 and 75 in a hundred, not the
      2, 13, 25 and 60 the thresholds are labelled with. */
  lemma FishSharesAsWritten()
    ensures Count(0, 100, d => FishAsWritten(d) == TropicalFish) == 2
    ensures Count(0, 100, d => FishAsWritten(d) == Pufferfish) == 11
    ensures Count(0, 100, d => FishAsWritten(d) == Salmon) == 12
    ensures Count(0, 100, d => FishAsWritten(d) == Cod) == 75
  {
    CountInterval(0, 100, 0, 2, d => FishAsWritten(d) == TropicalFish);
    CountInterval(0, 100, 2, 13, d => FishAsWritten(d) == Pufferfish);
    CountInterval(0, 100, 13, 25, d => FishAsWritten(d) == Salmon);
    CountInterval(0, 100, 25, 100, d => FishAsWritten(d) == Cod);
  }

  /** The fish with cumulative thresholds matching the labelled shares. */
  function FishOf(draw: int): (t: ItemType)
    ensures t == TropicalFish <==> draw < 2
    ensures t == Pufferfish <==> 2 <= draw < 15
    ensures t == Salmon <==> 15 <= draw < 40
    ensures t == Cod <==> 40 <= draw
  {
    if draw <= 1 then TropicalFish
    else if draw <= 14 then Pufferfish
    else if draw <= 39 then Salmon
    else Cod
  }

  /** Tropical fish 2, pufferfish 13, salmon 25 and cod 60 in a hundred. */
  lemma FishShares()
    ensures Count(0, 100, d => FishOf(d) == TropicalFish) == 2
    ensures Count(0, 100, d => FishOf(d) == Pufferfish) == 13
    ensures Count(0, 100, d => FishOf(d) == Salmon) == 25
    ensures Count(0, 100, d => FishOf(d) == Cod) == 60
  {
    CountInterval(0, 100, 0, 2, d => FishOf(d) == TropicalFish);
    CountInterval(0, 100, 2, 15, d => FishOf(d) == Pufferfish);
    CountInterval(0, 100, 15, 40, d => FishOf(d) == Salmon);
    CountInterval(0, 100, 40, 100, d => FishOf(d) == Cod);
  }

  // ---- reeling in --------------------------------------------------------

  /** A catch: the drops offered to the plugins, the experience drawn, the
      statistic counted, whether the drops and experience were spawned (no
      plugin cancelled the catch), and the wear on the rod. */
  datatype Catch = Catch(drops: seq<Drop>, experience: int, stat: Category, spawned: bool, wear: nat)

  /** Lands a catch of category `cat`, with `fish` as the fish it would be.
      The statistic of the category is counted even when a plugin cancels the
      catch, in which case nothing is spawned and the rod is not worn. */
  function LandCatch(cat: Category, fish: ItemType, d: LootDraws, cancelled: bool): (r: Catch)
    requires DrawsInRange(d)
    ensures |r.drops| == 1 && r.drops[0].item.count == 1
    ensures r.stat == cat
    ensures cat == TreasureCat ==> r.drops[0] == TreasureDrop(d)
    ensures cat == JunkCat ==> r.drops[0] == JunkDrop(d)
    ensures cat == FishCat ==> r.drops[0] == Drop(Single(fish), 0)
    ensures r.experience == d.experience && 1 <= r.experience <= 6
    ensures r.spawned <==> !cancelled
    ensures r.wear == if cancelled then 0 else 1
  {
    var drop :=
      match cat
      case TreasureCat => TreasureDrop(d)
      case JunkCat => JunkDrop(d)
      case FishCat => Drop(Single(fish), 0);
    Catch([drop], d.experience, cat, !cancelled, if cancelled then 0 else 1)
  }

  /** Lands a catch as the code does: the category is drawn with the luck of
      the sea level of the held rod, clamped to 3, against the two tables as
      written, and the fish against the thresholds as written. */
  function ReelInLoot(luckEnchant: nat, d: LootDraws, cancelled: bool): (r: Catch)
    requires DrawsInRange(d)
    ensures |r.drops| == 1 && r.drops[0].item.count == 1
    ensures r.stat == CategoryAsWritten(LuckLevel(luckEnchant), d.category)
    ensures r.stat == TreasureCat ==> r.drops[0] == TreasureDrop(d)
    ensures r.stat == JunkCat ==> r.drops[0] == JunkDrop(d)
    ensures r.stat == FishCat ==> r.drops[0] == Drop(Single(FishAsWritten(d.fish)), 0)
    ensures r.experience == d.experience
    ensures r.spawned <==> !cancelled
    ensures r.wear == if cancelled then 0 else 1
  {
    LandCatch(CategoryAsWritten(LuckLevel(luckEnchant), d.category), FishAsWritten(d.fish), d, cancelled)
  }

  /** Lands a catch with the chances the tables are labelled with: junk
      stacked on treasure, and cumulative fish thresholds. */
  function ReelInLootIntended(luckEnchant: nat, d: LootDraws, cancelled: bool): (r: Catch)
    requires DrawsInRange(d)
    ensures |r.drops| == 1 && r.drops[0].item.count == 1
    ensures r.stat == CategoryOf(LuckLevel(luckEnchant), d.category)
    ensures r.stat == TreasureCat ==> r.drops[0] == TreasureDrop(d)
    ensures r.stat == JunkCat ==> r.drops[0] == JunkDrop(d)
    ensures r.stat == FishCat ==> r.drops[0] == Drop(Single(FishOf(d.fish)), 0)
    ensures r.experience == d.experience
    ensures r.spawned <==> !cancelled
    ensures r.wear == if cancelled then 0 else 1
  {
    LandCatch(CategoryOf(LuckLevel(luckEnchant), d.category), FishOf(d.fish), d, cancelled)
  }

  /** What the floater reports: whether something bit, and the entity it is
      attached to, if any. A floater that cannot be found reports neither. */
  datatype Floater = Floater(canPickup: bool, attachedTo: Option<nat>)

  datatype Reel =
    | PulledEntity(entity: nat)
    | Landed(c: Catch)
    | Empty(wear: nat)

  /** The wear a reel puts on the rod. */
  function Wear(r: Reel): nat {
    match r
    case PulledEntity(_) => 5
    case Landed(c) => c.wear
    case Empty(w) => w
  }

  /** Reels the line in: an attached entity is pulled (wearing the rod by
      five); otherwise a bite lands a catch; otherwise the rod wears by two
      when the block under the floater is air, and not at all when it is not. */
  function ReelIn(f: Floater, below: Block, luckEnchant: nat, d: LootDraws, cancelled: bool): (r: Reel)
    requires DrawsInRange(d)
    ensures f.attachedTo.Some? ==> r == PulledEntity(f.attachedTo.value)
    ensures f.attachedTo.None? && f.canPickup ==> r == Landed(ReelInLoot(luckEnchant, d, cancelled))
    ensures f.attachedTo.None? && !f.canPickup ==> r.Empty? && (Wear(r) == 2 <==> IsAir(below)) && Wear(r) in {0, 2}
    ensures Wear(r) <= 5
  {
    if f.attachedTo.Some? then PulledEntity(f.attachedTo.value)
    else if f.canPickup then Landed(ReelInLoot(luckEnchant, d, cancelled))
    else if IsAir(below) && below != Water then Empty(2)
    else Empty(0)
  }

  /** Water is never air, so the water test of the empty reel decides
      nothing. */
  lemma WaterTestIsRedundant(b: Block)
    ensures IsAir(b) && b != Water <==> IsAir(b)
  {
  }

  /** An attached entity takes precedence over a bite, whatever the rest. */
  lemma AttachedWins(entity: nat, canPickup: bool, below: Block, below2: Block, luckEnchant: nat,
                     d: LootDraws, d2: LootDraws, cancelled: bool, cancelled2: bool)
    requires DrawsInRange(d) && DrawsInRange(d2)
    ensures ReelIn(Floater(canPickup, Some(entity)), below, luckEnchant, d, cancelled)
         == ReelIn(Floater(false, Some(entity)), below2, 0, d2, cancelled2)
  {
  }

  // ---- using the rod -----------------------------------------------------

  datatype Face = NoFace | OnFace

  datatype RodUse =
    | Ignored
    | Reeled(reel: Reel)
    | Cast(countDown: int)
    | CastFailed

  /** Whether the use was handled, as the handler reports it. */
  predicate Handled(u: RodUse) {
    u.Reeled? || u.Cast?
  }

  /** Whether the player is fishing afterwards. */
  function FishingAfter(u: RodUse, fishing: bool): bool {
    match u
    case Reeled(_) => false
    case Cast(_) => true
    case _ => fishing
  }

  /** Using the rod. A click on a block face is not handled. A fishing
      player reels in; any other casts a hook whose bite count-down is a draw
      of 100..900 ticks, shortened by 100 per lure level, and the cast fails
      when the floater cannot be added to the world. */
  function OnItemUse(face: Face, fishing: bool, f: Floater, below: Block, ench: Enchantments,
                     d: LootDraws, cancelled: bool, castDraw: int, floaterAdded: bool): (u: RodUse)
    requires DrawsInRange(d) && 100 <= castDraw <= 900
    ensures Handled(u) <==> face == NoFace && (fishing || floaterAdded)
    ensures u.Reeled? <==> face == NoFace && fishing
    ensures u.Reeled? ==> u.reel == ReelIn(f, below, ench.luckOfTheSea, d, cancelled)
    ensures u.Cast? ==> 100 - 100 * ench.lure <= u.countDown <= 900 - 100 * ench.lure
    ensures u.Cast? ==> u.countDown == castDraw - 100 * ench.lure
  {
    if face != NoFace then Ignored
    else if fishing then Reeled(ReelIn(f, below, ench.luckOfTheSea, d, cancelled))
    else if floaterAdded then Cast(castDraw - 100 * ench.lure)
    else CastFailed
  }

  /** A handled use flips the fishing state: casting starts fishing and
      reeling ends it; an unhandled use leaves it as it was. */
  lemma UseTogglesFishing(face: Face, fishing: bool, f: Floater, below: Block, ench: Enchantments,
                          d: LootDraws, cancelled: bool, castDraw: int, floaterAdded: bool)
    requires DrawsInRange(d) && 100 <= castDraw <= 900
    ensures var u := OnItemUse(face, fishing, f, below, ench, d, cancelled, castDraw, floaterAdded);
            FishingAfter(u, fishing) == (if Handled(u) then !fishing else fishing)
  {
  }
}
