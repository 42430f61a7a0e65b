/** The mob spawner: which monster types a biome offers, which of them a
    spawner of one family may place, whether a given spot suits a given
    monster, and the pack state that keeps one monster type per pack.
    Random draws, the player-distance query, block transparency and the
    light values seen at a spot are parameters. */
module MobSpawner {
  import opened Wrappers
  import opened Blocks
  import opened Counting

  /** Monster types. The ones with a spawning rule are named; every other
      monster type is `OtherMob(id)`. `InvalidType` marks "no type". */
  datatype MonsterType =
    | Bat | Blaze | CaveSpider | Chicken | Cow | Creeper | Enderman | Ghast
    | Guardian | Horse | MagmaCube | Mooshroom | Ocelot | Pig | Rabbit | Sheep
    | Skeleton | Slime | Spider | Squid | WitherSkeleton | Wolf | Zombie | ZombiePigman
    | OtherMob(id: nat)
    | InvalidType

  /** Every named monster type, in a fixed enumeration order. */
  const NamedMobs: seq<MonsterType> := [
    Bat, Blaze, CaveSpider, Chicken, Cow, Creeper, Enderman, Ghast,
    Guardian, Horse, MagmaCube, Mooshroom, Ocelot, Pig, Rabbit, Sheep,
    Skeleton, Slime, Spider, Squid, WitherSkeleton, Wolf, Zombie, ZombiePigman]

  datatype Family = Hostile | Passive | Ambient | WaterFamily | NoSpawn

  datatype Biome =
    | MushroomIsland | MushroomShore
    | Ocean | FrozenOcean | FrozenRiver | River | DeepOcean
    | Jungle | JungleHills | JungleEdge | JungleM | JungleEdgeM
    | Plains | SunflowerPlains | Savanna | SavannaPlateau | SavannaM | SavannaPlateauM
    | Forest
    | ColdTaiga | ColdTaigaM | ColdTaigaHills | Taiga | TaigaHills | TaigaM | MegaTaiga | MegaTaigaHills
    | Desert | DesertHills | DesertM | FlowerForest
    | Beach | Swampland
    | OtherBiome(id: nat)

  /** Height of a chunk column, in blocks. */
  const ChunkHeight: int := 256

  // ---- the biome table ---------------------------------------------------

  predicate IsMushroom(b: Biome) {
    match b
    case MushroomIsland | MushroomShore => true
    case _ => false
  }

  predicate IsWaterBiome(b: Biome) {
    match b
    case Ocean | FrozenOcean | FrozenRiver | River | DeepOcean => true
    case _ => false
  }

  predicate IsJungle(b: Biome) {
    match b
    case Jungle | JungleHills | JungleEdge | JungleM | JungleEdgeM => true
    case _ => false
  }

  predicate IsPlainsLike(b: Biome) {
    match b
    case Plains | SunflowerPlains | Savanna | SavannaPlateau | SavannaM | SavannaPlateauM => true
    case _ => false
  }

  predicate IsTaiga(b: Biome) {
    match b
    case ColdTaiga | ColdTaigaM | ColdTaigaHills | Taiga | TaigaHills | TaigaM | MegaTaiga | MegaTaigaHills => true
    case _ => false
  }

  predicate IsDesert(b: Biome) {
    match b
    case Desert | DesertHills | DesertM => true
    case _ => false
  }

  /** Biomes without the overworld farm animals, endermen and slimes. */
  predicate IsBarren(b: Biome) {
    IsDesert(b) || b == Beach || b == Ocean || b == DeepOcean
  }

  /** The farm animals, endermen and slimes, offered outside barren biomes. */
  predicate OverworldMob(m: MonsterType) {
    match m
    case Sheep | Pig | Cow | Chicken | Enderman | Slime => true
    case _ => false
  }

  /** The monsters offered in every biome but the mushroom ones. */
  predicate CommonMob(m: MonsterType) {
    match m
    case Bat | Spider | Zombie | Skeleton | Creeper | Squid => true
    case _ => false
  }

  /** The nether monsters, also offered in every biome but the mushroom ones. */
  predicate NetherMob(m: MonsterType) {
    match m
    case Blaze | Ghast | MagmaCube | WitherSkeleton | ZombiePigman => true
    case _ => false
  }

  /** The case groups of the biome switch. */
  datatype BiomeGroup = MushroomGroup | WaterGroup | JungleGroup | PlainsGroup | ForestGroup | TaigaGroup | RabbitGroup | NoSpecials

  function GroupOf(b: Biome): BiomeGroup {
    if IsMushroom(b) then MushroomGroup
    else if IsWaterBiome(b) then WaterGroup
    else if IsJungle(b) then JungleGroup
    else if IsPlainsLike(b) then PlainsGroup
    else if b == Forest then ForestGroup
    else if IsTaiga(b) then TaigaGroup
    else if IsDesert(b) || b == FlowerForest then RabbitGroup
    else NoSpecials
  }

  /** The additions of each case group. */
  predicate IsSpecial(g: BiomeGroup, m: MonsterType) {
    match g
    case WaterGroup => m == Guardian
    case JungleGroup => m == Ocelot
    case PlainsGroup => m == Horse
    case ForestGroup => m == Wolf
    case TaigaGroup => m == Wolf || m == Rabbit
    case RabbitGroup => m == Rabbit
    case _ => false
  }

  /** A monster type with a spawning rule. */
  predicate IsNamed(m: MonsterType) {
    !m.OtherMob? && m != InvalidType
  }

  lemma NamedInOrder(m: MonsterType)
    requires IsNamed(m)
    ensures m in NamedMobs
  {
  }

  /** The same table read per monster: the biomes in which monster `m` is
      offered. */
  predicate OfferedIn(m: MonsterType, b: Biome) {
    if IsMushroom(b) then m == Mooshroom
    else match m
      case Guardian => IsWaterBiome(b)
      case Ocelot => IsJungle(b)
      case Horse => IsPlainsLike(b)
      case Wolf => b == Forest || IsTaiga(b)
      case Rabbit => IsTaiga(b) || IsDesert(b) || b == FlowerForest
      case Sheep | Pig | Cow | Chicken | Enderman | Slime => !IsBarren(b)
      case Bat | Spider | Zombie | Skeleton | Creeper | Squid => true
      case Blaze | Ghast | MagmaCube | WitherSkeleton | ZombiePigman => true
      case _ => false
  }

  /** Whether a case group offers `m`: mushroom groups only mooshrooms;
      every other group its own additions, the overworld monsters unless
      `barren`, and the common and nether monsters. */
  predicate Admits(g: BiomeGroup, barren: bool, m: MonsterType) {
    if g == MushroomGroup then m == Mooshroom
    else IsSpecial(g, m) || (!barren && OverworldMob(m)) || CommonMob(m) || NetherMob(m)
  }

  /** The offer of a case group, as a set. */
  function AllowedFor(g: BiomeGroup, barren: bool): (r: set<MonsterType>)
    ensures forall m :: m in r ==> IsNamed(m)
  {
    set m | m in NamedMobs && Admits(g, barren, m)
  }

  /** The monster types a biome offers. Mushroom biomes offer only
      mooshrooms; every other biome offers its specials, the overworld set
      unless it is barren, and the common and nether sets. */
  function GetAllowedMobTypes(b: Biome): (r: set<MonsterType>)
    ensures forall m :: m in r ==> IsNamed(m)
  {
    AllowedFor(GroupOf(b), IsBarren(b))
  }

  /** The biome predicates used per monster, expressed by case group. */
  lemma GroupFacts(b: Biome)
    ensures IsMushroom(b) <==> GroupOf(b) == MushroomGroup
    ensures !IsMushroom(b) ==>
      && (IsWaterBiome(b) <==> GroupOf(b) == WaterGroup)
      && (IsJungle(b) <==> GroupOf(b) == JungleGroup)
      && (IsPlainsLike(b) <==> GroupOf(b) == PlainsGroup)
      && (b == Forest || IsTaiga(b) <==> GroupOf(b) == ForestGroup || GroupOf(b) == TaigaGroup)
      && (IsTaiga(b) || IsDesert(b) || b == FlowerForest <==> GroupOf(b) == TaigaGroup || GroupOf(b) == RabbitGroup)
  {
  }

  /** A group's offer holds exactly the monsters the group admits. */
  lemma AllowedForMember(g: BiomeGroup, barren: bool, m: MonsterType)
    ensures m in AllowedFor(g, barren) <==> Admits(g, barren, m)
  {
    if Admits(g, barren, m) {
      NamedInOrder(m);
    }
  }

  /** The monsters that some case group adds. */
  predicate SpecialMob(m: MonsterType) {
    match m
    case Guardian | Ocelot | Horse | Wolf | Rabbit => true
    case _ => false
  }

  /** The biome table read per biome agrees with the same table read per
      monster. */
  lemma AllowedIffOffered(b: Biome, m: MonsterType)
    ensures m in GetAllowedMobTypes(b) <==> OfferedIn(m, b)
  {
    AllowedForMember(GroupOf(b), IsBarren(b), m);
    if IsMushroom(b) {
      assert GroupOf(b) == MushroomGroup;
    } else if SpecialMob(m) {
      SpecialIffOffered(b, m);
    } else {
      OrdinaryIffOffered(b, m);
    }
  }

  /** The case group of a biome adds a special monster exactly where the
      per-monster reading offers it. */
  lemma SpecialIffOffered(b: Biome, m: MonsterType)
    requires !IsMushroom(b) && SpecialMob(m)
    ensures Admits(GroupOf(b), IsBarren(b), m) <==> OfferedIn(m, b)
  {
    GroupFacts(b);
  }

  /** Every other monster is admitted by the shared sets alone. */
  lemma OrdinaryIffOffered(b: Biome, m: MonsterType)
    requires !IsMushroom(b) && !SpecialMob(m)
    ensures Admits(GroupOf(b), IsBarren(b), m) <==> OfferedIn(m, b)
  {
    OrdinaryAdmitted(GroupOf(b), IsBarren(b), m);
    OrdinaryOffered(b, m);
  }

  lemma OrdinaryAdmitted(g: BiomeGroup, barren: bool, m: MonsterType)
    requires g != MushroomGroup && !SpecialMob(m)
    ensures Admits(g, barren, m) <==> (!barren && OverworldMob(m)) || CommonMob(m) || NetherMob(m)
  {
    assert !IsSpecial(g, m);
  }

  lemma OrdinaryOffered(b: Biome, m: MonsterType)
    requires !IsMushroom(b) && !SpecialMob(m)
    ensures OfferedIn(m, b) <==> (!IsBarren(b) && OverworldMob(m)) || CommonMob(m) || NetherMob(m)
  {
  }

  lemma MushroomOnlyMooshroom(b: Biome)
    requires IsMushroom(b)
    ensures GetAllowedMobTypes(b) == {Mooshroom}
  {
    forall m ensures m in GetAllowedMobTypes(b) <==> m == Mooshroom {
      AllowedForMember(GroupOf(b), IsBarren(b), m);
    }
  }

  /** Outside mushroom biomes the common and nether monsters are always
      offered, and the overworld ones exactly when the biome is not barren. */
  lemma NonMushroomOffers(b: Biome, m: MonsterType)
    requires !IsMushroom(b)
    ensures CommonMob(m) || NetherMob(m) ==> m in GetAllowedMobTypes(b)
    ensures OverworldMob(m) ==> (m in GetAllowedMobTypes(b) <==> !IsBarren(b))
  {
    AllowedForMember(GroupOf(b), IsBarren(b), m);
    if !SpecialMob(m) {
      assert GroupOf(b) != MushroomGroup;
      OrdinaryAdmitted(GroupOf(b), IsBarren(b), m);
    }
  }

  // ---- the spawner -------------------------------------------------------

  /** A spawner for one family: its allowed types, whether the next spawn
      starts a new pack, and the type of the current pack. */
  datatype Spawner = Spawner(family: Family, allowed: set<MonsterType>, newPack: bool, mobType: MonsterType)

  /** Keeps only the requested types of the spawner's family; a new spawner
      starts a new pack with no type chosen. The family of a monster type is
      a lookup in the monster class, passed in as `familyOf`. */
  function NewSpawner(family: Family, requested: set<MonsterType>, familyOf: MonsterType -> Family): (r: Spawner)
    ensures r.family == family && r.newPack && r.mobType == InvalidType
    ensures forall m :: m in r.allowed <==> m in requested && familyOf(m) == family
  {
    Spawner(family, set m | m in requested && familyOf(m) == family, true, InvalidType)
  }

  /** A pack of water monsters is centred on water, any other pack on air. */
  function CheckPackCenter(sp: Spawner, center: Block): (ok: bool)
    ensures sp.family == WaterFamily ==> (ok <==> center == Water)
    ensures sp.family != WaterFamily ==> (ok <==> IsAir(center))
  {
    if sp.family == WaterFamily then center == Water else IsAir(center)
  }

  /** The named monsters, in enumeration order, that satisfy `keep`. */
  function FilterMobs(s: seq<MonsterType>, keep: set<MonsterType>): (r: seq<MonsterType>)
    ensures |r| <= |s|
    ensures forall m :: m in r <==> m in s && m in keep
  {
    if s == [] then [] else (if s[0] in keep then [s[0]] else []) + FilterMobs(s[1..], keep)
  }

  /** Picks one monster of `allowed * offered`, listed in the order of
      `order`, with the random draw `roll` reduced into the candidate range;
      `InvalidType` when there is none. */
  function ChooseFrom(order: seq<MonsterType>, allowed: set<MonsterType>, offered: set<MonsterType>, roll: nat): (m: MonsterType)
    requires forall m :: m in offered ==> m in order
    requires InvalidType !in offered
    ensures m == InvalidType <==> offered * allowed == {}
    ensures m != InvalidType ==> m in offered && m in allowed
  {
    var c := FilterMobs(order, offered * allowed);
    if |c| == 0 then
      assert forall m :: m in offered * allowed ==> m in c;
      InvalidType
    else
      assert c[roll % |c|] in c;
      assert c[0] in offered * allowed;
      c[roll % |c|]
  }

  /** The position of the first `m` in `s`. */
  function IndexOf(s: seq<MonsterType>, m: MonsterType): (i: nat)
    requires m in s
    ensures i < |s| && s[i] == m
  {
    if s[0] == m then 0 else 1 + IndexOf(s[1..], m)
  }

  /** Every monster in `allowed * offered` is chosen by some draw. */
  lemma ChooseFromReachable(order: seq<MonsterType>, allowed: set<MonsterType>, offered: set<MonsterType>, m: MonsterType)
    requires forall m :: m in offered ==> m in order
    requires InvalidType !in offered
    requires m in offered && m in allowed
    ensures exists roll: nat :: ChooseFrom(order, allowed, offered, roll) == m
  {
    var c := FilterMobs(order, offered * allowed);
    var i := IndexOf(c, m);
    assert i % |c| == i;
    assert ChooseFrom(order, allowed, offered, i) == m;
  }

  /** No monster is listed twice. */
  predicate Distinct(s: seq<MonsterType>) {
    forall i, j :: 0 <= i < j < |s| ==> s[i] != s[j]
  }

  /** The position of a named monster in the enumeration order. */
  function Ord(m: MonsterType): nat {
    match m
    case Bat => 0 case Blaze => 1 case CaveSpider => 2 case Chicken => 3
    case Cow => 4 case Creeper => 5 case Enderman => 6 case Ghast => 7
    case Guardian => 8 case Horse => 9 case MagmaCube => 10 case Mooshroom => 11
    case Ocelot => 12 case Pig => 13 case Rabbit => 14 case Sheep => 15
    case Skeleton => 16 case Slime => 17 case Spider => 18 case Squid => 19
    case WitherSkeleton => 20 case Wolf => 21 case Zombie => 22 case ZombiePigman => 23
    case _ => 24
  }

  lemma NamedMobsDistinct()
    ensures Distinct(NamedMobs)
  {
    assert forall i :: 0 <= i < |NamedMobs| ==> Ord(NamedMobs[i]) == i;
  }

  /** Filtering a list without repeats keeps it without repeats. */
  lemma {:induction false} FilterDistinct(s: seq<MonsterType>, keep: set<MonsterType>)
    requires Distinct(s)
    ensures Distinct(FilterMobs(s, keep))
  {
    if s != [] {
      assert Distinct(s[1..]) by {
        forall i, j | 0 <= i < j < |s[1..]|
          ensures s[1..][i] != s[1..][j]
        {
          assert s[1..][i] == s[i + 1] && s[1..][j] == s[j + 1];
        }
      }
      FilterDistinct(s[1..], keep);
      var rest := FilterMobs(s[1..], keep);
      if s[0] in keep {
        assert s[0] !in rest;
        var r := [s[0]] + rest;
        forall i, j | 0 <= i < j < |r|
          ensures r[i] != r[j]
        {
          assert r[j] == rest[j - 1];
          if i > 0 {
            assert r[i] == rest[i - 1];
          }
        }
      }
    }
  }

  /** A draw below the number of candidates picks the candidate at that
      position. */
  lemma ChooseFromSmallRoll(order: seq<MonsterType>, allowed: set<MonsterType>, offered: set<MonsterType>, d: nat)
    requires forall m :: m in offered ==> m in order
    requires InvalidType !in offered
    requires d < |FilterMobs(order, offered * allowed)|
    ensures ChooseFrom(order, allowed, offered, d) == FilterMobs(order, offered * allowed)[d]
  {
    assert d % |FilterMobs(order, offered * allowed)| == d;
  }

  /** The choice is uniform: over the `|c|` draws the source's random
      integer ranges over, each of the `c` candidates is chosen by exactly
      one draw, provided `order` lists no monster twice. */
  lemma ChooseFromUniform(order: seq<MonsterType>, allowed: set<MonsterType>, offered: set<MonsterType>, m: MonsterType)
    requires forall m :: m in offered ==> m in order
    requires InvalidType !in offered
    requires Distinct(order)
    requires m in offered && m in allowed
    ensures Count(0, |FilterMobs(order, offered * allowed)|,
                  r => r >= 0 && ChooseFrom(order, allowed, offered, r) == m) == 1
  {
    var c := FilterMobs(order, offered * allowed);
    FilterDistinct(order, offered * allowed);
    var i := IndexOf(c, m);
    var p := r => r >= 0 && ChooseFrom(order, allowed, offered, r) == m;
    forall d | 0 <= d < |c|
      ensures p(d) <==> i <= d < i + 1
    {
      ChooseFromSmallRoll(order, allowed, offered, d);
    }
    CountInterval(0, |c|, i, i + 1, p);
  }

  /** The candidates of a spawner in a biome: the offered types it allows,
      in enumeration order. */
  function Candidates(sp: Spawner, b: Biome): (c: seq<MonsterType>)
    ensures forall m :: m in c <==> m in GetAllowedMobTypes(b) && m in sp.allowed
  {
    FilterMobs(NamedMobs, GetAllowedMobTypes(b) * sp.allowed)
  }

  /** The spawner's pick in a biome: one of the offered types it allows,
      or `InvalidType` when there is none. */
  function ChooseMobType(sp: Spawner, b: Biome, roll: nat): (m: MonsterType)
    ensures m == InvalidType <==> GetAllowedMobTypes(b) * sp.allowed == {}
    ensures m != InvalidType ==> m in GetAllowedMobTypes(b) && m in sp.allowed
  {
    forall m | m in GetAllowedMobTypes(b)
      ensures m in NamedMobs
    {
      NamedInOrder(m);
    }
    ChooseFrom(NamedMobs, sp.allowed, GetAllowedMobTypes(b), roll)
  }

  /** Every type the biome offers and the spawner allows is chosen by some
      draw. */
  lemma EveryCandidateReachable(sp: Spawner, b: Biome, m: MonsterType)
    requires m in GetAllowedMobTypes(b) && m in sp.allowed
    ensures exists roll: nat :: ChooseMobType(sp, b, roll) == m
  {
    forall m | m in GetAllowedMobTypes(b)
      ensures m in NamedMobs
    {
      NamedInOrder(m);
    }
    ChooseFromReachable(NamedMobs, sp.allowed, GetAllowedMobTypes(b), m);
    var roll: nat :| ChooseFrom(NamedMobs, sp.allowed, GetAllowedMobTypes(b), roll) == m;
    assert ChooseMobType(sp, b, roll) == m;
  }

  /** Each candidate of a spawner in a biome is picked by exactly one of
      the draws `0 .. |Candidates| - 1`. */
  lemma ChooseMobTypeUniform(sp: Spawner, b: Biome, m: MonsterType)
    requires m in GetAllowedMobTypes(b) && m in sp.allowed
    ensures Count(0, |Candidates(sp, b)|, r => r >= 0 && ChooseMobType(sp, b, r) == m) == 1
  {
    forall m | m in GetAllowedMobTypes(b)
      ensures m in NamedMobs
    {
      NamedInOrder(m);
    }
    NamedMobsDistinct();
    ChooseFromUniform(NamedMobs, sp.allowed, GetAllowedMobTypes(b), m);
    CountSame(0, |Candidates(sp, b)|,
              r => r >= 0 && ChooseMobType(sp, b, r) == m,
              r => r >= 0 && ChooseFrom(NamedMobs, sp.allowed, GetAllowedMobTypes(b), r) == m);
  }

  // ---- the spot rules ----------------------------------------------------

  /** The random outcomes a spot check may consume: the plain coin flips and
      the biased ones (1%, 60%, 2/3, the moon-phase threshold and 50%), and
      the random light limit 0..7 of slimes. */
  datatype Draws = Draws(
    coin: bool, ghast: bool, witherSkeleton: bool, ocelot: bool,
    moon: bool, half: bool, slimeLight: int)

  /** What the spawner sees at a spot: the target block, the blocks one
      above and below it and two and three above it, whether the blocks
      above and below let light through, the block light and the
      time-altered sky light, whether this is a slime chunk, and the 2x2
      columns a spider needs. */
  datatype Spot = Spot(
    target: Block, above: Block, below: Block, above2: Block, above3: Block,
    aboveTransparent: bool, belowTransparent: bool,
    blockLight: int, skyLight: int, slimeChunk: bool,
    spiderColumns: seq<Column>)

  /** What the source guarantees of a spot and its draws: the spider scan
      covers the 2x2 columns, the first of which is the loaded target
      itself, and the slime light limit is drawn from 0..7. */
  predicate SpotInRange(sp: Spot, d: Draws) {
    && |sp.spiderColumns| == 4
    && sp.spiderColumns[0].loaded && sp.spiderColumns[0].block == sp.target
    && 0 <= d.slimeLight <= 7
  }

  /** One of the four spider columns: whether its block could be read, the
      block, and whether the block under it could be read and is opaque. */
  datatype Column = Column(loaded: bool, block: Block, floorLoaded: bool, floorOpaque: bool)

  predicate IsTaigaOrForest(b: Biome) {
    b == Forest || IsTaiga(b)
  }

  /** All spider columns are readable air, and at least one has a readable
      opaque floor. */
  predicate SpiderFits(cols: seq<Column>) {
    (forall i :: 0 <= i < |cols| ==> cols[i].loaded && IsAir(cols[i].block))
      && exists i :: 0 <= i < |cols| && cols[i].floorLoaded && cols[i].floorOpaque
  }

  /** The spider scan: columns in order, failing at the first column that is
      unreadable or not air, and remembering whether any floor was found. */
  function SpiderScan(cols: seq<Column>, hasFloor: bool): (ok: bool)
    ensures ok <==> SpiderFits(cols) || (hasFloor && forall i :: 0 <= i < |cols| ==> cols[i].loaded && IsAir(cols[i].block))
  {
    if cols == [] then hasFloor
    else if !(cols[0].loaded && IsAir(cols[0].block)) then false
    else
      var r := SpiderScan(cols[1..], hasFloor || (cols[0].floorLoaded && cols[0].floorOpaque));
      assert forall i :: 1 <= i < |cols| ==> cols[i] == cols[1..][i - 1];
      r
  }

  /** Whether monster `m` may spawn at height `y` of a chunk. The height and
      bedrock guards come first and apply to every type; then each type has
      its own rule, and types without a rule never spawn. */
  function CanSpawnHere(sp: Spot, y: int, m: MonsterType, b: Biome, disableSolidBelow: bool, d: Draws): (r: bool)
    requires SpotInRange(sp, d)
    ensures r ==> 0 < y < ChunkHeight - 1 && sp.below != Bedrock && IsNamed(m)
    ensures r ==> sp.target == Water || sp.target == Grass || IsAir(sp.target)
    ensures r && (m == Squid || m == Guardian) ==> sp.target == Water && 45 <= y <= 62
    ensures r && (m == Slime || m == MagmaCube) && !(y <= 40 && sp.slimeChunk) ==>
      b == Swampland && sp.skyLight <= 7 && sp.blockLight <= 7
  {
    if y >= ChunkHeight - 1 || y <= 0 then false
    else if 0 <= y - 1 < ChunkHeight && sp.below == Bedrock then false
    else
      var solidBelow := !sp.belowTransparent || disableSolidBelow;
      var dark := sp.skyLight <= 7 && sp.blockLight <= 7;
      match m
      case Bat => y <= 63 && sp.blockLight <= 4 && sp.skyLight <= 4 && IsAir(sp.target) && !sp.aboveTransparent
      case Blaze => IsAir(sp.target) && IsAir(sp.above) && solidBelow && d.coin
      case CaveSpider => IsAir(sp.target) && solidBelow && dark && d.coin
      case Chicken | Cow | Pig | Horse | Rabbit | Sheep =>
        IsAir(sp.target) && IsAir(sp.above) && sp.below == Grass && sp.skyLight >= 9
      case Creeper | Skeleton | Zombie => IsAir(sp.target) && IsAir(sp.above) && solidBelow && dark && d.coin
      case Enderman =>
        y < 250 && IsAir(sp.above2) && IsAir(sp.target) && IsAir(sp.above) && IsAir(sp.above3) && solidBelow && dark
      case Ghast => IsAir(sp.target) && IsAir(sp.above) && d.ghast
      case Guardian => sp.target == Water && sp.below == Water && 45 <= y <= 62
      case MagmaCube | Slime =>
        IsAir(sp.target) && IsAir(sp.above) && solidBelow
          && ((y <= 40 && sp.slimeChunk)
              || (b == Swampland && 50 <= y <= 70 && sp.skyLight <= d.slimeLight && sp.blockLight <= d.slimeLight
                  && d.moon && d.half))
      case Mooshroom => IsAir(sp.target) && IsAir(sp.above) && sp.below == Mycelium && IsMushroom(b)
      case Ocelot => IsAir(sp.target) && IsAir(sp.above) && (sp.below == Grass || sp.below == Leaves) && y >= 62 && d.ocelot
      case Spider => SpiderScan(sp.spiderColumns, false) && dark
      case Squid => sp.target == Water && 45 <= y <= 62
      case WitherSkeleton => IsAir(sp.target) && IsAir(sp.above) && solidBelow && dark && d.witherSkeleton
      case Wolf => sp.target == Grass && IsAir(sp.above) && IsTaigaOrForest(b)
      case ZombiePigman => IsAir(sp.target) && IsAir(sp.above) && solidBelow
      case _ => false
  }

  /** No monster spawns at the top or bottom layer or on bedrock. */
  lemma GuardsRejectEveryType(sp: Spot, y: int, m: MonsterType, b: Biome, disableSolidBelow: bool, d: Draws)
    requires SpotInRange(sp, d)
    requires y >= ChunkHeight - 1 || y <= 0 || sp.below == Bedrock
    ensures !CanSpawnHere(sp, y, m, b, disableSolidBelow, d)
  {
  }

  /** A squid spawns exactly in water between heights 45 and 62 (not on
      bedrock); a guardian spot is always a squid spot, and additionally
      has water below. */
  lemma WaterMobBands(sp: Spot, y: int, b: Biome, disableSolidBelow: bool, d: Draws)
    requires SpotInRange(sp, d)
    ensures CanSpawnHere(sp, y, Squid, b, disableSolidBelow, d) <==> sp.target == Water && 45 <= y <= 62 && sp.below != Bedrock
    ensures CanSpawnHere(sp, y, Guardian, b, disableSolidBelow, d) <==> CanSpawnHere(sp, y, Squid, b, disableSolidBelow, d) && sp.below == Water
  {
  }

  /** Monster types without a spawning rule never spawn. */
  lemma UnruledNeverSpawns(sp: Spot, y: int, m: MonsterType, b: Biome, disableSolidBelow: bool, d: Draws)
    requires SpotInRange(sp, d)
    requires m !in NamedMobs
    ensures !CanSpawnHere(sp, y, m, b, disableSolidBelow, d)
  {
  }

  /** The pack-centre test agrees with the spot rules: wherever a monster of
      the spawner's family may spawn, the target passes the test. Wolves are
      the exception, since their rule asks for grass at the target. */
  lemma PackCenterAgreesWithSpot(s: Spawner, sp: Spot, y: int, m: MonsterType, b: Biome, d: Draws)
    requires SpotInRange(sp, d)
    requires s.family == WaterFamily <==> m == Squid || m == Guardian
    requires m != Wolf
    requires CanSpawnHere(sp, y, m, b, false, d)
    ensures CheckPackCenter(s, sp.target)
  {
    if m == Spider {
      assert sp.spiderColumns != [];
    }
  }

  // ---- packs -------------------------------------------------------------

  /** The pack size after choosing `m`: wither skeletons come in fives,
      wolves in eights, ghasts alone; other types keep the caller's size. */
  function PackSize(m: MonsterType, size: int): (n: int)
    ensures m == WitherSkeleton ==> n == 5
    ensures m == Wolf ==> n == 8
    ensures m == Ghast ==> n == 1
    ensures m != WitherSkeleton && m != Wolf && m != Ghast ==> n == size
  {
    if m == WitherSkeleton then 5 else if m == Wolf then 8 else if m == Ghast then 1 else size
  }

  /** The outcome of one spawn attempt: the spawner afterwards, the pack size
      afterwards, and the monster spawned, if any. */
  datatype Attempt = Attempt(spawner: Spawner, packSize: int, spawned: Option<MonsterType>)

  /** One spawn attempt. Nothing happens near a player. At the start of a
      pack a type is chosen (with `roll`) and the pack size set; when no type
      can be chosen the attempt fails and the pack stays new. The chosen type
      spawns only if it is allowed and the spot suits it. */
  function TryToSpawnHere(s: Spawner, b: Biome, playerNear: bool, roll: nat, packSize: int,
                          sp: Spot, y: int, d: Draws): (r: Attempt)
    requires SpotInRange(sp, d)
    ensures playerNear ==> r == Attempt(s, packSize, None)
    ensures r.spawner.family == s.family && r.spawner.allowed == s.allowed
    ensures r.spawned.Some? ==> r.spawned.value == r.spawner.mobType && r.spawned.value in s.allowed
    ensures r.spawned.Some? ==> CanSpawnHere(sp, y, r.spawned.value, b, false, d)
    ensures !playerNear && !s.newPack ==> r.spawner == s && r.packSize == packSize
    ensures !playerNear && s.newPack ==>
      && r.spawner.mobType == ChooseMobType(s, b, roll)
      && (r.spawner.newPack <==> r.spawner.mobType == InvalidType)
      && r.packSize == (if r.spawner.mobType == InvalidType then packSize else PackSize(r.spawner.mobType, packSize))
    ensures !playerNear && !(s.newPack && r.spawner.mobType == InvalidType) ==>
      (r.spawned.Some? <==> r.spawner.mobType in s.allowed && CanSpawnHere(sp, y, r.spawner.mobType, b, false, d))
  {
    if playerNear then Attempt(s, packSize, None)
    else
      var (s', size') :=
        if s.newPack then
          var m := ChooseMobType(s, b, roll);
          if m == InvalidType then (s.(mobType := m), packSize)
          else (s.(mobType := m, newPack := false), PackSize(m, packSize))
        else (s, packSize);
      if s.newPack && s'.mobType == InvalidType then Attempt(s', size', None)
      else if s'.mobType in s'.allowed && CanSpawnHere(sp, y, s'.mobType, b, false, d) then
        Attempt(s', size', Some(s'.mobType))
      else Attempt(s', size', None)
  }

  /** Marks the next attempt as the start of a new pack. */
  function NewPack(s: Spawner): (r: Spawner)
    ensures r.newPack
    ensures r.(newPack := s.newPack) == s
  {
    s.(newPack := true)
  }

  /** Within a pack every spawned monster has the pack's type: once a type
      is chosen, later attempts neither re-choose it nor change the pack
      size, until NewPack starts a new pack, whose next attempt chooses again. */
  lemma PackKeepsType(s: Spawner, b: Biome, roll: nat, packSize: int, sp: Spot, y: int, d: Draws,
                      b2: Biome, roll2: nat, sp2: Spot, y2: int, d2: Draws)
    requires SpotInRange(sp, d) && SpotInRange(sp2, d2)
    requires s.newPack
    requires TryToSpawnHere(s, b, false, roll, packSize, sp, y, d).spawner.mobType != InvalidType
    ensures var first := TryToSpawnHere(s, b, false, roll, packSize, sp, y, d);
            var second := TryToSpawnHere(first.spawner, b2, false, roll2, first.packSize, sp2, y2, d2);
            && second.spawner == first.spawner
            && second.packSize == first.packSize
            && (second.spawned.Some? ==> second.spawned.value == first.spawner.mobType)
            && TryToSpawnHere(NewPack(first.spawner), b2, false, roll2, first.packSize, sp2, y2, d2).spawner.mobType
               == ChooseMobType(first.spawner, b2, roll2)
  {
  }

  /** Whether the spawner allows any type at all. */
  function CanSpawnAnything(s: Spawner): (r: bool)
    ensures r <==> exists m :: m in s.allowed
  {
    s.allowed != {}
  }

  /** A spawner that allows nothing never spawns, whatever it is offered. */
  lemma NothingAllowedNeverSpawns(s: Spawner, b: Biome, playerNear: bool, roll: nat, packSize: int,
                                  sp: Spot, y: int, d: Draws)
    requires SpotInRange(sp, d)
    requires !CanSpawnAnything(s)
    ensures TryToSpawnHere(s, b, playerNear, roll, packSize, sp, y, d).spawned.None?
  {
  }
}
