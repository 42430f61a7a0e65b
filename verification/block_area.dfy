/** The block area: a box of voxels with a size, an origin, an opaque
    WorldEdit offset, optional parallel per-voxel arrays (blocks, block light,
    sky light) and an optional set of block-entity positions. Every operation
    is a pure function from an area to a new area. */
module BlockArea {
  import opened Wrappers
  import opened Vectors
  import opened Blocks

  // ---- data-type bit-mask ------------------------------------------------

  const BaBlocks: int := 1
  const BaLight: int := 4
  const BaSkyLight: int := 8
  const BaBlockEntities: int := 32

  /** The decoded form of a data-type mask: which kinds of data are present. */
  datatype DataTypes = DataTypes(blocks: bool, light: bool, skyLight: bool, blockEntities: bool)

  const NoData := DataTypes(false, false, false, false)

  /** Bit `bit` (a power of two) is set in `m`. */
  predicate HasBit(m: int, bit: int)
    requires bit > 0
  {
    (m / bit) % 2 == 1
  }

  function Flag(present: bool, bit: int): int {
    if present then bit else 0
  }

  /** The mask that announces exactly the kinds in `d`. */
  function ToMask(d: DataTypes): (m: int)
    ensures 0 <= m < 64
  {
    Flag(d.blocks, BaBlocks) + Flag(d.light, BaLight)
      + Flag(d.skyLight, BaSkyLight) + Flag(d.blockEntities, BaBlockEntities)
  }

  /** Decodes a mask. Only the bits 1, 4, 8 and 32 are defined; a mask with
      any other bit (including the retired metas bit 2 and the never
      supported entities bit 16) is rejected. */
  function FromMask(m: int): Option<DataTypes> {
    if 0 <= m < 64 && !HasBit(m, 2) && !HasBit(m, 16) then
      Some(DataTypes(HasBit(m, BaBlocks), HasBit(m, BaLight), HasBit(m, BaSkyLight), HasBit(m, BaBlockEntities)))
    else
      None
  }

  /** A mask is a valid combination when it uses only defined bits and does
      not ask for block entities without blocks. */
  function IsValidDataTypeCombination(m: int): (r: bool)
    ensures r <==> && 0 <= m < 64 && !HasBit(m, 2) && !HasBit(m, 16)
                   && (HasBit(m, BaBlockEntities) ==> HasBit(m, BaBlocks))
  {
    match FromMask(m)
    case None => false
    case Some(d) => d.blockEntities ==> d.blocks
  }

  lemma MaskRoundTrip(d: DataTypes)
    ensures FromMask(ToMask(d)) == Some(d)
  {
  }

  lemma MaskDecodeRoundTrip(m: int)
    requires FromMask(m).Some?
    ensures ToMask(FromMask(m).value) == m
  {
  }

  /** The valid combinations are exactly the masks of decoded kinds in which
      block entities come with blocks. */
  lemma ValidCombinationIff(d: DataTypes)
    ensures IsValidDataTypeCombination(ToMask(d)) <==> (d.blockEntities ==> d.blocks)
  {
    MaskRoundTrip(d);
  }

  /** Any mask asking for block entities without blocks is rejected. */
  lemma BlockEntitiesNeedBlocks(m: int)
    requires HasBit(m, BaBlockEntities) && !HasBit(m, BaBlocks)
    ensures !IsValidDataTypeCombination(m)
  {
  }

  // ---- the area ----------------------------------------------------------

  /** One light value per voxel, stored as a byte. */
  type Light = v: int | 0 <= v < 256

  const FullLight: Light := 15

  datatype Area = Area(
    origin: Vec3,
    size: Vec3,
    weOffset: Vec3,
    blocks: Option<seq<Block>>,
    blockLight: Option<seq<Light>>,
    skyLight: Option<seq<Light>>,
    blockEntities: Option<set<Vec3>>)

  /** Every present array holds one entry per voxel, and block entities are
      only kept alongside blocks, at positions inside the box. */
  predicate Valid(a: Area) {
    && IsSize(a.size)
    && (a.blocks.Some? ==> |a.blocks.value| == Volume(a.size))
    && (a.blockLight.Some? ==> |a.blockLight.value| == Volume(a.size))
    && (a.skyLight.Some? ==> |a.skyLight.value| == Volume(a.size))
    && (a.blockEntities.Some? ==> a.blocks.Some? && forall p :: p in a.blockEntities.value ==> InBox(p, a.size))
  }

  function DataTypesOf(a: Area): DataTypes {
    DataTypes(a.blocks.Some?, a.blockLight.Some?, a.skyLight.Some?, a.blockEntities.Some?)
  }

  /** The mask of the kinds of data the area holds. */
  function GetDataTypes(a: Area): (m: int)
    requires Valid(a)
    ensures IsValidDataTypeCombination(m)
    ensures FromMask(m) == Some(DataTypesOf(a))
  {
    MaskRoundTrip(DataTypesOf(a));
    ToMask(DataTypesOf(a))
  }

  function GetVolume(a: Area): int {
    Volume(a.size)
  }

  function MakeIndex(a: Area, rel: Vec3): int {
    Index(rel, a.size)
  }

  /** An area holding nothing. */
  const Empty: Area := Area(Zero, Zero, Zero, None, None, None, None)

  /** Releases every array and resets the size; the origin and the
      WorldEdit offset are kept. */
  function Clear(a: Area): (r: Area)
    ensures Valid(r) && GetDataTypes(r) == 0 && GetVolume(r) == 0
    ensures r.origin == a.origin && r.weOffset == a.weOffset
  {
    Area(a.origin, Zero, a.weOffset, None, None, None, None)
  }

  // ---- coordinates -------------------------------------------------------

  predicate IsValidRelCoords(a: Area, rel: Vec3) {
    InBox(rel, a.size)
  }

  predicate IsValidCoords(a: Area, p: Vec3) {
    IsValidRelCoords(a, p.Sub(a.origin))
  }

  /** Relative validity is the per-axis range check, and absolute validity is
      relative validity after subtracting the origin. */
  lemma CoordsValidity(a: Area, p: Vec3)
    ensures IsValidRelCoords(a, p) <==> (0 <= p.x < a.size.x && 0 <= p.y < a.size.y && 0 <= p.z < a.size.z)
    ensures IsValidCoords(a, p) <==>
      (a.origin.x <= p.x < a.origin.x + a.size.x
       && a.origin.y <= p.y < a.origin.y + a.size.y
       && a.origin.z <= p.z < a.origin.z + a.size.z)
  {
  }

  // ---- getters -----------------------------------------------------------

  /** The entry of a per-voxel array for the valid relative position `q`. */
  function Cell<T>(s: seq<T>, size: Vec3, q: Vec3): T
    requires |s| == Volume(size) && InBox(q, size)
  {
    IndexInRange(q, size);
    s[Index(q, size)]
  }

  /** Per-voxel arrays that agree at every valid position are equal. */
  lemma CellExtensionality<T>(s: seq<T>, t: seq<T>, size: Vec3)
    requires IsSize(size) && |s| == Volume(size) && |t| == Volume(size)
    requires forall q :: InBox(q, size) ==> Cell(s, size, q) == Cell(t, size, q)
    ensures s == t
  {
    forall i | 0 <= i < |s|
      ensures s[i] == t[i]
    {
      IndexOfPos(i, size);
      assert Cell(s, size, PosOf(i, size)) == Cell(t, size, PosOf(i, size));
    }
  }

  /** A per-voxel array holding `v` everywhere. */
  function Uniform<T>(size: Vec3, v: T): (r: seq<T>)
    requires IsSize(size)
    ensures |r| == Volume(size)
    ensures forall q :: InBox(q, size) ==> Cell(r, size, q) == v
  {
    VolumeNonNegative(size);
    var r := seq(Volume(size), _ => v);
    assert forall q :: InBox(q, size) ==> Cell(r, size, q) == v by {
      forall q | InBox(q, size)
        ensures Cell(r, size, q) == v
      {
        IndexInRange(q, size);
      }
    }
    r
  }

  /** Block at a relative position; air when the area holds no blocks. */
  function GetRelBlock(a: Area, rel: Vec3): (r: Block)
    requires Valid(a) && IsValidRelCoords(a, rel)
    ensures a.blocks.None? ==> r == Air
  {
    if a.blocks.Some? then Cell(a.blocks.value, a.size, rel) else Air
  }

  /** Block light at a relative position; 0 when the area holds none. */
  function GetRelBlockLight(a: Area, rel: Vec3): (r: Light)
    requires Valid(a) && IsValidRelCoords(a, rel)
    ensures a.blockLight.None? ==> r == 0
  {
    if a.blockLight.Some? then Cell(a.blockLight.value, a.size, rel) else 0
  }

  /** Sky light at a relative position; 0 when the area holds none. */
  function GetRelBlockSkyLight(a: Area, rel: Vec3): (r: Light)
    requires Valid(a) && IsValidRelCoords(a, rel)
    ensures a.skyLight.None? ==> r == 0
  {
    if a.skyLight.Some? then Cell(a.skyLight.value, a.size, rel) else 0
  }

  function GetBlock(a: Area, p: Vec3): (r: Block)
    requires Valid(a) && IsValidCoords(a, p)
    ensures a.blocks.None? ==> r == Air
  {
    GetRelBlock(a, p.Sub(a.origin))
  }

  function GetBlockLight(a: Area, p: Vec3): (r: Light)
    requires Valid(a) && IsValidCoords(a, p)
    ensures a.blockLight.None? ==> r == 0
  {
    GetRelBlockLight(a, p.Sub(a.origin))
  }

  function GetBlockSkyLight(a: Area, p: Vec3): (r: Light)
    requires Valid(a) && IsValidCoords(a, p)
    ensures a.skyLight.None? ==> r == 0
  {
    GetRelBlockSkyLight(a, p.Sub(a.origin))
  }

  /** The absolute getters read the voxel at the origin plus the relative
      position: every relative voxel has an absolute name. */
  lemma AbsoluteIsShiftedRelative(a: Area, rel: Vec3)
    requires Valid(a) && IsValidRelCoords(a, rel)
    ensures IsValidCoords(a, a.origin.Add(rel))
    ensures GetBlock(a, a.origin.Add(rel)) == GetRelBlock(a, rel)
    ensures GetBlockLight(a, a.origin.Add(rel)) == GetRelBlockLight(a, rel)
    ensures GetBlockSkyLight(a, a.origin.Add(rel)) == GetRelBlockSkyLight(a, rel)
  {
    assert a.origin.Add(rel).Sub(a.origin) == rel;
  }

  /** Two valid areas with the same shape, the same data kinds, the same
      block entities and the same value at every voxel are equal. */
  lemma Extensionality(a: Area, b: Area)
    requires Valid(a) && Valid(b)
    requires a.origin == b.origin && a.size == b.size && a.weOffset == b.weOffset
    requires DataTypesOf(a) == DataTypesOf(b) && a.blockEntities == b.blockEntities
    requires forall p :: IsValidRelCoords(a, p) ==> GetRelBlock(a, p) == GetRelBlock(b, p)
    requires forall p :: IsValidRelCoords(a, p) ==> GetRelBlockLight(a, p) == GetRelBlockLight(b, p)
    requires forall p :: IsValidRelCoords(a, p) ==> GetRelBlockSkyLight(a, p) == GetRelBlockSkyLight(b, p)
    ensures a == b
  {
    if a.blocks.Some? {
      forall q | InBox(q, a.size)
        ensures Cell(a.blocks.value, a.size, q) == Cell(b.blocks.value, a.size, q)
      {
        assert GetRelBlock(a, q) == GetRelBlock(b, q);
      }
      CellExtensionality(a.blocks.value, b.blocks.value, a.size);
    }
    if a.blockLight.Some? {
      forall q | InBox(q, a.size)
        ensures Cell(a.blockLight.value, a.size, q) == Cell(b.blockLight.value, a.size, q)
      {
        assert GetRelBlockLight(a, q) == GetRelBlockLight(b, q);
      }
      CellExtensionality(a.blockLight.value, b.blockLight.value, a.size);
    }
    if a.skyLight.Some? {
      forall q | InBox(q, a.size)
        ensures Cell(a.skyLight.value, a.size, q) == Cell(b.skyLight.value, a.size, q)
      {
        assert GetRelBlockSkyLight(a, q) == GetRelBlockSkyLight(b, q);
      }
      CellExtensionality(a.skyLight.value, b.skyLight.value, a.size);
    }
  }

  // ---- creation and origin -----------------------------------------------

  /** A fresh area of `size` holding the kinds of `m`: origin zero, blocks
      air, block light 0, sky light full, no block entities. An invalid
      combination leaves the area cleared. */
  function Create(a: Area, size: Vec3, m: int): (r: Area)
    requires IsSize(size)
    ensures Valid(r)
    ensures !IsValidDataTypeCombination(m) ==> r == Clear(a)
    ensures IsValidDataTypeCombination(m) ==>
      && r.origin == Zero && r.size == size && r.weOffset == a.weOffset
      && GetDataTypes(r) == m
      && (r.blockEntities.Some? ==> r.blockEntities.value == {})
      && forall p :: IsValidRelCoords(r, p) ==>
           && GetRelBlock(r, p) == Air
           && GetRelBlockLight(r, p) == 0
           && (r.skyLight.Some? ==> GetRelBlockSkyLight(r, p) == FullLight)
  {
    if !IsValidDataTypeCombination(m) then Clear(a)
    else
      var d := FromMask(m).value;
      MaskDecodeRoundTrip(m);
      Area(Zero, size, a.weOffset,
        if d.blocks then Some(Uniform(size, Air)) else None,
        if d.light then Some(Uniform(size, 0)) else None,
        if d.skyLight then Some(Uniform(size, FullLight)) else None,
        if d.blockEntities then Some({}) else None)
  }

  /** The data types `Create` allocates when the caller names none. */
  const DefaultCreateTypes: int := BaBlocks + BaBlockEntities

  /** `Create` with its default data types: an area of air blocks with an
      empty set of block entities, and no light arrays. */
  function CreateDefault(a: Area, size: Vec3): (r: Area)
    requires IsSize(size)
    ensures Valid(r) && r.origin == Zero && r.size == size && r.weOffset == a.weOffset
    ensures DataTypesOf(r) == DataTypes(true, false, false, true)
    ensures r.blockEntities == Some({})
    ensures forall p :: IsValidRelCoords(r, p) ==> GetRelBlock(r, p) == Air
  {
    assert FromMask(DefaultCreateTypes) == Some(DataTypes(true, false, false, true));
    Create(a, size, DefaultCreateTypes)
  }

  /** Moves the area to a new origin; nothing else changes. */
  function SetOrigin(a: Area, o: Vec3): (r: Area)
    ensures r.origin == o
    ensures r.(origin := a.origin) == a
  {
    a.(origin := o)
  }

  /** After moving the origin, the absolute position `rel + o` reads what
      relative position `rel` held before, and absolute validity follows the
      new origin. */
  lemma SetOriginRelabels(a: Area, o: Vec3, rel: Vec3)
    requires Valid(a) && IsValidRelCoords(a, rel)
    ensures Valid(SetOrigin(a, o)) && IsValidCoords(SetOrigin(a, o), rel.Add(o))
    ensures GetBlock(SetOrigin(a, o), rel.Add(o)) == GetRelBlock(a, rel)
    ensures GetBlockLight(SetOrigin(a, o), rel.Add(o)) == GetRelBlockLight(a, rel)
    ensures GetBlockSkyLight(SetOrigin(a, o), rel.Add(o)) == GetRelBlockSkyLight(a, rel)
  {
    assert rel.Add(o).Sub(o) == rel;
  }

  /** The WorldEdit offset is carried along and never interpreted. */
  function SetWEOffset(a: Area, off: Vec3): (r: Area)
    ensures r.weOffset == off
    ensures r.(weOffset := a.weOffset) == a
  {
    a.(weOffset := off)
  }

  // ---- writes ------------------------------------------------------------

  /** One requested-kind update: write `v` into the slot of `rel` when the
      kind is requested and present. */
  function WriteAt<T>(arr: Option<seq<T>>, want: bool, size: Vec3, rel: Vec3, v: T): (r: Option<seq<T>>)
    requires InBox(rel, size)
    requires arr.Some? ==> |arr.value| == Volume(size)
    ensures r.Some? == arr.Some?
    ensures r.Some? ==> |r.value| == Volume(size)
    ensures r.Some? ==> forall q :: InBox(q, size) ==>
      Cell(r.value, size, q) == if want && q == rel then v else Cell(arr.value, size, q)
  {
    if want && arr.Some? then
      IndexInRange(rel, size);
      var r := arr.value[Index(rel, size) := v];
      assert forall q :: InBox(q, size) ==> Cell(r, size, q) == if q == rel then v else Cell(arr.value, size, q) by {
        forall q | InBox(q, size)
          ensures Cell(r, size, q) == if q == rel then v else Cell(arr.value, size, q)
        {
          IndexInRange(q, size);
          PosOfIndex(q, size);
          PosOfIndex(rel, size);
        }
      }
      Some(r)
    else arr
  }

  /** Writes the requested kinds at one relative position. A position outside
      the area is ignored, so that a line may run past the area's edges. */
  function RelSetData(a: Area, rel: Vec3, d: DataTypes, b: Block, bl: Light, sl: Light): (r: Area)
    requires Valid(a)
    ensures Valid(r)
    ensures r.origin == a.origin && r.size == a.size && r.weOffset == a.weOffset
    ensures DataTypesOf(r) == DataTypesOf(a) && r.blockEntities == a.blockEntities
    ensures !IsValidRelCoords(a, rel) ==> r == a
    ensures forall q :: IsValidRelCoords(a, q) ==>
      && GetRelBlock(r, q) == (if q == rel && d.blocks && a.blocks.Some? then b else GetRelBlock(a, q))
      && GetRelBlockLight(r, q) == (if q == rel && d.light && a.blockLight.Some? then bl else GetRelBlockLight(a, q))
      && GetRelBlockSkyLight(r, q) == (if q == rel && d.skyLight && a.skyLight.Some? then sl else GetRelBlockSkyLight(a, q))
  {
    if !IsValidRelCoords(a, rel) then a
    else
      a.(blocks := WriteAt(a.blocks, d.blocks, a.size, rel, b),
         blockLight := WriteAt(a.blockLight, d.light, a.size, rel, bl),
         skyLight := WriteAt(a.skyLight, d.skyLight, a.size, rel, sl))
  }

  /** Sets one block at a relative position. */
  function SetRelBlock(a: Area, rel: Vec3, b: Block): (r: Area)
    requires Valid(a) && IsValidRelCoords(a, rel)
    ensures Valid(r) && r.origin == a.origin && r.size == a.size && r.weOffset == a.weOffset
    ensures DataTypesOf(r) == DataTypesOf(a) && r.blockEntities == a.blockEntities
    ensures GetRelBlock(r, rel) == (if a.blocks.Some? then b else Air)
    ensures forall q :: IsValidRelCoords(a, q) && q != rel ==> GetRelBlock(r, q) == GetRelBlock(a, q)
    ensures forall q :: IsValidRelCoords(a, q) ==>
      GetRelBlockLight(r, q) == GetRelBlockLight(a, q) && GetRelBlockSkyLight(r, q) == GetRelBlockSkyLight(a, q)
  {
    RelSetData(a, rel, DataTypes(true, false, false, false), b, 0, 0)
  }

  /** Sets one block at an absolute position. */
  function SetBlock(a: Area, p: Vec3, b: Block): (r: Area)
    requires Valid(a) && IsValidCoords(a, p)
    ensures Valid(r) && r.origin == a.origin && r.size == a.size && r.weOffset == a.weOffset
    ensures DataTypesOf(r) == DataTypesOf(a) && r.blockEntities == a.blockEntities
    ensures GetBlock(r, p) == (if a.blocks.Some? then b else Air)
    ensures forall q :: IsValidCoords(a, q) && q != p ==> GetBlock(r, q) == GetBlock(a, q)
    ensures forall q :: IsValidCoords(a, q) ==>
      GetBlockLight(r, q) == GetBlockLight(a, q) && GetBlockSkyLight(r, q) == GetBlockSkyLight(a, q)
  {
    SetRelBlock(a, p.Sub(a.origin), b)
  }

  /** Draws along a sequence of sample points: every sample is written with
      RelSetData, so samples outside the area are skipped. */
  function SetDataAlong(a: Area, path: seq<Vec3>, d: DataTypes, b: Block, bl: Light, sl: Light): (r: Area)
    requires Valid(a)
    ensures Valid(r)
    ensures r.origin == a.origin && r.size == a.size && r.weOffset == a.weOffset
    ensures DataTypesOf(r) == DataTypesOf(a) && r.blockEntities == a.blockEntities
    ensures forall q :: IsValidRelCoords(a, q) ==>
      && GetRelBlock(r, q) == (if q in path && d.blocks && a.blocks.Some? then b else GetRelBlock(a, q))
      && GetRelBlockLight(r, q) == (if q in path && d.light && a.blockLight.Some? then bl else GetRelBlockLight(a, q))
      && GetRelBlockSkyLight(r, q) == (if q in path && d.skyLight && a.skyLight.Some? then sl else GetRelBlockSkyLight(a, q))
    decreases |path|
  {
    if path == [] then a
    else SetDataAlong(RelSetData(a, path[0], d, b, bl, sl), path[1..], d, b, bl, sl)
  }

  /** A line whose samples all lie outside the area leaves it unchanged. */
  lemma LineOutsideIsNoOp(a: Area, path: seq<Vec3>, d: DataTypes, b: Block, bl: Light, sl: Light)
    requires Valid(a)
    requires forall p :: p in path ==> !IsValidRelCoords(a, p)
    ensures SetDataAlong(a, path, d, b, bl, sl) == a
  {
    Extensionality(SetDataAlong(a, path, d, b, bl, sl), a);
  }

  /** The light values the fills and the line take when the caller names
      none: no block light and full sky light. */
  const DefaultBlockLight: Light := 0
  const DefaultSkyLight: Light := FullLight

  /** `Fill` with its default light values. */
  function FillDefault(a: Area, d: DataTypes, b: Block): (r: Area)
    requires Valid(a)
    ensures Valid(r)
    ensures r.origin == a.origin && r.size == a.size && r.weOffset == a.weOffset
    ensures DataTypesOf(r) == DataTypesOf(a) && r.blockEntities == a.blockEntities
    ensures forall q :: IsValidRelCoords(a, q) ==>
      && GetRelBlock(r, q) == (if d.blocks && a.blocks.Some? then b else GetRelBlock(a, q))
      && GetRelBlockLight(r, q) == (if d.light && a.blockLight.Some? then 0 else GetRelBlockLight(a, q))
      && GetRelBlockSkyLight(r, q) == (if d.skyLight && a.skyLight.Some? then 15 else GetRelBlockSkyLight(a, q))
  {
    Fill(a, d, b, DefaultBlockLight, DefaultSkyLight)
  }

  /** Replaces every requested and present kind with a constant. */
  function Fill(a: Area, d: DataTypes, b: Block, bl: Light, sl: Light): (r: Area)
    requires Valid(a)
    ensures Valid(r)
    ensures r.origin == a.origin && r.size == a.size && r.weOffset == a.weOffset
    ensures DataTypesOf(r) == DataTypesOf(a) && r.blockEntities == a.blockEntities
    ensures forall q :: IsValidRelCoords(a, q) ==>
      && GetRelBlock(r, q) == (if d.blocks && a.blocks.Some? then b else GetRelBlock(a, q))
      && GetRelBlockLight(r, q) == (if d.light && a.blockLight.Some? then bl else GetRelBlockLight(a, q))
      && GetRelBlockSkyLight(r, q) == (if d.skyLight && a.skyLight.Some? then sl else GetRelBlockSkyLight(a, q))
  {
    a.(blocks := if d.blocks && a.blocks.Some? then Some(Uniform(a.size, b)) else a.blocks,
       blockLight := if d.light && a.blockLight.Some? then Some(Uniform(a.size, bl)) else a.blockLight,
       skyLight := if d.skyLight && a.skyLight.Some? then Some(Uniform(a.size, sl)) else a.skyLight)
  }

  /** `q` lies in the inclusive cuboid [lo, hi]. */
  predicate InCuboid(q: Vec3, lo: Vec3, hi: Vec3) {
    lo.x <= q.x <= hi.x && lo.y <= q.y <= hi.y && lo.z <= q.z <= hi.z
  }

  /** Replaces the voxels of a cuboid; the other voxels keep their values. */
  function FillCuboidIn<T>(arr: Option<seq<T>>, want: bool, size: Vec3, lo: Vec3, hi: Vec3, v: T): (r: Option<seq<T>>)
    requires IsSize(size)
    requires arr.Some? ==> |arr.value| == Volume(size)
    ensures r.Some? == arr.Some?
    ensures r.Some? ==> |r.value| == Volume(size)
    ensures r.Some? ==> forall q :: InBox(q, size) ==>
      Cell(r.value, size, q) == if want && InCuboid(q, lo, hi) then v else Cell(arr.value, size, q)
  {
    if want && arr.Some? then
      var s := arr.value;
      var r := seq(|s|, i requires 0 <= i < |s| =>
        IndexOfPos(i, size);
        if InCuboid(PosOf(i, size), lo, hi) then v else s[i]);
      assert forall q :: InBox(q, size) ==> Cell(r, size, q) == if InCuboid(q, lo, hi) then v else Cell(s, size, q) by {
        forall q | InBox(q, size)
          ensures Cell(r, size, q) == if InCuboid(q, lo, hi) then v else Cell(s, size, q)
        {
          IndexInRange(q, size);
          PosOfIndex(q, size);
        }
      }
      Some(r)
    else arr
  }

  /** Fills the voxels of the inclusive relative cuboid [lo, hi] with the
      requested kinds; voxels outside it are untouched. */
  function FillRelCuboid(a: Area, lo: Vec3, hi: Vec3, d: DataTypes, b: Block, bl: Light, sl: Light): (r: Area)
    requires Valid(a)
    ensures Valid(r)
    ensures r.origin == a.origin && r.size == a.size && r.weOffset == a.weOffset
    ensures DataTypesOf(r) == DataTypesOf(a) && r.blockEntities == a.blockEntities
    ensures forall q :: IsValidRelCoords(a, q) ==>
      && GetRelBlock(r, q) == (if InCuboid(q, lo, hi) && d.blocks && a.blocks.Some? then b else GetRelBlock(a, q))
      && GetRelBlockLight(r, q) == (if InCuboid(q, lo, hi) && d.light && a.blockLight.Some? then bl else GetRelBlockLight(a, q))
      && GetRelBlockSkyLight(r, q) == (if InCuboid(q, lo, hi) && d.skyLight && a.skyLight.Some? then sl else GetRelBlockSkyLight(a, q))
  {
    a.(blocks := FillCuboidIn(a.blocks, d.blocks, a.size, lo, hi, b),
       blockLight := FillCuboidIn(a.blockLight, d.light, a.size, lo, hi, bl),
       skyLight := FillCuboidIn(a.skyLight, d.skyLight, a.size, lo, hi, sl))
  }

  /** Filling the whole box as a cuboid is the same as Fill. */
  lemma FillRelCuboidWholeIsFill(a: Area, d: DataTypes, b: Block, bl: Light, sl: Light)
    requires Valid(a)
    ensures FillRelCuboid(a, Zero, a.size.Sub(Vec3(1, 1, 1)), d, b, bl, sl) == Fill(a, d, b, bl, sl)
  {
    Extensionality(FillRelCuboid(a, Zero, a.size.Sub(Vec3(1, 1, 1)), d, b, bl, sl), Fill(a, d, b, bl, sl));
  }

  // ---- counting ----------------------------------------------------------

  /** How many entries of `s` equal `b`. */
  function CountOf(s: seq<Block>, b: Block): (n: nat)
    ensures n <= |s|
  {
    if s == [] then 0 else CountOf(s[..|s| - 1], b) + (if s[|s| - 1] == b then 1 else 0)
  }

  /** How many entries of `s` are not air. */
  function NonAirCount(s: seq<Block>): (n: nat)
    ensures n <= |s|
  {
    if s == [] then 0 else NonAirCount(s[..|s| - 1]) + (if IsAir(s[|s| - 1]) then 0 else 1)
  }

  /** Every entry is either air or not. */
  lemma {:induction false} AirSplit(s: seq<Block>)
    ensures NonAirCount(s) + CountOf(s, Air) == |s|
  {
    if s != [] {
      AirSplit(s[..|s| - 1]);
    }
  }

  /** A specific non-air block is counted among the non-air blocks. */
  lemma {:induction false} SpecificBelowNonAir(s: seq<Block>, b: Block)
    requires !IsAir(b)
    ensures CountOf(s, b) <= NonAirCount(s)
  {
    if s != [] {
      SpecificBelowNonAir(s[..|s| - 1], b);
    }
  }

  /** A uniform sequence has no non-air entries if its block is air, and
      only non-air entries otherwise. */
  lemma {:induction false} NonAirCountUniform(n: nat, b: Block)
    ensures NonAirCount(seq(n, _ => b)) == if IsAir(b) then 0 else n
  {
    if n > 0 {
      assert seq(n, _ => b)[..n - 1] == seq(n - 1, _ => b);
      NonAirCountUniform(n - 1, b);
    }
  }

  /** The non-air count of an area; 0 when it holds no blocks. */
  function NonAirBlocks(a: Area): nat {
    if a.blocks.Some? then NonAirCount(a.blocks.value) else 0
  }

  method CountNonAirBlocks(a: Area) returns (n: nat)
    requires Valid(a)
    ensures n == NonAirBlocks(a)
    ensures n <= GetVolume(a)
  {
    n := 0;
    if a.blocks.None? {
      return;
    }
    var s := a.blocks.value;
    var i := 0;
    while i < |s|
      invariant 0 <= i <= |s|
      invariant n == NonAirCount(s[..i])
    {
      assert s[..i + 1][..i] == s[..i];
      if !IsAir(s[i]) {
        n := n + 1;
      }
      i := i + 1;
    }
    assert s[..i] == s;
  }

  method CountSpecificBlocks(a: Area, b: Block) returns (n: nat)
    requires Valid(a)
    ensures a.blocks.Some? ==> n == CountOf(a.blocks.value, b)
    ensures a.blocks.None? ==> n == 0
    ensures !IsAir(b) ==> n <= NonAirBlocks(a)
  {
    n := 0;
    if a.blocks.None? {
      return;
    }
    var s := a.blocks.value;
    var i := 0;
    while i < |s|
      invariant 0 <= i <= |s|
      invariant n == CountOf(s[..i], b)
    {
      assert s[..i + 1][..i] == s[..i];
      if s[i] == b {
        n := n + 1;
      }
      i := i + 1;
    }
    assert s[..i] == s;
    if !IsAir(b) {
      SpecificBelowNonAir(s, b);
    }
  }

  /** After filling the blocks with `b`, the area has no non-air block if `b`
      is air, and every voxel is non-air otherwise. */
  lemma FillThenCount(a: Area, b: Block)
    requires Valid(a) && a.blocks.Some?
    ensures NonAirBlocks(Fill(a, DataTypes(true, false, false, false), b, 0, 0)) == if IsAir(b) then 0 else GetVolume(a)
  {
    var r := Fill(a, DataTypes(true, false, false, false), b, 0, 0);
    VolumeNonNegative(a.size);
    CellExtensionality(r.blocks.value, seq(Volume(a.size), _ => b), a.size);
    NonAirCountUniform(Volume(a.size), b);
  }
}
