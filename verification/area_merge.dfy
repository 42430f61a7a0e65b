/** Merging one block area into another: every voxel of the source that
    lands inside this area is combined with this area's voxel by the chosen
    strategy's per-block rule. */
module AreaMerge {
  import opened Wrappers
  import opened Vectors
  import opened Blocks
  import opened MergeStrategies
  import opened BlockArea

  /** The merged block array: the voxel at `q` is combined with the source
      voxel at `q - relMin` when that lies inside the source. */
  function MergedBlocks(dst: seq<Block>, size: Vec3, src: seq<Block>, srcSize: Vec3, relMin: Vec3, s: Strategy): (r: seq<Block>)
    requires IsSize(size) && |dst| == Volume(size) && |src| == Volume(srcSize)
    ensures |r| == |dst|
    ensures forall q :: InBox(q, size) ==>
      Cell(r, size, q) ==
        if InBox(q.Sub(relMin), srcSize) then MergeBlock(s, Cell(dst, size, q), Cell(src, srcSize, q.Sub(relMin)))
        else Cell(dst, size, q)
  {
    var r := seq(|dst|, i requires 0 <= i < |dst| =>
      IndexOfPos(i, size);
      var p := PosOf(i, size).Sub(relMin);
      if InBox(p, srcSize) then MergeBlock(s, dst[i], Cell(src, srcSize, p)) else dst[i]);
    assert forall q :: InBox(q, size) ==>
      Cell(r, size, q) ==
        if InBox(q.Sub(relMin), srcSize) then MergeBlock(s, Cell(dst, size, q), Cell(src, srcSize, q.Sub(relMin)))
        else Cell(dst, size, q)
    by {
      forall q | InBox(q, size)
        ensures Cell(r, size, q) ==
          if InBox(q.Sub(relMin), srcSize) then MergeBlock(s, Cell(dst, size, q), Cell(src, srcSize, q.Sub(relMin)))
          else Cell(dst, size, q)
      {
        IndexInRange(q, size);
        PosOfIndex(q, size);
      }
    }
    r
  }

  /** Merges `src` into `a`, placing src's relative (0, 0, 0) at `a`'s
      relative `relMin`. When either area holds no blocks nothing changes.
      Light arrays and block entities are left as they are. */
  function Merge(a: Area, src: Area, relMin: Vec3, s: Strategy): (r: Area)
    requires Valid(a) && Valid(src)
    ensures Valid(r)
    ensures r.origin == a.origin && r.size == a.size && r.weOffset == a.weOffset
    ensures DataTypesOf(r) == DataTypesOf(a)
    ensures r.blockLight == a.blockLight && r.skyLight == a.skyLight && r.blockEntities == a.blockEntities
    ensures a.blocks.None? || src.blocks.None? ==> r == a
    ensures forall q :: IsValidRelCoords(a, q) ==>
      GetRelBlock(r, q) ==
        if a.blocks.Some? && src.blocks.Some? && IsValidRelCoords(src, q.Sub(relMin))
        then MergeBlock(s, GetRelBlock(a, q), GetRelBlock(src, q.Sub(relMin)))
        else GetRelBlock(a, q)
  {
    if a.blocks.None? || src.blocks.None? then a
    else a.(blocks := Some(MergedBlocks(a.blocks.value, a.size, src.blocks.value, src.size, relMin, s)))
  }

  // ---- properties of whole-area merges -----------------------------------

  /** Merging the same source twice is the same as merging it once, for
      every strategy except msSimpleCompare. */
  lemma MergeIdempotent(a: Area, src: Area, relMin: Vec3, s: Strategy)
    requires Valid(a) && Valid(src) && s != SimpleCompare
    ensures Merge(Merge(a, src, relMin, s), src, relMin, s) == Merge(a, src, relMin, s)
  {
    var once := Merge(a, src, relMin, s);
    var twice := Merge(once, src, relMin, s);
    forall q | IsValidRelCoords(a, q)
      ensures GetRelBlock(twice, q) == GetRelBlock(once, q)
    {
      if a.blocks.Some? && src.blocks.Some? && IsValidRelCoords(src, q.Sub(relMin)) {
        MergeBlockIdempotent(s, GetRelBlock(a, q), GetRelBlock(src, q.Sub(relMin)));
      }
    }
    Extensionality(twice, once);
  }

  /** msOverwrite of an area of the same size placed at (0, 0, 0) copies
      the source's blocks. */
  lemma OverwriteCopiesBlocks(a: Area, src: Area)
    requires Valid(a) && Valid(src) && a.size == src.size
    requires a.blocks.Some? && src.blocks.Some?
    ensures Merge(a, src, Zero, Overwrite).blocks == src.blocks
  {
    var r := Merge(a, src, Zero, Overwrite);
    forall q | InBox(q, a.size)
      ensures Cell(r.blocks.value, a.size, q) == Cell(src.blocks.value, a.size, q)
    {
      assert q.Sub(Zero) == q;
      assert GetRelBlock(r, q) == GetRelBlock(src, q);
    }
    CellExtensionality(r.blocks.value, src.blocks.value, a.size);
  }

  /** The difference of an area with itself has no non-air block. */
  lemma DifferenceWithSelfIsEmpty(a: Area)
    requires Valid(a) && a.blocks.Some?
    ensures NonAirBlocks(Merge(a, a, Zero, Difference)) == 0
  {
    var r := Merge(a, a, Zero, Difference);
    forall q | InBox(q, a.size)
      ensures Cell(r.blocks.value, a.size, q) == Cell(Uniform(a.size, Air), a.size, q)
    {
      assert q.Sub(Zero) == q;
      assert GetRelBlock(r, q) == Air;
    }
    CellExtensionality(r.blocks.value, Uniform(a.size, Air), a.size);
    VolumeNonNegative(a.size);
    CellExtensionality(Uniform(a.size, Air), seq(Volume(a.size), _ => Air), a.size);
    NonAirCountUniform(Volume(a.size), Air);
  }

  /** Masking an area with itself keeps it as it is. */
  lemma MaskWithSelfIsIdentity(a: Area)
    requires Valid(a)
    ensures Merge(a, a, Zero, Mask) == a
  {
    var r := Merge(a, a, Zero, Mask);
    forall q | IsValidRelCoords(a, q)
      ensures GetRelBlock(r, q) == GetRelBlock(a, q)
    {
      assert q.Sub(Zero) == q;
    }
    Extensionality(r, a);
  }

  /** Whether a source of size `srcSize` placed at `relMin` lies entirely
      beside the area along at least one axis. */
  predicate Disjoint(size: Vec3, srcSize: Vec3, relMin: Vec3) {
    || relMin.x >= size.x || relMin.x + srcSize.x <= 0
    || relMin.y >= size.y || relMin.y + srcSize.y <= 0
    || relMin.z >= size.z || relMin.z + srcSize.z <= 0
  }

  /** A source placed entirely outside the area changes nothing. */
  lemma DisjointMergeIsNoOp(a: Area, src: Area, relMin: Vec3, s: Strategy)
    requires Valid(a) && Valid(src)
    requires Disjoint(a.size, src.size, relMin)
    ensures Merge(a, src, relMin, s) == a
  {
    Extensionality(Merge(a, src, relMin, s), a);
  }
}
