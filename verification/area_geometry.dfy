/** Geometric operations on a block area: cropping, expanding, rotating
    around the Y axis and mirroring. Each one rebuilds every present array
    by looking up, for each destination voxel, the source voxel it comes
    from; block-entity positions move by the same rule. */
module AreaGeometry {
  import opened Wrappers
  import opened Vectors
  import opened Blocks
  import opened BlockArea

  /** How a destination position finds its source position. */
  datatype Remapping =
    | Shift(delta: Vec3)   // crop and expand: the source is `q + delta`
    | Turn(t: Transform)

  /** The rotations and mirrors of a whole area. */
  datatype Transform = RotateCCW | RotateCW | MirrorXY | MirrorXZ | MirrorYZ

  /** Rotations swap the X and Z extents; mirrors keep the size. */
  function NewSize(t: Transform, s: Vec3): (r: Vec3)
    ensures Volume(r) == Volume(s)
  {
    match t
    case RotateCCW => Vec3(s.z, s.y, s.x)
    case RotateCW => Vec3(s.z, s.y, s.x)
    case _ => s
  }

  /** The source position, in the old box, of destination position `q` in a
      box of size `ns`. */
  function Source(m: Remapping, ns: Vec3, q: Vec3): Vec3 {
    match m
    case Shift(d) => q.Add(d)
    case Turn(RotateCCW) => Vec3(ns.z - 1 - q.z, q.y, q.x)
    case Turn(RotateCW) => Vec3(q.z, q.y, ns.x - 1 - q.x)
    case Turn(MirrorXY) => Vec3(q.x, q.y, ns.z - 1 - q.z)
    case Turn(MirrorXZ) => Vec3(q.x, ns.y - 1 - q.y, q.z)
    case Turn(MirrorYZ) => Vec3(ns.x - 1 - q.x, q.y, q.z)
  }

  /** Where a voxel at `p` of a box of size `s` ends up after `t`. */
  function Target(t: Transform, s: Vec3, p: Vec3): Vec3 {
    match t
    case RotateCCW => Vec3(p.z, p.y, s.x - 1 - p.x)
    case RotateCW => Vec3(s.z - 1 - p.z, p.y, p.x)
    case MirrorXY => Vec3(p.x, p.y, s.z - 1 - p.z)
    case MirrorXZ => Vec3(p.x, s.y - 1 - p.y, p.z)
    case MirrorYZ => Vec3(s.x - 1 - p.x, p.y, p.z)
  }

  /** `Target` and `Source` are mutually inverse bijections between the old
      and the new box. */
  lemma TargetSource(t: Transform, s: Vec3, p: Vec3, q: Vec3)
    ensures InBox(p, s) ==> InBox(Target(t, s, p), NewSize(t, s)) && Source(Turn(t), NewSize(t, s), Target(t, s, p)) == p
    ensures InBox(q, NewSize(t, s)) ==> InBox(Source(Turn(t), NewSize(t, s), q), s) && Target(t, s, Source(Turn(t), NewSize(t, s), q)) == q
  {
  }

  /** The positions of a set of block entities after `t`. */
  function Image(t: Transform, s: Vec3, e: set<Vec3>): set<Vec3> {
    set p | p in e :: Target(t, s, p)
  }

  /** Transformed block-entity positions stay inside the new box. */
  lemma ImageInBox(t: Transform, s: Vec3, e: set<Vec3>)
    requires forall p :: p in e ==> InBox(p, s)
    ensures forall p :: p in Image(t, s, e) ==> InBox(p, NewSize(t, s))
  {
    forall p | p in Image(t, s, e)
      ensures InBox(p, NewSize(t, s))
    {
      var o :| o in e && p == Target(t, s, o);
      TargetSource(t, s, o, o);
    }
  }

  /** Moving block entities by `t` and back by its inverse restores them. */
  lemma ImageInverse(t: Transform, s: Vec3, e: set<Vec3>)
    requires forall p :: p in e ==> InBox(p, s)
    ensures Image(Inverse(t), NewSize(t, s), Image(t, s, e)) == e
  {
    var back := Image(Inverse(t), NewSize(t, s), Image(t, s, e));
    forall p | p in e
      ensures p in back
    {
      assert Target(t, s, p) in Image(t, s, e);
      assert Target(Inverse(t), NewSize(t, s), Target(t, s, p)) == p;
    }
  }

  /** Two clockwise quarter turns move block entities where two
      counter-clockwise ones do. */
  lemma ImageHalfTurn(s: Vec3, e: set<Vec3>)
    ensures Image(RotateCW, NewSize(RotateCW, s), Image(RotateCW, s, e))
         == Image(RotateCCW, NewSize(RotateCCW, s), Image(RotateCCW, s, e))
  {
    var cw := Image(RotateCW, NewSize(RotateCW, s), Image(RotateCW, s, e));
    var ccw := Image(RotateCCW, NewSize(RotateCCW, s), Image(RotateCCW, s, e));
    forall p | p in e
      ensures Target(RotateCW, NewSize(RotateCW, s), Target(RotateCW, s, p)) in ccw
      ensures Target(RotateCCW, NewSize(RotateCCW, s), Target(RotateCCW, s, p)) in cw
    {
      assert Target(RotateCCW, s, p) in Image(RotateCCW, s, e);
      assert Target(RotateCW, s, p) in Image(RotateCW, s, e);
    }
  }

  /** Rebuilds a per-voxel array for a box of size `ns`: each destination
      voxel takes the value of its source voxel, or `fill` when the source
      lies outside the old box. */
  function Remap<T>(s: seq<T>, os: Vec3, ns: Vec3, m: Remapping, fill: T): (r: seq<T>)
    requires IsSize(ns) && |s| == Volume(os)
    ensures |r| == Volume(ns)
    ensures forall q :: InBox(q, ns) ==>
      Cell(r, ns, q) == if InBox(Source(m, ns, q), os) then Cell(s, os, Source(m, ns, q)) else fill
  {
    VolumeNonNegative(ns);
    var r := seq(Volume(ns), i requires 0 <= i < Volume(ns) =>
      IndexOfPos(i, ns);
      var p := Source(m, ns, PosOf(i, ns));
      if InBox(p, os) then Cell(s, os, p) else fill);
    assert forall q :: InBox(q, ns) ==>
      Cell(r, ns, q) == if InBox(Source(m, ns, q), os) then Cell(s, os, Source(m, ns, q)) else fill
    by {
      forall q | InBox(q, ns)
        ensures Cell(r, ns, q) == if InBox(Source(m, ns, q), os) then Cell(s, os, Source(m, ns, q)) else fill
      {
        IndexInRange(q, ns);
        PosOfIndex(q, ns);
      }
    }
    r
  }

  function RemapOpt<T>(arr: Option<seq<T>>, os: Vec3, ns: Vec3, m: Remapping, fill: T): (r: Option<seq<T>>)
    requires IsSize(ns) && (arr.Some? ==> |arr.value| == Volume(os))
    ensures r.Some? == arr.Some?
    ensures r.Some? ==> |r.value| == Volume(ns)
  {
    if arr.Some? then Some(Remap(arr.value, os, ns, m, fill)) else None
  }

  // ---- rotate and mirror -------------------------------------------------

  /** Rotates or mirrors the whole area. The origin is kept; light arrays and
      block-entity positions move with the blocks. */
  function Apply(t: Transform, a: Area): (r: Area)
    requires Valid(a)
    ensures Valid(r)
    ensures r.size == NewSize(t, a.size) && r.origin == a.origin && r.weOffset == a.weOffset
    ensures DataTypesOf(r) == DataTypesOf(a)
    ensures forall q :: IsValidRelCoords(r, q) ==>
      && IsValidRelCoords(a, Source(Turn(t), r.size, q))
      && GetRelBlock(r, q) == GetRelBlock(a, Source(Turn(t), r.size, q))
      && GetRelBlockLight(r, q) == GetRelBlockLight(a, Source(Turn(t), r.size, q))
      && GetRelBlockSkyLight(r, q) == GetRelBlockSkyLight(a, Source(Turn(t), r.size, q))
    ensures r.blockEntities == if a.blockEntities.Some? then Some(Image(t, a.size, a.blockEntities.value)) else None
  {
    var ns := NewSize(t, a.size);
    var m := Turn(t);
    assert forall q :: InBox(q, ns) ==> InBox(Source(m, ns, q), a.size) by {
      forall q | InBox(q, ns)
        ensures InBox(Source(m, ns, q), a.size)
      {
        TargetSource(t, a.size, q, q);
      }
    }
    var bes := if a.blockEntities.Some? then Some(Image(t, a.size, a.blockEntities.value)) else None;
    assert bes.Some? ==> forall p :: p in bes.value ==> InBox(p, ns) by {
      if bes.Some? {
        ImageInBox(t, a.size, a.blockEntities.value);
      }
    }
    Area(a.origin, ns, a.weOffset,
      RemapOpt(a.blocks, a.size, ns, m, Air),
      RemapOpt(a.blockLight, a.size, ns, m, 0),
      RemapOpt(a.skyLight, a.size, ns, m, FullLight),
      bes)
  }

  /** The transform applied after `t` that undoes it. */
  function Inverse(t: Transform): Transform {
    match t
    case RotateCCW => RotateCW
    case RotateCW => RotateCCW
    case _ => t
  }

  /** The source rule of a transform followed by its inverse is the identity. */
  lemma SourceInverse(t: Transform, s: Vec3, q: Vec3)
    requires InBox(q, s)
    ensures NewSize(Inverse(t), NewSize(t, s)) == s
    ensures Source(Turn(t), NewSize(t, s), Source(Turn(Inverse(t)), s, q)) == q
  {
  }

  /** Every transform is undone by its inverse: rotating clockwise undoes a
      counter-clockwise rotation and vice versa, and each mirror undoes
      itself. */
  lemma ApplyInverse(t: Transform, a: Area)
    requires Valid(a)
    ensures Apply(Inverse(t), Apply(t, a)) == a
  {
    var b := Apply(t, a);
    var r := Apply(Inverse(t), b);
    forall q | IsValidRelCoords(a, q)
      ensures GetRelBlock(r, q) == GetRelBlock(a, q)
      ensures GetRelBlockLight(r, q) == GetRelBlockLight(a, q)
      ensures GetRelBlockSkyLight(r, q) == GetRelBlockSkyLight(a, q)
    {
      SourceInverse(t, a.size, q);
    }
    if a.blockEntities.Some? {
      ImageInverse(t, a.size, a.blockEntities.value);
    }
    Extensionality(r, a);
  }

  /** One voxel of two clockwise quarter turns equals the same voxel of two
      counter-clockwise ones. */
  lemma HalfTurnAt(a: Area, q: Vec3)
    requires Valid(a) && IsValidRelCoords(a, q)
    ensures var cw := Apply(RotateCW, Apply(RotateCW, a));
            var ccw := Apply(RotateCCW, Apply(RotateCCW, a));
            && GetRelBlock(cw, q) == GetRelBlock(ccw, q)
            && GetRelBlockLight(cw, q) == GetRelBlockLight(ccw, q)
            && GetRelBlockSkyLight(cw, q) == GetRelBlockSkyLight(ccw, q)
  {
    var b1 := Apply(RotateCW, a);
    var c1 := Apply(RotateCCW, a);
    var q1 := Source(Turn(RotateCW), a.size, q);
    var r1 := Source(Turn(RotateCCW), a.size, q);
    var p := Source(Turn(RotateCW), b1.size, q1);
    assert p == Source(Turn(RotateCCW), c1.size, r1);
    assert IsValidRelCoords(b1, q1) && IsValidRelCoords(c1, r1);
    assert GetRelBlock(Apply(RotateCW, b1), q) == GetRelBlock(b1, q1) == GetRelBlock(a, p);
    assert GetRelBlock(Apply(RotateCCW, c1), q) == GetRelBlock(c1, r1) == GetRelBlock(a, p);
    assert GetRelBlockLight(Apply(RotateCW, b1), q) == GetRelBlockLight(b1, q1) == GetRelBlockLight(a, p);
    assert GetRelBlockLight(Apply(RotateCCW, c1), q) == GetRelBlockLight(c1, r1) == GetRelBlockLight(a, p);
    assert GetRelBlockSkyLight(Apply(RotateCW, b1), q) == GetRelBlockSkyLight(b1, q1) == GetRelBlockSkyLight(a, p);
    assert GetRelBlockSkyLight(Apply(RotateCCW, c1), q) == GetRelBlockSkyLight(c1, r1) == GetRelBlockSkyLight(a, p);
  }

  /** Two clockwise quarter turns equal two counter-clockwise ones. */
  lemma HalfTurn(a: Area)
    requires Valid(a)
    ensures Apply(RotateCW, Apply(RotateCW, a)) == Apply(RotateCCW, Apply(RotateCCW, a))
  {
    var cw := Apply(RotateCW, Apply(RotateCW, a));
    var ccw := Apply(RotateCCW, Apply(RotateCCW, a));
    forall q | IsValidRelCoords(cw, q)
      ensures GetRelBlock(cw, q) == GetRelBlock(ccw, q)
      ensures GetRelBlockLight(cw, q) == GetRelBlockLight(ccw, q)
      ensures GetRelBlockSkyLight(cw, q) == GetRelBlockSkyLight(ccw, q)
    {
      HalfTurnAt(a, q);
    }
    if a.blockEntities.Some? {
      ImageHalfTurn(a.size, a.blockEntities.value);
    }
    Extensionality(cw, ccw);
  }

  /** Four clockwise quarter turns give back the original area. */
  lemma FourTurns(a: Area)
    requires Valid(a)
    ensures Apply(RotateCW, Apply(RotateCW, Apply(RotateCW, Apply(RotateCW, a)))) == a
  {
    var half := Apply(RotateCW, Apply(RotateCW, a));
    HalfTurn(half);
    HalfTurn(a);
    ApplyInverse(RotateCW, Apply(RotateCW, a));
    ApplyInverse(RotateCW, a);
    ApplyInverse(RotateCCW, Apply(RotateCCW, half));
    ApplyInverse(RotateCCW, half);
  }

  // ---- crop and expand ---------------------------------------------------

  /** The crop amounts are non-negative and leave at least one voxel on
      every axis. */
  predicate CanCrop(a: Area, addMin: Vec3, subMax: Vec3) {
    && IsSize(addMin) && IsSize(subMax)
    && addMin.x + subMax.x < a.size.x
    && addMin.y + subMax.y < a.size.y
    && addMin.z + subMax.z < a.size.z
  }

  /** Removes `addMin` voxels from the low side and `subMax` from the high
      side of each axis. The origin moves by `addMin`, so retained voxels keep
      their absolute coordinates; block entities outside the new box are
      dropped. */
  function Crop(a: Area, addMin: Vec3, subMax: Vec3): (r: Area)
    requires Valid(a) && CanCrop(a, addMin, subMax)
    ensures Valid(r) && DataTypesOf(r) == DataTypesOf(a) && r.weOffset == a.weOffset
    ensures r.size == a.size.Sub(addMin).Sub(subMax) && r.origin == a.origin.Add(addMin)
    ensures forall p :: IsValidCoords(r, p) ==>
      && IsValidCoords(a, p)
      && GetBlock(r, p) == GetBlock(a, p)
      && GetBlockLight(r, p) == GetBlockLight(a, p)
      && GetBlockSkyLight(r, p) == GetBlockSkyLight(a, p)
    ensures a.blockEntities.Some? ==> forall p ::
      p in r.blockEntities.value <==> p.Add(addMin) in a.blockEntities.value && InBox(p, r.size)
  {
    var ns := a.size.Sub(addMin).Sub(subMax);
    var m := Shift(addMin);
    var bes := if a.blockEntities.Some? then
      Some(set p | p in a.blockEntities.value && InBox(p.Sub(addMin), ns) :: p.Sub(addMin))
    else None;
    var r := Area(a.origin.Add(addMin), ns, a.weOffset,
      RemapOpt(a.blocks, a.size, ns, m, Air),
      RemapOpt(a.blockLight, a.size, ns, m, 0),
      RemapOpt(a.skyLight, a.size, ns, m, FullLight),
      bes);
    assert forall p :: IsValidCoords(r, p) ==> p.Sub(r.origin).Add(addMin) == p.Sub(a.origin);
    assert bes.Some? ==> forall p :: p in bes.value <==> p.Add(addMin) in a.blockEntities.value && InBox(p, ns) by {
      if bes.Some? {
        forall p
          ensures p in bes.value <==> p.Add(addMin) in a.blockEntities.value && InBox(p, ns)
        {
          assert p.Add(addMin).Sub(addMin) == p;
        }
      }
    }
    r
  }

  /** Adds `subMin` voxels on the low side and `addMax` on the high side of
      each axis. The origin moves by `-subMin`, so existing voxels keep their
      absolute coordinates, and the new voxels hold the defaults of Create:
      air, block light 0 and full sky light. */
  function Expand(a: Area, subMin: Vec3, addMax: Vec3): (r: Area)
    requires Valid(a) && IsSize(subMin) && IsSize(addMax)
    ensures Valid(r) && DataTypesOf(r) == DataTypesOf(a) && r.weOffset == a.weOffset
    ensures r.size == a.size.Add(subMin).Add(addMax) && r.origin == a.origin.Sub(subMin)
    ensures forall p :: IsValidCoords(a, p) ==>
      && IsValidCoords(r, p)
      && GetBlock(r, p) == GetBlock(a, p)
      && GetBlockLight(r, p) == GetBlockLight(a, p)
      && GetBlockSkyLight(r, p) == GetBlockSkyLight(a, p)
    ensures forall p :: IsValidCoords(r, p) && !IsValidCoords(a, p) ==>
      && GetBlock(r, p) == Air
      && GetBlockLight(r, p) == 0
      && (r.skyLight.Some? ==> GetBlockSkyLight(r, p) == FullLight)
    ensures a.blockEntities.Some? ==> forall p ::
      p in r.blockEntities.value <==> p.Sub(subMin) in a.blockEntities.value
  {
    var ns := a.size.Add(subMin).Add(addMax);
    var m := Shift(Zero.Sub(subMin));
    var bes := if a.blockEntities.Some? then
      Some(set p | p in a.blockEntities.value :: p.Add(subMin))
    else None;
    var r := Area(a.origin.Sub(subMin), ns, a.weOffset,
      RemapOpt(a.blocks, a.size, ns, m, Air),
      RemapOpt(a.blockLight, a.size, ns, m, 0),
      RemapOpt(a.skyLight, a.size, ns, m, FullLight),
      bes);
    assert forall p: Vec3 :: p.Sub(r.origin).Add(Zero.Sub(subMin)) == p.Sub(a.origin);
    assert forall p :: IsValidCoords(a, p) ==> IsValidCoords(r, p);
    assert bes.Some? ==> forall p :: p in bes.value <==> p.Sub(subMin) in a.blockEntities.value by {
      if bes.Some? {
        forall p
          ensures p in bes.value <==> p.Sub(subMin) in a.blockEntities.value
        {
          assert p.Sub(subMin).Add(subMin) == p;
        }
      }
    }
    r
  }

  /** Cropping away exactly what was added by Expand gives back the
      original area. */
  lemma CropUndoesExpand(a: Area, subMin: Vec3, addMax: Vec3)
    requires Valid(a) && IsSize(subMin) && IsSize(addMax)
    requires a.size.x > 0 && a.size.y > 0 && a.size.z > 0
    ensures CanCrop(Expand(a, subMin, addMax), subMin, addMax)
    ensures Crop(Expand(a, subMin, addMax), subMin, addMax) == a
  {
    var e := Expand(a, subMin, addMax);
    var r := Crop(e, subMin, addMax);
    assert r.size == a.size && r.origin == a.origin;
    forall q | IsValidRelCoords(a, q)
      ensures GetRelBlock(r, q) == GetRelBlock(a, q)
      ensures GetRelBlockLight(r, q) == GetRelBlockLight(a, q)
      ensures GetRelBlockSkyLight(r, q) == GetRelBlockSkyLight(a, q)
    {
      var p := q.Add(a.origin);
      assert p.Sub(a.origin) == q;
      assert IsValidCoords(r, p);
    }
    if a.blockEntities.Some? {
      forall p
        ensures p in r.blockEntities.value <==> p in a.blockEntities.value
      {
        assert p.Add(subMin).Sub(subMin) == p;
      }
      assert r.blockEntities.value == a.blockEntities.value;
    }
    Extensionality(r, a);
  }

  /** Expanding back what Crop removed restores the size and origin, keeps
      every retained voxel, and fills the cropped-away voxels with the
      defaults of Create. */
  lemma ExpandAfterCrop(a: Area, addMin: Vec3, subMax: Vec3, p: Vec3)
    requires Valid(a) && CanCrop(a, addMin, subMax) && IsValidCoords(a, p)
    ensures Expand(Crop(a, addMin, subMax), addMin, subMax).size == a.size
    ensures Expand(Crop(a, addMin, subMax), addMin, subMax).origin == a.origin
    ensures IsValidCoords(Expand(Crop(a, addMin, subMax), addMin, subMax), p)
    ensures IsValidCoords(Crop(a, addMin, subMax), p) ==>
      GetBlock(Expand(Crop(a, addMin, subMax), addMin, subMax), p) == GetBlock(a, p)
    ensures !IsValidCoords(Crop(a, addMin, subMax), p) ==>
      GetBlock(Expand(Crop(a, addMin, subMax), addMin, subMax), p) == Air
    ensures IsValidCoords(Crop(a, addMin, subMax), p) ==>
      && GetBlockLight(Expand(Crop(a, addMin, subMax), addMin, subMax), p) == GetBlockLight(a, p)
      && GetBlockSkyLight(Expand(Crop(a, addMin, subMax), addMin, subMax), p) == GetBlockSkyLight(a, p)
    ensures !IsValidCoords(Crop(a, addMin, subMax), p) ==>
      && GetBlockLight(Expand(Crop(a, addMin, subMax), addMin, subMax), p) == 0
      && (a.skyLight.Some? ==> GetBlockSkyLight(Expand(Crop(a, addMin, subMax), addMin, subMax), p) == FullLight)
  {
    var c := Crop(a, addMin, subMax);
    var e := Expand(c, addMin, subMax);
    assert e.size == a.size && e.origin == a.origin;
  }
}
