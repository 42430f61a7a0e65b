/** The per-voxel merge strategies of a block area (src/BlockArea.h:57-69,
    169-239): a pure function of the strategy, the block already in the area
    ("this") and the block being merged in ("src"), plus the documented truth
    tables written out as data and proved to agree with it. */
module MergeStrategies {
  import opened Wrappers
  import opened Blocks

  datatype Strategy =
    | Overwrite
    | FillAir
    | Imprint
    | Lake
    | SpongePrint
    | Difference
    | SimpleCompare
    | Mask

  /** Lake: sponge is the no-op block, air always hollows out, liquids in this
      are never overwritten, liquids from src always win, and stone replaces
      only dirt, grass and mycelium. */
  function LakeBlock(a: Block, b: Block): (r: Block)
    ensures r == a || r == b
    ensures b == Sponge ==> r == a
    ensures b != Sponge && IsAir(b) ==> IsAir(r)
    ensures IsLiquid(a) && b != Sponge && !IsAir(b) ==> r == a
    ensures r != a ==> IsAir(b) || IsLiquid(b) || (b == Stone && (a == Dirt || a == Grass || a == Mycelium))
  {
    if b == Sponge then a
    else if IsAir(b) then Air
    else if IsLiquid(a) then a
    else if IsLiquid(b) then b
    else if b == Stone && (a == Dirt || a == Grass || a == Mycelium) then Stone
    else a
  }

  /** The block that results from merging `b` (src) onto `a` (this). */
  function MergeBlock(s: Strategy, a: Block, b: Block): (r: Block)
    ensures r == a || r == b || IsAir(r) || (s == SimpleCompare && r == Stone)
    ensures s == Overwrite ==> r == b
    ensures a == b && s != SimpleCompare && s != Difference ==> r == a
    ensures a == b && (s == SimpleCompare || s == Difference) ==> IsAir(r)
  {
    match s
    case Overwrite => b
    case FillAir => if IsAir(a) then b else a
    case Imprint => if IsAir(b) then a else b
    case Lake => LakeBlock(a, b)
    case SpongePrint => if b == Sponge then a else b
    case Difference => if a == b then Air else a
    case SimpleCompare => if a == b then Air else Stone
    case Mask => if a == b then a else Air
  }

  // ---- the documented truth tables, as data ------------------------------

  /** A cell of a table row: any block, any non-air block ("A" / "B"), or one
      named block. */
  datatype Pat = AnyBlock | NonAir | Is(block: Block)

  /** Whether a row requires this and src to be the same block ("A | A") or
      different blocks ("A | non-A"). */
  datatype Rel = Unrelated | Same | Differ

  /** The result column: this' block, src's block, or a fixed block. */
  datatype Out = KeepThis | TakeSrc | Put(block: Block)

  datatype Row = Row(dst: Pat, src: Pat, rel: Rel, out: Out)

  /** A table is evaluated top-down and the first matching row wins. */
  datatype Table = End | Then(row: Row, rest: Table)

  predicate PatMatches(p: Pat, b: Block) {
    match p
    case AnyBlock => true
    case NonAir => !IsAir(b)
    case Is(c) => b == c
  }

  predicate RowMatches(r: Row, a: Block, b: Block) {
    && PatMatches(r.dst, a)
    && PatMatches(r.src, b)
    && match r.rel
       case Unrelated => true
       case Same => a == b
       case Differ => a != b
  }

  function Outcome(o: Out, a: Block, b: Block): Block {
    match o
    case KeepThis => a
    case TakeSrc => b
    case Put(c) => c
  }

  /** The result column of the first row matching (a, b), if any. */
  function FirstMatch(t: Table, a: Block, b: Block): Option<Block> {
    match t
    case End => None
    case Then(r, rest) =>
      if RowMatches(r, a, b) then Some(Outcome(r.out, a, b)) else FirstMatch(rest, a, b)
  }

  /** The shared table of msOverwrite, msFillAir and msImprint: four rows
      (air/air, A/air, air/B, A/B) with one result column per strategy. */
  function BasicTable(airAir: Out, thisAir: Out, airSrc: Out, thisSrc: Out): Table {
    Then(Row(Is(Air), Is(Air), Unrelated, airAir),
    Then(Row(NonAir, Is(Air), Unrelated, thisAir),
    BasicSrcTable(airSrc, thisSrc)))
  }

  /** The two rows of the basic table where src is not air. */
  function BasicSrcTable(airSrc: Out, thisSrc: Out): Table {
    Then(Row(Is(Air), NonAir, Unrelated, airSrc),
    Then(Row(NonAir, NonAir, Unrelated, thisSrc),
    End))
  }

  /** The two-row tables of msDifference, msSimpleCompare and msMask:
      "A | A" and "A | non-A". */
  function CompareTable(same: Out, differ: Out): Table {
    Then(Row(AnyBlock, AnyBlock, Same, same),
    Then(Row(AnyBlock, AnyBlock, Differ, differ),
    End))
  }

  /** msLake, rows 1-2: sponge is the no-op block, air always hollows out. */
  const LakeTable: Table :=
    Then(Row(AnyBlock, Is(Sponge), Unrelated, KeepThis),
    Then(Row(AnyBlock, Is(Air), Unrelated, Put(Air)),
    LakeKeepLiquidTable))

  /** msLake, rows 3-4: water and lava are never overwritten. */
  const LakeKeepLiquidTable: Table :=
    Then(Row(Is(Water), AnyBlock, Unrelated, KeepThis),
    Then(Row(Is(Lava), AnyBlock, Unrelated, KeepThis),
    LakeTakeLiquidTable))

  /** msLake, rows 5-6: water and lava always overwrite anything. */
  const LakeTakeLiquidTable: Table :=
    Then(Row(AnyBlock, Is(Water), Unrelated, TakeSrc),
    Then(Row(AnyBlock, Is(Lava), Unrelated, TakeSrc),
    LakeStoneTable))

  /** msLake, rows 7-11: stone overwrites dirt, grass and mycelium, but nothing
      else; everything else is left as it is. */
  const LakeStoneTable: Table :=
    Then(Row(Is(Dirt), Is(Stone), Unrelated, Put(Stone)),
    Then(Row(Is(Grass), Is(Stone), Unrelated, Put(Stone)),
    Then(Row(Is(Mycelium), Is(Stone), Unrelated, Put(Stone)),
    Then(Row(AnyBlock, Is(Stone), Unrelated, KeepThis),
    Then(Row(AnyBlock, AnyBlock, Unrelated, KeepThis),
    End)))))

  /** The table documented for each strategy. */
  function DocumentedTable(s: Strategy): Table {
    match s
    case Overwrite => BasicTable(Put(Air), Put(Air), TakeSrc, TakeSrc)
    case FillAir => BasicTable(Put(Air), KeepThis, TakeSrc, KeepThis)
    case Imprint => BasicTable(Put(Air), KeepThis, TakeSrc, TakeSrc)
    case Lake => LakeTable
    case SpongePrint =>
      Then(Row(AnyBlock, Is(Sponge), Unrelated, KeepThis),
      Then(Row(AnyBlock, AnyBlock, Unrelated, TakeSrc),
      End))
    case Difference => CompareTable(Put(Air), KeepThis)
    case SimpleCompare => CompareTable(Put(Air), Put(Stone))
    case Mask => CompareTable(KeepThis, Put(Air))
  }

  // ---- agreement of MergeBlock with the documented tables -----------------

  /** Skipping a row that does not match leaves the first match unchanged. */
  lemma Skip(t: Table, a: Block, b: Block)
    requires t.Then? && !RowMatches(t.row, a, b)
    ensures FirstMatch(t, a, b) == FirstMatch(t.rest, a, b)
  {
  }

  lemma OverwriteSrcRows(a: Block, b: Block)
    requires !IsAir(b)
    ensures FirstMatch(DocumentedTable(Overwrite), a, b) == Some(b)
  {
    var t := DocumentedTable(Overwrite);
    Skip(t, a, b);
    Skip(t.rest, a, b);
  }

  lemma FillAirSrcRows(a: Block, b: Block)
    requires !IsAir(b)
    ensures FirstMatch(DocumentedTable(FillAir), a, b) == Some(if IsAir(a) then b else a)
  {
    var t := DocumentedTable(FillAir);
    Skip(t, a, b);
    Skip(t.rest, a, b);
  }

  lemma ImprintSrcRows(a: Block, b: Block)
    requires !IsAir(b)
    ensures FirstMatch(DocumentedTable(Imprint), a, b) == Some(b)
  {
    var t := DocumentedTable(Imprint);
    Skip(t, a, b);
    Skip(t.rest, a, b);
  }

  lemma LakeRows(a: Block, b: Block)
    ensures FirstMatch(LakeTable, a, b) ==
      if b == Sponge then Some(a)
      else if b == Air then Some(Air)
      else FirstMatch(LakeKeepLiquidTable, a, b)
  {
  }

  lemma LakeKeepLiquidRows(a: Block, b: Block)
    ensures FirstMatch(LakeKeepLiquidTable, a, b) ==
      if IsLiquid(a) then Some(a) else FirstMatch(LakeTakeLiquidTable, a, b)
  {
  }

  lemma LakeTakeLiquidRows(a: Block, b: Block)
    ensures FirstMatch(LakeTakeLiquidTable, a, b) ==
      if IsLiquid(b) then Some(b) else FirstMatch(LakeStoneTable, a, b)
  {
  }

  lemma LakeStoneRows(a: Block, b: Block)
    requires b == Stone && (a == Dirt || a == Grass || a == Mycelium)
    ensures FirstMatch(LakeStoneTable, a, b) == Some(Stone)
  {
    if a == Mycelium {
      Skip(LakeStoneTable, a, b);
    }
  }

  lemma LakeOtherStoneRows(a: Block, b: Block)
    requires b == Stone && a != Dirt && a != Grass && a != Mycelium
    ensures FirstMatch(LakeStoneTable, a, b) == Some(a)
  {
    var t := LakeStoneTable;
    Skip(t, a, b);
    Skip(t.rest, a, b);
    Skip(t.rest.rest, a, b);
  }

  lemma LakeNonStoneRows(a: Block, b: Block)
    requires b != Stone
    ensures FirstMatch(LakeStoneTable, a, b) == Some(a)
  {
    var t := LakeStoneTable;
    Skip(t, a, b);
    Skip(t.rest, a, b);
    Skip(t.rest.rest, a, b);
    Skip(t.rest.rest.rest, a, b);
  }

  /** msLake follows its eleven documented rows, evaluated top-down. */
  lemma LakeFollowsTable(a: Block, b: Block)
    ensures FirstMatch(LakeTable, a, b) == Some(LakeBlock(a, b))
  {
    LakeRows(a, b);
    LakeKeepLiquidRows(a, b);
    LakeTakeLiquidRows(a, b);
    if b != Stone {
      LakeNonStoneRows(a, b);
    } else if a == Dirt || a == Grass || a == Mycelium {
      LakeStoneRows(a, b);
    } else {
      LakeOtherStoneRows(a, b);
    }
  }

  /** The two-row comparison tables pick their first row exactly when the
      blocks are equal. */
  lemma CompareRows(same: Out, differ: Out, a: Block, b: Block)
    ensures FirstMatch(CompareTable(same, differ), a, b) == Some(Outcome(if a == b then same else differ, a, b))
  {
  }

  lemma SpongePrintRows(a: Block, b: Block)
    ensures FirstMatch(DocumentedTable(SpongePrint), a, b) == Some(if b == Sponge then a else b)
  {
  }

  /** For every strategy and every pair of blocks, MergeBlock gives exactly
      the result of the first matching row of the documented table. */
  lemma MergeBlockFollowsTable(s: Strategy, a: Block, b: Block)
    ensures FirstMatch(DocumentedTable(s), a, b) == Some(MergeBlock(s, a, b))
  {
    match s
    case Overwrite => if !IsAir(b) { OverwriteSrcRows(a, b); }
    case FillAir => if !IsAir(b) { FillAirSrcRows(a, b); }
    case Imprint => if !IsAir(b) { ImprintSrcRows(a, b); }
    case Lake => LakeFollowsTable(a, b);
    case SpongePrint => SpongePrintRows(a, b);
    case Difference => CompareRows(Put(Air), KeepThis, a, b);
    case SimpleCompare => CompareRows(Put(Air), Put(Stone), a, b);
    case Mask => CompareRows(KeepThis, Put(Air), a, b);
  }

  // ---- algebraic properties ---------------------------------------------

  /** Merging the same src block a second time changes nothing, for every
      strategy except msSimpleCompare. */
  lemma MergeBlockIdempotent(s: Strategy, a: Block, b: Block)
    requires s != SimpleCompare
    ensures MergeBlock(s, MergeBlock(s, a, b), b) == MergeBlock(s, a, b)
  {
    if s == Lake {
      LakeIdempotent(a, b);
    }
  }

  lemma LakeIdempotent(a: Block, b: Block)
    ensures LakeBlock(LakeBlock(a, b), b) == LakeBlock(a, b)
  {
  }

  /** msSimpleCompare is not idempotent: equal blocks become air, and air
      compared with a non-air block becomes stone. */
  lemma SimpleCompareNotIdempotent()
    ensures MergeBlock(SimpleCompare, MergeBlock(SimpleCompare, Dirt, Dirt), Dirt) != MergeBlock(SimpleCompare, Dirt, Dirt)
  {
  }

  /** Sponge in src is the no-op block of msLake and msSpongePrint. */
  lemma SpongeIsNoOp(s: Strategy, a: Block)
    requires s == Lake || s == SpongePrint
    ensures MergeBlock(s, a, Sponge) == a
  {
  }
}
