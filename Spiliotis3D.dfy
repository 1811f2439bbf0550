/** The Spiliotis-Mertzios decomposition of a binary 3D image into cuboids: every slice of
    constant depth is decomposed into rectangles by the 2D row scan, and a rectangle is merged
    into the cuboid in front of it when both have the same extent in x and y. */
module Spiliotis3D {
  import opened SetSums
  import opened Outcomes
  import opened Commons3D
  import opened Slots
  import Commons2D
  import S2 = Spiliotis2D

  /** A block covering the cuboid [x0, x1] x [y0, y1] x [z0, z1], endpoints included.  The
      source's copy constructor and `set` become value construction. */
  datatype Block = Block(x0: int, y0: int, z0: int, x1: int, y1: int, z1: int)

  /** The voxels of a block. */
  function Voxels(b: Block): set<Voxel>
  {
    Box(b.x0, b.x1, b.y0, b.y1, b.z0, b.z1)
  }

  predicate NonEmpty(b: Block)
  {
    b.x0 <= b.x1 && b.y0 <= b.y1 && b.z0 <= b.z1
  }

  function Width(b: Block): int
  {
    b.x1 - b.x0 + 1
  }

  function Height(b: Block): int
  {
    b.y1 - b.y0 + 1
  }

  function Depth(b: Block): int
  {
    b.z1 - b.z0 + 1
  }

  /** has_equal_xy: the blocks have the same extent in x and in y, whatever their depths:
      the first block given the depth range of the second is the second. */
  function HasEqualXY(a: Block, b: Block): (r: bool)
    ensures r <==> a.(z0 := b.z0, z1 := b.z1) == b
  {
    a.x0 == b.x0 && a.x1 == b.x1 && a.y0 == b.y0 && a.y1 == b.y1
  }

  /** pixel_num: width times height times depth. */
  function PixelNum(b: Block): int
  {
    Width(b) * Height(b) * Depth(b)
  }

  /** A non-empty block holds pixel_num voxels. */
  lemma {:induction false} PixelNumCounts(b: Block)
    requires NonEmpty(b)
    ensures PixelNum(b) == |Voxels(b)| && PixelNum(b) >= 1
  {
    BoxSize(b.x0, b.x1, b.y0, b.y1, b.z0, b.z1);
    assert Width(b) * Height(b) * Depth(b) == Width(b) * (Height(b) * Depth(b));
    assert Height(b) * Depth(b) >= 1;
  }

  /** Over a list of disjoint non-empty blocks, the pixel_num values add up to the number of
      voxels covered. */
  lemma {:induction false} PixelNumSum(blocks: seq<Block>)
    requires SeqDisjoint(blocks, Voxels)
    requires forall i :: 0 <= i < |blocks| ==> NonEmpty(blocks[i])
    ensures SumSeq(blocks, PixelNum) == |UnionSeq(blocks, Voxels)|
  {
    forall i | 0 <= i < |blocks|
      ensures PixelNum(blocks[i]) == SumOver(Voxels(blocks[i]), Weight(0, 0, 0))
    {
      PixelNumCounts(blocks[i]);
      MomentZeroIsCount(Voxels(blocks[i]));
    }
    SumOverUnionSeq(blocks, Voxels, Weight(0, 0, 0), PixelNum);
    MomentZeroIsCount(UnionSeq(blocks, Voxels));
  }

  function Max3(a: int, b: int, c: int): (m: int)
    ensures a <= m && b <= m && c <= m && (m == a || m == b || m == c)
  {
    if a >= b && a >= c then a else if b >= c then b else c
  }

  /** BW_BlockImage3D: the list of blocks of a decomposition and the size of its image. */
  class BlockImage3D {
    var block: seq<Block>
    var origsize: int

    constructor ()
      ensures block == [] && origsize == 0
    {
      block := [];
      origsize := 0;
    }

    method AddBlock(b: Block)
      modifies this
      ensures block == old(block) + [b] && origsize == old(origsize)
    {
      block := block + [b];
    }

    /** max_triplet: the greatest width, height and depth of a block, in that order. */
    method MaxTriplet() returns (dx: int, dy: int, dz: int)
      ensures dx == MaxOver(block, Width) && dy == MaxOver(block, Height)
      ensures dz == MaxOver(block, Depth)
    {
      dx, dy, dz := 0, 0, 0;
      for i := 0 to |block|
        invariant dx == MaxOver(block[..i], Width) && dy == MaxOver(block[..i], Height)
        invariant dz == MaxOver(block[..i], Depth)
      {
        assert block[..i + 1][..i] == block[..i];
        var b := block[i];
        if Width(b) > dx {
          dx := Width(b);
        }
        if Height(b) > dy {
          dy := Height(b);
        }
        if Depth(b) > dz {
          dz := Depth(b);
        }
      }
      assert block[..|block|] == block;
    }
  }

  // ----- The slices -----

  /** The slice of depth z seen as a 2D image. */
  function Section(img: set<Voxel>, z: int): set<Commons2D.Pixel>
  {
    set v | v in img && v.z == z :: Commons2D.Pixel(v.x, v.y)
  }

  lemma {:induction false} SectionMember(img: set<Voxel>, z: int, x: int, y: int)
    ensures Commons2D.Pixel(x, y) in Section(img, z) <==> Voxel(x, y, z) in img
  {
    if Voxel(x, y, z) in img {
      assert Commons2D.Pixel(x, y) == Commons2D.Pixel(Voxel(x, y, z).x, Voxel(x, y, z).y);
    }
  }

  /** The voxels of img of depth z in columns 0..SX and rows 0..SY. */
  ghost function SliceRange(img: set<Voxel>, SX: int, SY: int, z: int): set<Voxel>
  {
    set v | v in img && 0 <= v.x <= SX && 0 <= v.y <= SY && v.z == z
  }

  /** A rectangle of the 2D decomposition placed at depth z. */
  function Layer(b: S2.Block, z: int): Block
  {
    Block(b.x0, b.y0, z, b.x1, b.y1, z)
  }

  function Lift(blocks: seq<S2.Block>, z: int): seq<Block>
  {
    seq(|blocks|, i requires 0 <= i < |blocks| => Layer(blocks[i], z))
  }

  lemma {:induction false} LayerVoxels(b: S2.Block, z: int, v: Voxel)
    ensures v in Voxels(Layer(b, z)) <==> v.z == z && Commons2D.Pixel(v.x, v.y) in S2.Pixels(b)
  {
    InBox(v, b.x0, b.x1, b.y0, b.y1, z, z);
    Commons2D.InRect(Commons2D.Pixel(v.x, v.y), b.x0, b.x1, b.y0, b.y1);
  }

  /** Lifting keeps the rectangles apart and lifts their union. */
  lemma {:induction false} LiftSlice(blocks: seq<S2.Block>, img: set<Voxel>, SX: int, SY: int, z: int)
    requires SeqDisjoint(blocks, S2.Pixels)
    requires UnionSeq(blocks, S2.Pixels) == S2.InRange(Section(img, z), SX, SY)
    ensures SeqDisjoint(Lift(blocks, z), Voxels)
    ensures UnionSeq(Lift(blocks, z), Voxels) == SliceRange(img, SX, SY, z)
  {
    var L := Lift(blocks, z);
    forall i, j | 0 <= i < j < |L|
      ensures Voxels(L[i]) !! Voxels(L[j])
    {
      forall v | v in Voxels(L[i])
        ensures v !in Voxels(L[j])
      {
        LayerVoxels(blocks[i], z, v);
        LayerVoxels(blocks[j], z, v);
      }
    }
    forall v
      ensures v in UnionSeq(L, Voxels) <==> v in SliceRange(img, SX, SY, z)
    {
      var p := Commons2D.Pixel(v.x, v.y);
      UnionSeqMember(L, Voxels, v);
      UnionSeqMember(blocks, S2.Pixels, p);
      SectionMember(img, z, v.x, v.y);
      if v in UnionSeq(L, Voxels) {
        var i :| 0 <= i < |L| && v in Voxels(L[i]);
        LayerVoxels(blocks[i], z, v);
        assert v == Voxel(v.x, v.y, z);
      }
      if v in SliceRange(img, SX, SY, z) {
        var i :| 0 <= i < |blocks| && p in S2.Pixels(blocks[i]);
        LayerVoxels(blocks[i], z, v);
        assert v in Voxels(L[i]);
      }
    }
  }

  /** A block as the slice scan makes it: one rectangle of depth z inside the scanned range. */
  ghost predicate Flat(b: Block, SX: int, SY: int, z: int)
  {
    0 <= b.x0 <= b.x1 <= SX && 0 <= b.y0 <= b.y1 <= SY && b.z0 == z && b.z1 == z
  }

  /** extractSliceBlocks: the source repeats the 2D row scan with a depth coordinate; here the
      2D scan runs on the slice of depth z and its rectangles are placed at depth z.  The
      blocks are disjoint and cover exactly the voxels of the slice in range. */
  method ExtractSliceBlocks(img: set<Voxel>, SX: int, SY: int, z: int) returns (slice: BlockImage3D)
    ensures fresh(slice)
    ensures slice.origsize == Max3(SX, SY, z)
    ensures SeqDisjoint(slice.block, Voxels)
    ensures UnionSeq(slice.block, Voxels) == SliceRange(img, SX, SY, z)
    ensures forall i :: 0 <= i < |slice.block| ==> Flat(slice.block[i], SX, SY, z)
  {
    var flat := S2.ExtractSliceBlocks(Section(img, z), SX, SY);
    slice := new BlockImage3D();
    slice.origsize := Max3(SX, SY, z);
    slice.block := Lift(flat.block, z);
    LiftSlice(flat.block, img, SX, SY, z);
    forall i | 0 <= i < |slice.block|
      ensures Flat(slice.block[i], SX, SY, z)
    {
      assert S2.Good(flat.block[i], Section(img, z), SX, SY);
    }
  }

  // ----- Merging the slices -----

  /** A block inside the scanned range. */
  ghost predicate Fits(b: Block, SX: int, SY: int, SZ: int)
  {
    0 <= b.x0 <= b.x1 <= SX && 0 <= b.y0 <= b.y1 <= SY && 0 <= b.z0 <= b.z1 <= SZ
  }

  ghost predicate AllFit(blocks: seq<Block>, SX: int, SY: int, SZ: int)
  {
    forall i :: 0 <= i < |blocks| ==> Fits(blocks[i], SX, SY, SZ)
  }

  /** Slot k is empty or holds a block with x1 == k. */
  ghost predicate SlotsFit(temp: seq<Option<Block>>, SX: int, SY: int, SZ: int)
  {
    forall k :: 0 <= k < |temp| && temp[k].Some? ==>
      temp[k].value.x1 == k && Fits(temp[k].value, SX, SY, SZ)
  }

  /** The finished and pending blocks are apart and in range, and the slots are valid. */
  ghost predicate Kept(blocks: seq<Block>, temp: seq<Option<Block>>, SX: int, SY: int, SZ: int)
  {
    Apart(blocks, temp, Voxels) && AllFit(blocks, SX, SY, SZ) && SlotsFit(temp, SX, SY, SZ)
  }

  /** The pending blocks of slots lo..hi - 1 end at a depth between zlo and zhi. */
  ghost predicate Ends(temp: seq<Option<Block>>, lo: int, hi: int, zlo: int, zhi: int)
  {
    forall k :: lo <= k < hi && 0 <= k < |temp| && temp[k].Some? ==> zlo <= temp[k].value.z1 <= zhi
  }

  /** The voxels of img in range in front of depth z. */
  ghost function Before(img: set<Voxel>, SX: int, SY: int, z: int): set<Voxel>
  {
    set v | v in img && 0 <= v.x <= SX && 0 <= v.y <= SY && 0 <= v.z < z
  }

  lemma {:induction false} BeforeNext(img: set<Voxel>, SX: int, SY: int, z: int)
    requires 0 <= z
    ensures Before(img, SX, SY, z + 1) == Before(img, SX, SY, z) + SliceRange(img, SX, SY, z)
    ensures Before(img, SX, SY, z) !! SliceRange(img, SX, SY, z)
  {
  }

  lemma {:induction false} SlotCellsSome(b: Block)
    ensures SlotCells(Voxels)(Some(b)) == Voxels(b)
  {
  }

  /** Adding slice z behind a box ending at depth z - 1. */
  lemma {:induction false} ExtendBack(b: Block, z: int)
    requires b.z0 <= z
    ensures Voxels(b.(z1 := z)) == Voxels(b.(z1 := z - 1)) + Box(b.x0, b.x1, b.y0, b.y1, z, z)
  {
    forall v | v in Voxels(b.(z1 := z))
      ensures v in Voxels(b.(z1 := z - 1)) + Box(b.x0, b.x1, b.y0, b.y1, z, z)
    {
      InBox(v, b.x0, b.x1, b.y0, b.y1, b.z0, z);
      InBox(v, b.x0, b.x1, b.y0, b.y1, b.z0, z - 1);
      InBox(v, b.x0, b.x1, b.y0, b.y1, z, z);
    }
  }

  /** The rectangle BL of slice z has the extent of the block pending at slot BL.x1: that
      block ends at depth z - 1 (a block of this slice would overlap BL), and it grows back
      by BL. */
  lemma {:induction false} MergeBack(blocks: seq<Block>, temp: seq<Option<Block>>, BL: Block,
                  SX: int, SY: int, SZ: int, z: int)
    requires Kept(blocks, temp, SX, SY, SZ) && Ends(temp, 0, |temp|, z - 1, z)
    requires Flat(BL, SX, SY, z) && 0 <= z <= SZ && BL.x1 < |temp|
    requires Voxels(BL) !! Covered(blocks, temp, Voxels)
    requires temp[BL.x1].Some? && HasEqualXY(temp[BL.x1].value, BL)
    ensures temp[BL.x1].value.z1 == z - 1
    ensures var temp' := temp[BL.x1 := Some(temp[BL.x1].value.(z1 := z))];
            Kept(blocks, temp', SX, SY, SZ) && Ends(temp', 0, |temp'|, z - 1, z)
            && Covered(blocks, temp', Voxels) == Covered(blocks, temp, Voxels) + Voxels(BL)
  {
    var xe := BL.x1;
    var b := temp[xe].value;
    var nb := b.(z1 := z);
    UnionSeqHolds(temp, SlotCells(Voxels), xe);
    SlotCellsSome(b);
    var v := Voxel(BL.x0, BL.y0, z);
    InBox(v, BL.x0, BL.x1, BL.y0, BL.y1, z, z);
    InBox(v, b.x0, b.x1, b.y0, b.y1, b.z0, b.z1);
    assert b.z1 == z - 1;
    assert b.(z1 := z - 1) == b;
    ExtendBack(b, z);
    SlotCellsSome(nb);
    ReplaceSlot(blocks, temp, xe, Some(nb), Voxels(BL), Voxels);
    var temp' := temp[xe := Some(nb)];
    forall k | 0 <= k < |temp'| && temp'[k].Some?
      ensures temp'[k].value.x1 == k && Fits(temp'[k].value, SX, SY, SZ)
      ensures z - 1 <= temp'[k].value.z1 <= z
    {
      if k != xe {
        assert temp'[k] == temp[k];
      }
    }
  }

  /** Slot k's pending block is moved to the output. */
  lemma {:induction false} FlushSlot(blocks: seq<Block>, temp: seq<Option<Block>>, k: int, SX: int, SY: int, SZ: int)
    requires 0 <= k < |temp| && temp[k].Some? && Kept(blocks, temp, SX, SY, SZ)
    ensures Kept(blocks + [temp[k].value], temp[k := None], SX, SY, SZ)
    ensures Covered(blocks + [temp[k].value], temp[k := None], Voxels) == Covered(blocks, temp, Voxels)
  {
    MoveSlot(blocks, temp, k, Voxels);
    var temp' := temp[k := None];
    forall i | 0 <= i < |temp'| && temp'[i].Some?
      ensures temp'[i].value.x1 == i && Fits(temp'[i].value, SX, SY, SZ)
    {
      assert temp'[i] == temp[i];
    }
  }

  /** The empty slot BL.x1 takes the rectangle BL of slice z. */
  lemma {:induction false} PlaceSlot(blocks: seq<Block>, temp: seq<Option<Block>>, BL: Block,
                  SX: int, SY: int, SZ: int, z: int)
    requires Kept(blocks, temp, SX, SY, SZ) && Ends(temp, 0, |temp|, z - 1, z)
    requires Flat(BL, SX, SY, z) && 0 <= z <= SZ && BL.x1 < |temp| && temp[BL.x1].None?
    requires Voxels(BL) !! Covered(blocks, temp, Voxels)
    ensures var temp' := temp[BL.x1 := Some(BL)];
            Kept(blocks, temp', SX, SY, SZ) && Ends(temp', 0, |temp'|, z - 1, z)
            && Covered(blocks, temp', Voxels) == Covered(blocks, temp, Voxels) + Voxels(BL)
  {
    SlotCellsSome(BL);
    ReplaceSlot(blocks, temp, BL.x1, Some(BL), Voxels(BL), Voxels);
    var temp' := temp[BL.x1 := Some(BL)];
    forall k | 0 <= k < |temp'| && temp'[k].Some?
      ensures temp'[k].value.x1 == k && Fits(temp'[k].value, SX, SY, SZ)
      ensures z - 1 <= temp'[k].value.z1 <= z
    {
      if k != BL.x1 {
        assert temp'[k] == temp[k];
      }
    }
  }

  /** The slots x0..x1 are emptied, their blocks written out in order of the slots. */
  method FlushRange(final: BlockImage3D, temp: array<Option<Block>>, x0: int, x1: int,
                    ghost SX: int, ghost SY: int, ghost SZ: int, ghost zlo: int, ghost zhi: int)
    requires 0 <= x0 <= x1 < temp.Length
    requires Kept(final.block, temp[..], SX, SY, SZ) && Ends(temp[..], 0, temp.Length, zlo, zhi)
    modifies final, temp
    ensures Kept(final.block, temp[..], SX, SY, SZ) && Ends(temp[..], 0, temp.Length, zlo, zhi)
    ensures Covered(final.block, temp[..], Voxels) == old(Covered(final.block, temp[..], Voxels))
    ensures forall k :: 0 <= k < temp.Length ==> temp[k] == if x0 <= k <= x1 then None else old(temp[k])
    ensures final.origsize == old(final.origsize)
  {
    for xx := x0 to x1 + 1
      invariant Kept(final.block, temp[..], SX, SY, SZ) && Ends(temp[..], 0, temp.Length, zlo, zhi)
      invariant Covered(final.block, temp[..], Voxels) == old(Covered(final.block, temp[..], Voxels))
      invariant forall k :: 0 <= k < temp.Length ==> temp[k] == if x0 <= k < xx then None else old(temp[k])
      invariant final.origsize == old(final.origsize)
    {
      if temp[xx] != None {
        FlushSlot(final.block, temp[..], xx, SX, SY, SZ);
        final.AddBlock(temp[xx].value);
        temp[xx] := None;
      }
    }
  }

  /** One rectangle BL of slice z: it extends the block pending at slot BL.x1 when both have
      the same extent in x and y; otherwise the slots under BL are flushed and BL takes slot
      BL.x1. */
  method MergeBlock(final: BlockImage3D, temp: array<Option<Block>>, BL: Block,
                    ghost SX: int, ghost SY: int, ghost SZ: int, z: int)
    requires Flat(BL, SX, SY, z) && 0 <= z <= SZ && temp.Length == SX + 1
    requires Kept(final.block, temp[..], SX, SY, SZ) && Ends(temp[..], 0, temp.Length, z - 1, z)
    requires Voxels(BL) !! Covered(final.block, temp[..], Voxels)
    modifies final, temp
    ensures Kept(final.block, temp[..], SX, SY, SZ) && Ends(temp[..], 0, temp.Length, z - 1, z)
    ensures Covered(final.block, temp[..], Voxels) == old(Covered(final.block, temp[..], Voxels)) + Voxels(BL)
    ensures final.origsize == old(final.origsize)
  {
    var xe := BL.x1;
    if temp[xe] != None && HasEqualXY(temp[xe].value, BL) {
      ghost var slots := temp[..];
      MergeBack(final.block, slots, BL, SX, SY, SZ, z);
      temp[xe] := Some(temp[xe].value.(z1 := z));
      assert temp[..] == slots[xe := Some(slots[xe].value.(z1 := z))];
    } else {
      FlushRange(final, temp, BL.x0, BL.x1, SX, SY, SZ, z - 1, z);
      ghost var slots := temp[..];
      PlaceSlot(final.block, slots, BL, SX, SY, SZ, z);
      temp[xe] := Some(BL);
      assert temp[..] == slots[xe := Some(BL)];
    }
  }

  /** The end of slice z: a pending block ending at depth z - 1 cannot grow any more and is
      written out. */
  method FlushStale(final: BlockImage3D, temp: array<Option<Block>>, z: int,
                    ghost SX: int, ghost SY: int, ghost SZ: int)
    requires Kept(final.block, temp[..], SX, SY, SZ) && Ends(temp[..], 0, temp.Length, z - 1, z)
    modifies final, temp
    ensures Kept(final.block, temp[..], SX, SY, SZ) && Ends(temp[..], 0, temp.Length, z, z)
    ensures Covered(final.block, temp[..], Voxels) == old(Covered(final.block, temp[..], Voxels))
    ensures final.origsize == old(final.origsize)
  {
    for x := 0 to temp.Length
      invariant Kept(final.block, temp[..], SX, SY, SZ)
      invariant Ends(temp[..], 0, x, z, z) && Ends(temp[..], x, temp.Length, z - 1, z)
      invariant Covered(final.block, temp[..], Voxels) == old(Covered(final.block, temp[..], Voxels))
      invariant final.origsize == old(final.origsize)
    {
      if temp[x] != None && temp[x].value.z1 == z - 1 {
        FlushSlot(final.block, temp[..], x, SX, SY, SZ);
        final.AddBlock(temp[x].value);
        temp[x] := None;
      }
    }
  }

  /** The rectangle i of slice z is new: it meets neither the slices in front nor the
      rectangles of the slice before it. */
  lemma {:induction false} SliceStep(blocks: seq<Block>, i: int, img: set<Voxel>, SX: int, SY: int, z: int)
    requires 0 <= i < |blocks| && SeqDisjoint(blocks, Voxels) && Flat(blocks[i], SX, SY, z)
    ensures Voxels(blocks[i]) !! Before(img, SX, SY, z) + UnionSeq(blocks[..i], Voxels)
    ensures UnionSeq(blocks[..i + 1], Voxels) == UnionSeq(blocks[..i], Voxels) + Voxels(blocks[i])
  {
    var b := blocks[i];
    assert blocks[..i + 1] == blocks[..i] + [b];
    UnionSeqSnoc(blocks[..i], b, Voxels);
    forall v | v in Voxels(b)
      ensures v !in Before(img, SX, SY, z) && v !in UnionSeq(blocks[..i], Voxels)
    {
      InBox(v, b.x0, b.x1, b.y0, b.y1, b.z0, b.z1);
      UnionSeqMember(blocks[..i], Voxels, v);
      forall j | 0 <= j < i
        ensures v !in Voxels(blocks[..i][j])
      {
        assert Voxels(blocks[j]) !! Voxels(b);
      }
    }
  }

  /** One slice z: its rectangles are merged in the order the scan made them, then the blocks
      that stopped growing are written out. */
  method MergeSlice(final: BlockImage3D, temp: array<Option<Block>>, img: set<Voxel>,
                    SX: int, SY: int, ghost SZ: int, z: int)
    requires temp.Length == (if SX + 1 < 0 then 0 else SX + 1) && 0 <= z <= SZ
    requires Kept(final.block, temp[..], SX, SY, SZ) && Ends(temp[..], 0, temp.Length, z - 1, z - 1)
    requires Covered(final.block, temp[..], Voxels) == Before(img, SX, SY, z)
    modifies final, temp
    ensures Kept(final.block, temp[..], SX, SY, SZ) && Ends(temp[..], 0, temp.Length, z, z)
    ensures Covered(final.block, temp[..], Voxels) == Before(img, SX, SY, z + 1)
    ensures final.origsize == old(final.origsize)
  {
    var slice := ExtractSliceBlocks(img, SX, SY, z);
    var blocks := slice.block;
    BeforeNext(img, SX, SY, z);
    for i := 0 to |blocks|
      invariant Kept(final.block, temp[..], SX, SY, SZ) && Ends(temp[..], 0, temp.Length, z - 1, z)
      invariant Covered(final.block, temp[..], Voxels) == Before(img, SX, SY, z) + UnionSeq(blocks[..i], Voxels)
      invariant final.origsize == old(final.origsize)
    {
      SliceStep(blocks, i, img, SX, SY, z);
      MergeBlock(final, temp, blocks[i], SX, SY, SZ, z);
    }
    assert blocks[..|blocks|] == blocks;
    FlushStale(final, temp, z, SX, SY, SZ);
  }

  /** The end of the decomposition: every block still pending is written out, slot by slot. */
  method FlushAll(final: BlockImage3D, temp: array<Option<Block>>,
                  ghost SX: int, ghost SY: int, ghost SZ: int, ghost cover: set<Voxel>)
    requires Kept(final.block, temp[..], SX, SY, SZ)
    requires Covered(final.block, temp[..], Voxels) == cover
    modifies final
    ensures AllFit(final.block, SX, SY, SZ) && SeqDisjoint(final.block, Voxels)
    ensures UnionSeq(final.block, Voxels) == cover
    ensures final.origsize == old(final.origsize)
  {
    ghost var pend := temp[..];
    for x := 0 to temp.Length
      invariant Kept(final.block, pend, SX, SY, SZ)
      invariant Covered(final.block, pend, Voxels) == cover
      invariant |pend| == temp.Length && forall k :: x <= k < temp.Length ==> pend[k] == temp[k]
      invariant forall k :: 0 <= k < x ==> pend[k].None?
      invariant final.origsize == old(final.origsize)
    {
      if temp[x] != None {
        FlushSlot(final.block, pend, x, SX, SY, SZ);
        final.AddBlock(temp[x].value);
        pend := pend[x := None];
      }
    }
    EmptySlots(pend, Voxels);
  }

  /** The voxels of a list with all three coordinates non-negative. */
  function Visible(voxels: seq<Voxel>): set<Voxel>
  {
    set v | v in voxels && 0 <= v.x && 0 <= v.y && 0 <= v.z
  }

  /** All voxels of img in range, slice after slice, up to the last slice SZ. */
  ghost function InRange(img: set<Voxel>, SX: int, SY: int, SZ: int): set<Voxel>
  {
    set v | v in img && 0 <= v.x <= SX && 0 <= v.y <= SY && 0 <= v.z <= SZ
  }

  /** The loop of extractBlocks over the slices 0..SZ, and the final flush. */
  method MergeSlices(img: set<Voxel>, SX: int, SY: int, SZ: int) returns (final: BlockImage3D)
    ensures fresh(final) && final.origsize == Max3(SX, SY, SZ)
    ensures SeqDisjoint(final.block, Voxels) && AllFit(final.block, SX, SY, SZ)
    ensures UnionSeq(final.block, Voxels) == InRange(img, SX, SY, SZ)
  {
    var nx := if SX + 1 < 0 then 0 else SX + 1;
    var nz := if SZ + 1 < 0 then 0 else SZ + 1;
    var temp := new Option<Block>[nx](_ => None);
    final := new BlockImage3D();
    final.origsize := Max3(SX, SY, SZ);
    EmptySlots(temp[..], Voxels);
    assert Before(img, SX, SY, 0) == {};
    for z := 0 to nz
      invariant Kept(final.block, temp[..], SX, SY, SZ) && Ends(temp[..], 0, temp.Length, z - 1, z - 1)
      invariant Covered(final.block, temp[..], Voxels) == Before(img, SX, SY, z)
      invariant final.origsize == Max3(SX, SY, SZ)
    {
      MergeSlice(final, temp, img, SX, SY, SZ, z);
    }
    assert Before(img, SX, SY, nz) == InRange(img, SX, SY, SZ);
    FlushAll(final, temp, SX, SY, SZ, InRange(img, SX, SY, SZ));
  }

  /** extractBlocks: the decomposition of a list of black voxels, over the columns, rows and
      slices up to the largest coordinates listed.  `max` of an empty list raises ValueError.
      The blocks are pairwise disjoint, inside that range, and cover exactly the listed voxels
      with no negative coordinate. */
  method ExtractBlocks(voxels: seq<Voxel>) returns (r: Result<BlockImage3D>)
    ensures r.Failure? <==> |voxels| == 0
    ensures r.Failure? ==> r.error == ValueError
    ensures r.Success? ==>
              var SX := MaxOf(seq(|voxels|, i requires 0 <= i < |voxels| => voxels[i].x));
              var SY := MaxOf(seq(|voxels|, i requires 0 <= i < |voxels| => voxels[i].y));
              var SZ := MaxOf(seq(|voxels|, i requires 0 <= i < |voxels| => voxels[i].z));
              fresh(r.value)
              && r.value.origsize == Max3(SX, SY, SZ)
              && SeqDisjoint(r.value.block, Voxels)
              && UnionSeq(r.value.block, Voxels) == Visible(voxels)
              && AllFit(r.value.block, SX, SY, SZ)
  {
    if |voxels| == 0 {
      return Failure(ValueError);
    }
    var xs := seq(|voxels|, i requires 0 <= i < |voxels| => voxels[i].x);
    var ys := seq(|voxels|, i requires 0 <= i < |voxels| => voxels[i].y);
    var zs := seq(|voxels|, i requires 0 <= i < |voxels| => voxels[i].z);
    var SX := MaxOf(xs);
    var SY := MaxOf(ys);
    var SZ := MaxOf(zs);
    var final := MergeSlices(VoxelSet(voxels), SX, SY, SZ);
    forall v | v in Visible(voxels)
      ensures v in InRange(VoxelSet(voxels), SX, SY, SZ)
    {
      var i :| 0 <= i < |voxels| && voxels[i] == v;
      assert xs[i] == v.x && ys[i] == v.y && zs[i] == v.z;
    }
    r := Success(final);
  }

  // ----- checkBlocks -----

  /** checkBlocks: every voxel of every block is toggled in the image (given as a list of
      black voxels); the blocks represent the image when no toggled voxel was white and no
      black voxel is left.  That is, when the blocks list each voxel as often as the image;
      SeqBagIsPartition says when that is. */
  method CheckBlocks(blocks: seq<Block>, img: seq<Voxel>) returns (ok: bool)
    ensures ok <==> SeqBag(blocks, Voxels) == multiset(img)
  {
    var rest := img;
    ok := true;
    for i := 0 to |blocks|
      invariant multiset(rest) == multiset(img) - SeqBag(blocks[..i], Voxels)
      invariant ok <==> SeqBag(blocks[..i], Voxels) <= multiset(img)
    {
      assert blocks[..i + 1][..i] == blocks[..i];
      rest, ok := ToggleBlock(blocks[i], rest, ok, multiset(img), SeqBag(blocks[..i], Voxels));
    }
    assert blocks[..|blocks|] == blocks;
    if |rest| > 0 {
      ok := false;
    }
    RemovalEnds(multiset(img), SeqBag(blocks, Voxels), rest);
  }

  /** The three inner loops of checkBlocks: the voxels of block b are toggled sheet by sheet
      (a sheet is the part of b with one x).  M is the image as it was given and before the
      voxels toggled before b. */
  method ToggleBlock(b: Block, rest0: seq<Voxel>, ok0: bool, ghost M: multiset<Voxel>,
                     ghost before: multiset<Voxel>) returns (rest: seq<Voxel>, ok: bool)
    requires multiset(rest0) == M - before && (ok0 <==> before <= M)
    ensures multiset(rest) == M - (before + multiset(Voxels(b)))
    ensures ok <==> before + multiset(Voxels(b)) <= M
  {
    rest, ok := rest0, ok0;
    ghost var seen := before;
    var xEnd := if b.x0 <= b.x1 then b.x1 + 1 else b.x0;
    for x := b.x0 to xEnd
      invariant seen == before + multiset(SheetsBefore(b, x))
      invariant multiset(rest) == M - seen
      invariant ok <==> seen <= M
    {
      rest, ok, seen := ToggleSheet(b, x, rest, ok, M, seen);
      SheetsStep(before, seen, b, x);
    }
    BlockDone(b, xEnd);
  }

  /** The sheet x of block b is toggled line by line (a line is the part with one x and y). */
  method ToggleSheet(b: Block, x: int, rest0: seq<Voxel>, ok0: bool,
                     ghost M: multiset<Voxel>, ghost done: multiset<Voxel>)
    returns (rest: seq<Voxel>, ok: bool, ghost seen: multiset<Voxel>)
    requires multiset(rest0) == M - done && (ok0 <==> done <= M)
    ensures seen == done + multiset(SheetBefore(b, x, YEnd(b)))
    ensures multiset(rest) == M - seen && (ok <==> seen <= M)
  {
    rest, ok, seen := rest0, ok0, done;
    var yEnd := YEnd(b);
    var zEnd := ZEnd(b);
    for y := b.y0 to yEnd
      invariant seen == done + multiset(SheetBefore(b, x, y))
      invariant multiset(rest) == M - seen
      invariant ok <==> seen <= M
    {
      ghost var mid := seen;
      rest, ok, seen := ToggleLine(x, y, b.z0, zEnd, rest, ok, M, seen);
      SheetStep(done, mid, seen, b, x, y);
    }
  }

  /** The innermost loop of checkBlocks: the voxels (x, y, z0) .. (x, y, zEnd - 1) are
      toggled.  A voxel still black is removed from the list; a white one makes the check
      fail.  The ghost result seen is the voxels toggled so far. */
  method ToggleLine(x: int, y: int, z0: int, zEnd: int, rest0: seq<Voxel>, ok0: bool,
                    ghost M: multiset<Voxel>, ghost done: multiset<Voxel>)
    returns (rest: seq<Voxel>, ok: bool, ghost seen: multiset<Voxel>)
    requires z0 <= zEnd
    requires multiset(rest0) == M - done && (ok0 <==> done <= M)
    ensures seen == done + multiset(LineBefore(x, y, z0, zEnd))
    ensures multiset(rest) == M - seen && (ok <==> seen <= M)
  {
    rest, ok, seen := rest0, ok0, done;
    for z := z0 to zEnd
      invariant seen == done + multiset(LineBefore(x, y, z0, z))
      invariant multiset(rest) == M - seen
      invariant ok <==> seen <= M
    {
      var v := Voxel(x, y, z);
      RemovalStep(M, seen, rest, v);
      if v in rest {
        rest := RemoveFirst(rest, v);
      } else {
        ok := false;
      }
      LineStep(done, seen, x, y, z0, z);
      seen := seen + multiset{v};
    }
  }

  function YEnd(b: Block): int
  {
    if b.y0 <= b.y1 then b.y1 + 1 else b.y0
  }

  function ZEnd(b: Block): int
  {
    if b.z0 <= b.z1 then b.z1 + 1 else b.z0
  }

  /** The voxels (x, y, z0) .. (x, y, z - 1). */
  function LineBefore(x: int, y: int, z0: int, z: int): set<Voxel>
  {
    Box(x, x, y, y, z0, z - 1)
  }

  /** The lines y0 .. y - 1 of sheet x of block b. */
  function SheetBefore(b: Block, x: int, y: int): set<Voxel>
  {
    Box(x, x, b.y0, y - 1, b.z0, b.z1)
  }

  /** The sheets x0 .. x - 1 of block b. */
  function SheetsBefore(b: Block, x: int): set<Voxel>
  {
    Box(b.x0, x - 1, b.y0, b.y1, b.z0, b.z1)
  }

  /** One more voxel at the end of a line. */
  lemma {:induction false} LineGrows(x: int, y: int, z0: int, z: int)
    requires z0 <= z
    ensures multiset(LineBefore(x, y, z0, z + 1)) == multiset(LineBefore(x, y, z0, z)) + multiset{Voxel(x, y, z)}
  {
    var A := LineBefore(x, y, z0, z);
    InBox(Voxel(x, y, z), x, x, y, y, z0, z - 1);
    forall v | v in LineBefore(x, y, z0, z + 1)
      ensures v in A + {Voxel(x, y, z)}
    {
      InBox(v, x, x, y, y, z0, z);
      InBox(v, x, x, y, y, z0, z - 1);
    }
    forall v | v in A
      ensures v in LineBefore(x, y, z0, z + 1)
    {
      InBox(v, x, x, y, y, z0, z);
      InBox(v, x, x, y, y, z0, z - 1);
    }
    assert LineBefore(x, y, z0, z + 1) == A + {Voxel(x, y, z)};
    BagOfDisjointUnion(A, {Voxel(x, y, z)});
  }

  /** The toggled voxels after one more voxel of a line. */
  lemma {:induction false} LineStep(done: multiset<Voxel>, seen: multiset<Voxel>, x: int, y: int, z0: int, z: int)
    requires z0 <= z && seen == done + multiset(LineBefore(x, y, z0, z))
    ensures seen + multiset{Voxel(x, y, z)} == done + multiset(LineBefore(x, y, z0, z + 1))
  {
    LineGrows(x, y, z0, z);
    BagAssoc(done, multiset(LineBefore(x, y, z0, z)), multiset{Voxel(x, y, z)});
  }

  /** A finished line joins the lines before it. */
  lemma {:induction false} SheetGrows(b: Block, x: int, y: int)
    requires b.y0 <= y
    ensures multiset(SheetBefore(b, x, y)) + multiset(LineBefore(x, y, b.z0, ZEnd(b)))
            == multiset(SheetBefore(b, x, y + 1))
  {
    var A := SheetBefore(b, x, y);
    var B := LineBefore(x, y, b.z0, ZEnd(b));
    var C := SheetBefore(b, x, y + 1);
    forall v | v in A + B
      ensures v in C
    {
      InBox(v, x, x, b.y0, y - 1, b.z0, b.z1);
      InBox(v, x, x, y, y, b.z0, ZEnd(b) - 1);
      InBox(v, x, x, b.y0, y, b.z0, b.z1);
    }
    forall v | v in C
      ensures v in A + B
    {
      InBox(v, x, x, b.y0, y - 1, b.z0, b.z1);
      InBox(v, x, x, y, y, b.z0, ZEnd(b) - 1);
      InBox(v, x, x, b.y0, y, b.z0, b.z1);
    }
    forall v | v in A
      ensures v !in B
    {
      InBox(v, x, x, b.y0, y - 1, b.z0, b.z1);
      InBox(v, x, x, y, y, b.z0, ZEnd(b) - 1);
    }
    assert A + B == C;
    BagOfDisjointUnion(A, B);
  }

  /** The toggled voxels after one more line of sheet x. */
  lemma {:induction false} SheetStep(done: multiset<Voxel>, mid: multiset<Voxel>, seen: multiset<Voxel>,
                  b: Block, x: int, y: int)
    requires b.y0 <= y && mid == done + multiset(SheetBefore(b, x, y))
    requires seen == mid + multiset(LineBefore(x, y, b.z0, ZEnd(b)))
    ensures seen == done + multiset(SheetBefore(b, x, y + 1))
  {
    SheetGrows(b, x, y);
    BagAssoc(done, multiset(SheetBefore(b, x, y)), multiset(LineBefore(x, y, b.z0, ZEnd(b))));
  }

  /** A finished sheet joins the sheets before it. */
  lemma {:induction false} SheetsGrow(b: Block, x: int)
    requires b.x0 <= x
    ensures multiset(SheetsBefore(b, x)) + multiset(SheetBefore(b, x, YEnd(b)))
            == multiset(SheetsBefore(b, x + 1))
  {
    var A := SheetsBefore(b, x);
    var B := SheetBefore(b, x, YEnd(b));
    var C := SheetsBefore(b, x + 1);
    forall v | v in A + B
      ensures v in C
    {
      InBox(v, b.x0, x - 1, b.y0, b.y1, b.z0, b.z1);
      InBox(v, x, x, b.y0, YEnd(b) - 1, b.z0, b.z1);
      InBox(v, b.x0, x, b.y0, b.y1, b.z0, b.z1);
    }
    forall v | v in C
      ensures v in A + B
    {
      InBox(v, b.x0, x - 1, b.y0, b.y1, b.z0, b.z1);
      InBox(v, x, x, b.y0, YEnd(b) - 1, b.z0, b.z1);
      InBox(v, b.x0, x, b.y0, b.y1, b.z0, b.z1);
    }
    forall v | v in A
      ensures v !in B
    {
      InBox(v, b.x0, x - 1, b.y0, b.y1, b.z0, b.z1);
      InBox(v, x, x, b.y0, YEnd(b) - 1, b.z0, b.z1);
    }
    assert A + B == C;
    BagOfDisjointUnion(A, B);
  }

  /** The toggled voxels after one more sheet of block b. */
  lemma {:induction false} SheetsStep(before: multiset<Voxel>, seen: multiset<Voxel>, b: Block, x: int)
    requires b.x0 <= x
    requires seen == before + multiset(SheetsBefore(b, x)) + multiset(SheetBefore(b, x, YEnd(b)))
    ensures seen == before + multiset(SheetsBefore(b, x + 1))
  {
    SheetsGrow(b, x);
    BagAssoc(before, multiset(SheetsBefore(b, x)), multiset(SheetBefore(b, x, YEnd(b))));
  }

  /** After the last sheet the whole block has been toggled. */
  lemma {:induction false} BlockDone(b: Block, xEnd: int)
    requires xEnd == if b.x0 <= b.x1 then b.x1 + 1 else b.x0
    ensures SheetsBefore(b, xEnd) == Voxels(b)
  {
  }
}
