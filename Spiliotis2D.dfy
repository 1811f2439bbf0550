/** The Spiliotis-Mertzios decomposition of a binary 2D image into rectangular blocks: a row scan
    finds the horizontal runs of black pixels, and a run is merged into the block above it when
    both span the same columns. */
module Spiliotis2D {
  import opened SetSums
  import opened Outcomes
  import opened Commons2D
  import opened Slots

  /** A block covering the rectangle [x0, x1] x [y0, y1], endpoints included.  The source's
      copy constructor and `set` become value construction: every block stored in a list is a
      copy, so no two places share one. */
  datatype Block = Block(x0: int, y0: int, x1: int, y1: int)

  /** The pixels of a block. */
  function Pixels(b: Block): set<Pixel>
  {
    Rect(b.x0, b.x1, b.y0, b.y1)
  }

  predicate NonEmpty(b: Block)
  {
    b.x0 <= b.x1 && b.y0 <= b.y1
  }

  function Width(b: Block): int
  {
    b.x1 - b.x0 + 1
  }

  function Height(b: Block): int
  {
    b.y1 - b.y0 + 1
  }

  /** has_equal_xy: the two blocks have the same bounds. */
  function HasEqualXY(a: Block, b: Block): (r: bool)
    ensures r <==> a == b
  {
    a.x0 == b.x0 && a.x1 == b.x1 && a.y0 == b.y0 && a.y1 == b.y1
  }

  /** Two non-empty blocks have equal bounds exactly when they cover the same pixels. */
  lemma {:induction false} EqualXYIsSamePixels(a: Block, b: Block)
    requires NonEmpty(a) && NonEmpty(b)
    ensures HasEqualXY(a, b) <==> Pixels(a) == Pixels(b)
  {
    if Pixels(a) == Pixels(b) {
      InRect(Pixel(a.x0, a.y0), a.x0, a.x1, a.y0, a.y1);
      InRect(Pixel(a.x1, a.y1), a.x0, a.x1, a.y0, a.y1);
      InRect(Pixel(a.x0, a.y0), b.x0, b.x1, b.y0, b.y1);
      InRect(Pixel(a.x1, a.y1), b.x0, b.x1, b.y0, b.y1);
      InRect(Pixel(b.x0, b.y0), b.x0, b.x1, b.y0, b.y1);
      InRect(Pixel(b.x1, b.y1), b.x0, b.x1, b.y0, b.y1);
      InRect(Pixel(b.x0, b.y0), a.x0, a.x1, a.y0, a.y1);
      InRect(Pixel(b.x1, b.y1), a.x0, a.x1, a.y0, a.y1);
    }
  }

  /** pixel_num: width times height. */
  function PixelNum(b: Block): int
  {
    Width(b) * Height(b)
  }

  /** A non-empty block holds pixel_num pixels. */
  lemma {:induction false} PixelNumCounts(b: Block)
    requires NonEmpty(b)
    ensures PixelNum(b) == |Pixels(b)| && PixelNum(b) >= 1
  {
    RectSize(b.x0, b.x1, b.y0, b.y1);
  }

  /** Over a list of disjoint non-empty blocks, the pixel_num values add up to the number of
      pixels covered. */
  lemma {:induction false} PixelNumSum(blocks: seq<Block>)
    requires SeqDisjoint(blocks, Pixels)
    requires forall i :: 0 <= i < |blocks| ==> NonEmpty(blocks[i])
    ensures SumSeq(blocks, PixelNum) == |UnionSeq(blocks, Pixels)|
  {
    forall i | 0 <= i < |blocks|
      ensures PixelNum(blocks[i]) == SumOver(Pixels(blocks[i]), Weight(0, 0))
    {
      PixelNumCounts(blocks[i]);
      MomentZeroIsCount(Pixels(blocks[i]));
    }
    SumOverUnionSeq(blocks, Pixels, Weight(0, 0), PixelNum);
    MomentZeroIsCount(UnionSeq(blocks, Pixels));
  }

  /** BW_BlockImage2D: the list of blocks of a decomposition and the size of its image. */
  class BlockImage2D {
    var block: seq<Block>
    var origsize: int

    constructor ()
      ensures block == [] && origsize == 0
    {
      block := [];
      origsize := 0;
    }

    method AddBlock(b: Block)
      modifies this
      ensures block == old(block) + [b] && origsize == old(origsize)
    {
      block := block + [b];
    }

    /** max_edge: the longest side of any block (0 without blocks). */
    method MaxEdge() returns (m: int)
      ensures m == if MaxOver(block, Width) >= MaxOver(block, Height)
                   then MaxOver(block, Width) else MaxOver(block, Height)
    {
      m := 0;
      for i := 0 to |block|
        invariant m == if MaxOver(block[..i], Width) >= MaxOver(block[..i], Height)
                       then MaxOver(block[..i], Width) else MaxOver(block[..i], Height)
      {
        assert block[..i + 1][..i] == block[..i];
        var b := block[i];
        if Width(b) > m {
          m := Width(b);
        }
        if Height(b) > m {
          m := Height(b);
        }
      }
      assert block[..|block|] == block;
    }

    /** max_pair: the greatest height and the greatest width, in that order. */
    method MaxPair() returns (h: int, w: int)
      ensures h == MaxOver(block, Height) && w == MaxOver(block, Width)
    {
      w, h := 0, 0;
      for i := 0 to |block|
        invariant h == MaxOver(block[..i], Height) && w == MaxOver(block[..i], Width)
      {
        assert block[..i + 1][..i] == block[..i];
        var b := block[i];
        if Width(b) > w {
          w := Width(b);
        }
        if Height(b) > h {
          h := Height(b);
        }
      }
      assert block[..|block|] == block;
    }
  }

  /** max_edge is the larger of the two values max_pair returns. */
  lemma {:induction false} MaxEdgeIsLargerOfPair(blocks: seq<Block>)
    ensures var e := if MaxOver(blocks, Width) >= MaxOver(blocks, Height)
                     then MaxOver(blocks, Width) else MaxOver(blocks, Height);
            e >= 0 && (forall i :: 0 <= i < |blocks| ==> Width(blocks[i]) <= e && Height(blocks[i]) <= e)
            && (e == 0 || exists i :: 0 <= i < |blocks| && (Width(blocks[i]) == e || Height(blocks[i]) == e))
  {
  }

  // ----- The scan -----

  /** The pixels of img the scan reads: columns 0..SX of rows 0..SY. */
  ghost function InRange(img: set<Pixel>, SX: int, SY: int): set<Pixel>
  {
    set p | p in img && 0 <= p.x <= SX && 0 <= p.y <= SY
  }

  /** The pixels of img (within columns 0..SX) the scan has passed before column x of row y. */
  ghost function Scanned(img: set<Pixel>, SX: int, y: int, x: int): set<Pixel>
  {
    set p | p in img && 0 <= p.x <= SX && 0 <= p.y && (p.y < y || (p.y == y && p.x < x))
  }

  /** Row y of the columns x0..x1 is a whole run: the pixels just left and just right of it
      are white or outside the columns 0..SX. */
  ghost predicate RunEnds(img: set<Pixel>, SX: int, x0: int, x1: int, y: int)
  {
    (x0 == 0 || Pixel(x0 - 1, y) !in img) && (x1 == SX || Pixel(x1 + 1, y) !in img)
  }

  /** A block the decomposition may produce: inside the scanned range, and every row of it a
      maximal run. */
  ghost predicate Good(b: Block, img: set<Pixel>, SX: int, SY: int)
  {
    0 <= b.x0 <= b.x1 <= SX && 0 <= b.y0 <= b.y1 <= SY
    && forall y :: b.y0 <= y <= b.y1 ==> RunEnds(img, SX, b.x0, b.x1, y)
  }

  ghost predicate AllGood(blocks: seq<Block>, img: set<Pixel>, SX: int, SY: int)
  {
    forall i :: 0 <= i < |blocks| ==> Good(blocks[i], img, SX, SY)
  }

  /** The slot array is indexed by the last column: slot k is empty or holds a block with
      x1 == k. */
  ghost predicate SlotsValid(temp: seq<Option<Block>>, img: set<Pixel>, SX: int, SY: int)
  {
    forall k :: 0 <= k < |temp| && temp[k].Some? ==>
      temp[k].value.x1 == k && Good(temp[k].value, img, SX, SY)
  }

  /** The invariant of the scan: finished and pending blocks are apart, are good, and cover
      exactly the pixels passed before column lim of row y. */
  ghost predicate ScanInvariant(blocks: seq<Block>, temp: seq<Option<Block>>, img: set<Pixel>,
                                SX: int, SY: int, y: int, lim: int)
  {
    Apart(blocks, temp, Pixels) && Covered(blocks, temp, Pixels) == Scanned(img, SX, y, lim)
    && AllGood(blocks, img, SX, SY) && SlotsValid(temp, img, SX, SY)
  }

  /** The invariant only depends on the pixels scanned, not on where the scan stands. */
  lemma {:induction false} ScanMoves(blocks: seq<Block>, temp: seq<Option<Block>>, img: set<Pixel>, SX: int, SY: int,
                  y: int, lim: int, y': int, lim': int)
    requires ScanInvariant(blocks, temp, img, SX, SY, y, lim)
    requires Scanned(img, SX, y, lim) == Scanned(img, SX, y', lim')
    ensures ScanInvariant(blocks, temp, img, SX, SY, y', lim')
  {
  }

  /** A run of black pixels start..x-1 of row y ends the part scanned before its start. */
  lemma {:induction false} ScannedRun(img: set<Pixel>, SX: int, y: int, start: int, x: int)
    requires 0 <= start <= x <= SX + 1 && 0 <= y
    requires Rect(start, x - 1, y, y) <= img
    ensures Scanned(img, SX, y, x) == Scanned(img, SX, y, start) + Rect(start, x - 1, y, y)
    ensures Scanned(img, SX, y, start) !! Rect(start, x - 1, y, y)
  {
    var run := Rect(start, x - 1, y, y);
    forall p | p in Scanned(img, SX, y, x)
      ensures p in Scanned(img, SX, y, start) + run
    {
      InRect(p, start, x - 1, y, y);
    }
    forall p | p in run
      ensures p in Scanned(img, SX, y, x) && p !in Scanned(img, SX, y, start)
    {
      InRect(p, start, x - 1, y, y);
    }
  }

  /** A white pixel adds nothing to the scanned part. */
  lemma {:induction false} ScannedWhite(img: set<Pixel>, SX: int, y: int, x: int)
    requires Pixel(x, y) !in img
    ensures Scanned(img, SX, y, x + 1) == Scanned(img, SX, y, x)
  {
    forall p | p in Scanned(img, SX, y, x + 1)
      ensures p in Scanned(img, SX, y, x)
    {
      assert p != Pixel(x, y);
    }
  }

  /** Passing the end of a row is starting the next one. */
  lemma {:induction false} ScannedNextRow(img: set<Pixel>, SX: int, y: int, x: int)
    requires SX < x
    ensures Scanned(img, SX, y + 1, 0) == Scanned(img, SX, y, x)
  {
  }

  /** After the last row everything in range has been scanned. */
  lemma {:induction false} ScannedAll(img: set<Pixel>, SX: int, SY: int, ny: int)
    requires ny == if SY + 1 < 0 then 0 else SY + 1
    ensures Scanned(img, SX, ny, 0) == InRange(img, SX, SY)
  {
  }

  /** One more black pixel lengthens a run. */
  lemma {:induction false} RunGrows(img: set<Pixel>, start: int, x: int, y: int)
    requires Rect(start, x - 1, y, y) <= img && Pixel(x, y) in img
    ensures Rect(start, x, y, y) <= img
  {
    forall p | p in Rect(start, x, y, y)
      ensures p in img
    {
      InRect(p, start, x, y, y);
      if p.x < x {
        InRect(p, start, x - 1, y, y);
      }
    }
  }

  /** Adding row y below a rectangle ending at row y - 1. */
  lemma {:induction false} ExtendDown(x0: int, x1: int, y0: int, y: int)
    requires y0 <= y
    ensures Rect(x0, x1, y0, y) == Rect(x0, x1, y0, y - 1) + Rect(x0, x1, y, y)
  {
    forall p | p in Rect(x0, x1, y0, y)
      ensures p in Rect(x0, x1, y0, y - 1) + Rect(x0, x1, y, y)
    {
      InRect(p, x0, x1, y0, y);
      InRect(p, x0, x1, y0, y - 1);
      InRect(p, x0, x1, y, y);
    }
  }

  /** The blocks are apart and good, and the slots are valid. */
  ghost predicate Kept(blocks: seq<Block>, temp: seq<Option<Block>>, img: set<Pixel>, SX: int, SY: int)
  {
    Apart(blocks, temp, Pixels) && AllGood(blocks, img, SX, SY) && SlotsValid(temp, img, SX, SY)
  }

  /** What the scan knows when the run start..xe of row y ends: the run is black, maximal,
      and not yet covered. */
  ghost predicate RunReady(blocks: seq<Block>, temp: seq<Option<Block>>, img: set<Pixel>,
                           SX: int, SY: int, start: int, xe: int, y: int)
  {
    0 <= start <= xe <= SX && xe < |temp| && 0 <= y <= SY
    && Rect(start, xe, y, y) <= img && RunEnds(img, SX, start, xe, y)
    && Rect(start, xe, y, y) !! Covered(blocks, temp, Pixels)
    && Kept(blocks, temp, img, SX, SY)
  }

  lemma {:induction false} SlotCellsSome(b: Block)
    ensures SlotCells(Pixels)(Some(b)) == Pixels(b)
  {
  }

  /** The pending block at slot xe spans the run's columns and ends at row y - 1: it grows
      down by the run. */
  lemma {:induction false} ExtendSlot(blocks: seq<Block>, temp: seq<Option<Block>>, img: set<Pixel>,
                   SX: int, SY: int, start: int, xe: int, y: int)
    requires RunReady(blocks, temp, img, SX, SY, start, xe, y)
    requires temp[xe].Some? && temp[xe].value.x0 == start && temp[xe].value.y1 == y - 1
    ensures var b := temp[xe].value;
            var temp' := temp[xe := Some(Block(b.x0, b.y0, b.x1, y))];
            Kept(blocks, temp', img, SX, SY)
            && Covered(blocks, temp', Pixels) == Covered(blocks, temp, Pixels) + Rect(start, xe, y, y)
  {
    var b := temp[xe].value;
    var nb := Block(b.x0, b.y0, b.x1, y);
    ExtendDown(b.x0, b.x1, b.y0, y);
    SlotCellsSome(b);
    SlotCellsSome(nb);
    ReplaceSlot(blocks, temp, xe, Some(nb), Rect(start, xe, y, y), Pixels);
    var temp' := temp[xe := Some(nb)];
    forall k | 0 <= k < |temp'| && temp'[k].Some?
      ensures temp'[k].value.x1 == k && Good(temp'[k].value, img, SX, SY)
    {
      if k != xe {
        assert temp'[k] == temp[k];
      }
    }
  }

  /** The pending block at slot xe does not fit the run: it is flushed and the slot restarts
      with the run. */
  lemma {:induction false} FlushSlot(blocks: seq<Block>, temp: seq<Option<Block>>, img: set<Pixel>,
                  SX: int, SY: int, start: int, xe: int, y: int)
    requires RunReady(blocks, temp, img, SX, SY, start, xe, y)
    requires temp[xe].Some?
    ensures var blocks' := blocks + [temp[xe].value];
            var temp' := temp[xe := Some(Block(start, y, xe, y))];
            Kept(blocks', temp', img, SX, SY)
            && Covered(blocks', temp', Pixels) == Covered(blocks, temp, Pixels) + Rect(start, xe, y, y)
  {
    var b := temp[xe].value;
    var nb := Block(start, y, xe, y);
    MoveSlot(blocks, temp, xe, Pixels);
    SlotCellsSome(nb);
    ReplaceSlot(blocks + [b], temp[xe := None], xe, Some(nb), Rect(start, xe, y, y), Pixels);
    assert temp[xe := None][xe := Some(nb)] == temp[xe := Some(nb)];
    var temp' := temp[xe := Some(nb)];
    forall k | 0 <= k < |temp'| && temp'[k].Some?
      ensures temp'[k].value.x1 == k && Good(temp'[k].value, img, SX, SY)
    {
      if k != xe {
        assert temp'[k] == temp[k];
      }
    }
  }

  /** Slot xe is empty: it starts a block with the run. */
  lemma {:induction false} NewSlot(blocks: seq<Block>, temp: seq<Option<Block>>, img: set<Pixel>,
                SX: int, SY: int, start: int, xe: int, y: int)
    requires RunReady(blocks, temp, img, SX, SY, start, xe, y)
    requires temp[xe].None?
    ensures var temp' := temp[xe := Some(Block(start, y, xe, y))];
            Kept(blocks, temp', img, SX, SY)
            && Covered(blocks, temp', Pixels) == Covered(blocks, temp, Pixels) + Rect(start, xe, y, y)
  {
    var nb := Block(start, y, xe, y);
    SlotCellsSome(nb);
    ReplaceSlot(blocks, temp, xe, Some(nb), Rect(start, xe, y, y), Pixels);
    var temp' := temp[xe := Some(nb)];
    forall k | 0 <= k < |temp'| && temp'[k].Some?
      ensures temp'[k].value.x1 == k && Good(temp'[k].value, img, SX, SY)
    {
      if k != xe {
        assert temp'[k] == temp[k];
      }
    }
  }

  /** At the end of the scan a pending block is moved to the output. */
  lemma {:induction false} FlushPending(blocks: seq<Block>, temp: seq<Option<Block>>, k: int, img: set<Pixel>,
                     SX: int, SY: int)
    requires 0 <= k < |temp| && temp[k].Some? && Kept(blocks, temp, img, SX, SY)
    ensures Kept(blocks + [temp[k].value], temp[k := None], img, SX, SY)
    ensures Covered(blocks + [temp[k].value], temp[k := None], Pixels) == Covered(blocks, temp, Pixels)
  {
    MoveSlot(blocks, temp, k, Pixels);
    var temp' := temp[k := None];
    forall i | 0 <= i < |temp'| && temp'[i].Some?
      ensures temp'[i].value.x1 == i && Good(temp'[i].value, img, SX, SY)
    {
      assert temp'[i] == temp[i];
    }
  }

  /** The run start..xe of row y has ended: the block pending at slot xe is extended down by
      it when it spans the same columns and ends at row y - 1; otherwise the pending block is
      flushed to the output and the slot restarts with the run.  The source writes this code
      twice, for a run ended by a white pixel and for a run ended by the end of the row. */
  method CloseRun(slice: BlockImage2D, temp: array<Option<Block>>, start: int, xe: int, y: int,
                  ghost img: set<Pixel>, ghost SX: int, ghost SY: int)
    requires 0 <= start <= xe <= SX && xe < temp.Length && 0 <= y <= SY
    requires Rect(start, xe, y, y) <= img && RunEnds(img, SX, start, xe, y)
    requires ScanInvariant(slice.block, temp[..], img, SX, SY, y, start)
    modifies slice, temp
    ensures ScanInvariant(slice.block, temp[..], img, SX, SY, y, xe + 1)
    ensures slice.origsize == old(slice.origsize)
  {
    ScannedRun(img, SX, y, start, xe + 1);
    ghost var slots := temp[..];
    if temp[xe] != None {
      var b := temp[xe].value;
      if b.x0 == start && b.y1 == y - 1 {
        ExtendSlot(slice.block, slots, img, SX, SY, start, xe, y);
        temp[xe] := Some(Block(b.x0, b.y0, b.x1, y));
        assert temp[..] == slots[xe := Some(Block(b.x0, b.y0, b.x1, y))];
      } else {
        FlushSlot(slice.block, slots, img, SX, SY, start, xe, y);
        slice.AddBlock(b);
        temp[xe] := Some(Block(start, y, xe, y));
        assert temp[..] == slots[xe := Some(Block(start, y, xe, y))];
      }
    } else {
      NewSlot(slice.block, slots, img, SX, SY, start, xe, y);
      temp[xe] := Some(Block(start, y, xe, y));
      assert temp[..] == slots[xe := Some(Block(start, y, xe, y))];
    }
  }

  /** One row y of the scan: runs are detected left to right, and each run is closed when a
      white pixel or the end of the row ends it. */
  method ScanRow(slice: BlockImage2D, temp: array<Option<Block>>, y: int,
                 img: set<Pixel>, SX: int, ghost SY: int)
    requires temp.Length == (if SX + 1 < 0 then 0 else SX + 1) && 0 <= y <= SY
    requires ScanInvariant(slice.block, temp[..], img, SX, SY, y, 0)
    modifies slice, temp
    ensures ScanInvariant(slice.block, temp[..], img, SX, SY, y + 1, 0)
    ensures slice.origsize == old(slice.origsize)
  {
    var start := 0;
    var inRun := false;
    for x := 0 to temp.Length
      invariant ScanInvariant(slice.block, temp[..], img, SX, SY, y, if inRun then start else x)
      invariant inRun ==> 0 <= start < x && Rect(start, x - 1, y, y) <= img
                          && (start == 0 || Pixel(start - 1, y) !in img)
      invariant !inRun ==> x == 0 || Pixel(x - 1, y) !in img
      invariant slice.origsize == old(slice.origsize)
    {
      if inRun && Pixel(x, y) !in img {
        inRun := false;
        CloseRun(slice, temp, start, x - 1, y, img, SX, SY);
        ScannedWhite(img, SX, y, x);
        ScanMoves(slice.block, temp[..], img, SX, SY, y, x, y, x + 1);
      } else if !inRun && Pixel(x, y) in img {
        start := x;
        inRun := true;
        RunGrows(img, x, x, y);
      } else if inRun {
        RunGrows(img, start, x, y);
      } else {
        ScannedWhite(img, SX, y, x);
        ScanMoves(slice.block, temp[..], img, SX, SY, y, x, y, x + 1);
      }
    }
    if inRun {
      CloseRun(slice, temp, start, SX, y, img, SX, SY);
    }
    ScannedNextRow(img, SX, y, temp.Length);
    ScanMoves(slice.block, temp[..], img, SX, SY, y, temp.Length, y + 1, 0);
  }

  /** The end of the scan: every block still pending is written out, slot by slot. */
  method FlushAll(slice: BlockImage2D, temp: array<Option<Block>>, ghost img: set<Pixel>,
                  ghost SX: int, ghost SY: int)
    requires Kept(slice.block, temp[..], img, SX, SY)
    requires Covered(slice.block, temp[..], Pixels) == InRange(img, SX, SY)
    modifies slice
    ensures AllGood(slice.block, img, SX, SY) && SeqDisjoint(slice.block, Pixels)
    ensures UnionSeq(slice.block, Pixels) == InRange(img, SX, SY)
    ensures slice.origsize == old(slice.origsize)
  {
    ghost var pend := temp[..];
    for x := 0 to temp.Length
      invariant Kept(slice.block, pend, img, SX, SY)
      invariant Covered(slice.block, pend, Pixels) == InRange(img, SX, SY)
      invariant |pend| == temp.Length && forall k :: x <= k < temp.Length ==> pend[k] == temp[k]
      invariant forall k :: 0 <= k < x ==> pend[k].None?
      invariant slice.origsize == old(slice.origsize)
    {
      if temp[x].Some? {
        FlushPending(slice.block, pend, x, img, SX, SY);
        slice.AddBlock(temp[x].value);
        pend := pend[x := None];
      }
    }
    EmptySlots(pend, Pixels);
  }

  /** extractSliceBlocks: the decomposition of the pixels of img in columns 0..SX and rows
      0..SY.  The blocks are pairwise disjoint, cover exactly those pixels, and every row of
      every block is a maximal run of black pixels. */
  method ExtractSliceBlocks(img: set<Pixel>, SX: int, SY: int) returns (slice: BlockImage2D)
    ensures fresh(slice)
    ensures slice.origsize == if SX >= SY then SX else SY
    ensures SeqDisjoint(slice.block, Pixels)
    ensures UnionSeq(slice.block, Pixels) == InRange(img, SX, SY)
    ensures AllGood(slice.block, img, SX, SY)
  {
    var nx := if SX + 1 < 0 then 0 else SX + 1;
    var ny := if SY + 1 < 0 then 0 else SY + 1;
    var temp := new Option<Block>[nx](_ => None);
    slice := new BlockImage2D();
    slice.origsize := if SX >= SY then SX else SY;
    EmptySlots(temp[..], Pixels);
    for y := 0 to ny
      invariant ScanInvariant(slice.block, temp[..], img, SX, SY, y, 0)
      invariant slice.origsize == if SX >= SY then SX else SY
    {
      ScanRow(slice, temp, y, img, SX, SY);
    }
    ScannedAll(img, SX, SY, ny);
    FlushAll(slice, temp, img, SX, SY);
  }

  /** The pixels of a list with both coordinates non-negative. */
  function Visible(pixels: seq<Pixel>): set<Pixel>
  {
    set p | p in pixels && 0 <= p.x && 0 <= p.y
  }

  /** extractBlocks: the decomposition of a list of black pixels, over the columns and rows
      up to the largest coordinates listed.  `max` of an empty list raises ValueError.
      Pixels with a negative coordinate are outside every scanned row or column and are
      dropped. */
  method ExtractBlocks(pixels: seq<Pixel>) returns (r: Result<BlockImage2D>)
    ensures r.Failure? <==> |pixels| == 0
    ensures r.Failure? ==> r.error == ValueError
    ensures r.Success? ==>
              var SX := MaxOf(seq(|pixels|, i requires 0 <= i < |pixels| => pixels[i].x));
              var SY := MaxOf(seq(|pixels|, i requires 0 <= i < |pixels| => pixels[i].y));
              fresh(r.value)
              && r.value.origsize == (if SX >= SY then SX else SY)
              && SeqDisjoint(r.value.block, Pixels)
              && UnionSeq(r.value.block, Pixels) == Visible(pixels)
              && AllGood(r.value.block, PixelSet(pixels), SX, SY)
  {
    if |pixels| == 0 {
      return Failure(ValueError);
    }
    var xs := seq(|pixels|, i requires 0 <= i < |pixels| => pixels[i].x);
    var ys := seq(|pixels|, i requires 0 <= i < |pixels| => pixels[i].y);
    var SX := MaxOf(xs);
    var SY := MaxOf(ys);
    var img := PixelSet(pixels);
    var slice := ExtractSliceBlocks(img, SX, SY);
    forall p | p in Visible(pixels)
      ensures p in InRange(img, SX, SY)
    {
      var i :| 0 <= i < |pixels| && pixels[i] == p;
      assert xs[i] == p.x && ys[i] == p.y;
    }
    r := Success(slice);
  }

  // ----- checkBlocks -----

  /** checkBlocks: every pixel of every block is toggled in the image (given as a list of
      black pixels); the blocks represent the image when no toggled pixel was white and no
      black pixel is left.  That is, when the blocks list each pixel as often as the image;
      SeqBagIsPartition says when that is. */
  method CheckBlocks(blocks: seq<Block>, img: seq<Pixel>) returns (ok: bool)
    ensures ok <==> SeqBag(blocks, Pixels) == multiset(img)
  {
    var rest := img;
    ok := true;
    for i := 0 to |blocks|
      invariant multiset(rest) == multiset(img) - SeqBag(blocks[..i], Pixels)
      invariant ok <==> SeqBag(blocks[..i], Pixels) <= multiset(img)
    {
      assert blocks[..i + 1][..i] == blocks[..i];
      rest, ok := ToggleBlock(blocks[i], rest, ok, multiset(img), SeqBag(blocks[..i], Pixels));
    }
    assert blocks[..|blocks|] == blocks;
    if |rest| > 0 {
      ok := false;
    }
    RemovalEnds(multiset(img), SeqBag(blocks, Pixels), rest);
  }

  /** The two inner loops of checkBlocks: the pixels of block b are toggled column by column.
      M is the image as it was given and before the pixels toggled before b. */
  method ToggleBlock(b: Block, rest0: seq<Pixel>, ok0: bool, ghost M: multiset<Pixel>,
                     ghost before: multiset<Pixel>) returns (rest: seq<Pixel>, ok: bool)
    requires multiset(rest0) == M - before && (ok0 <==> before <= M)
    ensures multiset(rest) == M - (before + multiset(Pixels(b)))
    ensures ok <==> before + multiset(Pixels(b)) <= M
  {
    rest, ok := rest0, ok0;
    ghost var seen := before;
    var xEnd := if b.x0 <= b.x1 then b.x1 + 1 else b.x0;
    var yEnd := if b.y0 <= b.y1 then b.y1 + 1 else b.y0;
    for x := b.x0 to xEnd
      invariant seen == before + multiset(ColumnsBefore(b, x))
      invariant multiset(rest) == M - seen
      invariant ok <==> seen <= M
    {
      rest, ok, seen := ToggleColumn(x, b.y0, yEnd, rest, ok, M, seen);
      ColumnsStep(before, seen, b, x, yEnd);
    }
    BlockDone(b, xEnd);
  }

  /** The innermost loop of checkBlocks: the pixels (x, y0) .. (x, yEnd - 1) are toggled.
      A pixel still black is removed from the list; a white one makes the check fail.  The
      ghost result seen is the pixels toggled so far. */
  method ToggleColumn(x: int, y0: int, yEnd: int, rest0: seq<Pixel>, ok0: bool,
                      ghost M: multiset<Pixel>, ghost done: multiset<Pixel>)
    returns (rest: seq<Pixel>, ok: bool, ghost seen: multiset<Pixel>)
    requires y0 <= yEnd
    requires multiset(rest0) == M - done && (ok0 <==> done <= M)
    ensures seen == done + multiset(ColumnBefore(x, y0, yEnd))
    ensures multiset(rest) == M - seen && (ok <==> seen <= M)
  {
    rest, ok, seen := rest0, ok0, done;
    for y := y0 to yEnd
      invariant seen == done + multiset(ColumnBefore(x, y0, y))
      invariant multiset(rest) == M - seen
      invariant ok <==> seen <= M
    {
      var p := Pixel(x, y);
      RemovalStep(M, seen, rest, p);
      if p in rest {
        rest := RemoveFirst(rest, p);
      } else {
        ok := false;
      }
      ColumnStep(done, seen, x, y0, y);
      seen := seen + multiset{p};
    }
  }

  /** The pixels (x, y0) .. (x, y - 1): column x of a block toggled up to row y. */
  function ColumnBefore(x: int, y0: int, y: int): set<Pixel>
  {
    Rect(x, x, y0, y - 1)
  }

  /** The columns x0 .. x - 1 of a block: the part toggled before column x. */
  function ColumnsBefore(b: Block, x: int): set<Pixel>
  {
    Rect(b.x0, x - 1, b.y0, b.y1)
  }

  /** One more pixel at the bottom of a column of pixels. */
  lemma {:induction false} ColumnGrows(x: int, y0: int, y: int)
    requires y0 <= y
    ensures multiset(ColumnBefore(x, y0, y + 1)) == multiset(ColumnBefore(x, y0, y)) + multiset{Pixel(x, y)}
  {
    var A := ColumnBefore(x, y0, y);
    InRect(Pixel(x, y), x, x, y0, y - 1);
    forall p | p in ColumnBefore(x, y0, y + 1)
      ensures p in A + {Pixel(x, y)}
    {
      InRect(p, x, x, y0, y);
      InRect(p, x, x, y0, y - 1);
    }
    forall p | p in A
      ensures p in ColumnBefore(x, y0, y + 1)
    {
      InRect(p, x, x, y0, y);
      InRect(p, x, x, y0, y - 1);
    }
    assert ColumnBefore(x, y0, y + 1) == A + {Pixel(x, y)};
    BagOfDisjointUnion(A, {Pixel(x, y)});
  }

  /** The toggled pixels after one more pixel of column x. */
  lemma {:induction false} ColumnStep(done: multiset<Pixel>, seen: multiset<Pixel>, x: int, y0: int, y: int)
    requires y0 <= y && seen == done + multiset(ColumnBefore(x, y0, y))
    ensures seen + multiset{Pixel(x, y)} == done + multiset(ColumnBefore(x, y0, y + 1))
  {
    ColumnGrows(x, y0, y);
    BagAssoc(done, multiset(ColumnBefore(x, y0, y)), multiset{Pixel(x, y)});
  }

  /** The toggled pixels after one more column of block b. */
  lemma {:induction false} ColumnsStep(before: multiset<Pixel>, seen: multiset<Pixel>, b: Block, x: int, yEnd: int)
    requires b.x0 <= x && yEnd == if b.y0 <= b.y1 then b.y1 + 1 else b.y0
    requires seen == before + multiset(ColumnsBefore(b, x)) + multiset(ColumnBefore(x, b.y0, yEnd))
    ensures seen == before + multiset(ColumnsBefore(b, x + 1))
  {
    ColumnsGrow(b, x, yEnd);
    BagAssoc(before, multiset(ColumnsBefore(b, x)), multiset(ColumnBefore(x, b.y0, yEnd)));
  }

  /** A finished column joins the columns before it. */
  lemma {:induction false} ColumnsGrow(b: Block, x: int, yEnd: int)
    requires b.x0 <= x && yEnd == if b.y0 <= b.y1 then b.y1 + 1 else b.y0
    ensures multiset(ColumnsBefore(b, x)) + multiset(ColumnBefore(x, b.y0, yEnd))
            == multiset(ColumnsBefore(b, x + 1))
  {
    var A := ColumnsBefore(b, x);
    var B := ColumnBefore(x, b.y0, yEnd);
    var C := ColumnsBefore(b, x + 1);
    forall p | p in A + B
      ensures p in C
    {
      InRect(p, b.x0, x - 1, b.y0, b.y1);
      InRect(p, x, x, b.y0, yEnd - 1);
      InRect(p, b.x0, x, b.y0, b.y1);
    }
    forall p | p in C
      ensures p in A + B
    {
      InRect(p, b.x0, x - 1, b.y0, b.y1);
      InRect(p, x, x, b.y0, yEnd - 1);
      InRect(p, b.x0, x, b.y0, b.y1);
    }
    forall p | p in A
      ensures p !in B
    {
      InRect(p, b.x0, x - 1, b.y0, b.y1);
      InRect(p, x, x, b.y0, yEnd - 1);
    }
    assert A + B == C;
    BagOfDisjointUnion(A, B);
  }

  /** After the last column the whole block has been toggled. */
  lemma {:induction false} BlockDone(b: Block, xEnd: int)
    requires xEnd == if b.x0 <= b.x1 then b.x1 + 1 else b.x0
    ensures ColumnsBefore(b, xEnd) == Pixels(b)
  {
  }
}
