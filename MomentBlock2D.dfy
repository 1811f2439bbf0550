/** The direct moment method on the blocks of a 2D image: for each order (p, q) every block
    adds the product of its power sums along x and along y, each read from the power-sum table
    as a difference S_k(c1) - S_k(c0 - 1). */
module MomentBlock2D {
  import opened PowerSums
  import opened SetSums
  import opened Outcomes
  import opened BigMatrix
  import opened Commons2D
  import S2 = Spiliotis2D

  /** A column index n of the table as Python reads it: negative indices count from the end. */
  predicate InTable(pm: PowerMatrix, n: int)
  {
    -(pm.maxN + 1) <= n <= pm.maxN
  }

  /** The difference of two table entries is the range sum it stands for. */
  lemma {:induction false} DifferenceIsRangeSum(k: nat, c0: int, c1: int)
    ensures 0 <= c0 <= c1 ==> RangeSum(0, c0, c1) == c1 - c0 + 1
    ensures k >= 1 && 0 < c0 <= c1 ==> PowerSum(k, c1) - PowerSum(k, c0 - 1) == RangeSum(k, c0, c1)
    ensures k >= 1 && 0 == c0 <= c1 ==> PowerSum(k, c1) == RangeSum(k, c0, c1)
  {
    if 0 <= c0 <= c1 {
      RangeSumZero(c0, c1);
      if k >= 1 {
        RangeSumAsDifference(k, c0, c1);
      }
    }
  }

  /** The factor one axis contributes to a block's moment (mx, my or mz): the extent c1 - c0 + 1
      for order 0, otherwise S_k(c1) minus S_k(c0 - 1) when c0 > 0.  The lookup fails when the
      table was never built, and with IndexError outside the table. */
  function AxisSum(pm: PowerMatrix?, k: nat, c0: int, c1: int): (r: Result<int>)
    reads pm, if pm != null then {pm.matrix} else {}
    requires pm != null ==> pm.Valid() && k <= pm.maxK
    ensures k == 0 ==> r.Success?
    ensures k >= 1 && pm == null ==> r.Failure?
    ensures k >= 1 && pm != null ==>
              (r.Failure? <==> !InTable(pm, c1) || (c0 > 0 && !InTable(pm, c0 - 1)))
    ensures r.Failure? ==> r.error == (if pm == null then AttributeError else IndexError)
    ensures r.Success? && 0 <= c0 <= c1 ==> r.value == RangeSum(k, c0, c1)
  {
    DifferenceIsRangeSum(k, c0, c1);
    if k == 0 then
      Success(c1 - c0 + 1)
    else if pm == null then
      Failure(AttributeError)
    else
      var hi := pm.ValueSum(k, c1);
      if hi.Failure? then hi
      else if c0 > 0 then
        var lo := pm.ValueSum(k, c0 - 1);
        if lo.Failure? then lo else Success(hi.value - lo.value)
      else hi
  }

  /** Some axis factor of order (p, q) of the block cannot be read. */
  predicate AxisFails(pm: PowerMatrix?, p: nat, q: nat, b: S2.Block)
    reads pm, if pm != null then {pm.matrix} else {}
    requires pm != null ==> pm.Valid() && p <= pm.maxK && q <= pm.maxK
  {
    AxisSum(pm, p, b.x0, b.x1).Failure? || AxisSum(pm, q, b.y0, b.y1).Failure?
  }

  /** Reading the block's factors fails for some order: for order (1, 1), the failure of any
      order (p, q) implies this one. */
  predicate BlockFails(pm: PowerMatrix?, b: S2.Block)
    reads pm, if pm != null then {pm.matrix} else {}
    requires pm != null ==> pm.Valid() && 1 <= pm.maxK
  {
    AxisFails(pm, 1, 1, b)
  }

  /** A failure for any order is a failure for order (1, 1). */
  lemma {:induction false} AxisFailsAtOrderOne(pm: PowerMatrix?, p: nat, q: nat, b: S2.Block)
    requires pm != null ==> pm.Valid() && p <= pm.maxK && q <= pm.maxK && 1 <= pm.maxK
    ensures AxisFails(pm, p, q, b) ==> BlockFails(pm, b)
  {
  }

  /** Reference value of one block: its moment as a product of range sums along x and y. */
  function BlockMoment(p: nat, q: nat): S2.Block -> int
  {
    (b: S2.Block) => RangeSum(p, b.x0, b.x1) * RangeSum(q, b.y0, b.y1)
  }

  /** For blocks with pairwise disjoint pixels, the sum of the block moments is the moment of
      the union. */
  lemma {:induction false} BlockSumIsMoment(blocks: seq<S2.Block>, p: nat, q: nat)
    requires SeqDisjoint(blocks, S2.Pixels)
    ensures SumSeq(blocks, BlockMoment(p, q)) == Moment(UnionSeq(blocks, S2.Pixels), p, q)
  {
    forall i | 0 <= i < |blocks|
      ensures BlockMoment(p, q)(blocks[i]) == SumOver(S2.Pixels(blocks[i]), Weight(p, q))
    {
      var b := blocks[i];
      RectMoment(b.x0, b.x1, b.y0, b.y1, p, q);
    }
    SumOverUnionSeq(blocks, S2.Pixels, Weight(p, q), BlockMoment(p, q));
  }

  /** A dictionary holding every block-moment sum holds the moments of the pixels covered. */
  lemma {:induction false} MomentsOfBlocks(blocks: seq<S2.Block>, MM: map<(nat, nat), int>)
    requires SeqDisjoint(blocks, S2.Pixels) && MM.Keys == OrderKeys
    requires forall o :: o in Orders ==> MM[o] == SumSeq(blocks, BlockMoment(o.0, o.1))
    ensures forall o :: o in Orders ==> MM[o] == Moment(UnionSeq(blocks, S2.Pixels), o.0, o.1)
    ensures MM[(0, 0)] == |UnionSeq(blocks, S2.Pixels)|
  {
    forall o | o in Orders
      ensures MM[o] == Moment(UnionSeq(blocks, S2.Pixels), o.0, o.1)
    {
      BlockSumIsMoment(blocks, o.0, o.1);
    }
    FirstOrders();
    MomentZeroIsCount(UnionSeq(blocks, S2.Pixels));
  }

  /** Non-empty blocks with non-negative coordinates, as the decomposition produces. */
  predicate AllAnchored(blocks: seq<S2.Block>)
  {
    forall i :: 0 <= i < |blocks| ==> 0 <= blocks[i].x0 <= blocks[i].x1 && 0 <= blocks[i].y0 <= blocks[i].y1
  }

  /** The engine of momentBlock2D: the module global `powers` is its field. */
  class DirectEngine2D {
    var powers: PowerMatrix?

    ghost predicate Valid()
      reads this, powers, if powers != null then {powers.matrix} else {}
    {
      powers != null ==> powers.Valid() && powers.maxK == 3
    }

    /** The module as loaded: no table yet. */
    constructor ()
      ensures powers == null && Valid()
    {
      powers := null;
    }

    /** preprocessing: the table of S_k(n) for k <= 3 and 0 <= n <= origsize.  Building it
        for a negative size raises IndexError and leaves the old table in place. */
    method Preprocessing(ibr: S2.BlockImage2D) returns (err: Option<Error>)
      requires Valid()
      modifies this
      ensures Valid()
      ensures ibr.origsize < 0 ==> err == Some(IndexError) && powers == old(powers)
      ensures ibr.origsize >= 0 ==>
                err == None && powers != null && fresh(powers) && powers.maxN == ibr.origsize
    {
      if ibr.origsize < 0 {
        return Some(IndexError);
      }
      powers := new PowerMatrix(3, ibr.origsize);
      err := None;
    }

    /** The moment of one order: the sum over the blocks of mx * my, a product being added only
        when one of its factors is non-zero. */
    method OrderMoment(blocks: seq<S2.Block>, p: nat, q: nat) returns (r: Result<int>)
      requires Valid() && p <= 3 && q <= 3
      ensures r.Failure? <==> exists j :: 0 <= j < |blocks| && AxisFails(powers, p, q, blocks[j])
      ensures r.Failure? ==> r.error == (if powers == null then AttributeError else IndexError)
      ensures r.Success? && AllAnchored(blocks) ==> r.value == SumSeq(blocks, BlockMoment(p, q))
    {
      var m := 0;
      for j := 0 to |blocks|
        invariant forall j' :: 0 <= j' < j ==> !AxisFails(powers, p, q, blocks[j'])
        invariant AllAnchored(blocks) ==> m == SumSeq(blocks[..j], BlockMoment(p, q))
      {
        var b := blocks[j];
        var mx := AxisSum(powers, p, b.x0, b.x1);
        if mx.Failure? {
          return mx;
        }
        var my := AxisSum(powers, q, b.y0, b.y1);
        if my.Failure? {
          return my;
        }
        if mx.value != 0 || my.value != 0 {
          m := m + mx.value * my.value;
        }
        assert blocks[..j + 1][..j] == blocks[..j];
      }
      assert blocks[..|blocks|] == blocks;
      return Success(m);
    }

    /** The loop over the orders: the moment of each listed order replaces its entry of MM. */
    method FillOrders(blocks: seq<S2.Block>, os: seq<(nat, nat)>, MM0: map<(nat, nat), int>)
      returns (r: Result<map<(nat, nat), int>>)
      requires Valid()
      requires forall i :: 0 <= i < |os| ==> os[i].0 <= 3 && os[i].1 <= 3 && os[i] in MM0
      ensures r.Failure? <==> exists i, j :: 0 <= i < |os| && 0 <= j < |blocks|
                                            && AxisFails(powers, os[i].0, os[i].1, blocks[j])
      ensures r.Failure? ==> r.error == (if powers == null then AttributeError else IndexError)
      ensures r.Success? ==> r.value.Keys == MM0.Keys
      ensures r.Success? && AllAnchored(blocks) ==>
                forall i :: 0 <= i < |os| ==> r.value[os[i]] == SumSeq(blocks, BlockMoment(os[i].0, os[i].1))
    {
      var MM := MM0;
      for i := 0 to |os|
        invariant MM.Keys == MM0.Keys
        invariant forall i', j :: 0 <= i' < i && 0 <= j < |blocks| ==> !AxisFails(powers, os[i'].0, os[i'].1, blocks[j])
        invariant AllAnchored(blocks) ==>
                    forall i' :: 0 <= i' < i ==> MM[os[i']] == SumSeq(blocks, BlockMoment(os[i'].0, os[i'].1))
      {
        var (p, q) := os[i];
        var m := OrderMoment(blocks, p, q);
        if m.Failure? {
          return Failure(m.error);
        }
        MM := MM[(p, q) := m.value];
      }
      return Success(MM);
    }

    /** blockMoments: every moment of order at most 3 of the blocks.  It fails exactly when
        some block's factors cannot be read; otherwise each moment is the sum of the block
        moments, which for disjoint blocks is the moment of the pixels they cover. */
    method BlockMoments(ibr: S2.BlockImage2D) returns (r: Result<map<(nat, nat), int>>)
      requires Valid()
      ensures r.Failure? <==> exists j :: 0 <= j < |ibr.block| && BlockFails(powers, ibr.block[j])
      ensures r.Failure? ==> r.error == (if powers == null then AttributeError else IndexError)
      ensures r.Success? ==> r.value.Keys == OrderKeys
      ensures r.Success? && AllAnchored(ibr.block) ==>
                forall o :: o in Orders ==> r.value[o] == SumSeq(ibr.block, BlockMoment(o.0, o.1))
      ensures r.Success? && AllAnchored(ibr.block) && SeqDisjoint(ibr.block, S2.Pixels) ==>
                && (forall o :: o in Orders ==> r.value[o] == Moment(UnionSeq(ibr.block, S2.Pixels), o.0, o.1))
                && r.value[(0, 0)] == |UnionSeq(ibr.block, S2.Pixels)|
    {
      var blocks := ibr.block;
      FirstOrders();
      var MM := map o | o in Orders :: 0;
      r := FillOrders(blocks, Orders, MM);
      if r.Failure? {
        ghost var i, j :| 0 <= i < |Orders| && 0 <= j < |blocks| && AxisFails(powers, Orders[i].0, Orders[i].1, blocks[j]);
        AxisFailsAtOrderOne(powers, Orders[i].0, Orders[i].1, blocks[j]);
      } else if AllAnchored(blocks) && SeqDisjoint(blocks, S2.Pixels) {
        MomentsOfBlocks(blocks, r.value);
      }
    }
  }
}
