/** The direct moment method on the blocks of a 3D image: for each order (p, q, r) every block
    adds the product of its power sums along x, y and z, read from the power-sum table. */
module MomentBlock3D {
  import opened PowerSums
  import opened SetSums
  import opened Outcomes
  import opened BigMatrix
  import opened Commons3D
  import opened MomentBlock2D
  import S3 = Spiliotis3D

  /** Some axis factor of order (p, q, r) of the block cannot be read. */
  predicate AxisFails3(pm: PowerMatrix?, p: nat, q: nat, r: nat, b: S3.Block)
    reads pm, if pm != null then {pm.matrix} else {}
    requires pm != null ==> pm.Valid() && p <= pm.maxK && q <= pm.maxK && r <= pm.maxK
  {
    AxisSum(pm, p, b.x0, b.x1).Failure? || AxisSum(pm, q, b.y0, b.y1).Failure?
    || AxisSum(pm, r, b.z0, b.z1).Failure?
  }

  /** Reading the block's factors fails for some order: for order (1, 1, 1), the failure of
      any order implies this one. */
  predicate BlockFails3(pm: PowerMatrix?, b: S3.Block)
    reads pm, if pm != null then {pm.matrix} else {}
    requires pm != null ==> pm.Valid() && 1 <= pm.maxK
  {
    AxisFails3(pm, 1, 1, 1, b)
  }

  lemma {:induction false} AxisFailsAtOrderOne3(pm: PowerMatrix?, p: nat, q: nat, r: nat, b: S3.Block)
    requires pm != null ==> pm.Valid() && p <= pm.maxK && q <= pm.maxK && r <= pm.maxK && 1 <= pm.maxK
    ensures AxisFails3(pm, p, q, r, b) ==> BlockFails3(pm, b)
  {
  }

  /** Reference value of one block: its moment as a product of range sums along x, y and z. */
  function BlockMoment3(p: nat, q: nat, r: nat): S3.Block -> int
  {
    (b: S3.Block) => RangeSum(p, b.x0, b.x1) * RangeSum(q, b.y0, b.y1) * RangeSum(r, b.z0, b.z1)
  }

  /** For blocks with pairwise disjoint voxels, the sum of the block moments is the moment of
      the union. */
  lemma {:induction false} BlockSumIsMoment3(blocks: seq<S3.Block>, p: nat, q: nat, r: nat)
    requires SeqDisjoint(blocks, S3.Voxels)
    ensures SumSeq(blocks, BlockMoment3(p, q, r)) == Moment(UnionSeq(blocks, S3.Voxels), p, q, r)
  {
    forall i | 0 <= i < |blocks|
      ensures BlockMoment3(p, q, r)(blocks[i]) == SumOver(S3.Voxels(blocks[i]), Weight(p, q, r))
    {
      var b := blocks[i];
      BoxMoment(b.x0, b.x1, b.y0, b.y1, b.z0, b.z1, p, q, r);
      Associate(RangeSum(p, b.x0, b.x1), RangeSum(q, b.y0, b.y1), RangeSum(r, b.z0, b.z1));
    }
    SumOverUnionSeq(blocks, S3.Voxels, Weight(p, q, r), BlockMoment3(p, q, r));
  }

  /** A dictionary holding every block-moment sum holds the moments of the voxels covered. */
  lemma {:induction false} MomentsOfBlocks3(blocks: seq<S3.Block>, MM: map<(nat, nat, nat), int>)
    requires SeqDisjoint(blocks, S3.Voxels) && MM.Keys == OrderKeys
    requires forall o :: o in Orders ==> MM[o] == SumSeq(blocks, BlockMoment3(o.0, o.1, o.2))
    ensures forall o :: o in Orders ==> MM[o] == Moment(UnionSeq(blocks, S3.Voxels), o.0, o.1, o.2)
    ensures MM[(0, 0, 0)] == |UnionSeq(blocks, S3.Voxels)|
  {
    forall o | o in Orders
      ensures MM[o] == Moment(UnionSeq(blocks, S3.Voxels), o.0, o.1, o.2)
    {
      BlockSumIsMoment3(blocks, o.0, o.1, o.2);
    }
    FirstOrders();
    MomentZeroIsCount(UnionSeq(blocks, S3.Voxels));
  }

  /** Non-empty blocks with non-negative coordinates, as the decomposition produces. */
  predicate AllAnchored3(blocks: seq<S3.Block>)
  {
    forall i :: 0 <= i < |blocks| ==>
      0 <= blocks[i].x0 <= blocks[i].x1 && 0 <= blocks[i].y0 <= blocks[i].y1 && 0 <= blocks[i].z0 <= blocks[i].z1
  }

  /** The engine of momentBlock3D: the module global `powers` is its field. */
  class DirectEngine3D {
    var powers: PowerMatrix?

    ghost predicate Valid()
      reads this, powers, if powers != null then {powers.matrix} else {}
    {
      powers != null ==> powers.Valid() && powers.maxK == 3
    }

    /** The module as loaded: no table yet. */
    constructor ()
      ensures powers == null && Valid()
    {
      powers := null;
    }

    /** preprocessing: the table of S_k(n) for k <= 3 and 0 <= n <= origsize.  Building it
        for a negative size raises IndexError and leaves the old table in place. */
    method Preprocessing(ibr: S3.BlockImage3D) returns (err: Option<Error>)
      requires Valid()
      modifies this
      ensures Valid()
      ensures ibr.origsize < 0 ==> err == Some(IndexError) && powers == old(powers)
      ensures ibr.origsize >= 0 ==>
                err == None && powers != null && fresh(powers) && powers.maxN == ibr.origsize
    {
      if ibr.origsize < 0 {
        return Some(IndexError);
      }
      powers := new PowerMatrix(3, ibr.origsize);
      err := None;
    }

    /** The moment of one order: the sum over the blocks of mx * my * mz, a product being added
        only when one of its factors is non-zero. */
    method OrderMoment(blocks: seq<S3.Block>, p: nat, q: nat, r: nat) returns (m: Result<int>)
      requires Valid() && p <= 3 && q <= 3 && r <= 3
      ensures m.Failure? <==> exists j :: 0 <= j < |blocks| && AxisFails3(powers, p, q, r, blocks[j])
      ensures m.Failure? ==> m.error == (if powers == null then AttributeError else IndexError)
      ensures m.Success? && AllAnchored3(blocks) ==> m.value == SumSeq(blocks, BlockMoment3(p, q, r))
    {
      var sum := 0;
      for j := 0 to |blocks|
        invariant forall j' :: 0 <= j' < j ==> !AxisFails3(powers, p, q, r, blocks[j'])
        invariant AllAnchored3(blocks) ==> sum == SumSeq(blocks[..j], BlockMoment3(p, q, r))
      {
        var b := blocks[j];
        var mx := AxisSum(powers, p, b.x0, b.x1);
        if mx.Failure? {
          return mx;
        }
        var my := AxisSum(powers, q, b.y0, b.y1);
        if my.Failure? {
          return my;
        }
        var mz := AxisSum(powers, r, b.z0, b.z1);
        if mz.Failure? {
          return mz;
        }
        if mx.value != 0 || my.value != 0 || mz.value != 0 {
          sum := sum + mx.value * my.value * mz.value;
        }
        assert blocks[..j + 1][..j] == blocks[..j];
      }
      assert blocks[..|blocks|] == blocks;
      return Success(sum);
    }

    /** The loop over the orders: the moment of each listed order replaces its entry of MM. */
    method FillOrders(blocks: seq<S3.Block>, os: seq<(nat, nat, nat)>, MM0: map<(nat, nat, nat), int>)
      returns (r: Result<map<(nat, nat, nat), int>>)
      requires Valid()
      requires forall i :: 0 <= i < |os| ==> os[i].0 <= 3 && os[i].1 <= 3 && os[i].2 <= 3 && os[i] in MM0
      ensures r.Failure? <==> exists i, j :: 0 <= i < |os| && 0 <= j < |blocks|
                                            && AxisFails3(powers, os[i].0, os[i].1, os[i].2, blocks[j])
      ensures r.Failure? ==> r.error == (if powers == null then AttributeError else IndexError)
      ensures r.Success? ==> r.value.Keys == MM0.Keys
      ensures r.Success? && AllAnchored3(blocks) ==>
                forall i :: 0 <= i < |os| ==> r.value[os[i]] == SumSeq(blocks, BlockMoment3(os[i].0, os[i].1, os[i].2))
    {
      var MM := MM0;
      for i := 0 to |os|
        invariant MM.Keys == MM0.Keys
        invariant forall i', j :: 0 <= i' < i && 0 <= j < |blocks| ==>
                    !AxisFails3(powers, os[i'].0, os[i'].1, os[i'].2, blocks[j])
        invariant AllAnchored3(blocks) ==>
                    forall i' :: 0 <= i' < i ==> MM[os[i']] == SumSeq(blocks, BlockMoment3(os[i'].0, os[i'].1, os[i'].2))
      {
        var (p, q, s) := os[i];
        var m := OrderMoment(blocks, p, q, s);
        if m.Failure? {
          return Failure(m.error);
        }
        MM := MM[(p, q, s) := m.value];
      }
      return Success(MM);
    }

    /** blockMoments: every moment of order at most 3 of the blocks.  It fails exactly when
        some block's factors cannot be read; otherwise each moment is the sum of the block
        moments, which for disjoint blocks is the moment of the voxels they cover. */
    method BlockMoments(ibr: S3.BlockImage3D) returns (r: Result<map<(nat, nat, nat), int>>)
      requires Valid()
      ensures r.Failure? <==> exists j :: 0 <= j < |ibr.block| && BlockFails3(powers, ibr.block[j])
      ensures r.Failure? ==> r.error == (if powers == null then AttributeError else IndexError)
      ensures r.Success? ==> r.value.Keys == OrderKeys
      ensures r.Success? && AllAnchored3(ibr.block) ==>
                forall o :: o in Orders ==> r.value[o] == SumSeq(ibr.block, BlockMoment3(o.0, o.1, o.2))
      ensures r.Success? && AllAnchored3(ibr.block) && SeqDisjoint(ibr.block, S3.Voxels) ==>
                && (forall o :: o in Orders ==> r.value[o] == Moment(UnionSeq(ibr.block, S3.Voxels), o.0, o.1, o.2))
                && r.value[(0, 0, 0)] == |UnionSeq(ibr.block, S3.Voxels)|
    {
      var blocks := ibr.block;
      FirstOrders();
      var MM := map o | o in Orders :: 0;
      r := FillOrders(blocks, Orders, MM);
      if r.Failure? {
        ghost var i, j :| 0 <= i < |Orders| && 0 <= j < |blocks|
                          && AxisFails3(powers, Orders[i].0, Orders[i].1, Orders[i].2, blocks[j]);
        AxisFailsAtOrderOne3(powers, Orders[i].0, Orders[i].1, Orders[i].2, blocks[j]);
      } else if AllAnchored3(blocks) && SeqDisjoint(blocks, S3.Voxels) {
        MomentsOfBlocks3(blocks, r.value);
      }
    }
  }
}
