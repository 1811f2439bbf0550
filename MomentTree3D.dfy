/** The direct moment method on an octree: every black leaf, a cube of side L with lowest voxel
    (x, y, z), adds factorG(p, x, L) * factorG(q, y, L) * factorG(r, z, L) to the moment of
    order (p, q, r).  factorG is the same closed form as in the quadtree method; here the
    products are added as they are, without truncation to an integer. */
module MomentTree3D {
  import opened PowerSums
  import opened SetSums
  import opened Commons3D
  import opened Octree
  import T2 = MomentTree2D

  /** The product of three factorG values of orders up to 3 is the product of the range sums. */
  lemma {:induction false} FactorProduct3(p: nat, q: nat, r: nat, x: int, y: int, z: int, L: int)
    requires p <= 3 && q <= 3 && r <= 3 && L >= 0
    ensures T2.FactorG(p, x, L) * T2.FactorG(q, y, L) * T2.FactorG(r, z, L)
            == (RangeSum(p, x, x + L - 1) * RangeSum(q, y, y + L - 1) * RangeSum(r, z, z + L - 1)) as real
  {
    T2.FactorGIsRangeSum(p, x, L);
    T2.FactorGIsRangeSum(q, y, L);
    T2.FactorGIsRangeSum(r, z, L);
    CastProduct3(T2.FactorG(p, x, L), T2.FactorG(q, y, L), T2.FactorG(r, z, L),
                 RangeSum(p, x, x + L - 1), RangeSum(q, y, y + L - 1), RangeSum(r, z, z + L - 1));
  }

  /** Reference value of one node: the moment of its cube, a product of range sums. */
  function NodeMoment(n: OctNode, p: nat, q: nat, r: nat): int
  {
    RangeSum(p, n.xmin, n.xmin + Side(n) - 1) * RangeSum(q, n.ymin, n.ymin + Side(n) - 1)
    * RangeSum(r, n.zmin, n.zmin + Side(n) - 1)
  }

  /** One leaf's term of order (p, q, r) is the moment of its cube. */
  lemma {:induction false} LeafTerm(n: OctNode, p: nat, q: nat, r: nat)
    requires p <= 3 && q <= 3 && r <= 3
    ensures T2.FactorG(p, n.xmin, Side(n)) * T2.FactorG(q, n.ymin, Side(n)) * T2.FactorG(r, n.zmin, Side(n))
            == NodeMoment(n, p, q, r) as real
  {
    FactorProduct3(p, q, r, n.xmin, n.ymin, n.zmin, Side(n));
  }

  /** What the leaf at a code adds to the moment of order (p, q, r): nothing for a white leaf. */
  function LeafMoment(leaves: map<Code, OctNode>, p: nat, q: nat, r: nat): Code -> int
  {
    (K: Code) => if K in leaves && leaves[K].color != 0 then NodeMoment(leaves[K], p, q, r) else 0
  }

  /** A node's moment is the moment of the voxels of its cube. */
  lemma {:induction false} NodeMomentIsMoment(n: OctNode, p: nat, q: nat, r: nat)
    ensures NodeMoment(n, p, q, r) == Moment(NodeCell(n), p, q, r)
  {
    var L := Side(n);
    BoxMoment(n.xmin, n.xmin + L - 1, n.ymin, n.ymin + L - 1, n.zmin, n.zmin + L - 1, p, q, r);
    Associate(RangeSum(p, n.xmin, n.xmin + L - 1), RangeSum(q, n.ymin, n.ymin + L - 1),
              RangeSum(r, n.zmin, n.zmin + L - 1));
  }

  /** Over the leaves of a tree that partitions S, the leaf moments add up to the moment of S. */
  lemma {:induction false} LeafSumIsMoment(leaves: map<Code, OctNode>, E: nat, S: set<Voxel>, p: nat, q: nat, r: nat)
    requires WellFormed(leaves, E) && Partitions(leaves.Keys, E, S)
    ensures SumOver(leaves.Keys, LeafMoment(leaves, p, q, r)) == Moment(S, p, q, r)
  {
    forall K | K in leaves.Keys
      ensures LeafMoment(leaves, p, q, r)(K) == SumOver(CellOf(E)(K), Weight(p, q, r))
    {
      LeafNodeCell(K, E);
      NodeMomentIsMoment(leaves[K], p, q, r);
    }
    SumOverFamily(leaves.Keys, CellOf(E), Weight(p, q, r), LeafMoment(leaves, p, q, r));
  }

  /** The loop over the orders for one black leaf: each listed order gains the leaf's term. */
  method AddLeaf(MM0: map<(nat, nat, nat), real>, n: OctNode, os: seq<(nat, nat, nat)>)
    returns (MM: map<(nat, nat, nat), real>)
    requires forall i :: 0 <= i < |os| ==> os[i].0 <= 3 && os[i].1 <= 3 && os[i].2 <= 3 && os[i] in MM0
    requires forall i, j :: 0 <= i < j < |os| ==> os[i] != os[j]
    ensures MM.Keys == MM0.Keys
    ensures forall k :: k in MM0 ==>
              MM[k] == MM0[k] + (if k in os then NodeMoment(n, k.0, k.1, k.2) as real else 0.0)
  {
    MM := MM0;
    for i := 0 to |os|
      invariant MM.Keys == MM0.Keys
      invariant forall k :: k in MM0 ==>
                  MM[k] == MM0[k] + (if k in os[..i] then NodeMoment(n, k.0, k.1, k.2) as real else 0.0)
    {
      var (p, q, r) := os[i];
      LeafTerm(n, p, q, r);
      var term := T2.FactorG(p, n.xmin, Side(n)) * T2.FactorG(q, n.ymin, Side(n)) * T2.FactorG(r, n.zmin, Side(n));
      assert os[..i + 1] == os[..i] + [os[i]];
      assert os[i] !in os[..i];
      MM := MM[(p, q, r) := MM[(p, q, r)] + term];
    }
    assert os[..|os|] == os;
  }

  /** The loop over the leaves, for the orders listed in os. */
  method SumLeaves(leaves: map<Code, OctNode>, os: seq<(nat, nat, nat)>, MM0: map<(nat, nat, nat), real>)
    returns (MM: map<(nat, nat, nat), real>)
    requires forall i :: 0 <= i < |os| ==> os[i].0 <= 3 && os[i].1 <= 3 && os[i].2 <= 3 && os[i] in MM0
    requires forall i, j :: 0 <= i < j < |os| ==> os[i] != os[j]
    requires forall i :: 0 <= i < |os| ==> MM0[os[i]] == 0.0
    ensures MM.Keys == MM0.Keys
    ensures forall i :: 0 <= i < |os| ==>
              MM[os[i]] == SumOver(leaves.Keys, LeafMoment(leaves, os[i].0, os[i].1, os[i].2)) as real
  {
    MM := MM0;
    var todo := leaves.Keys;
    ghost var done: set<Code> := {};
    while todo != {}
      invariant todo + done == leaves.Keys && todo !! done
      invariant MM.Keys == MM0.Keys
      invariant forall i :: 0 <= i < |os| ==>
                  MM[os[i]] == SumOver(done, LeafMoment(leaves, os[i].0, os[i].1, os[i].2)) as real
      decreases todo
    {
      var K :| K in todo;
      var node := leaves[K];
      if node.color != 0 {
        MM := AddLeaf(MM, node, os);
      }
      forall i | 0 <= i < |os|
        ensures SumOver(done + {K}, LeafMoment(leaves, os[i].0, os[i].1, os[i].2))
                == LeafMoment(leaves, os[i].0, os[i].1, os[i].2)(K)
                   + SumOver(done, LeafMoment(leaves, os[i].0, os[i].1, os[i].2))
      {
        SumOverRemove(done + {K}, LeafMoment(leaves, os[i].0, os[i].1, os[i].2), K);
        assert done + {K} - {K} == done;
      }
      todo := todo - {K};
      done := done + {K};
    }
  }

  /** For a tree whose leaves are disjoint cubes, the leaf sums are the moments of the voxels
      covered. */
  lemma {:induction false} MomentsOfLeaves(leaves: map<Code, OctNode>, E: nat, MM: map<(nat, nat, nat), real>)
    requires WellFormed(leaves, E) && PairwiseDisjoint(leaves.Keys, CellOf(E)) && MM.Keys == OrderKeys
    requires forall o :: o in Orders ==> MM[o] == SumOver(leaves.Keys, LeafMoment(leaves, o.0, o.1, o.2)) as real
    ensures forall o :: o in Orders ==> MM[o] == Moment(UnionOf(leaves.Keys, CellOf(E)), o.0, o.1, o.2) as real
    ensures MM[(0, 0, 0)] == |UnionOf(leaves.Keys, CellOf(E))| as real
  {
    var S := UnionOf(leaves.Keys, CellOf(E));
    forall o | o in Orders
      ensures MM[o] == Moment(S, o.0, o.1, o.2) as real
    {
      LeafSumIsMoment(leaves, E, S, o.0, o.1, o.2);
    }
    FirstOrders();
    MomentZeroIsCount(S);
  }

  /** octreeMoments: every moment of order at most 3, summed leaf by leaf over the black
      leaves.  Each moment is the sum of the leaf moments, which for a tree whose leaves are
      disjoint cubes is the moment of the voxels they cover. */
  method OctreeMoments(OT: OctTree) returns (MM: map<(nat, nat, nat), real>)
    ensures MM.Keys == OrderKeys
    ensures forall o :: o in Orders ==>
              MM[o] == SumOver(OT.leaves.Keys, LeafMoment(OT.leaves, o.0, o.1, o.2)) as real
    ensures WellFormed(OT.leaves, OT.exponent) && PairwiseDisjoint(OT.leaves.Keys, CellOf(OT.exponent)) ==>
              && (forall o :: o in Orders ==>
                    MM[o] == Moment(UnionOf(OT.leaves.Keys, CellOf(OT.exponent)), o.0, o.1, o.2) as real)
              && MM[(0, 0, 0)] == |UnionOf(OT.leaves.Keys, CellOf(OT.exponent))| as real
  {
    FirstOrders();
    OrdersDistinct();
    MM := map o | o in Orders :: 0.0;
    MM := SumLeaves(OT.leaves, Orders, MM);
    if WellFormed(OT.leaves, OT.exponent) && PairwiseDisjoint(OT.leaves.Keys, CellOf(OT.exponent)) {
      MomentsOfLeaves(OT.leaves, OT.exponent, MM);
    }
  }
}
