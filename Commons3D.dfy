/** What every 3D method shares: voxels, the twenty moment orders with p + q + r <= 3, the
    reference moment of a set of black voxels, and the moments of an axis-aligned box. */
module Commons3D {
  import opened PowerSums
  import opened SetSums

  /** A black voxel, the unit cube with lowest corner (x, y, z). */
  datatype Voxel = Voxel(x: int, y: int, z: int)

  /** The moment orders (p, q, r) every 3D method computes, in the order the methods use. */
  const Orders: seq<(nat, nat, nat)> :=
    [(0, 0, 0), (1, 0, 0), (0, 1, 0), (0, 0, 1),
     (1, 1, 0), (1, 0, 1), (0, 1, 1), (2, 0, 0), (0, 2, 0), (0, 0, 2),
     (0, 1, 2), (0, 2, 1), (1, 2, 0), (1, 0, 2), (2, 0, 1), (2, 1, 0),
     (3, 0, 0), (0, 3, 0), (0, 0, 3), (1, 1, 1)]

  /** The keys of a moment dictionary: the orders as a set. */
  const OrderKeys: set<(nat, nat, nat)> := set o | o in Orders

  /** The first order is (0, 0, 0), the last (1, 1, 1), and no order exceeds 3 on an axis. */
  lemma {:induction false} FirstOrders()
    ensures |Orders| == 20 && Orders[0] == (0, 0, 0) && Orders[19] == (1, 1, 1)
    ensures forall i :: 0 <= i < |Orders| ==> Orders[i].0 <= 3 && Orders[i].1 <= 3 && Orders[i].2 <= 3
  {
  }

  /** Every listed order has total degree at most three. */
  lemma {:induction false} OrdersUpToThree()
    ensures forall i | 0 <= i < |Orders| :: Orders[i].0 + Orders[i].1 + Orders[i].2 <= 3
  {
    forall i | 0 <= i < |Orders|
      ensures Orders[i].0 + Orders[i].1 + Orders[i].2 <= 3
    {
    }
  }

  /** Every order of total degree at most three is listed. */
  lemma {:induction false} OrdersComplete()
    ensures forall p: nat, q: nat, r: nat | p + q + r <= 3 :: (p, q, r) in Orders
  {
    forall p: nat, q: nat, r: nat | p + q + r <= 3
      ensures (p, q, r) in Orders
    {
      assert p <= 3 && q <= 3 && r <= 3;
      if (p, q, r) == (0, 0, 0) {
        assert Orders[0] == (p, q, r);
      } else if (p, q, r) == (1, 0, 0) {
        assert Orders[1] == (p, q, r);
      } else if (p, q, r) == (0, 1, 0) {
        assert Orders[2] == (p, q, r);
      } else if (p, q, r) == (0, 0, 1) {
        assert Orders[3] == (p, q, r);
      } else if (p, q, r) == (1, 1, 0) {
        assert Orders[4] == (p, q, r);
      } else if (p, q, r) == (1, 0, 1) {
        assert Orders[5] == (p, q, r);
      } else if (p, q, r) == (0, 1, 1) {
        assert Orders[6] == (p, q, r);
      } else if (p, q, r) == (2, 0, 0) {
        assert Orders[7] == (p, q, r);
      } else if (p, q, r) == (0, 2, 0) {
        assert Orders[8] == (p, q, r);
      } else if (p, q, r) == (0, 0, 2) {
        assert Orders[9] == (p, q, r);
      } else if (p, q, r) == (0, 1, 2) {
        assert Orders[10] == (p, q, r);
      } else if (p, q, r) == (0, 2, 1) {
        assert Orders[11] == (p, q, r);
      } else if (p, q, r) == (1, 2, 0) {
        assert Orders[12] == (p, q, r);
      } else if (p, q, r) == (1, 0, 2) {
        assert Orders[13] == (p, q, r);
      } else if (p, q, r) == (2, 0, 1) {
        assert Orders[14] == (p, q, r);
      } else if (p, q, r) == (2, 1, 0) {
        assert Orders[15] == (p, q, r);
      } else if (p, q, r) == (3, 0, 0) {
        assert Orders[16] == (p, q, r);
      } else if (p, q, r) == (0, 3, 0) {
        assert Orders[17] == (p, q, r);
      } else if (p, q, r) == (0, 0, 3) {
        assert Orders[18] == (p, q, r);
      } else if (p, q, r) == (1, 1, 1) {
        assert Orders[19] == (p, q, r);
      }
    }
  }

  /** No order is listed twice. */
  lemma {:induction false} OrdersDistinct()
    ensures |Orders| == 20
    ensures forall i, j :: 0 <= i < j < |Orders| ==> Orders[i] != Orders[j]
  {
  }

  /** The orders are exactly the triples with p + q + r <= 3, each listed once. */
  lemma {:induction false} OrdersAreAllUpToThree()
    ensures forall p: nat, q: nat, r: nat :: (p, q, r) in Orders <==> p + q + r <= 3
    ensures forall i, j :: 0 <= i < j < |Orders| ==> Orders[i] != Orders[j]
    ensures |Orders| == 20
  {
    OrdersUpToThree();
    OrdersComplete();
    OrdersDistinct();
  }

  /** The set of voxels listed in an input list (a voxel may be listed more than once). */
  function VoxelSet(voxels: seq<Voxel>): set<Voxel>
  {
    set v | v in voxels
  }

  /** Listing one more voxel adds it to the set. */
  lemma {:induction false} VoxelSetSnoc(voxels: seq<Voxel>, i: nat)
    requires i < |voxels|
    ensures VoxelSet(voxels[..i + 1]) == VoxelSet(voxels[..i]) + {voxels[i]}
  {
    assert voxels[..i + 1] == voxels[..i] + [voxels[i]];
  }

  /** The integrand x^p y^q z^r of the moment of order (p, q, r). */
  function Weight(p: nat, q: nat, r: nat): Voxel -> int
  {
    (c: Voxel) => Pow(c.x, p) * Pow(c.y, q) * Pow(c.z, r)
  }

  /** Reference definition: the moment m_pqr of the black set S is the sum of x^p y^q z^r
      over S. */
  ghost function Moment(S: set<Voxel>, p: nat, q: nat, r: nat): int
  {
    SumOver(S, Weight(p, q, r))
  }

  /** m_000 counts the black voxels. */
  lemma {:induction false} MomentZeroIsCount(S: set<Voxel>)
    ensures Moment(S, 0, 0, 0) == |S|
  {
    SumOverConstant(S, Weight(0, 0, 0), 1);
  }

  /** Moments add over disjoint pieces. */
  lemma {:induction false} MomentOfDisjointUnion(A: set<Voxel>, B: set<Voxel>, p: nat, q: nat, r: nat)
    requires A !! B
    ensures Moment(A + B, p, q, r) == Moment(A, p, q, r) + Moment(B, p, q, r)
  {
    SumOverUnion(A, B, Weight(p, q, r));
  }

  /** The voxels x0..x1 at height y and depth z. */
  function Line(x0: int, x1: int, y: int, z: int): set<Voxel>
  {
    set x: int | x0 <= x <= x1 :: Voxel(x, y, z)
  }

  /** The voxels of the rectangle [x0, x1] x [y0, y1] in plane z. */
  function Plane(x0: int, x1: int, y0: int, y1: int, z: int): set<Voxel>
  {
    set x: int, y: int | x0 <= x <= x1 && y0 <= y <= y1 :: Voxel(x, y, z)
  }

  /** The voxels of the box [x0, x1] x [y0, y1] x [z0, z1] (empty when a range is empty). */
  function Box(x0: int, x1: int, y0: int, y1: int, z0: int, z1: int): set<Voxel>
  {
    set x: int, y: int, z: int | x0 <= x <= x1 && y0 <= y <= y1 && z0 <= z <= z1 :: Voxel(x, y, z)
  }

  lemma {:induction false} InBox(c: Voxel, x0: int, x1: int, y0: int, y1: int, z0: int, z1: int)
    ensures c in Box(x0, x1, y0, y1, z0, z1)
            <==> x0 <= c.x <= x1 && y0 <= c.y <= y1 && z0 <= c.z <= z1
  {
    if x0 <= c.x <= x1 && y0 <= c.y <= y1 && z0 <= c.z <= z1 {
      assert Voxel(c.x, c.y, c.z) in Box(x0, x1, y0, y1, z0, z1);
    }
  }

  lemma {:induction false} LineMoment(x0: int, x1: int, y: int, z: int, p: nat, q: nat, r: nat)
    ensures Moment(Line(x0, x1, y, z), p, q, r) == RangeSum(p, x0, x1) * (Pow(y, q) * Pow(z, r))
    decreases if x1 < x0 then 0 else x1 - x0 + 1
  {
    if x1 < x0 {
      assert Line(x0, x1, y, z) == {};
    } else {
      var last := Voxel(x1, y, z);
      assert Line(x0, x1, y, z) == Line(x0, x1 - 1, y, z) + {last};
      LineMoment(x0, x1 - 1, y, z, p, q, r);
      SumOverUnion(Line(x0, x1 - 1, y, z), {last}, Weight(p, q, r));
      SumOverSingleton(last, Weight(p, q, r));
      Associate(Pow(x1, p), Pow(y, q), Pow(z, r));
      Distribute(RangeSum(p, x0, x1 - 1), Pow(x1, p), Pow(y, q) * Pow(z, r));
    }
  }

  lemma {:induction false} PlaneMoment(x0: int, x1: int, y0: int, y1: int, z: int,
                                       p: nat, q: nat, r: nat)
    ensures Moment(Plane(x0, x1, y0, y1, z), p, q, r)
            == RangeSum(p, x0, x1) * (RangeSum(q, y0, y1) * Pow(z, r))
    decreases if y1 < y0 then 0 else y1 - y0 + 1
  {
    if y1 < y0 {
      assert Plane(x0, x1, y0, y1, z) == {};
    } else {
      assert Plane(x0, x1, y0, y1, z) == Plane(x0, x1, y0, y1 - 1, z) + Line(x0, x1, y1, z);
      PlaneMoment(x0, x1, y0, y1 - 1, z, p, q, r);
      LineMoment(x0, x1, y1, z, p, q, r);
      SumOverUnion(Plane(x0, x1, y0, y1 - 1, z), Line(x0, x1, y1, z), Weight(p, q, r));
      var a, b, c, d := RangeSum(p, x0, x1), RangeSum(q, y0, y1 - 1), Pow(y1, q), Pow(z, r);
      assert a * ((b + c) * d) == a * (b * d) + a * (c * d) by {
        Distribute(b, c, d);
        Distribute(b * d, c * d, a);
      }
    }
  }

  /** The moment of a box factors into one power sum per axis. */
  lemma {:induction false} BoxMoment(x0: int, x1: int, y0: int, y1: int, z0: int, z1: int,
                                     p: nat, q: nat, r: nat)
    ensures Moment(Box(x0, x1, y0, y1, z0, z1), p, q, r)
            == RangeSum(p, x0, x1) * (RangeSum(q, y0, y1) * RangeSum(r, z0, z1))
    decreases if z1 < z0 then 0 else z1 - z0 + 1
  {
    if z1 < z0 {
      assert Box(x0, x1, y0, y1, z0, z1) == {};
    } else {
      assert Box(x0, x1, y0, y1, z0, z1)
          == Box(x0, x1, y0, y1, z0, z1 - 1) + Plane(x0, x1, y0, y1, z1);
      BoxMoment(x0, x1, y0, y1, z0, z1 - 1, p, q, r);
      PlaneMoment(x0, x1, y0, y1, z1, p, q, r);
      SumOverUnion(Box(x0, x1, y0, y1, z0, z1 - 1), Plane(x0, x1, y0, y1, z1), Weight(p, q, r));
      var a, b, c, d := RangeSum(p, x0, x1), RangeSum(q, y0, y1), RangeSum(r, z0, z1 - 1), Pow(z1, r);
      assert a * (b * (c + d)) == a * (b * c) + a * (b * d) by {
        Distribute(c, d, b);
        Distribute(b * c, b * d, a);
      }
    }
  }

  /** A non-empty box holds (x1 - x0 + 1) (y1 - y0 + 1) (z1 - z0 + 1) voxels. */
  lemma {:induction false} BoxSize(x0: int, x1: int, y0: int, y1: int, z0: int, z1: int)
    requires x0 <= x1 && y0 <= y1 && z0 <= z1
    ensures |Box(x0, x1, y0, y1, z0, z1)| == (x1 - x0 + 1) * ((y1 - y0 + 1) * (z1 - z0 + 1))
  {
    MomentZeroIsCount(Box(x0, x1, y0, y1, z0, z1));
    BoxMoment(x0, x1, y0, y1, z0, z1, 0, 0, 0);
    RangeSumZero(x0, x1);
    RangeSumZero(y0, y1);
    RangeSumZero(z0, z1);
  }
}
