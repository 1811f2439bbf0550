/** The direct moment method on a quadtree: every black leaf, a square of side L with lowest
    pixel (x, y), adds factorG(p, x, L) * factorG(q, y, L) to the moment of order (p, q), where
    factorG is the closed form of the power sum of L consecutive integers. */
module MomentTree2D {
  import opened PowerSums
  import opened SetSums
  import opened Commons2D
  import opened Quadtree

  /** factorG: the sum of c^k over the `side` integers from `coord` on, in closed form for
      k = 0, 1, 2 and 3 (any larger order takes the cubic branch). */
  function FactorG(order: nat, coord: int, side: int): real
  {
    var s := side as real;
    var c := coord as real;
    if order == 0 then s
    else
      var side2 := s * s;
      if order == 1 then s * c + 0.5 * (side2 - s)
      else
        var side3 := side2 * s;
        var coord2 := c * c;
        if order == 2 then s * coord2 + c * (side2 - s) + (2.0 * side3 - 3.0 * side2 + s) / 6.0
        else
          var side4 := side3 * s;
          var coord3 := coord2 * c;
          coord3 * s + 1.5 * coord2 * (side2 - s) + c * side3 - 0.5 * c * (3.0 * side2 - s)
          + 0.25 * (side4 - 2.0 * side3 + side2)
  }

  /* The closed forms below are the centred power sums of PowerSums, with centre C = c + h,
     h = (s - 1) / 2, multiplied out around c.  They are stated over plain reals so that no
     proof has to expand a product next to the factorG terms. */

  lemma {:induction false} Closed1(s: real, c: real, C: real)
    requires C == c + (s - 1.0) / 2.0
    ensures s * C == s * c + 0.5 * (s * s - s)
  {
  }

  lemma {:induction false} Closed2(s: real, c: real, C: real, V: real)
    requires C == c + (s - 1.0) / 2.0 && V == (s * s * s - s) / 12.0
    ensures s * C * C + V == s * (c * c) + c * (s * s - s) + (2.0 * (s * s * s) - 3.0 * (s * s) + s) / 6.0
  {
    var h := (s - 1.0) / 2.0;
    assert s * C * C == s * (c * c) + 2.0 * s * c * h + s * h * h;
    assert 2.0 * s * c * h == c * (s * s - s);
    assert s * h * h == s * (s - 1.0) * (s - 1.0) / 4.0;
  }

  lemma {:induction false} Closed3(s: real, c: real, C: real, W: real)
    requires C == c + (s - 1.0) / 2.0 && W == s * C * C * C + C * (s * s * s - s) / 4.0
    ensures W == c * c * c * s + 1.5 * (c * c) * (s * s - s) + c * (s * s * s) - 0.5 * c * (3.0 * (s * s) - s)
                 + 0.25 * (s * s * s * s - 2.0 * (s * s * s) + s * s)
  {
    var h := (s - 1.0) / 2.0;
    assert s * C * C * C == s * c * c * c + 3.0 * s * c * c * h + 3.0 * s * c * h * h + s * h * h * h;
    assert 3.0 * s * c * c * h == 1.5 * (c * c) * (s * s - s);
    assert 3.0 * s * c * h * h + c * (s * s * s - s) / 4.0 == c * (s * s * s) - 0.5 * c * (3.0 * (s * s) - s);
    assert s * h * h * h + h * (s * s * s - s) / 4.0 == 0.25 * (s * s * s * s - 2.0 * (s * s * s) + s * s);
  }

  /** The closed forms of the power sums of orders 1, 2 and 3 over `side` integers from
      `coord` on, in the shape factorG computes them. */
  lemma {:induction false} RangeSumClosed1(coord: int, side: nat)
    ensures var s, c := side as real, coord as real;
            RangeSum(1, coord, coord + side - 1) as real == s * c + 0.5 * (s * s - s)
  {
    RangeSumCentred1(coord, side);
    CentreReal(coord, side);
    Closed1(side as real, coord as real, Centre(coord, side));
  }

  lemma {:induction false} RangeSumClosed2(coord: int, side: nat)
    ensures var s, c := side as real, coord as real;
            RangeSum(2, coord, coord + side - 1) as real
            == s * (c * c) + c * (s * s - s) + (2.0 * (s * s * s) - 3.0 * (s * s) + s) / 6.0
  {
    RangeSumCentred2(coord, side);
    CentreReal(coord, side);
    Central2Real(side);
    Closed2(side as real, coord as real, Centre(coord, side), Central2(side));
  }

  lemma {:induction false} RangeSumClosed3(coord: int, side: nat)
    ensures var s, c := side as real, coord as real;
            RangeSum(3, coord, coord + side - 1) as real
            == c * c * c * s + 1.5 * (c * c) * (s * s - s) + c * (s * s * s) - 0.5 * c * (3.0 * (s * s) - s)
               + 0.25 * (s * s * s * s - 2.0 * (s * s * s) + s * s)
  {
    CentredPowers3(coord, coord + side - 1, side as real, Centre(coord, side));
    CentreReal(coord, side);
    Closed3(side as real, coord as real, Centre(coord, side), RangeSum(3, coord, coord + side - 1) as real);
  }

  /** What factorG computes for orders 1, 2 and 3. */
  lemma {:induction false} FactorGBody(coord: int, side: int)
    ensures var s, c := side as real, coord as real;
            && FactorG(1, coord, side) == s * c + 0.5 * (s * s - s)
            && FactorG(2, coord, side)
               == s * (c * c) + c * (s * s - s) + (2.0 * (s * s * s) - 3.0 * (s * s) + s) / 6.0
            && FactorG(3, coord, side)
               == c * c * c * s + 1.5 * (c * c) * (s * s - s) + c * (s * s * s) - 0.5 * c * (3.0 * (s * s) - s)
                  + 0.25 * (s * s * s * s - 2.0 * (s * s * s) + s * s)
  {
  }

  /** factorG is the power sum of `side` consecutive integers for orders 0 to 3: the centred
      sums of PowerSums, written out around the lowest coordinate instead of the centre. */
  lemma {:induction false} FactorGIsRangeSum(order: nat, coord: int, side: int)
    ensures order <= 3 && side >= 0 ==>
              FactorG(order, coord, side) == RangeSum(order, coord, coord + side - 1) as real
  {
    if side >= 0 {
      if order == 0 {
        RangeSumZero(coord, coord + side - 1);
      } else if order == 1 {
        FactorGBody(coord, side);
        RangeSumClosed1(coord, side);
      } else if order == 2 {
        FactorGBody(coord, side);
        RangeSumClosed2(coord, side);
      } else if order == 3 {
        FactorGBody(coord, side);
        RangeSumClosed3(coord, side);
      }
    }
  }

  /** The product of two factorG values of orders up to 3 is the product of the range sums. */
  lemma {:induction false} FactorProduct(p: nat, q: nat, x: int, y: int, L: int)
    requires p <= 3 && q <= 3 && L >= 0
    ensures FactorG(p, x, L) * FactorG(q, y, L) == (RangeSum(p, x, x + L - 1) * RangeSum(q, y, y + L - 1)) as real
  {
    FactorGIsRangeSum(p, x, L);
    FactorGIsRangeSum(q, y, L);
    CastProduct(FactorG(p, x, L), FactorG(q, y, L), RangeSum(p, x, x + L - 1), RangeSum(q, y, y + L - 1));
  }

  /** One leaf's term of order (p, q): the product of the two factorG values is the product of
      the range sums over the leaf's columns and rows, an integer. */
  lemma {:induction false} LeafTerm(n: QtrNode, p: nat, q: nat)
    requires p <= 3 && q <= 3
    ensures FactorG(p, n.xmin, Side(n)) * FactorG(q, n.ymin, Side(n)) == NodeMoment(n, p, q) as real
  {
    FactorProduct(p, q, n.xmin, n.ymin, Side(n));
  }

  /** Reference value of one node: the moment of its square, a product of range sums. */
  function NodeMoment(n: QtrNode, p: nat, q: nat): int
  {
    RangeSum(p, n.xmin, n.xmin + Side(n) - 1) * RangeSum(q, n.ymin, n.ymin + Side(n) - 1)
  }

  /** What the leaf at a code adds to the moment of order (p, q): nothing for a white leaf. */
  function LeafMoment(leaves: map<Code, QtrNode>, p: nat, q: nat): Code -> int
  {
    (K: Code) => if K in leaves && leaves[K].color != 0 then NodeMoment(leaves[K], p, q) else 0
  }

  /** A node's moment is the moment of the pixels of its square. */
  lemma {:induction false} NodeMomentIsMoment(n: QtrNode, p: nat, q: nat)
    ensures NodeMoment(n, p, q) == Moment(NodeCell(n), p, q)
  {
    RectMoment(n.xmin, n.xmin + Side(n) - 1, n.ymin, n.ymin + Side(n) - 1, p, q);
  }

  /** Over the leaves of a tree that partitions S, the leaf moments add up to the moment of S. */
  lemma {:induction false} LeafSumIsMoment(leaves: map<Code, QtrNode>, E: nat, S: set<Pixel>, p: nat, q: nat)
    requires WellFormed(leaves, E) && Partitions(leaves.Keys, E, S)
    ensures SumOver(leaves.Keys, LeafMoment(leaves, p, q)) == Moment(S, p, q)
  {
    forall K | K in leaves.Keys
      ensures LeafMoment(leaves, p, q)(K) == SumOver(CellOf(E)(K), Weight(p, q))
    {
      LeafNodeCell(K, E);
      NodeMomentIsMoment(leaves[K], p, q);
    }
    SumOverFamily(leaves.Keys, CellOf(E), Weight(p, q), LeafMoment(leaves, p, q));
  }

  /** The loop over the orders for one black leaf: each listed order gains the leaf's term. */
  method AddLeaf(MM0: map<(nat, nat), int>, n: QtrNode, os: seq<(nat, nat)>)
    returns (MM: map<(nat, nat), int>)
    requires forall i :: 0 <= i < |os| ==> os[i].0 <= 3 && os[i].1 <= 3 && os[i] in MM0
    requires forall i, j :: 0 <= i < j < |os| ==> os[i] != os[j]
    ensures MM.Keys == MM0.Keys
    ensures forall k :: k in MM0 ==> MM[k] == MM0[k] + (if k in os then NodeMoment(n, k.0, k.1) else 0)
  {
    MM := MM0;
    for i := 0 to |os|
      invariant MM.Keys == MM0.Keys
      invariant forall k :: k in MM0 ==> MM[k] == MM0[k] + (if k in os[..i] then NodeMoment(n, k.0, k.1) else 0)
    {
      var (p, q) := os[i];
      LeafTerm(n, p, q);
      TruncOfInteger(NodeMoment(n, p, q));
      var term := Trunc(FactorG(p, n.xmin, Side(n)) * FactorG(q, n.ymin, Side(n)));
      assert os[..i + 1] == os[..i] + [os[i]];
      assert os[i] !in os[..i];
      MM := MM[(p, q) := MM[(p, q)] + term];
    }
    assert os[..|os|] == os;
  }

  /** The loop over the leaves, for the orders listed in os: every black leaf adds its term to
      each of them. */
  method SumLeaves(leaves: map<Code, QtrNode>, os: seq<(nat, nat)>, MM0: map<(nat, nat), int>)
    returns (MM: map<(nat, nat), int>)
    requires forall i :: 0 <= i < |os| ==> os[i].0 <= 3 && os[i].1 <= 3 && os[i] in MM0
    requires forall i, j :: 0 <= i < j < |os| ==> os[i] != os[j]
    requires forall i :: 0 <= i < |os| ==> MM0[os[i]] == 0
    ensures MM.Keys == MM0.Keys
    ensures forall i :: 0 <= i < |os| ==> MM[os[i]] == SumOver(leaves.Keys, LeafMoment(leaves, os[i].0, os[i].1))
  {
    MM := MM0;
    var todo := leaves.Keys;
    ghost var done: set<Code> := {};
    while todo != {}
      invariant todo + done == leaves.Keys && todo !! done
      invariant MM.Keys == MM0.Keys
      invariant forall i :: 0 <= i < |os| ==> MM[os[i]] == SumOver(done, LeafMoment(leaves, os[i].0, os[i].1))
      decreases todo
    {
      var K :| K in todo;
      var node := leaves[K];
      if node.color != 0 {
        MM := AddLeaf(MM, node, os);
      }
      forall i | 0 <= i < |os|
        ensures SumOver(done + {K}, LeafMoment(leaves, os[i].0, os[i].1))
                == LeafMoment(leaves, os[i].0, os[i].1)(K) + SumOver(done, LeafMoment(leaves, os[i].0, os[i].1))
      {
        SumOverRemove(done + {K}, LeafMoment(leaves, os[i].0, os[i].1), K);
        assert done + {K} - {K} == done;
      }
      todo := todo - {K};
      done := done + {K};
    }
  }

  /** For a tree whose leaves are disjoint squares, the leaf sums are the moments of the pixels
      covered. */
  lemma {:induction false} MomentsOfLeaves(leaves: map<Code, QtrNode>, E: nat, MM: map<(nat, nat), int>)
    requires WellFormed(leaves, E) && PairwiseDisjoint(leaves.Keys, CellOf(E)) && MM.Keys == OrderKeys
    requires forall o :: o in Orders ==> MM[o] == SumOver(leaves.Keys, LeafMoment(leaves, o.0, o.1))
    ensures forall o :: o in Orders ==> MM[o] == Moment(UnionOf(leaves.Keys, CellOf(E)), o.0, o.1)
    ensures MM[(0, 0)] == |UnionOf(leaves.Keys, CellOf(E))|
  {
    var S := UnionOf(leaves.Keys, CellOf(E));
    forall o | o in Orders
      ensures MM[o] == Moment(S, o.0, o.1)
    {
      LeafSumIsMoment(leaves, E, S, o.0, o.1);
    }
    FirstOrders();
    MomentZeroIsCount(S);
  }

  /** quadtreeMoments: every moment of order at most 3, summed leaf by leaf over the black
      leaves.  Each moment is the sum of the leaf moments, which for a tree whose leaves are
      disjoint squares is the moment of the pixels they cover. */
  method QuadtreeMoments(QT: QtrTree) returns (MM: map<(nat, nat), int>)
    ensures MM.Keys == OrderKeys
    ensures forall o :: o in Orders ==> MM[o] == SumOver(QT.leaves.Keys, LeafMoment(QT.leaves, o.0, o.1))
    ensures WellFormed(QT.leaves, QT.exponent) && PairwiseDisjoint(QT.leaves.Keys, CellOf(QT.exponent)) ==>
              && (forall o :: o in Orders ==>
                    MM[o] == Moment(UnionOf(QT.leaves.Keys, CellOf(QT.exponent)), o.0, o.1))
              && MM[(0, 0)] == |UnionOf(QT.leaves.Keys, CellOf(QT.exponent))|
  {
    FirstOrders();
    OrdersDistinct();
    MM := map o | o in Orders :: 0;
    MM := SumLeaves(QT.leaves, Orders, MM);
    if WellFormed(QT.leaves, QT.exponent) && PairwiseDisjoint(QT.leaves.Keys, CellOf(QT.exponent)) {
      MomentsOfLeaves(QT.leaves, QT.exponent, MM);
    }
  }
}
