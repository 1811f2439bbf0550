/** What every 2D method shares: pixels, the ten moment orders with p + q <= 3, the reference
    moment of a set of black pixels, and the moments of an axis-aligned rectangle of pixels. */
module Commons2D {
  import opened PowerSums
  import opened SetSums

  /** A black pixel, the unit square with lower-left corner (x, y). */
  datatype Pixel = Pixel(x: int, y: int)

  /** The moment orders (p, q) every 2D method computes, in the order the methods use. */
  const Orders: seq<(nat, nat)> :=
    [(0, 0), (1, 0), (0, 1), (1, 1), (2, 0), (0, 2), (3, 0), (0, 3), (2, 1), (1, 2)]

  /** The keys of a moment dictionary: the orders as a set. */
  const OrderKeys: set<(nat, nat)> := set o | o in Orders

  /** The first four orders, (0, 0), (1, 0), (0, 1) and (1, 1). */
  lemma {:induction false} FirstOrders()
    ensures |Orders| == 10
    ensures Orders[0] == (0, 0) && Orders[1] == (1, 0) && Orders[2] == (0, 1) && Orders[3] == (1, 1)
    ensures forall i :: 0 <= i < |Orders| ==> Orders[i].0 <= 3 && Orders[i].1 <= 3
  {
  }

  /** No order is listed twice. */
  lemma {:induction false} OrdersDistinct()
    ensures |Orders| == 10
    ensures forall i, j :: 0 <= i < j < |Orders| ==> Orders[i] != Orders[j]
  {
  }

  /** The orders, one by one. */
  lemma {:induction false} OrdersListed()
    ensures forall o :: o in Orders <==>
              o == (0, 0) || o == (1, 0) || o == (0, 1) || o == (1, 1) || o == (2, 0)
              || o == (0, 2) || o == (3, 0) || o == (0, 3) || o == (2, 1) || o == (1, 2)
    ensures (0, 0) in OrderKeys && (1, 0) in OrderKeys && (0, 1) in OrderKeys && (1, 1) in OrderKeys
            && (2, 0) in OrderKeys && (0, 2) in OrderKeys && (3, 0) in OrderKeys && (0, 3) in OrderKeys
            && (2, 1) in OrderKeys && (1, 2) in OrderKeys
  {
    assert Orders[0] == (0, 0) && Orders[1] == (1, 0) && Orders[2] == (0, 1) && Orders[3] == (1, 1)
        && Orders[4] == (2, 0) && Orders[5] == (0, 2) && Orders[6] == (3, 0) && Orders[7] == (0, 3)
        && Orders[8] == (2, 1) && Orders[9] == (1, 2);
  }

  /** The orders are exactly the pairs with p + q <= 3, each listed once. */
  lemma {:induction false} OrdersAreAllUpToThree()
    ensures forall p: nat, q: nat :: (p, q) in Orders <==> p + q <= 3
    ensures forall i, j :: 0 <= i < j < |Orders| ==> Orders[i] != Orders[j]
    ensures |Orders| == 10
  {
    forall p: nat, q: nat | p + q <= 3
      ensures (p, q) in Orders
    {
      if p == 0 {
        assert q == 0 || q == 1 || q == 2 || q == 3;
      } else if p == 1 {
        assert q == 0 || q == 1 || q == 2;
      } else if p == 2 {
        assert q == 0 || q == 1;
      } else {
        assert q == 0;
      }
    }
  }

  /** The set of pixels listed in an input list (a pixel may be listed more than once). */
  function PixelSet(pixels: seq<Pixel>): set<Pixel>
  {
    set p | p in pixels
  }

  /** Listing one more pixel adds it to the set. */
  lemma {:induction false} PixelSetSnoc(pixels: seq<Pixel>, i: nat)
    requires i < |pixels|
    ensures PixelSet(pixels[..i + 1]) == PixelSet(pixels[..i]) + {pixels[i]}
  {
    assert pixels[..i + 1] == pixels[..i] + [pixels[i]];
  }

  /** The integrand x^p y^q of the moment of order (p, q). */
  function Weight(p: nat, q: nat): Pixel -> int
  {
    (c: Pixel) => Pow(c.x, p) * Pow(c.y, q)
  }

  /** Reference definition: the moment m_pq of the black set S is the sum of x^p y^q over S. */
  ghost function Moment(S: set<Pixel>, p: nat, q: nat): int
  {
    SumOver(S, Weight(p, q))
  }

  /** m_00 counts the black pixels. */
  lemma {:induction false} MomentZeroIsCount(S: set<Pixel>)
    ensures Moment(S, 0, 0) == |S|
  {
    SumOverConstant(S, Weight(0, 0), 1);
  }

  /** Moments add over disjoint pieces. */
  lemma {:induction false} MomentOfDisjointUnion(A: set<Pixel>, B: set<Pixel>, p: nat, q: nat)
    requires A !! B
    ensures Moment(A + B, p, q) == Moment(A, p, q) + Moment(B, p, q)
  {
    SumOverUnion(A, B, Weight(p, q));
  }

  /** The pixels x0..x1 of row y. */
  function Row(x0: int, x1: int, y: int): set<Pixel>
  {
    set x: int | x0 <= x <= x1 :: Pixel(x, y)
  }

  /** The pixels of the rectangle [x0, x1] x [y0, y1] (empty when a range is empty). */
  function Rect(x0: int, x1: int, y0: int, y1: int): set<Pixel>
  {
    set x: int, y: int | x0 <= x <= x1 && y0 <= y <= y1 :: Pixel(x, y)
  }

  lemma {:induction false} InRect(c: Pixel, x0: int, x1: int, y0: int, y1: int)
    ensures c in Rect(x0, x1, y0, y1) <==> x0 <= c.x <= x1 && y0 <= c.y <= y1
  {
    if x0 <= c.x <= x1 && y0 <= c.y <= y1 {
      assert Pixel(c.x, c.y) in Rect(x0, x1, y0, y1);
    }
  }

  /** A square of side 2h splits into its four quadrants of side h. */
  lemma {:induction false} SquareQuadrants(x0: int, y0: int, h: int)
    ensures Rect(x0, x0 + 2 * h - 1, y0, y0 + 2 * h - 1)
            == Rect(x0, x0 + h - 1, y0, y0 + h - 1) + Rect(x0, x0 + h - 1, y0 + h, y0 + h + h - 1)
               + Rect(x0 + h, x0 + h + h - 1, y0, y0 + h - 1)
               + Rect(x0 + h, x0 + h + h - 1, y0 + h, y0 + h + h - 1)
  {
    var whole := Rect(x0, x0 + 2 * h - 1, y0, y0 + 2 * h - 1);
    var q0 := Rect(x0, x0 + h - 1, y0, y0 + h - 1);
    var q1 := Rect(x0, x0 + h - 1, y0 + h, y0 + h + h - 1);
    var q2 := Rect(x0 + h, x0 + h + h - 1, y0, y0 + h - 1);
    var q3 := Rect(x0 + h, x0 + h + h - 1, y0 + h, y0 + h + h - 1);
    forall c: Pixel
      ensures c in whole <==> c in q0 || c in q1 || c in q2 || c in q3
    {
      InRect(c, x0, x0 + 2 * h - 1, y0, y0 + 2 * h - 1);
      InRect(c, x0, x0 + h - 1, y0, y0 + h - 1);
      InRect(c, x0, x0 + h - 1, y0 + h, y0 + h + h - 1);
      InRect(c, x0 + h, x0 + h + h - 1, y0, y0 + h - 1);
      InRect(c, x0 + h, x0 + h + h - 1, y0 + h, y0 + h + h - 1);
    }
  }

  lemma {:induction false} RowMoment(x0: int, x1: int, y: int, p: nat, q: nat)
    ensures Moment(Row(x0, x1, y), p, q) == RangeSum(p, x0, x1) * Pow(y, q)
    decreases if x1 < x0 then 0 else x1 - x0 + 1
  {
    if x1 < x0 {
      assert Row(x0, x1, y) == {};
    } else {
      var last := Pixel(x1, y);
      assert Row(x0, x1, y) == Row(x0, x1 - 1, y) + {last};
      RowMoment(x0, x1 - 1, y, p, q);
      SumOverUnion(Row(x0, x1 - 1, y), {last}, Weight(p, q));
      SumOverSingleton(last, Weight(p, q));
      Distribute(RangeSum(p, x0, x1 - 1), Pow(x1, p), Pow(y, q));
    }
  }

  /** The moment of a rectangle factors into one power sum per axis:
      m_pq = (sum_{x=x0..x1} x^p) (sum_{y=y0..y1} y^q). */
  lemma {:induction false} RectMoment(x0: int, x1: int, y0: int, y1: int, p: nat, q: nat)
    ensures Moment(Rect(x0, x1, y0, y1), p, q) == RangeSum(p, x0, x1) * RangeSum(q, y0, y1)
    decreases if y1 < y0 then 0 else y1 - y0 + 1
  {
    if y1 < y0 {
      assert Rect(x0, x1, y0, y1) == {};
    } else {
      assert Rect(x0, x1, y0, y1) == Rect(x0, x1, y0, y1 - 1) + Row(x0, x1, y1);
      RectMoment(x0, x1, y0, y1 - 1, p, q);
      RowMoment(x0, x1, y1, p, q);
      SumOverUnion(Rect(x0, x1, y0, y1 - 1), Row(x0, x1, y1), Weight(p, q));
      Distribute(RangeSum(q, y0, y1 - 1), Pow(y1, q), RangeSum(p, x0, x1));
    }
  }

  /** A non-empty rectangle holds (x1 - x0 + 1) (y1 - y0 + 1) pixels. */
  lemma {:induction false} RectSize(x0: int, x1: int, y0: int, y1: int)
    requires x0 <= x1 && y0 <= y1
    ensures |Rect(x0, x1, y0, y1)| == (x1 - x0 + 1) * (y1 - y0 + 1)
  {
    MomentZeroIsCount(Rect(x0, x1, y0, y1));
    RectMoment(x0, x1, y0, y1, 0, 0);
    RangeSumZero(x0, x1);
    RangeSumZero(y0, y1);
  }
}
