/** The parallel-axis step the central-moment methods share: from the central moments mu00,
    mu20 and mu02 of an axis-aligned rectangle and its centre (xx, yy), the moments of order up
    to 3 about the origin.  Both momentBlockNew2D and momentTreeNew2D run the same ten lines. */
module CentralShift2D {
  import opened PowerSums
  import opened Commons2D

  /** The ten moments of one rectangle: m00 is an integer, the others are reals. */
  datatype Shifted = Shifted(m00: int, m10: real, m01: real, m11: real, m20: real, m02: real,
                             m30: real, m03: real, m21: real, m12: real)

  /** The shift, line by line: m10 = xx mu00, m11 = yy m10, m20 = mu20 + xx m10,
      m30 = 3 xx m20 - 2 xx^2 m10, m21 = yy m20, m12 = xx m02, and the same along y. */
  predicate IsShift(c00: int, c20: real, c02: real, xx: real, yy: real, s: Shifted)
  {
    && s.m00 == c00
    && s.m10 == xx * c00 as real && s.m01 == yy * c00 as real && s.m11 == yy * s.m10
    && s.m20 == c20 + xx * s.m10 && s.m02 == c02 + yy * s.m01
    && s.m30 == 3.0 * xx * s.m20 - 2.0 * xx * xx * s.m10
    && s.m03 == 3.0 * yy * s.m02 - 2.0 * yy * yy * s.m01
    && s.m21 == yy * s.m20 && s.m12 == xx * s.m02
  }

  /** The ten assignments that move the central moments of a rectangle to the origin. */
  method ShiftToOrigin(c00: int, c20: real, c02: real, xx: real, yy: real) returns (s: Shifted)
    ensures IsShift(c00, c20, c02, xx, yy, s)
  {
    var m10 := xx * c00 as real;
    var m01 := yy * c00 as real;
    var m11 := yy * m10;
    var m20 := c20 + xx * m10;
    var m02 := c02 + yy * m01;
    var m30 := 3.0 * xx * m20 - 2.0 * xx * xx * m10;
    var m03 := 3.0 * yy * m02 - 2.0 * yy * yy * m01;
    var m21 := yy * m20;
    var m12 := xx * m02;
    s := Shifted(c00, m10, m01, m11, m20, m02, m30, m03, m21, m12);
  }

  /** The shifted moment of order (p, q), as a real. */
  function Field(s: Shifted, p: nat, q: nat): real
  {
    match (p, q)
    case (0, 0) => s.m00 as real
    case (1, 0) => s.m10
    case (0, 1) => s.m01
    case (1, 1) => s.m11
    case (2, 0) => s.m20
    case (0, 2) => s.m02
    case (3, 0) => s.m30
    case (0, 3) => s.m03
    case (2, 1) => s.m21
    case (1, 2) => s.m12
    case _ => 0.0
  }

  /** What one rectangle adds to the moment of order (p, q): m00 as it is, every other moment
      through int(). */
  function Term(s: Shifted, p: nat, q: nat): int
  {
    if p == 0 && q == 0 then s.m00 else Trunc(Field(s, p, q))
  }

  /** Each of the ten orders has gained its term. */
  predicate Added(MM0: map<(nat, nat), int>, MM: map<(nat, nat), int>, s: Shifted)
    requires MM0.Keys == OrderKeys && MM.Keys == OrderKeys
  {
    OrdersListed();
    && MM[(0, 0)] == MM0[(0, 0)] + s.m00
    && MM[(1, 0)] == MM0[(1, 0)] + Trunc(s.m10)
    && MM[(0, 1)] == MM0[(0, 1)] + Trunc(s.m01)
    && MM[(1, 1)] == MM0[(1, 1)] + Trunc(s.m11)
    && MM[(2, 0)] == MM0[(2, 0)] + Trunc(s.m20)
    && MM[(0, 2)] == MM0[(0, 2)] + Trunc(s.m02)
    && MM[(3, 0)] == MM0[(3, 0)] + Trunc(s.m30)
    && MM[(0, 3)] == MM0[(0, 3)] + Trunc(s.m03)
    && MM[(2, 1)] == MM0[(2, 1)] + Trunc(s.m21)
    && MM[(1, 2)] == MM0[(1, 2)] + Trunc(s.m12)
  }

  /** Order by order, the ten updates add the term of that order. */
  lemma {:induction false} AddedEveryOrder(MM0: map<(nat, nat), int>, MM: map<(nat, nat), int>, s: Shifted)
    requires MM0.Keys == OrderKeys && MM.Keys == OrderKeys && Added(MM0, MM, s)
    ensures forall o :: o in Orders ==> MM[o] == MM0[o] + Term(s, o.0, o.1)
  {
    OrdersListed();
  }

  /** The ten dictionary updates, in the order the source writes them: m00 as it is, every
      other moment through int(). */
  method AddShifted(MM0: map<(nat, nat), int>, s: Shifted) returns (MM: map<(nat, nat), int>)
    requires MM0.Keys == OrderKeys
    ensures MM.Keys == OrderKeys
    ensures forall o :: o in Orders ==> MM[o] == MM0[o] + Term(s, o.0, o.1)
  {
    OrdersListed();
    MM := MM0;
    MM := MM[(0, 0) := MM[(0, 0)] + s.m00];
    MM := MM[(1, 0) := MM[(1, 0)] + Trunc(s.m10)];
    MM := MM[(0, 1) := MM[(0, 1)] + Trunc(s.m01)];
    MM := MM[(1, 1) := MM[(1, 1)] + Trunc(s.m11)];
    MM := MM[(2, 0) := MM[(2, 0)] + Trunc(s.m20)];
    MM := MM[(0, 2) := MM[(0, 2)] + Trunc(s.m02)];
    MM := MM[(3, 0) := MM[(3, 0)] + Trunc(s.m30)];
    MM := MM[(0, 3) := MM[(0, 3)] + Trunc(s.m03)];
    MM := MM[(2, 1) := MM[(2, 1)] + Trunc(s.m21)];
    MM := MM[(1, 2) := MM[(1, 2)] + Trunc(s.m12)];
    assert Added(MM0, MM, s);
    AddedEveryOrder(MM0, MM, s);
  }

  /** A real that is the product of two integers truncates to that product. */
  lemma {:induction false} TruncProduct(f: real, A: real, B: real, a: int, b: int)
    requires f == A * B && A == a as real && B == b as real
    ensures Trunc(f) == a * b
  {
    CastProduct(A, B, a, b);
    TruncOfInteger(a * b);
  }

  /** Order 1 along one axis: with mu00 = w h, the moment c mu00 is (w c) h. */
  lemma {:induction false} AxisOne(c00: real, m1: real, c: real, w: real, h: real, a: int, b: int)
    ensures (c00 == w * h && m1 == c * c00 && a as real == w * c && b as real == h) ==> Trunc(m1) == a * b
  {
    if c00 == w * h && m1 == c * c00 && a as real == w * c && b as real == h {
      TruncProduct(m1, w * c, h, a, b);
    }
  }

  /** Order 2 along one axis: with mu20 = h v, the moment is (w c^2 + v) h. */
  lemma {:induction false} AxisTwo(c00: real, c20: real, m1: real, m2: real, c: real, w: real, h: real, v: real, a: int, b: int)
    ensures (&& c00 == w * h && c20 == h * v && m1 == c * c00 && m2 == c20 + c * m1
             && a as real == w * c * c + v && b as real == h) ==> Trunc(m2) == a * b
  {
    if c00 == w * h && c20 == h * v && m1 == c * c00 && m2 == c20 + c * m1
       && a as real == w * c * c + v && b as real == h {
      TruncProduct(m2, w * c * c + v, h, a, b);
    }
  }

  /** Order 3 along one axis: the moment is (w c^3 + 3 c v) h. */
  lemma {:induction false} AxisThree(c00: real, c20: real, m1: real, m2: real, m3: real, c: real, w: real, h: real, v: real,
                  a: int, b: int)
    ensures (&& c00 == w * h && c20 == h * v
             && m1 == c * c00 && m2 == c20 + c * m1 && m3 == 3.0 * c * m2 - 2.0 * c * c * m1
             && a as real == w * c * c * c + 3.0 * c * v && b as real == h) ==> Trunc(m3) == a * b
  {
    if && c00 == w * h && c20 == h * v
       && m1 == c * c00 && m2 == c20 + c * m1 && m3 == 3.0 * c * m2 - 2.0 * c * c * m1
       && a as real == w * c * c * c + 3.0 * c * v && b as real == h {
      assert m3 == (w * c * c * c + 3.0 * c * v) * h;
      TruncProduct(m3, w * c * c * c + 3.0 * c * v, h, a, b);
    }
  }

  /** Order (1, 1): yy xx mu00 is (w xx) (h yy). */
  lemma {:induction false} CrossOne(c00: real, m10: real, m11: real, xx: real, yy: real, w: real, h: real, a: int, b: int)
    ensures (&& c00 == w * h && m10 == xx * c00 && m11 == yy * m10
             && a as real == w * xx && b as real == h * yy) ==> Trunc(m11) == a * b
  {
    if c00 == w * h && m10 == xx * c00 && m11 == yy * m10 && a as real == w * xx && b as real == h * yy {
      assert m11 == (w * xx) * (h * yy);
      TruncProduct(m11, w * xx, h * yy, a, b);
    }
  }

  /** Order (2, 1): yy times the order-2 moment (w xx^2 + v) h. */
  lemma {:induction false} CrossTwo(c00: real, c20: real, m10: real, m20: real, m21: real, xx: real, yy: real,
                 w: real, h: real, v: real, a: int, b: int)
    ensures (&& c00 == w * h && c20 == h * v && m10 == xx * c00 && m20 == c20 + xx * m10 && m21 == yy * m20
             && a as real == w * xx * xx + v && b as real == h * yy) ==> Trunc(m21) == a * b
  {
    if && c00 == w * h && c20 == h * v && m10 == xx * c00 && m20 == c20 + xx * m10 && m21 == yy * m20
       && a as real == w * xx * xx + v && b as real == h * yy {
      assert m21 == (w * xx * xx + v) * (h * yy);
      TruncProduct(m21, w * xx * xx + v, h * yy, a, b);
    }
  }

  /** mu00, mu20, mu02 and the centre (xx, yy) are those of the W x H rectangle with lowest
      corner (x0, y0): mu00 = W H, mu20 = H (W^3 - W)/12, mu02 = W (H^3 - H)/12. */
  predicate CentralOfRect(c00: int, c20: real, c02: real, xx: real, yy: real, x0: int, W: nat, y0: int, H: nat)
  {
    && c00 == W * H && c20 == H as real * Central2(W) && c02 == W as real * Central2(H)
    && xx == Centre(x0, W) && yy == Centre(y0, H)
  }

  /** The shifted moments with the roles of x and y exchanged. */
  function Transposed(s: Shifted): Shifted
  {
    Shifted(s.m00, s.m01, s.m10, s.m11, s.m02, s.m20, s.m03, s.m30, s.m12, s.m21)
  }

  /** Exchanging x and y in the input of the shift exchanges them in its output. */
  lemma {:induction false} TransposeShift(s: Shifted, c00: int, c20: real, c02: real, xx: real, yy: real)
    requires IsShift(c00, c20, c02, xx, yy, s)
    ensures IsShift(c00, c02, c20, yy, xx, Transposed(s))
  {
    var t := Transposed(s);
    assert t.m11 == xx * t.m10 by {
      assert s.m11 == yy * (xx * c00 as real);
    }
  }

  /** Exchanging x and y in a rectangle exchanges its central moments and centre. */
  lemma {:induction false} TransposeRect(c00: int, c20: real, c02: real, xx: real, yy: real, x0: int, W: nat, y0: int, H: nat)
    requires CentralOfRect(c00, c20, c02, xx, yy, x0, W, y0, H)
    ensures CentralOfRect(c00, c02, c20, yy, xx, y0, H, x0, W)
  {
  }

  /** The moments along x of the rectangle: order 1, 2 and 3 truncate to the power sum of its
      columns times its row count. */
  lemma {:induction false} RectAxisOne(s: Shifted, c00: int, c20: real, c02: real, xx: real, yy: real, x0: int, W: nat, y0: int, H: nat)
    requires IsShift(c00, c20, c02, xx, yy, s) && CentralOfRect(c00, c20, c02, xx, yy, x0, W, y0, H)
    ensures Trunc(s.m10) == RangeSum(1, x0, x0 + W - 1) * RangeSum(0, y0, y0 + H - 1)
  {
    CentredSum1(x0, W, xx);
    RangeSumCount(y0, H);
    CastProduct(W as real, H as real, W, H);
    AxisOne(c00 as real, s.m10, xx, W as real, H as real, RangeSum(1, x0, x0 + W - 1), RangeSum(0, y0, y0 + H - 1));
  }

  lemma {:induction false} RectAxisTwo(s: Shifted, c00: int, c20: real, c02: real, xx: real, yy: real, x0: int, W: nat, y0: int, H: nat)
    requires IsShift(c00, c20, c02, xx, yy, s) && CentralOfRect(c00, c20, c02, xx, yy, x0, W, y0, H)
    ensures Trunc(s.m20) == RangeSum(2, x0, x0 + W - 1) * RangeSum(0, y0, y0 + H - 1)
  {
    CentredSum2(x0, W, xx);
    RangeSumCount(y0, H);
    CastProduct(W as real, H as real, W, H);
    AxisTwo(c00 as real, c20, s.m10, s.m20, xx, W as real, H as real, Central2(W),
            RangeSum(2, x0, x0 + W - 1), RangeSum(0, y0, y0 + H - 1));
  }

  lemma {:induction false} RectAxisThree(s: Shifted, c00: int, c20: real, c02: real, xx: real, yy: real, x0: int, W: nat, y0: int, H: nat)
    requires IsShift(c00, c20, c02, xx, yy, s) && CentralOfRect(c00, c20, c02, xx, yy, x0, W, y0, H)
    ensures Trunc(s.m30) == RangeSum(3, x0, x0 + W - 1) * RangeSum(0, y0, y0 + H - 1)
  {
    CentredSum3(x0, W, xx);
    RangeSumCount(y0, H);
    CastProduct(W as real, H as real, W, H);
    AxisThree(c00 as real, c20, s.m10, s.m20, s.m30, xx, W as real, H as real, Central2(W),
              RangeSum(3, x0, x0 + W - 1), RangeSum(0, y0, y0 + H - 1));
  }

  /** The mixed moments of orders (1, 1) and (2, 1): an x moment shifted along y. */
  lemma {:induction false} RectCrossOne(s: Shifted, c00: int, c20: real, c02: real, xx: real, yy: real, x0: int, W: nat, y0: int, H: nat)
    requires IsShift(c00, c20, c02, xx, yy, s) && CentralOfRect(c00, c20, c02, xx, yy, x0, W, y0, H)
    ensures Trunc(s.m11) == RangeSum(1, x0, x0 + W - 1) * RangeSum(1, y0, y0 + H - 1)
  {
    CentredSum1(x0, W, xx);
    CentredSum1(y0, H, yy);
    CastProduct(W as real, H as real, W, H);
    CrossOne(c00 as real, s.m10, s.m11, xx, yy, W as real, H as real,
             RangeSum(1, x0, x0 + W - 1), RangeSum(1, y0, y0 + H - 1));
  }

  lemma {:induction false} RectCrossTwo(s: Shifted, c00: int, c20: real, c02: real, xx: real, yy: real, x0: int, W: nat, y0: int, H: nat)
    requires IsShift(c00, c20, c02, xx, yy, s) && CentralOfRect(c00, c20, c02, xx, yy, x0, W, y0, H)
    ensures Trunc(s.m21) == RangeSum(2, x0, x0 + W - 1) * RangeSum(1, y0, y0 + H - 1)
  {
    CentredSum2(x0, W, xx);
    CentredSum1(y0, H, yy);
    CastProduct(W as real, H as real, W, H);
    CrossTwo(c00 as real, c20, s.m10, s.m20, s.m21, xx, yy, W as real, H as real, Central2(W),
             RangeSum(2, x0, x0 + W - 1), RangeSum(1, y0, y0 + H - 1));
  }

  /** Shifting the central moments of the W x H rectangle with lowest corner (x0, y0) to its
      centre gives, for every order with p + q <= 3, the moment of the rectangle: the product
      of the power sums along its columns and its rows. */
  lemma {:induction false} ShiftIsRectMoment(s: Shifted, c00: int, c20: real, c02: real, xx: real, yy: real,
                          x0: int, W: nat, y0: int, H: nat, p: nat, q: nat)
    requires IsShift(c00, c20, c02, xx, yy, s) && CentralOfRect(c00, c20, c02, xx, yy, x0, W, y0, H)
    requires p + q <= 3
    ensures Term(s, p, q) == RangeSum(p, x0, x0 + W - 1) * RangeSum(q, y0, y0 + H - 1)
  {
    var t := Transposed(s);
    TransposeShift(s, c00, c20, c02, xx, yy);
    TransposeRect(c00, c20, c02, xx, yy, x0, W, y0, H);
    if p == 0 && q == 0 {
      RangeSumCount(x0, W);
      RangeSumCount(y0, H);
    } else if p == 1 && q == 0 {
      RectAxisOne(s, c00, c20, c02, xx, yy, x0, W, y0, H);
    } else if p == 0 && q == 1 {
      RectAxisOne(t, c00, c02, c20, yy, xx, y0, H, x0, W);
    } else if p == 1 && q == 1 {
      RectCrossOne(s, c00, c20, c02, xx, yy, x0, W, y0, H);
    } else if p == 2 && q == 0 {
      RectAxisTwo(s, c00, c20, c02, xx, yy, x0, W, y0, H);
    } else if p == 0 && q == 2 {
      RectAxisTwo(t, c00, c02, c20, yy, xx, y0, H, x0, W);
    } else if p == 3 && q == 0 {
      RectAxisThree(s, c00, c20, c02, xx, yy, x0, W, y0, H);
    } else if p == 0 && q == 3 {
      RectAxisThree(t, c00, c02, c20, yy, xx, y0, H, x0, W);
    } else if p == 2 && q == 1 {
      RectCrossTwo(s, c00, c20, c02, xx, yy, x0, W, y0, H);
    } else {
      assert p == 1 && q == 2;
      RectCrossTwo(t, c00, c02, c20, yy, xx, y0, H, x0, W);
    }
  }
}
