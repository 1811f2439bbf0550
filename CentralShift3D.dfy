/** The parallel-axis step of the 3D central-moment methods: from mu000, mu200, mu020, mu002 of
    an axis-aligned cuboid and its centre (xx, yy, zz), the twenty moments of order up to 3
    about the origin.  momentBlockNew3D and momentTreeNew3D run the same twenty lines; the
    block method adds them through int(), the tree method as they are. */
module CentralShift3D {
  import opened PowerSums
  import opened Commons3D

  /** The twenty moments of one cuboid: m000 is an integer, the others are reals. */
  datatype Shifted3 = Shifted3(m000: int, m100: real, m010: real, m001: real,
                               m011: real, m101: real, m110: real,
                               m200: real, m020: real, m002: real,
                               m021: real, m210: real, m120: real, m102: real, m012: real, m201: real,
                               m300: real, m030: real, m003: real, m111: real)

  /** The shift, line by line: first order c mu000, the mixed first orders by one more centre,
      second order mu200 + xx m100, the (2, 1) family by one more centre, third order
      3 xx m200 - 2 xx^2 m100, and m111 = xx m011. */
  predicate IsShift3(c000: int, c200: real, c020: real, c002: real, xx: real, yy: real, zz: real, s: Shifted3)
  {
    && s.m000 == c000
    && s.m100 == xx * c000 as real && s.m010 == yy * c000 as real && s.m001 == zz * c000 as real
    && s.m011 == zz * s.m010 && s.m101 == xx * s.m001 && s.m110 == yy * s.m100
    && s.m200 == c200 + xx * s.m100 && s.m020 == c020 + yy * s.m010 && s.m002 == c002 + zz * s.m001
    && s.m021 == zz * s.m020 && s.m210 == yy * s.m200 && s.m120 == xx * s.m020
    && s.m102 == xx * s.m002 && s.m012 == yy * s.m002 && s.m201 == zz * s.m200
    && s.m300 == 3.0 * xx * s.m200 - 2.0 * xx * xx * s.m100
    && s.m030 == 3.0 * yy * s.m020 - 2.0 * yy * yy * s.m010
    && s.m003 == 3.0 * zz * s.m002 - 2.0 * zz * zz * s.m001
    && s.m111 == xx * s.m011
  }

  /** The twenty assignments that move the central moments of a cuboid to the origin. */
  method ShiftToOrigin3(c000: int, c200: real, c020: real, c002: real, xx: real, yy: real, zz: real)
    returns (s: Shifted3)
    ensures IsShift3(c000, c200, c020, c002, xx, yy, zz, s)
  {
    var m100 := xx * c000 as real;
    var m010 := yy * c000 as real;
    var m001 := zz * c000 as real;
    var m011 := zz * m010;
    var m101 := xx * m001;
    var m110 := yy * m100;
    var m200 := c200 + xx * m100;
    var m020 := c020 + yy * m010;
    var m002 := c002 + zz * m001;
    var m021 := zz * m020;
    var m210 := yy * m200;
    var m120 := xx * m020;
    var m102 := xx * m002;
    var m012 := yy * m002;
    var m201 := zz * m200;
    var m300 := 3.0 * xx * m200 - 2.0 * xx * xx * m100;
    var m030 := 3.0 * yy * m020 - 2.0 * yy * yy * m010;
    var m003 := 3.0 * zz * m002 - 2.0 * zz * zz * m001;
    var m111 := xx * m011;
    s := Shifted3(c000, m100, m010, m001, m011, m101, m110, m200, m020, m002,
                  m021, m210, m120, m102, m012, m201, m300, m030, m003, m111);
  }

  /** The shifted moment of order (p, q, r), as a real. */
  function Field3(s: Shifted3, p: nat, q: nat, r: nat): real
  {
    match (p, q, r)
    case (0, 0, 0) => s.m000 as real
    case (1, 0, 0) => s.m100
    case (0, 1, 0) => s.m010
    case (0, 0, 1) => s.m001
    case (0, 1, 1) => s.m011
    case (1, 0, 1) => s.m101
    case (1, 1, 0) => s.m110
    case (2, 0, 0) => s.m200
    case (0, 2, 0) => s.m020
    case (0, 0, 2) => s.m002
    case (0, 2, 1) => s.m021
    case (2, 1, 0) => s.m210
    case (1, 2, 0) => s.m120
    case (1, 0, 2) => s.m102
    case (0, 1, 2) => s.m012
    case (2, 0, 1) => s.m201
    case (3, 0, 0) => s.m300
    case (0, 3, 0) => s.m030
    case (0, 0, 3) => s.m003
    case (1, 1, 1) => s.m111
    case _ => 0.0
  }

  /** What one cuboid adds to the moment of order (p, q, r) in the block method: m000 as it
      is, every other moment through int(). */
  function Term3(s: Shifted3, p: nat, q: nat, r: nat): int
  {
    if p == 0 && q == 0 && r == 0 then s.m000 else Trunc(Field3(s, p, q, r))
  }

  /** The twenty dictionary updates of the block method, m000 added as it is and every other
      moment through int().  The twenty keys are distinct, so the updates are stated as one
      map over the keys, each key gaining the term of its order. */
  method AddShifted3(MM0: map<(nat, nat, nat), int>, s: Shifted3) returns (MM: map<(nat, nat, nat), int>)
    requires MM0.Keys == OrderKeys
    ensures MM.Keys == OrderKeys
    ensures forall o :: o in Orders ==> MM[o] == MM0[o] + Term3(s, o.0, o.1, o.2)
  {
    MM := map o | o in MM0 :: MM0[o] + Term3(s, o.0, o.1, o.2);
  }

  /** The twenty dictionary updates of the tree method, every moment added as it is. */
  method AddShiftedReal3(MM0: map<(nat, nat, nat), real>, s: Shifted3) returns (MM: map<(nat, nat, nat), real>)
    requires MM0.Keys == OrderKeys
    ensures MM.Keys == OrderKeys
    ensures forall o :: o in Orders ==> MM[o] == MM0[o] + Field3(s, o.0, o.1, o.2)
  {
    MM := map o | o in MM0 :: MM0[o] + Field3(s, o.0, o.1, o.2);
  }

  /** One axis of a cuboid, as reals: its power sums of order 0 to 3, its centre c and its
      central moment v = (n^3 - n) / 12. */
  datatype Axis = Axis(a0: real, a1: real, a2: real, a3: real, c: real, v: real)

  /** The power sums of an axis in terms of its centre: a1 = c a0, a2 = c a1 + v and
      a3 = 3 c a2 - 2 c^2 a1, the same recurrences the shift uses. */
  predicate AxisShifts(A: Axis)
  {
    A.a1 == A.c * A.a0 && A.a2 == A.c * A.a1 + A.v && A.a3 == 3.0 * A.c * A.a2 - 2.0 * A.c * A.c * A.a1
  }

  /** The power sum of order k of an axis. */
  function Sum(A: Axis, k: nat): real
  {
    if k == 0 then A.a0 else if k == 1 then A.a1 else if k == 2 then A.a2 else A.a3
  }

  /** The axis of the n integers from lo. */
  function AxisOf(lo: int, n: nat): Axis
  {
    Axis(n as real, RangeSum(1, lo, lo + n - 1) as real,
         RangeSum(2, lo, lo + n - 1) as real, RangeSum(3, lo, lo + n - 1) as real,
         Centre(lo, n), Central2(n))
  }

  /** Sums n, n c, n c^2 + v and n c^3 + 3 c v satisfy the shift recurrences. */
  lemma {:induction false} AxisFromCentre(n: real, c: real, v: real, a1: real, a2: real, a3: real)
    requires a1 == n * c && a2 == n * c * c + v && a3 == n * c * c * c + 3.0 * c * v
    ensures AxisShifts(Axis(n, a1, a2, a3, c, v))
  {
  }

  /** The power sums of a range of integers satisfy the shift recurrences about its centre. */
  lemma {:induction false} AxisOfShifts(lo: int, n: nat)
    ensures AxisShifts(AxisOf(lo, n))
  {
    CentredSum1(lo, n, Centre(lo, n));
    CentredSum2(lo, n, Centre(lo, n));
    CubesAtCentre(lo, n);
    AxisFromCentre(n as real, Centre(lo, n), Central2(n), RangeSum(1, lo, lo + n - 1) as real,
                   RangeSum(2, lo, lo + n - 1) as real, RangeSum(3, lo, lo + n - 1) as real);
  }

  /** mu000, mu200, mu020, mu002 in terms of three axes. */
  predicate CentralOfAxes(c000: int, c200: real, c020: real, c002: real, X: Axis, Y: Axis, Z: Axis)
  {
    && c000 as real == X.a0 * Y.a0 * Z.a0
    && c200 == Y.a0 * Z.a0 * X.v && c020 == X.a0 * Z.a0 * Y.v && c002 == X.a0 * Y.a0 * Z.v
  }

  /** G = c F, one more centre on the x axis, raises that axis from order k to order k + 1. */
  lemma {:induction false} RaiseX(c: real, F: real, G: real, a: real, a': real, b: real, d: real)
    requires F == a * b * d && G == c * F && a' == c * a
    ensures G == a' * b * d
  {
  }

  /** One more centre on the y axis. */
  lemma {:induction false} RaiseY(c: real, F: real, G: real, a: real, b: real, b': real, d: real)
    requires F == a * b * d && G == c * F && b' == c * b
    ensures G == a * b' * d
  {
  }

  /** One more centre on the z axis. */
  lemma {:induction false} RaiseZ(c: real, F: real, G: real, a: real, b: real, d: real, d': real)
    requires F == a * b * d && G == c * F && d' == c * d
    ensures G == a * b * d'
  {
  }

  /** G = mu200 + xx m100 is the second-order sum along x times the other two axes. */
  lemma {:induction false} SecondX(c: real, v: real, mu: real, m1: real, G: real, a1: real, a2: real, b: real, d: real)
    requires mu == b * d * v && m1 == a1 * b * d && G == mu + c * m1 && a2 == c * a1 + v
    ensures G == a2 * b * d
  {
  }

  /** G = mu020 + yy m010, along y. */
  lemma {:induction false} SecondY(c: real, v: real, mu: real, m1: real, G: real, a: real, b1: real, b2: real, d: real)
    requires mu == a * d * v && m1 == a * b1 * d && G == mu + c * m1 && b2 == c * b1 + v
    ensures G == a * b2 * d
  {
  }

  /** G = mu002 + zz m001, along z. */
  lemma {:induction false} SecondZ(c: real, v: real, mu: real, m1: real, G: real, a: real, b: real, d1: real, d2: real)
    requires mu == a * b * v && m1 == a * b * d1 && G == mu + c * m1 && d2 == c * d1 + v
    ensures G == a * b * d2
  {
  }

  /** G = 3 xx m200 - 2 xx^2 m100 is the third-order sum along x times the other two axes. */
  lemma {:induction false} ThirdX(c: real, m1: real, m2: real, G: real, a1: real, a2: real, a3: real, b: real, d: real)
    requires m1 == a1 * b * d && m2 == a2 * b * d && G == 3.0 * c * m2 - 2.0 * c * c * m1
    requires a3 == 3.0 * c * a2 - 2.0 * c * c * a1
    ensures G == a3 * b * d
  {
  }

  /** The same along y. */
  lemma {:induction false} ThirdY(c: real, m1: real, m2: real, G: real, a: real, b1: real, b2: real, b3: real, d: real)
    requires m1 == a * b1 * d && m2 == a * b2 * d && G == 3.0 * c * m2 - 2.0 * c * c * m1
    requires b3 == 3.0 * c * b2 - 2.0 * c * c * b1
    ensures G == a * b3 * d
  {
  }

  /** The same along z. */
  lemma {:induction false} ThirdZ(c: real, m1: real, m2: real, G: real, a: real, b: real, d1: real, d2: real, d3: real)
    requires m1 == a * b * d1 && m2 == a * b * d2 && G == 3.0 * c * m2 - 2.0 * c * c * m1
    requires d3 == 3.0 * c * d2 - 2.0 * c * c * d1
    ensures G == a * b * d3
  {
  }

  /** The moments of order 1, and m011, m101, m110, m111, as products of axis sums, when
      mu000 = a0 b0 d0 and each first-order sum is the centre times the count. */
  lemma {:induction false} FirstOrderSums(c000: real, m100: real, m010: real, m001: real, m011: real, m101: real, m110: real,
                       m111: real, xx: real, yy: real, zz: real,
                       a0: real, a1: real, b0: real, b1: real, d0: real, d1: real)
    requires c000 == a0 * b0 * d0 && a1 == xx * a0 && b1 == yy * b0 && d1 == zz * d0
    requires m100 == xx * c000 && m010 == yy * c000 && m001 == zz * c000
    requires m011 == zz * m010 && m101 == xx * m001 && m110 == yy * m100 && m111 == xx * m011
    ensures m100 == a1 * b0 * d0 && m010 == a0 * b1 * d0 && m001 == a0 * b0 * d1
    ensures m011 == a0 * b1 * d1 && m101 == a1 * b0 * d1 && m110 == a1 * b1 * d0 && m111 == a1 * b1 * d1
  {
    RaiseX(xx, c000, m100, a0, a1, b0, d0);
    RaiseY(yy, c000, m010, a0, b0, b1, d0);
    RaiseZ(zz, c000, m001, a0, b0, d0, d1);
    RaiseZ(zz, m010, m011, a0, b1, d0, d1);
    RaiseX(xx, m001, m101, a0, a1, b0, d1);
    RaiseY(yy, m100, m110, a1, b0, b1, d0);
    RaiseX(xx, m011, m111, a0, a1, b1, d1);
  }

  /** The moments of order 2 on one axis, from mu200, mu020, mu002 and the first order. */
  lemma {:induction false} SecondOrderSums(c200: real, c020: real, c002: real, m100: real, m010: real, m001: real,
                        m200: real, m020: real, m002: real, xx: real, yy: real, zz: real,
                        vx: real, vy: real, vz: real, a0: real, a1: real, a2: real,
                        b0: real, b1: real, b2: real, d0: real, d1: real, d2: real)
    requires c200 == b0 * d0 * vx && c020 == a0 * d0 * vy && c002 == a0 * b0 * vz
    requires a2 == xx * a1 + vx && b2 == yy * b1 + vy && d2 == zz * d1 + vz
    requires m100 == a1 * b0 * d0 && m010 == a0 * b1 * d0 && m001 == a0 * b0 * d1
    requires m200 == c200 + xx * m100 && m020 == c020 + yy * m010 && m002 == c002 + zz * m001
    ensures m200 == a2 * b0 * d0 && m020 == a0 * b2 * d0 && m002 == a0 * b0 * d2
  {
    SecondX(xx, vx, c200, m100, m200, a1, a2, b0, d0);
    SecondY(yy, vy, c020, m010, m020, a0, b1, b2, d0);
    SecondZ(zz, vz, c002, m001, m002, a0, b0, d1, d2);
  }

  /** The (2, 1) family: one more centre on a second-order moment. */
  lemma {:induction false} MixedThirdSums(m200: real, m020: real, m002: real, m021: real, m210: real, m120: real,
                       m102: real, m012: real, m201: real, xx: real, yy: real, zz: real,
                       a0: real, a1: real, a2: real, b0: real, b1: real, b2: real, d0: real, d1: real, d2: real)
    requires a1 == xx * a0 && b1 == yy * b0 && d1 == zz * d0
    requires m200 == a2 * b0 * d0 && m020 == a0 * b2 * d0 && m002 == a0 * b0 * d2
    requires m021 == zz * m020 && m210 == yy * m200 && m120 == xx * m020
    requires m102 == xx * m002 && m012 == yy * m002 && m201 == zz * m200
    ensures m021 == a0 * b2 * d1 && m210 == a2 * b1 * d0 && m120 == a1 * b2 * d0
    ensures m102 == a1 * b0 * d2 && m012 == a0 * b1 * d2 && m201 == a2 * b0 * d1
  {
    RaiseZ(zz, m020, m021, a0, b2, d0, d1);
    RaiseY(yy, m200, m210, a2, b0, b1, d0);
    RaiseX(xx, m020, m120, a0, a1, b2, d0);
    RaiseX(xx, m002, m102, a0, a1, b0, d2);
    RaiseY(yy, m002, m012, a0, b0, b1, d2);
    RaiseZ(zz, m200, m201, a2, b0, d0, d1);
  }

  /** The moments of order 3 on one axis. */
  lemma {:induction false} PureThirdSums(m100: real, m010: real, m001: real, m200: real, m020: real, m002: real,
                      m300: real, m030: real, m003: real, xx: real, yy: real, zz: real,
                      a0: real, a1: real, a2: real, a3: real, b0: real, b1: real, b2: real, b3: real,
                      d0: real, d1: real, d2: real, d3: real)
    requires a3 == 3.0 * xx * a2 - 2.0 * xx * xx * a1 && b3 == 3.0 * yy * b2 - 2.0 * yy * yy * b1
    requires d3 == 3.0 * zz * d2 - 2.0 * zz * zz * d1
    requires m100 == a1 * b0 * d0 && m010 == a0 * b1 * d0 && m001 == a0 * b0 * d1
    requires m200 == a2 * b0 * d0 && m020 == a0 * b2 * d0 && m002 == a0 * b0 * d2
    requires m300 == 3.0 * xx * m200 - 2.0 * xx * xx * m100
    requires m030 == 3.0 * yy * m020 - 2.0 * yy * yy * m010
    requires m003 == 3.0 * zz * m002 - 2.0 * zz * zz * m001
    ensures m300 == a3 * b0 * d0 && m030 == a0 * b3 * d0 && m003 == a0 * b0 * d3
  {
    ThirdX(xx, m100, m200, m300, a1, a2, a3, b0, d0);
    ThirdY(yy, m010, m020, m030, a0, b1, b2, b3, d0);
    ThirdZ(zz, m001, m002, m003, a0, b0, d1, d2, d3);
  }

  /** The twenty lines of the shift, over plain reals: every moment is the product of the
      axis sums of its order. */
  lemma {:induction false} ShiftSums(m000: int, n000: int, c000: real, c200: real, c020: real, c002: real, xx: real, yy: real, zz: real,
                  vx: real, vy: real, vz: real,
                  m100: real, m010: real, m001: real, m011: real, m101: real, m110: real,
                  m200: real, m020: real, m002: real, m021: real, m210: real, m120: real,
                  m102: real, m012: real, m201: real, m300: real, m030: real, m003: real, m111: real,
                  a0: real, a1: real, a2: real, a3: real, b0: real, b1: real, b2: real, b3: real,
                  d0: real, d1: real, d2: real, d3: real)
    requires m000 == n000 && c000 == n000 as real
    requires c000 == a0 * b0 * d0 && c200 == b0 * d0 * vx && c020 == a0 * d0 * vy && c002 == a0 * b0 * vz
    requires a1 == xx * a0 && a2 == xx * a1 + vx && a3 == 3.0 * xx * a2 - 2.0 * xx * xx * a1
    requires b1 == yy * b0 && b2 == yy * b1 + vy && b3 == 3.0 * yy * b2 - 2.0 * yy * yy * b1
    requires d1 == zz * d0 && d2 == zz * d1 + vz && d3 == 3.0 * zz * d2 - 2.0 * zz * zz * d1
    requires m100 == xx * c000 && m010 == yy * c000 && m001 == zz * c000
    requires m011 == zz * m010 && m101 == xx * m001 && m110 == yy * m100
    requires m200 == c200 + xx * m100 && m020 == c020 + yy * m010 && m002 == c002 + zz * m001
    requires m021 == zz * m020 && m210 == yy * m200 && m120 == xx * m020
    requires m102 == xx * m002 && m012 == yy * m002 && m201 == zz * m200
    requires m300 == 3.0 * xx * m200 - 2.0 * xx * xx * m100
    requires m030 == 3.0 * yy * m020 - 2.0 * yy * yy * m010
    requires m003 == 3.0 * zz * m002 - 2.0 * zz * zz * m001
    requires m111 == xx * m011
    ensures m000 as real == a0 * b0 * d0
    ensures m100 == a1 * b0 * d0 && m010 == a0 * b1 * d0 && m001 == a0 * b0 * d1
    ensures m011 == a0 * b1 * d1 && m101 == a1 * b0 * d1 && m110 == a1 * b1 * d0 && m111 == a1 * b1 * d1
    ensures m200 == a2 * b0 * d0 && m020 == a0 * b2 * d0 && m002 == a0 * b0 * d2
    ensures m021 == a0 * b2 * d1 && m210 == a2 * b1 * d0 && m120 == a1 * b2 * d0
    ensures m102 == a1 * b0 * d2 && m012 == a0 * b1 * d2 && m201 == a2 * b0 * d1
    ensures m300 == a3 * b0 * d0 && m030 == a0 * b3 * d0 && m003 == a0 * b0 * d3
  {
    FirstOrderSums(c000, m100, m010, m001, m011, m101, m110, m111, xx, yy, zz, a0, a1, b0, b1, d0, d1);
    SecondOrderSums(c200, c020, c002, m100, m010, m001, m200, m020, m002, xx, yy, zz,
                    vx, vy, vz, a0, a1, a2, b0, b1, b2, d0, d1, d2);
    MixedThirdSums(m200, m020, m002, m021, m210, m120, m102, m012, m201, xx, yy, zz,
                   a0, a1, a2, b0, b1, b2, d0, d1, d2);
    PureThirdSums(m100, m010, m001, m200, m020, m002, m300, m030, m003, xx, yy, zz,
                  a0, a1, a2, a3, b0, b1, b2, b3, d0, d1, d2, d3);
  }

  /** Every one of the twenty shifted moments is the product of the three axis sums of its
      order. */
  predicate AxisProducts(s: Shifted3, X: Axis, Y: Axis, Z: Axis)
  {
    && s.m000 as real == X.a0 * Y.a0 * Z.a0
    && s.m100 == X.a1 * Y.a0 * Z.a0 && s.m010 == X.a0 * Y.a1 * Z.a0 && s.m001 == X.a0 * Y.a0 * Z.a1
    && s.m011 == X.a0 * Y.a1 * Z.a1 && s.m101 == X.a1 * Y.a0 * Z.a1 && s.m110 == X.a1 * Y.a1 * Z.a0
    && s.m111 == X.a1 * Y.a1 * Z.a1
    && s.m200 == X.a2 * Y.a0 * Z.a0 && s.m020 == X.a0 * Y.a2 * Z.a0 && s.m002 == X.a0 * Y.a0 * Z.a2
    && s.m021 == X.a0 * Y.a2 * Z.a1 && s.m210 == X.a2 * Y.a1 * Z.a0 && s.m120 == X.a1 * Y.a2 * Z.a0
    && s.m102 == X.a1 * Y.a0 * Z.a2 && s.m012 == X.a0 * Y.a1 * Z.a2 && s.m201 == X.a2 * Y.a0 * Z.a1
    && s.m300 == X.a3 * Y.a0 * Z.a0 && s.m030 == X.a0 * Y.a3 * Z.a0 && s.m003 == X.a0 * Y.a0 * Z.a3
  }

  /** The shift of the central moments of three axes gives the products of their sums. */
  lemma {:induction false} AllFields(s: Shifted3, c000: int, c200: real, c020: real, c002: real, X: Axis, Y: Axis, Z: Axis)
    requires IsShift3(c000, c200, c020, c002, X.c, Y.c, Z.c, s)
    requires CentralOfAxes(c000, c200, c020, c002, X, Y, Z)
    requires AxisShifts(X) && AxisShifts(Y) && AxisShifts(Z)
    ensures AxisProducts(s, X, Y, Z)
  {
    ShiftSums(s.m000, c000, c000 as real, c200, c020, c002, X.c, Y.c, Z.c, X.v, Y.v, Z.v,
              s.m100, s.m010, s.m001, s.m011, s.m101, s.m110, s.m200, s.m020, s.m002,
              s.m021, s.m210, s.m120, s.m102, s.m012, s.m201, s.m300, s.m030, s.m003, s.m111,
              X.a0, X.a1, X.a2, X.a3, Y.a0, Y.a1, Y.a2, Y.a3, Z.a0, Z.a1, Z.a2, Z.a3);
  }

  /** Equal factors give equal products. */
  lemma {:induction false} SameProduct(a: real, b: real, d: real, a': real, b': real, d': real)
    requires a == a' && b == b' && d == d'
    ensures a * b * d == a' * b' * d'
  {
  }

  /** The shifted moment of each order p + q + r <= 3 is the product of the axis sums of
      orders p, q and r. */
  lemma {:induction false} FieldIsProduct(s: Shifted3, X: Axis, Y: Axis, Z: Axis, p: nat, q: nat, r: nat)
    requires AxisProducts(s, X, Y, Z) && p + q + r <= 3
    ensures Field3(s, p, q, r) == Sum(X, p) * Sum(Y, q) * Sum(Z, r)
  {
    if p == 0 && q == 0 && r == 0 {
      SameProduct(Sum(X, p), Sum(Y, q), Sum(Z, r), X.a0, Y.a0, Z.a0);
    } else if p == 1 && q == 0 && r == 0 {
      SameProduct(Sum(X, p), Sum(Y, q), Sum(Z, r), X.a1, Y.a0, Z.a0);
    } else if p == 0 && q == 1 && r == 0 {
      SameProduct(Sum(X, p), Sum(Y, q), Sum(Z, r), X.a0, Y.a1, Z.a0);
    } else if p == 0 && q == 0 && r == 1 {
      SameProduct(Sum(X, p), Sum(Y, q), Sum(Z, r), X.a0, Y.a0, Z.a1);
    } else if p == 1 && q == 1 && r == 0 {
      SameProduct(Sum(X, p), Sum(Y, q), Sum(Z, r), X.a1, Y.a1, Z.a0);
    } else if p == 1 && q == 0 && r == 1 {
      SameProduct(Sum(X, p), Sum(Y, q), Sum(Z, r), X.a1, Y.a0, Z.a1);
    } else if p == 0 && q == 1 && r == 1 {
      SameProduct(Sum(X, p), Sum(Y, q), Sum(Z, r), X.a0, Y.a1, Z.a1);
    } else if p == 2 && q == 0 && r == 0 {
      SameProduct(Sum(X, p), Sum(Y, q), Sum(Z, r), X.a2, Y.a0, Z.a0);
    } else if p == 0 && q == 2 && r == 0 {
      SameProduct(Sum(X, p), Sum(Y, q), Sum(Z, r), X.a0, Y.a2, Z.a0);
    } else if p == 0 && q == 0 && r == 2 {
      SameProduct(Sum(X, p), Sum(Y, q), Sum(Z, r), X.a0, Y.a0, Z.a2);
    } else if p == 0 && q == 1 && r == 2 {
      SameProduct(Sum(X, p), Sum(Y, q), Sum(Z, r), X.a0, Y.a1, Z.a2);
    } else if p == 0 && q == 2 && r == 1 {
      SameProduct(Sum(X, p), Sum(Y, q), Sum(Z, r), X.a0, Y.a2, Z.a1);
    } else if p == 1 && q == 2 && r == 0 {
      SameProduct(Sum(X, p), Sum(Y, q), Sum(Z, r), X.a1, Y.a2, Z.a0);
    } else if p == 1 && q == 0 && r == 2 {
      SameProduct(Sum(X, p), Sum(Y, q), Sum(Z, r), X.a1, Y.a0, Z.a2);
    } else if p == 2 && q == 0 && r == 1 {
      SameProduct(Sum(X, p), Sum(Y, q), Sum(Z, r), X.a2, Y.a0, Z.a1);
    } else if p == 2 && q == 1 && r == 0 {
      SameProduct(Sum(X, p), Sum(Y, q), Sum(Z, r), X.a2, Y.a1, Z.a0);
    } else if p == 3 && q == 0 && r == 0 {
      SameProduct(Sum(X, p), Sum(Y, q), Sum(Z, r), X.a3, Y.a0, Z.a0);
    } else if p == 0 && q == 3 && r == 0 {
      SameProduct(Sum(X, p), Sum(Y, q), Sum(Z, r), X.a0, Y.a3, Z.a0);
    } else if p == 0 && q == 0 && r == 3 {
      SameProduct(Sum(X, p), Sum(Y, q), Sum(Z, r), X.a0, Y.a0, Z.a3);
    } else {
      assert p == 1 && q == 1 && r == 1;
      SameProduct(Sum(X, p), Sum(Y, q), Sum(Z, r), X.a1, Y.a1, Z.a1);
    }
  }

  /** mu000 = W H D, mu200 = H D (W^3 - W)/12 and likewise along y and z, and the centre
      (xx, yy, zz) of the W x H x D cuboid with lowest corner (x0, y0, z0). */
  predicate CentralOfBox(c000: int, c200: real, c020: real, c002: real, xx: real, yy: real, zz: real,
                         x0: int, W: nat, y0: int, H: nat, z0: int, D: nat)
  {
    && c000 == W * H * D
    && c200 == H as real * D as real * Central2(W) && c020 == W as real * D as real * Central2(H)
    && c002 == W as real * H as real * Central2(D)
    && xx == Centre(x0, W) && yy == Centre(y0, H) && zz == Centre(z0, D)
  }

  /** The central moments of a cuboid, stated on three axes whose counts and second central
      sums are those of its sides. */
  lemma {:induction false} BoxAxes(c000: int, c200: real, c020: real, c002: real, X: Axis, Y: Axis, Z: Axis, W: nat, H: nat, D: nat)
    requires X.a0 == W as real && Y.a0 == H as real && Z.a0 == D as real
    requires X.v == Central2(W) && Y.v == Central2(H) && Z.v == Central2(D)
    requires c000 == W * H * D && c200 == H as real * D as real * Central2(W)
    requires c020 == W as real * D as real * Central2(H) && c002 == W as real * H as real * Central2(D)
    ensures CentralOfAxes(c000, c200, c020, c002, X, Y, Z)
  {
    CentralOfCounts(c000, c200, c020, c002, X.a0, Y.a0, Z.a0, X.v, Y.v, Z.v, W, H, D);
  }

  /** The same, on plain reals: the counts cast to reals and the second central sums. */
  lemma {:induction false} CentralOfCounts(c000: int, c200: real, c020: real, c002: real, a0: real, b0: real, d0: real,
                        vx: real, vy: real, vz: real, W: int, H: int, D: int)
    requires a0 == W as real && b0 == H as real && d0 == D as real && c000 == W * H * D
    requires c200 == b0 * d0 * vx && c020 == a0 * d0 * vy && c002 == a0 * b0 * vz
    ensures c000 as real == a0 * b0 * d0 && c200 == b0 * d0 * vx && c020 == a0 * d0 * vy && c002 == a0 * b0 * vz
  {
    CastProduct3(a0, b0, d0, W, H, D);
  }

  /** A product of three reals that are integers is the integer product. */
  lemma {:induction false} CastTriple(f: real, x: real, y: real, z: real, a: int, b: int, c: int)
    requires f == x * y * z && x == a as real && y == b as real && z == c as real
    ensures f == (a * b * c) as real
  {
    CastProduct3(x, y, z, a, b, c);
  }

  /** The sum of order k of the axis of a range is the range sum, for k <= 3. */
  lemma {:induction false} SumOfAxis(lo: int, n: nat, k: nat)
    requires k <= 3
    ensures Sum(AxisOf(lo, n), k) == RangeSum(k, lo, lo + n - 1) as real
  {
    RangeSumCount(lo, n);
  }

  /** The moment of order (p, q, r) of the W x H x D cuboid with lowest corner (x0, y0, z0):
      the product of the power sums along its three axes. */
  function CuboidMoment(x0: int, W: nat, y0: int, H: nat, z0: int, D: nat, p: nat, q: nat, r: nat): int
  {
    RangeSum(p, x0, x0 + W - 1) * RangeSum(q, y0, y0 + H - 1) * RangeSum(r, z0, z0 + D - 1)
  }

  /** The shifted moments of a cuboid are the products of the sums along its axes. */
  lemma {:induction false} BoxProducts(s: Shifted3, c000: int, c200: real, c020: real, c002: real, xx: real, yy: real, zz: real,
                    x0: int, W: nat, y0: int, H: nat, z0: int, D: nat)
    requires IsShift3(c000, c200, c020, c002, xx, yy, zz, s)
    requires CentralOfBox(c000, c200, c020, c002, xx, yy, zz, x0, W, y0, H, z0, D)
    ensures AxisProducts(s, AxisOf(x0, W), AxisOf(y0, H), AxisOf(z0, D))
  {
    AxisOfShifts(x0, W);
    AxisOfShifts(y0, H);
    AxisOfShifts(z0, D);
    BoxAxes(c000, c200, c020, c002, AxisOf(x0, W), AxisOf(y0, H), AxisOf(z0, D), W, H, D);
    AllFields(s, c000, c200, c020, c002, AxisOf(x0, W), AxisOf(y0, H), AxisOf(z0, D));
  }

  /** A product of three reals equal to the integers a, b and c is the integer a b c. */
  lemma {:induction false} FieldOfIntegers(s: Shifted3, X: Axis, Y: Axis, Z: Axis, p: nat, q: nat, r: nat, a: int, b: int, c: int)
    requires Field3(s, p, q, r) == Sum(X, p) * Sum(Y, q) * Sum(Z, r)
    requires Sum(X, p) == a as real && Sum(Y, q) == b as real && Sum(Z, r) == c as real
    ensures Field3(s, p, q, r) == (a * b * c) as real
  {
    CastTriple(Field3(s, p, q, r), Sum(X, p), Sum(Y, q), Sum(Z, r), a, b, c);
  }

  /** When the shifted moments are the products of the axis sums and the sums of orders p, q
      and r are the integers a, b and c, the shifted moment of order (p, q, r) is a b c. */
  lemma {:induction false} FieldIsIntegerProduct(s: Shifted3, X: Axis, Y: Axis, Z: Axis, p: nat, q: nat, r: nat, a: int, b: int, c: int)
    requires AxisProducts(s, X, Y, Z) && p + q + r <= 3
    requires Sum(X, p) == a as real && Sum(Y, q) == b as real && Sum(Z, r) == c as real
    ensures Field3(s, p, q, r) == (a * b * c) as real
  {
    FieldIsProduct(s, X, Y, Z, p, q, r);
    FieldOfIntegers(s, X, Y, Z, p, q, r, a, b, c);
  }

  /** Shifting the central moments of the W x H x D cuboid with lowest corner (x0, y0, z0) to
      its centre gives, for every order with p + q + r <= 3, the moment of the cuboid, an
      integer, which int() therefore keeps. */
  lemma {:induction false} ShiftIsBoxMoment(s: Shifted3, c000: int, c200: real, c020: real, c002: real, xx: real, yy: real, zz: real,
                         x0: int, W: nat, y0: int, H: nat, z0: int, D: nat, p: nat, q: nat, r: nat)
    requires IsShift3(c000, c200, c020, c002, xx, yy, zz, s)
    requires CentralOfBox(c000, c200, c020, c002, xx, yy, zz, x0, W, y0, H, z0, D)
    requires p + q + r <= 3
    ensures Field3(s, p, q, r) == CuboidMoment(x0, W, y0, H, z0, D, p, q, r) as real
    ensures Term3(s, p, q, r) == CuboidMoment(x0, W, y0, H, z0, D, p, q, r)
  {
    BoxProducts(s, c000, c200, c020, c002, xx, yy, zz, x0, W, y0, H, z0, D);
    SumOfAxis(x0, W, p);
    SumOfAxis(y0, H, q);
    SumOfAxis(z0, D, r);
    FieldIsIntegerProduct(s, AxisOf(x0, W), AxisOf(y0, H), AxisOf(z0, D), p, q, r,
                          RangeSum(p, x0, x0 + W - 1), RangeSum(q, y0, y0 + H - 1), RangeSum(r, z0, z0 + D - 1));
    TruncOfInteger(CuboidMoment(x0, W, y0, H, z0, D, p, q, r));
  }
}
