/** The central-moment method on the blocks of a 3D image.  The central moments mu000, mu200,
    mu020 and mu002 of every cuboid size that can occur are tabulated once, keyed by the sides
    in decreasing order; each block then looks its size up, takes the three second moments in
    the order of its own axes and shifts the four values to the origin.  At optimization level
    2 a block whose middle side exceeds LIMIT_Y or whose shortest side exceeds LIMIT_Z is summed
    the direct way instead, from the power-sum table.  The module globals (OPT_LEVEL, the four
    tables, powers, and the two counters) are the fields of one engine object. */
module MomentBlockNew3D {
  import opened PowerSums
  import opened SetSums
  import opened Outcomes
  import opened BigMatrix
  import opened Commons3D
  import opened CentralShift3D
  import MB2 = MomentBlock2D
  import MB3 = MomentBlock3D
  import MBN2 = MomentBlockNew2D
  import S3 = Spiliotis3D

  /** LIMIT_Y and LIMIT_Z: the largest middle and shortest sides the tables cover at
      optimization level 2. */
  const LimitY := 8
  const LimitZ := 2

  // ----- Three sides in order -----

  /** s lists a, b and c in some order. */
  predicate Permutes3(s: (int, int, int), a: int, b: int, c: int)
  {
    || s == (a, b, c) || s == (a, c, b) || s == (b, a, c)
    || s == (b, c, a) || s == (c, a, b) || s == (c, b, a)
  }

  /** sorted((a, b, c)): the three values in increasing order. */
  function Sorted3(a: int, b: int, c: int): (s: (int, int, int))
    ensures s.0 <= s.1 <= s.2
    ensures Permutes3(s, a, b, c)
  {
    if a <= b then
      if b <= c then (a, b, c) else if a <= c then (a, c, b) else (c, a, b)
    else
      if a <= c then (b, a, c) else if b <= c then (b, c, a) else (c, b, a)
  }

  /** Sorting is monotone: raising each of three values raises each order statistic. */
  lemma {:induction false} SortedMonotone(a: int, b: int, c: int, A: int, B: int, C: int)
    requires a <= A && b <= B && c <= C
    ensures Sorted3(a, b, c).0 <= Sorted3(A, B, C).0
    ensures Sorted3(a, b, c).1 <= Sorted3(A, B, C).1
    ensures Sorted3(a, b, c).2 <= Sorted3(A, B, C).2
  {
  }

  // ----- The tables of central moments -----

  /** CC000, CC200, CC020 and CC002, keyed by the sides (X, Y, Z) of a cuboid, X >= Y >= Z. */
  datatype CentralTables3 = CentralTables3(cc000: map<(int, int, int), int>, cc200: map<(int, int, int), real>,
                                           cc020: map<(int, int, int), real>, cc002: map<(int, int, int), real>)

  /** The central moments of a W x H x D cuboid: mu000 = W H D, mu200 = H D (W^3 - W)/12,
      mu020 = W D (H^3 - H)/12 and mu002 = W H (D^3 - D)/12. */
  function BoxCentral(W: int, H: int, D: int): (int, real, real, real)
  {
    (W * H * D, H as real * D as real * Central2(W), W as real * D as real * Central2(H),
     W as real * H as real * Central2(D))
  }

  /** Every entry of the tables is the central moment of its cuboid. */
  predicate TablesCorrect3(t: CentralTables3)
  {
    && t.cc200.Keys == t.cc000.Keys && t.cc020.Keys == t.cc000.Keys && t.cc002.Keys == t.cc000.Keys
    && forall k {:trigger t.cc000[k]} :: k in t.cc000 ==>
         (t.cc000[k], t.cc200[k], t.cc020[k], t.cc002[k]) == BoxCentral(k.0, k.1, k.2)
  }

  /** The sizes setCentralMoments((more, mid, less)) tabulates: 1 x 1 x 1, every X x 1 x 1
      with X <= more, every X x Y x 1 with 2 <= Y <= mid and Y <= X <= more, and every X x Y x Z
      with 2 <= Z <= less, Z <= Y <= mid and Y <= X <= more. */
  predicate IsKey3(k: (int, int, int), sides: (int, int, int))
  {
    || k == (1, 1, 1)
    || (1 <= k.2 <= k.1 <= k.0 <= sides.0 && (k.1 == 1 || k.1 <= sides.1) && (k.2 == 1 || k.2 <= sides.2))
  }

  /** Storing the central moments of one more size keeps the tables correct. */
  lemma {:induction false} StoreEntry3(t: CentralTables3, k: (int, int, int), a: int, b: real, c: real, d: real)
    requires TablesCorrect3(t) && (a, b, c, d) == BoxCentral(k.0, k.1, k.2)
    ensures TablesCorrect3(CentralTables3(t.cc000[k := a], t.cc200[k := b], t.cc020[k := c], t.cc002[k := d]))
  {
  }

  /** Four values that are, one by one, the central moments of a W x H x D cuboid. */
  lemma {:induction false} BoxCentralOf(W: int, H: int, D: int, a: int, b: real, c: real, d: real)
    requires a == W * H * D && b == H as real * D as real * Central2(W)
    requires c == W as real * D as real * Central2(H) && d == W as real * H as real * Central2(D)
    ensures (a, b, c, d) == BoxCentral(W, H, D)
  {
  }

  /** A single voxel has no spread: its second central moment is 0. */
  lemma {:induction false} CentralOfOne()
    ensures Central2(1) == 0.0
  {
  }

  /** The entry stored for X x 1 x 1: X and the second sum along x, the other two being 0. */
  lemma {:induction false} LineEntry(X: int, v: real)
    requires v == Central2(X)
    ensures (X, v, 0.0, 0.0) == BoxCentral(X, 1, 1)
  {
    CentralOfOne();
    BoxCentralOf(X, 1, 1, X, v, 0.0, 0.0);
  }

  /** 2 a b s is a b c when 2 s is c. */
  lemma {:induction false} DoubledPair(a: int, b: int, s: real, c: real)
    requires 2.0 * s == c
    ensures (2 * a * b) as real * s == a as real * b as real * c
  {
    CastProduct3(2.0, a as real, b as real, 2, a, b);
  }

  /** The entry stored for X x Y x 1: 2 Y sum_x[X // 2] and 2 X sum_y[Y // 2] are the second
      central moments along x and y, the one along z being 0. */
  lemma {:induction false} PlaneEntry(X: int, Y: int, sX: real, sY: real)
    requires 2.0 * sX == Central2(X) && 2.0 * sY == Central2(Y)
    ensures (X * Y, (2 * Y) as real * sX, (2 * X) as real * sY, 0.0) == BoxCentral(X, Y, 1)
  {
    MBN2.Doubled(Y, sX, Central2(X));
    MBN2.Doubled(X, sY, Central2(Y));
    CentralOfOne();
    BoxCentralOf(X, Y, 1, X * Y, (2 * Y) as real * sX, (2 * X) as real * sY, 0.0);
  }

  /** The entry stored for X x Y x Z: 2 Y Z sum_x[X // 2], 2 X Z sum_y[Y // 2] and
      2 X Y sum_z[Z // 2] are the three second central moments. */
  lemma {:induction false} BoxEntry(X: int, Y: int, Z: int, sX: real, sY: real, sZ: real)
    requires 2.0 * sX == Central2(X) && 2.0 * sY == Central2(Y) && 2.0 * sZ == Central2(Z)
    ensures (X * Y * Z, (2 * Y * Z) as real * sX, (2 * X * Z) as real * sY, (2 * X * Y) as real * sZ)
            == BoxCentral(X, Y, Z)
  {
    DoubledPair(Y, Z, sX, Central2(X));
    DoubledPair(X, Z, sY, Central2(Y));
    DoubledPair(X, Y, sZ, Central2(Z));
    BoxCentralOf(X, Y, Z, X * Y * Z, (2 * Y * Z) as real * sX, (2 * X * Z) as real * sY, (2 * X * Y) as real * sZ);
  }

  /** The sizes X x 1 x 1 for X = 1, ..., more. */
  method FillLine(t0: CentralTables3, sh: seq<real>, sf: seq<int>, more: int) returns (t: CentralTables3)
    requires MBN2.SumsReady(sh, sf, more) && TablesCorrect3(t0)
    ensures TablesCorrect3(t)
    ensures forall k :: k in t.cc000 <==> k in t0.cc000 || (k.1 == 1 && k.2 == 1 && 1 <= k.0 <= more)
  {
    var cc000, cc200, cc020, cc002 := t0.cc000, t0.cc200, t0.cc020, t0.cc002;
    var X := 1;
    while X <= more
      invariant 1 <= X <= if more >= 1 then more + 1 else 1
      invariant TablesCorrect3(CentralTables3(cc000, cc200, cc020, cc002))
      invariant forall k :: k in cc000 <==> k in t0.cc000 || (k.1 == 1 && k.2 == 1 && 1 <= k.0 < X)
    {
      MBN2.HalfOrFullIsCentral(sh, sf, more, X);
      var v200 := if X % 2 == 0 then 2.0 * sh[X / 2] else 2.0 * sf[X / 2] as real;
      LineEntry(X, v200);
      StoreEntry3(CentralTables3(cc000, cc200, cc020, cc002), (X, 1, 1), X, v200, 0.0, 0.0);
      cc000 := cc000[(X, 1, 1) := X];
      cc020 := cc020[(X, 1, 1) := 0.0];
      cc002 := cc002[(X, 1, 1) := 0.0];
      cc200 := cc200[(X, 1, 1) := v200];
      X := X + 1;
    }
    t := CentralTables3(cc000, cc200, cc020, cc002);
  }

  /** The sizes X x Y x 1 for X = Y, ..., more. */
  method FillFlatRow(t0: CentralTables3, sh: seq<real>, sf: seq<int>, more: int, Y: int) returns (t: CentralTables3)
    requires MBN2.SumsReady(sh, sf, more) && TablesCorrect3(t0) && 2 <= Y
    ensures TablesCorrect3(t)
    ensures forall k :: k in t.cc000 <==> k in t0.cc000 || (k.1 == Y && k.2 == 1 && Y <= k.0 <= more)
  {
    var cc000, cc200, cc020, cc002 := t0.cc000, t0.cc200, t0.cc020, t0.cc002;
    var X := Y;
    while X <= more
      invariant Y <= X <= if more >= Y then more + 1 else Y
      invariant TablesCorrect3(CentralTables3(cc000, cc200, cc020, cc002))
      invariant forall k :: k in cc000 <==> k in t0.cc000 || (k.1 == Y && k.2 == 1 && Y <= k.0 < X)
    {
      var sumX := MBN2.HalfOrFull(sh, sf, X);
      var sumY := MBN2.HalfOrFull(sh, sf, Y);
      MBN2.HalfOrFullIsCentral(sh, sf, more, X);
      MBN2.HalfOrFullIsCentral(sh, sf, more, Y);
      var v200 := (2 * Y) as real * sumX;
      var v020 := (2 * X) as real * sumY;
      PlaneEntry(X, Y, sumX, sumY);
      StoreEntry3(CentralTables3(cc000, cc200, cc020, cc002), (X, Y, 1), X * Y, v200, v020, 0.0);
      cc000 := cc000[(X, Y, 1) := X * Y];
      cc002 := cc002[(X, Y, 1) := 0.0];
      cc200 := cc200[(X, Y, 1) := v200];
      cc020 := cc020[(X, Y, 1) := v020];
      X := X + 1;
    }
    t := CentralTables3(cc000, cc200, cc020, cc002);
  }

  /** The sizes X x Y x Z for X = Y, ..., more. */
  method FillRow3(t0: CentralTables3, sh: seq<real>, sf: seq<int>, more: int, Y: int, Z: int)
    returns (t: CentralTables3)
    requires MBN2.SumsReady(sh, sf, more) && TablesCorrect3(t0) && 2 <= Z <= Y
    ensures TablesCorrect3(t)
    ensures forall k :: k in t.cc000 <==> k in t0.cc000 || (k.1 == Y && k.2 == Z && Y <= k.0 <= more)
  {
    var cc000, cc200, cc020, cc002 := t0.cc000, t0.cc200, t0.cc020, t0.cc002;
    var X := Y;
    while X <= more
      invariant Y <= X <= if more >= Y then more + 1 else Y
      invariant TablesCorrect3(CentralTables3(cc000, cc200, cc020, cc002))
      invariant forall k :: k in cc000 <==> k in t0.cc000 || (k.1 == Y && k.2 == Z && Y <= k.0 < X)
    {
      var sumX := MBN2.HalfOrFull(sh, sf, X);
      var sumY := MBN2.HalfOrFull(sh, sf, Y);
      var sumZ := MBN2.HalfOrFull(sh, sf, Z);
      MBN2.HalfOrFullIsCentral(sh, sf, more, X);
      MBN2.HalfOrFullIsCentral(sh, sf, more, Y);
      MBN2.HalfOrFullIsCentral(sh, sf, more, Z);
      var v200 := (2 * Y * Z) as real * sumX;
      var v020 := (2 * X * Z) as real * sumY;
      var v002 := (2 * X * Y) as real * sumZ;
      BoxEntry(X, Y, Z, sumX, sumY, sumZ);
      StoreEntry3(CentralTables3(cc000, cc200, cc020, cc002), (X, Y, Z), X * Y * Z, v200, v020, v002);
      cc000 := cc000[(X, Y, Z) := X * Y * Z];
      cc200 := cc200[(X, Y, Z) := v200];
      cc020 := cc020[(X, Y, Z) := v020];
      cc002 := cc002[(X, Y, Z) := v002];
      X := X + 1;
    }
    t := CentralTables3(cc000, cc200, cc020, cc002);
  }

  /** The sizes X x Y x Z for Y = Z, ..., mid and X = Y, ..., more. */
  method FillLayer(t0: CentralTables3, sh: seq<real>, sf: seq<int>, more: int, mid: int, Z: int)
    returns (t: CentralTables3)
    requires MBN2.SumsReady(sh, sf, more) && TablesCorrect3(t0) && 2 <= Z
    ensures TablesCorrect3(t)
    ensures forall k :: k in t.cc000 <==> k in t0.cc000 || (k.2 == Z && Z <= k.1 <= mid && k.1 <= k.0 <= more)
  {
    t := t0;
    var Y := Z;
    while Y <= mid
      invariant Z <= Y <= if mid >= Z then mid + 1 else Z
      invariant TablesCorrect3(t)
      invariant forall k :: k in t.cc000 <==> k in t0.cc000 || (k.2 == Z && Z <= k.1 < Y && k.1 <= k.0 <= more)
    {
      t := FillRow3(t, sh, sf, more, Y, Z);
      Y := Y + 1;
    }
  }

  /** The sizes X x Y x 1 with 2 <= Y <= mid and Y <= X <= more. */
  predicate FlatKey(k: (int, int, int), more: int, mid: int)
  {
    k.2 == 1 && 2 <= k.1 <= mid && k.1 <= k.0 <= more
  }

  /** The sizes X x Y x Z with 2 <= Z <= less, Z <= Y <= mid and Y <= X <= more. */
  predicate DeepKey(k: (int, int, int), more: int, mid: int, less: int)
  {
    2 <= k.2 <= less && k.2 <= k.1 <= mid && k.1 <= k.0 <= more
  }

  /** The flat sizes, row by row for Y = 2, ..., mid. */
  method FillFlatRows(t0: CentralTables3, sh: seq<real>, sf: seq<int>, more: int, mid: int)
    returns (t: CentralTables3)
    requires MBN2.SumsReady(sh, sf, more) && TablesCorrect3(t0)
    ensures TablesCorrect3(t)
    ensures forall k :: k in t.cc000 <==> k in t0.cc000 || FlatKey(k, more, mid)
  {
    t := t0;
    var Y := 2;
    while Y <= mid
      invariant 2 <= Y <= if mid >= 2 then mid + 1 else 2
      invariant TablesCorrect3(t)
      invariant forall k :: k in t.cc000 <==> k in t0.cc000 || FlatKey(k, more, Y - 1)
    {
      t := FillFlatRow(t, sh, sf, more, Y);
      Y := Y + 1;
    }
  }

  /** The deep sizes, layer by layer for Z = 2, ..., less. */
  method FillLayers(t0: CentralTables3, sh: seq<real>, sf: seq<int>, more: int, mid: int, less: int)
    returns (t: CentralTables3)
    requires MBN2.SumsReady(sh, sf, more) && TablesCorrect3(t0)
    ensures TablesCorrect3(t)
    ensures forall k :: k in t.cc000 <==> k in t0.cc000 || DeepKey(k, more, mid, less)
  {
    t := t0;
    var Z := 2;
    while Z <= less
      invariant 2 <= Z <= if less >= 2 then less + 1 else 2
      invariant TablesCorrect3(t)
      invariant forall k :: k in t.cc000 <==> k in t0.cc000 || DeepKey(k, more, mid, Z - 1)
    {
      t := FillLayer(t, sh, sf, more, mid, Z);
      Z := Z + 1;
    }
  }

  /** The four groups of sizes setCentralMoments fills make up IsKey3. */
  lemma {:induction false} KeyGroups(k: (int, int, int), more: int, mid: int, less: int)
    ensures IsKey3(k, (more, mid, less)) <==>
              || k == (1, 1, 1) || (k.1 == 1 && k.2 == 1 && 1 <= k.0 <= more)
              || FlatKey(k, more, mid) || DeepKey(k, more, mid, less)
  {
  }

  /** setCentralMoments((more, mid, less)): the tables hold exactly the sizes of IsKey3, each
      with its central moments.  setCentralMoments(m) for a single integer is the case
      (m, m, m). */
  method SetCentralMoments3(more: int, mid: int, less: int) returns (t: CentralTables3)
    ensures TablesCorrect3(t)
    ensures forall k :: k in t.cc000 <==> IsKey3(k, (more, mid, less))
  {
    t := CentralTables3(map[(1, 1, 1) := 1], map[(1, 1, 1) := 0.0], map[(1, 1, 1) := 0.0], map[(1, 1, 1) := 0.0]);
    var sh := MBN2.HalfSums(more);
    var sf := MBN2.FullSums(more);
    t := FillLine(t, sh, sf, more);
    t := FillFlatRows(t, sh, sf, more, mid);
    t := FillLayers(t, sh, sf, more, mid, less);
    forall k
      ensures k in t.cc000 <==> IsKey3(k, (more, mid, less))
    {
      KeyGroups(k, more, mid, less);
    }
  }

  /** The central moments of an X x Y x Z cuboid agree with the check by brute force: mu200 is
      Y Z times the sum of the squared distances of the columns 0, ..., X-1 from their centre
      (X-1)/2, and likewise along y and z. */
  lemma {:induction false} CentralMatchesBruteForce3(X: nat, Y: nat, Z: nat)
    ensures BoxCentral(X, Y, Z).1 == Y as real * Z as real * Deviations(X, (X - 1) as real / 2.0)
    ensures BoxCentral(X, Y, Z).2 == X as real * Z as real * Deviations(Y, (Y - 1) as real / 2.0)
    ensures BoxCentral(X, Y, Z).3 == X as real * Y as real * Deviations(Z, (Z - 1) as real / 2.0)
  {
    AlongX(X, Y, Z);
    AlongY(X, Y, Z);
    AlongZ(X, Y, Z);
  }

  /** The x part of CentralMatchesBruteForce3. */
  lemma {:induction false} AlongX(X: nat, Y: nat, Z: nat)
    ensures BoxCentral(X, Y, Z).1 == Y as real * Z as real * Deviations(X, (X - 1) as real / 2.0)
  {
    CentralIsDeviationSum(X);
  }

  /** The y part of CentralMatchesBruteForce3. */
  lemma {:induction false} AlongY(X: nat, Y: nat, Z: nat)
    ensures BoxCentral(X, Y, Z).2 == X as real * Z as real * Deviations(Y, (Y - 1) as real / 2.0)
  {
    CentralIsDeviationSum(Y);
  }

  /** The z part of CentralMatchesBruteForce3. */
  lemma {:induction false} AlongZ(X: nat, Y: nat, Z: nat)
    ensures BoxCentral(X, Y, Z).3 == X as real * Y as real * Deviations(Z, (Z - 1) as real / 2.0)
  {
    CentralIsDeviationSum(Z);
  }

  // ----- One block -----

  /** The key of a block, chosen by the six comparisons of its extents x1 - x0, y1 - y0 and
      z1 - z0: its sides in decreasing order. */
  function Key3(b: S3.Block): (k: (int, int, int))
    ensures var s := Sorted3(S3.Width(b), S3.Height(b), S3.Depth(b)); k == (s.2, s.1, s.0)
  {
    var dx, dy, dz := b.x1 - b.x0, b.y1 - b.y0, b.z1 - b.z0;
    if dx >= dy && dy >= dz then (S3.Width(b), S3.Height(b), S3.Depth(b))
    else if dx >= dz && dz >= dy then (S3.Width(b), S3.Depth(b), S3.Height(b))
    else if dy >= dx && dx >= dz then (S3.Height(b), S3.Width(b), S3.Depth(b))
    else if dy >= dz && dz >= dx then (S3.Height(b), S3.Depth(b), S3.Width(b))
    else if dz >= dx && dx >= dy then (S3.Depth(b), S3.Width(b), S3.Height(b))
    else (S3.Depth(b), S3.Height(b), S3.Width(b))
  }

  /** The central moments of a block read from the tables: mu000 from CC000 and, for each of
      the block's axes, the second moment of the table axis its side was sorted to.  A missing
      key raises KeyError. */
  function Lookup3(t: CentralTables3, b: S3.Block): (r: Result<(int, real, real, real)>)
    ensures r.Success? <==> Key3(b) in t.cc000 && Key3(b) in t.cc200 && Key3(b) in t.cc020 && Key3(b) in t.cc002
    ensures r.Failure? ==> r.error == KeyError
  {
    var key := Key3(b);
    if key !in t.cc000 || key !in t.cc200 || key !in t.cc020 || key !in t.cc002 then Failure(KeyError)
    else
      var dx, dy, dz := b.x1 - b.x0, b.y1 - b.y0, b.z1 - b.z0;
      if dx >= dy && dy >= dz then Success((t.cc000[key], t.cc200[key], t.cc020[key], t.cc002[key]))
      else if dx >= dz && dz >= dy then Success((t.cc000[key], t.cc200[key], t.cc002[key], t.cc020[key]))
      else if dy >= dx && dx >= dz then Success((t.cc000[key], t.cc020[key], t.cc200[key], t.cc002[key]))
      else if dy >= dz && dz >= dx then Success((t.cc000[key], t.cc002[key], t.cc200[key], t.cc020[key]))
      else if dz >= dx && dx >= dy then Success((t.cc000[key], t.cc020[key], t.cc002[key], t.cc200[key]))
      else Success((t.cc000[key], t.cc002[key], t.cc020[key], t.cc200[key]))
  }

  /** Reordering the sides of a cuboid reorders its second central moments the same way. */
  lemma {:induction false} PermutedBoxes(W: int, H: int, D: int)
    ensures var c := BoxCentral(W, H, D); BoxCentral(W, D, H) == (c.0, c.1, c.3, c.2)
    ensures var c := BoxCentral(W, H, D); BoxCentral(H, W, D) == (c.0, c.2, c.1, c.3)
    ensures var c := BoxCentral(W, H, D); BoxCentral(H, D, W) == (c.0, c.2, c.3, c.1)
    ensures var c := BoxCentral(W, H, D); BoxCentral(D, W, H) == (c.0, c.3, c.1, c.2)
    ensures var c := BoxCentral(W, H, D); BoxCentral(D, H, W) == (c.0, c.3, c.2, c.1)
  {
    ProductOrders(W, H, D);
    SwapFactors(H, D, Central2(W));
    SwapFactors(W, D, Central2(H));
    SwapFactors(W, H, Central2(D));
  }

  /** A product of three integers does not depend on the order of its factors. */
  lemma {:induction false} ProductOrders(a: int, b: int, c: int)
    ensures a * c * b == a * b * c && b * a * c == a * b * c && b * c * a == a * b * c
    ensures c * a * b == a * b * c && c * b * a == a * b * c
  {
  }

  /** The two side factors of a second central moment commute. */
  lemma {:induction false} SwapFactors(a: int, b: int, x: real)
    ensures b as real * a as real * x == a as real * b as real * x
  {
  }

  /** Whichever of the six branches a block takes, correct tables give it the central moments
      of its own cuboid, with mu200, mu020 and mu002 along its own x, y and z. */
  lemma {:induction false} LookupIsBoxCentral(t: CentralTables3, b: S3.Block)
    requires TablesCorrect3(t) && Lookup3(t, b).Success?
    ensures Lookup3(t, b).value == BoxCentral(S3.Width(b), S3.Height(b), S3.Depth(b))
  {
    PermutedBoxes(S3.Width(b), S3.Height(b), S3.Depth(b));
  }

  /** Tables that hold every size of IsKey3(sides) have every block whose sorted sides fit. */
  lemma {:induction false} KeyPresent3(t: CentralTables3, sides: (int, int, int), b: S3.Block)
    requires TablesCorrect3(t) && forall k :: k in t.cc000 <==> IsKey3(k, sides)
    requires IsKey3(Key3(b), sides)
    ensures Lookup3(t, b).Success?
  {
  }

  /** The looked-up values and the barycentre are the central moments and centre of the
      block's cuboid. */
  lemma {:induction false} BlockCentral3(c: (int, real, real, real), xx: real, yy: real, zz: real, b: S3.Block)
    requires S3.NonEmpty(b) && c == BoxCentral(S3.Width(b), S3.Height(b), S3.Depth(b))
    requires xx == 0.5 * (b.x1 + b.x0) as real && yy == 0.5 * (b.y1 + b.y0) as real
    requires zz == 0.5 * (b.z1 + b.z0) as real
    ensures CentralOfBox(c.0, c.1, c.2, c.3, xx, yy, zz, b.x0, S3.Width(b), b.y0, S3.Height(b), b.z0, S3.Depth(b))
  {
    MBN2.BarycentreIsCentre(b.x0, b.x1);
    MBN2.BarycentreIsCentre(b.y0, b.y1);
    MBN2.BarycentreIsCentre(b.z0, b.z1);
  }

  /** Shifting a block's central moments gives the block's moment of order (p, q, r). */
  lemma {:induction false} ShiftIsBlockOrder3(s: Shifted3, c: (int, real, real, real), xx: real, yy: real, zz: real, b: S3.Block,
                           p: nat, q: nat, r: nat)
    requires S3.NonEmpty(b) && IsShift3(c.0, c.1, c.2, c.3, xx, yy, zz, s) && p + q + r <= 3
    requires CentralOfBox(c.0, c.1, c.2, c.3, xx, yy, zz, b.x0, S3.Width(b), b.y0, S3.Height(b), b.z0, S3.Depth(b))
    ensures Term3(s, p, q, r) == MB3.BlockMoment3(p, q, r)(b)
  {
    ShiftIsBoxMoment(s, c.0, c.1, c.2, c.3, xx, yy, zz, b.x0, S3.Width(b), b.y0, S3.Height(b),
                     b.z0, S3.Depth(b), p, q, r);
    assert b.x0 + S3.Width(b) - 1 == b.x1 && b.y0 + S3.Height(b) - 1 == b.y1 && b.z0 + S3.Depth(b) - 1 == b.z1;
  }

  /** Shifting a block's central moments gives, order by order, the block's moment. */
  lemma {:induction false} ShiftIsBlockMoment3(s: Shifted3, c: (int, real, real, real), xx: real, yy: real, zz: real, b: S3.Block)
    requires S3.NonEmpty(b) && IsShift3(c.0, c.1, c.2, c.3, xx, yy, zz, s)
    requires CentralOfBox(c.0, c.1, c.2, c.3, xx, yy, zz, b.x0, S3.Width(b), b.y0, S3.Height(b), b.z0, S3.Depth(b))
    ensures forall o :: o in Orders ==> Term3(s, o.0, o.1, o.2) == MB3.BlockMoment3(o.0, o.1, o.2)(b)
  {
    OrdersAreAllUpToThree();
    forall o | o in Orders
      ensures Term3(s, o.0, o.1, o.2) == MB3.BlockMoment3(o.0, o.1, o.2)(b)
    {
      ShiftIsBlockOrder3(s, c, xx, yy, zz, b, o.0, o.1, o.2);
    }
  }

  /** The direct way for one block, the loop over the orders: each listed order gains
      mx * my * mz, the product of the three axis factors read from the power-sum table, added
      only when one of them is non-zero. */
  method AddDirect3(pm: PowerMatrix?, MM0: map<(nat, nat, nat), int>, b: S3.Block, os: seq<(nat, nat, nat)>)
    returns (r: Result<map<(nat, nat, nat), int>>)
    requires pm != null ==> pm.Valid() && pm.maxK == 3
    requires forall i :: 0 <= i < |os| ==> os[i].0 <= 3 && os[i].1 <= 3 && os[i].2 <= 3 && os[i] in MM0
    requires forall i, j :: 0 <= i < j < |os| ==> os[i] != os[j]
    ensures r.Failure? <==> exists i :: 0 <= i < |os| && MB3.AxisFails3(pm, os[i].0, os[i].1, os[i].2, b)
    ensures r.Failure? ==> r.error == (if pm == null then AttributeError else IndexError)
    ensures r.Success? ==> r.value.Keys == MM0.Keys
    ensures r.Success? && 0 <= b.x0 <= b.x1 && 0 <= b.y0 <= b.y1 && 0 <= b.z0 <= b.z1 ==>
              forall k :: k in MM0 ==> r.value[k] == MM0[k] + (if k in os then MB3.BlockMoment3(k.0, k.1, k.2)(b) else 0)
  {
    var MM := MM0;
    for i := 0 to |os|
      invariant MM.Keys == MM0.Keys
      invariant forall i' :: 0 <= i' < i ==> !MB3.AxisFails3(pm, os[i'].0, os[i'].1, os[i'].2, b)
      invariant 0 <= b.x0 <= b.x1 && 0 <= b.y0 <= b.y1 && 0 <= b.z0 <= b.z1 ==>
                  forall k :: k in MM0 ==> MM[k] == MM0[k] + (if k in os[..i] then MB3.BlockMoment3(k.0, k.1, k.2)(b) else 0)
    {
      var (p, q, s) := os[i];
      var mx := MB2.AxisSum(pm, p, b.x0, b.x1);
      if mx.Failure? {
        return Failure(mx.error);
      }
      var my := MB2.AxisSum(pm, q, b.y0, b.y1);
      if my.Failure? {
        return Failure(my.error);
      }
      var mz := MB2.AxisSum(pm, s, b.z0, b.z1);
      if mz.Failure? {
        return Failure(mz.error);
      }
      assert os[..i + 1] == os[..i] + [os[i]];
      assert os[i] !in os[..i];
      if mx.value != 0 || my.value != 0 || mz.value != 0 {
        MM := MM[(p, q, s) := MM[(p, q, s)] + mx.value * my.value * mz.value];
      }
    }
    assert os[..|os|] == os;
    return Success(MM);
  }

  /** The new way for one block: look its central moments up, shift them to the origin and
      add the twenty moments.  For correct tables every order gains the block's moment. */
  method AddCentral3(MM0: map<(nat, nat, nat), int>, t: CentralTables3, b: S3.Block)
    returns (r: Result<map<(nat, nat, nat), int>>)
    requires MM0.Keys == OrderKeys
    ensures r.Failure? <==> Lookup3(t, b).Failure?
    ensures r.Failure? ==> r.error == KeyError
    ensures r.Success? ==> r.value.Keys == OrderKeys
    ensures r.Success? && TablesCorrect3(t) && S3.NonEmpty(b) ==>
              forall o :: o in Orders ==> r.value[o] == MM0[o] + MB3.BlockMoment3(o.0, o.1, o.2)(b)
  {
    var xx := 0.5 * (b.x1 + b.x0) as real;
    var yy := 0.5 * (b.y1 + b.y0) as real;
    var zz := 0.5 * (b.z1 + b.z0) as real;
    var c := Lookup3(t, b);
    if c.Failure? {
      return Failure(c.error);
    }
    var (c000, c200, c020, c002) := c.value;
    var s := ShiftToOrigin3(c000, c200, c020, c002, xx, yy, zz);
    var MM := AddShifted3(MM0, s);
    if TablesCorrect3(t) && S3.NonEmpty(b) {
      LookupIsBoxCentral(t, b);
      BlockCentral3(c.value, xx, yy, zz, b);
      ShiftIsBlockMoment3(s, c.value, xx, yy, zz, b);
    }
    return Success(MM);
  }

  // ----- The engine -----

  /** A block left to the direct way: at optimization level 2, one whose sides, sorted
      increasingly, have a middle one above LIMIT_Y or a smallest one above LIMIT_Z. */
  predicate Fallback3(level: int, b: S3.Block)
  {
    var ordered := Sorted3(S3.Width(b), S3.Height(b), S3.Depth(b));
    level > 1 && (ordered.1 > LimitY || ordered.0 > LimitZ)
  }

  /** Reading a block's factors from the power-sum table fails: there is no table, or one of
      the coordinates x1, y1, z1, or c0 - 1 for a lower corner coordinate c0 > 0, is outside
      it. */
  predicate ReadFails3(pm: PowerMatrix?, b: S3.Block)
  {
    || pm == null
    || !MB2.InTable(pm, b.x1) || (b.x0 > 0 && !MB2.InTable(pm, b.x0 - 1))
    || !MB2.InTable(pm, b.y1) || (b.y0 > 0 && !MB2.InTable(pm, b.y0 - 1))
    || !MB2.InTable(pm, b.z1) || (b.z0 > 0 && !MB2.InTable(pm, b.z0 - 1))
  }

  /** The exception blockMoments raises at block b, if any: the direct way fails on a missing
      power-sum table (AttributeError) or an index outside it (IndexError); the new way raises
      NameError before any table was built and KeyError for a size the tables lack. */
  function BlockError3(level: int, pm: PowerMatrix?, tables: Option<CentralTables3>, b: S3.Block): Option<Error>
  {
    if Fallback3(level, b) then
      if ReadFails3(pm, b) then Some(if pm == null then AttributeError else IndexError) else None
    else if tables.None? then Some(NameError)
    else if Lookup3(tables.value, b).Failure? then Some(KeyError)
    else None
  }

  /** Block j is the first one at which blockMoments raises. */
  predicate FailsFirstAt3(level: int, pm: PowerMatrix?, tables: Option<CentralTables3>, blocks: seq<S3.Block>, j: int)
  {
    && 0 <= j < |blocks| && BlockError3(level, pm, tables, blocks[j]).Some?
    && forall j' :: 0 <= j' < j ==> BlockError3(level, pm, tables, blocks[j']).None?
  }

  /** The number of blocks left to the direct way (VECCHIO); none below level 2. */
  function FallbackCount3(level: int, blocks: seq<S3.Block>): (n: nat)
    ensures n <= |blocks|
    ensures level <= 1 ==> n == 0
  {
    if blocks == [] then 0
    else FallbackCount3(level, blocks[..|blocks| - 1]) + (if Fallback3(level, blocks[|blocks| - 1]) then 1 else 0)
  }


  /** The direct way fails for some order exactly when the block's factors cannot be read. */
  lemma {:induction false} DirectFailsAtOrderOne3(pm: PowerMatrix?, b: S3.Block)
    requires pm != null ==> pm.Valid() && pm.maxK == 3
    ensures (exists i :: 0 <= i < |Orders| && MB3.AxisFails3(pm, Orders[i].0, Orders[i].1, Orders[i].2, b))
            <==> ReadFails3(pm, b)
  {
    FirstOrders();
    if i :| 0 <= i < |Orders| && MB3.AxisFails3(pm, Orders[i].0, Orders[i].1, Orders[i].2, b) {
      MB3.AxisFailsAtOrderOne3(pm, Orders[i].0, Orders[i].1, Orders[i].2, b);
    }
    if ReadFails3(pm, b) {
      assert MB3.AxisFails3(pm, Orders[19].0, Orders[19].1, Orders[19].2, b);
    }
  }

  /** The argument preprocessing passes to setCentralMoments, from the largest block width
      dx, height dy and depth dz: (m, m, m) with m the largest at level 0, the three in
      decreasing order at level 1, and at level 2 the same with the middle one capped at
      LIMIT_Y and the smallest at LIMIT_Z. */
  function Sides3(level: int, dx: int, dy: int, dz: int): (int, int, int)
  {
    if level == 0 then
      var m := S3.Max3(dx, dy, dz);
      (m, m, m)
    else
      var s := Sorted3(dx, dy, dz);
      if level == 1 then (s.2, s.1, s.0)
      else (s.2, if s.1 <= LimitY then s.1 else LimitY, if s.0 <= LimitZ then s.0 else LimitZ)
  }

  /** Every non-empty block the new way handles has its size in the tables preprocessing
      builds for the decomposition it belongs to: each of its sorted sides is at most the
      same order statistic of the largest width, height and depth. */
  lemma {:induction false} KeysCover3(level: int, blocks: seq<S3.Block>, j: int)
    requires 0 <= level <= 2 && 0 <= j < |blocks|
    requires S3.NonEmpty(blocks[j]) && !Fallback3(level, blocks[j])
    ensures IsKey3(Key3(blocks[j]), Sides3(level, MaxOver(blocks, S3.Width), MaxOver(blocks, S3.Height),
                                          MaxOver(blocks, S3.Depth)))
  {
    var b := blocks[j];
    SortedMonotone(S3.Width(b), S3.Height(b), S3.Depth(b),
                   MaxOver(blocks, S3.Width), MaxOver(blocks, S3.Height), MaxOver(blocks, S3.Depth));
  }

  /** The direct way reads every block within the power-sum table. */
  lemma {:induction false} DirectReadsInTable3(pm: PowerMatrix, b: S3.Block)
    requires 0 <= b.x0 <= b.x1 <= pm.maxN && 0 <= b.y0 <= b.y1 <= pm.maxN && 0 <= b.z0 <= b.z1 <= pm.maxN
    ensures !ReadFails3(pm, b)
  {
  }

  /** After preprocessing, blockMoments raises for no block of a decomposition within the
      image: the tables hold every size the new way looks up, and at level 2 the power-sum
      table covers every coordinate. */
  lemma {:induction false} NoErrorAfterPreprocessing3(level: int, pm: PowerMatrix?, t: CentralTables3, blocks: seq<S3.Block>)
    requires 0 <= level <= 2 && (pm != null ==> pm.Valid() && pm.maxK == 3)
    requires TablesCorrect3(t)
    requires forall k :: k in t.cc000 <==> IsKey3(k, Sides3(level, MaxOver(blocks, S3.Width),
                                                            MaxOver(blocks, S3.Height), MaxOver(blocks, S3.Depth)))
    requires MB3.AllAnchored3(blocks)
    requires level == 2 ==> pm != null && forall j :: 0 <= j < |blocks| ==>
               blocks[j].x1 <= pm.maxN && blocks[j].y1 <= pm.maxN && blocks[j].z1 <= pm.maxN
    ensures forall j :: 0 <= j < |blocks| ==> BlockError3(level, pm, Some(t), blocks[j]).None?
  {
    forall j | 0 <= j < |blocks|
      ensures BlockError3(level, pm, Some(t), blocks[j]).None?
    {
      if Fallback3(level, blocks[j]) {
        DirectReadsInTable3(pm, blocks[j]);
      } else {
        KeysCover3(level, blocks, j);
        KeyPresent3(t, Sides3(level, MaxOver(blocks, S3.Width), MaxOver(blocks, S3.Height),
                              MaxOver(blocks, S3.Depth)), blocks[j]);
      }
    }
  }

  /** The tables preprocessing_once builds at levels 1 and 2 stop at LIMIT_Y for the middle
      side and LIMIT_Z for the smallest: at level 1, where no block is left to the direct way,
      a block whose middle side exceeds LIMIT_Y or whose smallest exceeds LIMIT_Z raises
      KeyError. */
  lemma {:induction false} OnceTablesMissThickBlocks(t: CentralTables3, maxSide: int, b: S3.Block)
    requires TablesCorrect3(t) && forall k :: k in t.cc000 <==> IsKey3(k, (maxSide, LimitY, LimitZ))
    requires var s := Sorted3(S3.Width(b), S3.Height(b), S3.Depth(b)); s.1 > LimitY || s.0 > LimitZ
    ensures BlockError3(1, null, Some(t), b) == Some(KeyError)
  {
  }

  /** One more block adds its moment to every running sum. */
  lemma {:induction false} AddBlockToSums3(MM0: map<(nat, nat, nat), int>, MM: map<(nat, nat, nat), int>, blocks: seq<S3.Block>, j: int,
                        os: seq<(nat, nat, nat)>)
    requires 0 <= j < |blocks| && forall o :: o in os ==> o in MM0 && o in MM
    requires forall o :: o in os ==> MM0[o] == SumSeq(blocks[..j], MB3.BlockMoment3(o.0, o.1, o.2))
    requires forall o :: o in os ==> MM[o] == MM0[o] + MB3.BlockMoment3(o.0, o.1, o.2)(blocks[j])
    ensures forall o :: o in os ==> MM[o] == SumSeq(blocks[..j + 1], MB3.BlockMoment3(o.0, o.1, o.2))
  {
    assert blocks[..j + 1][..j] == blocks[..j];
  }

  /** The three branches of preprocessing that build the tables from the largest block
      width dx, height dy and depth dz. */
  method TablesFor3(level: int, dx: int, dy: int, dz: int) returns (t: CentralTables3)
    requires 0 <= level <= 2
    ensures TablesCorrect3(t)
    ensures forall k :: k in t.cc000 <==> IsKey3(k, Sides3(level, dx, dy, dz))
  {
    if level == 0 {
      var maximum := S3.Max3(dx, dy, dz);
      t := SetCentralMoments3(maximum, maximum, maximum);
    } else if level == 1 {
      var maximum := Sorted3(dx, dy, dz);
      t := SetCentralMoments3(maximum.2, maximum.1, maximum.0);
    } else {
      var maximum := Sorted3(dx, dy, dz);
      var mid := if maximum.1 <= LimitY then maximum.1 else LimitY;
      var less := if maximum.0 <= LimitZ then maximum.0 else LimitZ;
      t := SetCentralMoments3(maximum.2, mid, less);
    }
  }

  /** The new way for one block, after NUOVO is counted: NameError before any table was
      built, otherwise the lookup and the shift. */
  method CentralStep(level: int, pm: PowerMatrix?, tables: Option<CentralTables3>,
                     MM0: map<(nat, nat, nat), int>, b: S3.Block)
    returns (r: Result<map<(nat, nat, nat), int>>)
    requires (pm != null ==> pm.Valid() && pm.maxK == 3) && (tables.Some? ==> TablesCorrect3(tables.value))
    requires MM0.Keys == OrderKeys && !Fallback3(level, b)
    ensures r.Failure? <==> BlockError3(level, pm, tables, b).Some?
    ensures r.Failure? ==> r.error == BlockError3(level, pm, tables, b).value
    ensures r.Success? ==> r.value.Keys == OrderKeys
    ensures r.Success? && S3.NonEmpty(b) ==>
              forall o :: o in Orders ==> r.value[o] == MM0[o] + MB3.BlockMoment3(o.0, o.1, o.2)(b)
  {
    if tables.None? {
      return Failure(NameError);
    }
    r := AddCentral3(MM0, tables.value, b);
  }

  /** The direct way for one block. */
  method DirectStep(level: int, pm: PowerMatrix?, tables: Option<CentralTables3>,
                    MM0: map<(nat, nat, nat), int>, b: S3.Block)
    returns (r: Result<map<(nat, nat, nat), int>>)
    requires (pm != null ==> pm.Valid() && pm.maxK == 3) && (tables.Some? ==> TablesCorrect3(tables.value))
    requires MM0.Keys == OrderKeys && Fallback3(level, b)
    ensures r.Failure? <==> BlockError3(level, pm, tables, b).Some?
    ensures r.Failure? ==> r.error == BlockError3(level, pm, tables, b).value
    ensures r.Success? ==> r.value.Keys == OrderKeys
    ensures r.Success? && 0 <= b.x0 <= b.x1 && 0 <= b.y0 <= b.y1 && 0 <= b.z0 <= b.z1 ==>
              forall o :: o in Orders ==> r.value[o] == MM0[o] + MB3.BlockMoment3(o.0, o.1, o.2)(b)
  {
    FirstOrders();
    OrdersDistinct();
    r := AddDirect3(pm, MM0, b, Orders);
    DirectFailsAtOrderOne3(pm, b);
  }

  /** One block of blockMoments: the direct way when it is left to it, otherwise the new
      way.  fallback tells which way was taken. */
  method BlockStep(level: int, pm: PowerMatrix?, tables: Option<CentralTables3>,
                   MM0: map<(nat, nat, nat), int>, b: S3.Block)
    returns (r: Result<map<(nat, nat, nat), int>>, fallback: bool)
    requires (pm != null ==> pm.Valid() && pm.maxK == 3) && (tables.Some? ==> TablesCorrect3(tables.value))
    requires MM0.Keys == OrderKeys
    ensures fallback == Fallback3(level, b)
    ensures r.Failure? <==> BlockError3(level, pm, tables, b).Some?
    ensures r.Failure? ==> r.error == BlockError3(level, pm, tables, b).value
    ensures r.Success? ==> r.value.Keys == OrderKeys
    ensures r.Success? && 0 <= b.x0 <= b.x1 && 0 <= b.y0 <= b.y1 && 0 <= b.z0 <= b.z1 ==>
              forall o :: o in Orders ==> r.value[o] == MM0[o] + MB3.BlockMoment3(o.0, o.1, o.2)(b)
  {
    fallback := false;
    if level > 1 {
      var ordered := Sorted3(S3.Width(b), S3.Height(b), S3.Depth(b));
      fallback := ordered.1 > LimitY || ordered.0 > LimitZ;
    }
    if fallback {
      r := DirectStep(level, pm, tables, MM0, b);
    } else {
      r := CentralStep(level, pm, tables, MM0, b);
    }
  }

  /** The loop of blockMoments over the blocks, each the direct way or the new way, with
      the counts of blocks taken each way (n new, v direct) as far as it got.  It fails at
      the first block where BlockError3 does; otherwise each moment is the sum of the block
      moments. */
  method SumBlocks(level: int, pm: PowerMatrix?, tables: Option<CentralTables3>,
                   blocks: seq<S3.Block>) returns (r: Result<map<(nat, nat, nat), int>>, n: int, v: int)
    requires (pm != null ==> pm.Valid() && pm.maxK == 3) && (tables.Some? ==> TablesCorrect3(tables.value))
    ensures r.Success? <==> forall j :: 0 <= j < |blocks| ==> BlockError3(level, pm, tables, blocks[j]).None?
    ensures r.Failure? ==> exists j :: && FailsFirstAt3(level, pm, tables, blocks, j)
                                      && r.error == BlockError3(level, pm, tables, blocks[j]).value
                                      && v == FallbackCount3(level, blocks[..j])
                                      && n == j - v + (if Fallback3(level, blocks[j]) then 0 else 1)
    ensures r.Success? ==> v == FallbackCount3(level, blocks) && n + v == |blocks|
    ensures r.Success? ==> r.value.Keys == OrderKeys
    ensures r.Success? && MB3.AllAnchored3(blocks) ==>
              forall o :: o in Orders ==> r.value[o] == SumSeq(blocks, MB3.BlockMoment3(o.0, o.1, o.2))
  {
    var MM := map o | o in Orders :: 0;
    n, v := 0, 0;
    for j := 0 to |blocks|
      invariant MM.Keys == OrderKeys
      invariant forall j' :: 0 <= j' < j ==> BlockError3(level, pm, tables, blocks[j']).None?
      invariant v == FallbackCount3(level, blocks[..j]) && n == j - v
      invariant MB3.AllAnchored3(blocks) ==>
                  forall o :: o in Orders ==> MM[o] == SumSeq(blocks[..j], MB3.BlockMoment3(o.0, o.1, o.2))
    {
      var b := blocks[j];
      assert blocks[..j + 1][..j] == blocks[..j];
      var step, fallback := BlockStep(level, pm, tables, MM, b);
      if !fallback {
        n := n + 1;
      }
      if step.Failure? {
        assert FailsFirstAt3(level, pm, tables, blocks, j);
        return Failure(step.error), n, v;
      }
      if fallback {
        v := v + 1;
      }
      if MB3.AllAnchored3(blocks) {
        AddBlockToSums3(MM, step.value, blocks, j, Orders);
      }
      MM := step.value;
    }
    assert blocks[..|blocks|] == blocks;
    r := Success(MM);
  }

  /** The engine of momentBlockNew3D: the module globals OPT_LEVEL, powers,
      CC000/CC200/CC020/CC002 (None until preprocessing builds them) and the counters NUOVO and
      VECCHIO. */
  class CentralEngine3D {
    var optLevel: int
    var powers: PowerMatrix?
    var tables: Option<CentralTables3>
    var nuovo: int
    var vecchio: int

    ghost predicate Valid()
      reads this, powers, if powers != null then {powers.matrix} else {}
    {
      && 0 <= optLevel <= 2
      && (powers != null ==> powers.Valid() && powers.maxK == 3)
      && (tables.Some? ==> TablesCorrect3(tables.value))
    }

    /** The module as loaded: level 2, no tables yet. */
    constructor ()
      ensures optLevel == 2 && powers == null && tables == None && nuovo == 0 && vecchio == 0
      ensures Valid()
    {
      optLevel := 2;
      powers := null;
      tables := None;
      nuovo := 0;
      vecchio := 0;
    }

    /** setOptimizationLevel: levels 0, 1 and 2 are accepted, anything else fails the
        assertion and leaves the level as it was. */
    method SetOptimizationLevel(level: int) returns (err: Option<Error>)
      requires Valid()
      modifies this`optLevel
      ensures Valid()
      ensures 0 <= level <= 2 ==> err == None && optLevel == level
      ensures !(0 <= level <= 2) ==> err == Some(AssertionError) && optLevel == old(optLevel)
    {
      if !(0 <= level <= 2) {
        return Some(AssertionError);
      }
      optLevel := level;
      err := None;
    }

    /** preprocessing: the tables for the largest block sides of the decomposition, as Sides3
        arranges them for the level; at level 2 also the power-sum table up to origsize,
        built after the tables (a negative size raises IndexError). */
    method Preprocessing(ibr: S3.BlockImage3D) returns (err: Option<Error>)
      requires Valid()
      modifies this`tables, this`powers
      ensures Valid()
      ensures tables.Some?
      ensures forall k :: k in tables.value.cc000 <==>
                IsKey3(k, Sides3(optLevel, MaxOver(ibr.block, S3.Width), MaxOver(ibr.block, S3.Height),
                                 MaxOver(ibr.block, S3.Depth)))
      ensures err == (if optLevel == 2 && ibr.origsize < 0 then Some(IndexError) else None)
      ensures optLevel < 2 || ibr.origsize < 0 ==> powers == old(powers)
      ensures optLevel == 2 && ibr.origsize >= 0 ==> powers != null && fresh(powers) && powers.maxN == ibr.origsize
    {
      var dx, dy, dz := ibr.MaxTriplet();
      var t := TablesFor3(optLevel, dx, dy, dz);
      tables := Some(t);
      if optLevel == 2 {
        if ibr.origsize < 0 {
          return Some(IndexError);
        }
        powers := new PowerMatrix(3, ibr.origsize);
      }
      err := None;
    }

    /** preprocessing_once: the power-sum table up to maxSide first (a negative size raises
        IndexError and changes nothing), then the tables for sides up to maxSide, the middle
        and smallest capped at LIMIT_Y and LIMIT_Z at levels 1 and 2. */
    method PreprocessingOnce(maxSide: int) returns (err: Option<Error>)
      requires Valid()
      modifies this`tables, this`powers
      ensures Valid()
      ensures maxSide < 0 ==> err == Some(IndexError) && powers == old(powers) && tables == old(tables)
      ensures maxSide >= 0 ==> && err == None && powers != null && fresh(powers) && powers.maxN == maxSide
                               && tables.Some?
                               && forall k :: k in tables.value.cc000 <==>
                                    IsKey3(k, if optLevel == 0 then (maxSide, maxSide, maxSide)
                                              else (maxSide, LimitY, LimitZ))
    {
      if maxSide < 0 {
        return Some(IndexError);
      }
      powers := new PowerMatrix(3, maxSide);
      var t;
      if optLevel == 0 {
        t := SetCentralMoments3(maxSide, maxSide, maxSide);
      } else {
        t := SetCentralMoments3(maxSide, LimitY, LimitZ);
      }
      tables := Some(t);
      err := None;
    }

    /** blockMoments: every moment of order at most 3 of the blocks, with NUOVO and VECCHIO
        counting the blocks taken the new way and the direct way.  For disjoint blocks each
        moment is the moment of the voxels they cover. */
    method BlockMoments(ibr: S3.BlockImage3D) returns (r: Result<map<(nat, nat, nat), int>>)
      requires Valid()
      modifies this`nuovo, this`vecchio
      ensures r.Success? <==> forall j :: 0 <= j < |ibr.block| ==> BlockError3(optLevel, powers, tables, ibr.block[j]).None?
      ensures r.Failure? ==> exists j :: && FailsFirstAt3(optLevel, powers, tables, ibr.block, j)
                                        && r.error == BlockError3(optLevel, powers, tables, ibr.block[j]).value
                                        && vecchio == FallbackCount3(optLevel, ibr.block[..j])
                                        && nuovo == j - vecchio + (if Fallback3(optLevel, ibr.block[j]) then 0 else 1)
      ensures r.Success? ==> vecchio == FallbackCount3(optLevel, ibr.block) && nuovo + vecchio == |ibr.block|
      ensures r.Success? ==> r.value.Keys == OrderKeys
      ensures r.Success? && MB3.AllAnchored3(ibr.block) ==>
                forall o :: o in Orders ==> r.value[o] == SumSeq(ibr.block, MB3.BlockMoment3(o.0, o.1, o.2))
      ensures r.Success? && MB3.AllAnchored3(ibr.block) && SeqDisjoint(ibr.block, S3.Voxels) ==>
                && (forall o :: o in Orders ==> r.value[o] == Moment(UnionSeq(ibr.block, S3.Voxels), o.0, o.1, o.2))
                && r.value[(0, 0, 0)] == |UnionSeq(ibr.block, S3.Voxels)|
    {
      var n, v;
      r, n, v := SumBlocks(optLevel, powers, tables, ibr.block);
      nuovo, vecchio := n, v;
      if r.Success? && MB3.AllAnchored3(ibr.block) && SeqDisjoint(ibr.block, S3.Voxels) {
        MB3.MomentsOfBlocks3(ibr.block, r.value);
      }
    }
  }
}
