/** The central-moment method on the blocks of a 2D image.  The central moments mu00, mu20
    and mu02 of every rectangle size that can occur are tabulated once; each block then looks
    its size up and shifts the three values to the origin.  At optimization level 2 a block
    whose shorter side exceeds LIMIT is summed the direct way instead, from the power-sum
    table.  The module globals (OPT_LEVEL, the three tables, powers, and the two counters)
    are the fields of one engine object. */
module MomentBlockNew2D {
  import opened PowerSums
  import opened SetSums
  import opened Outcomes
  import opened BigMatrix
  import opened Commons2D
  import opened CentralShift2D
  import MB = MomentBlock2D
  import S2 = Spiliotis2D

  /** LIMIT: the largest shorter side the tables cover at optimization level 2. */
  const Limit := 8

  // ----- The tables of central moments -----

  /** CC00, CC20 and CC02, keyed by (longer side, shorter side). */
  datatype CentralTables = CentralTables(cc00: map<(int, int), int>, cc20: map<(int, int), real>,
                                         cc02: map<(int, int), real>)

  /** The central moments of an X x Y rectangle (X columns, Y rows): mu00 = X Y,
      mu20 = Y (X^3 - X)/12 and mu02 = X (Y^3 - Y)/12. */
  function RectCentral(X: int, Y: int): (int, real, real)
  {
    (X * Y, Y as real * Central2(X), X as real * Central2(Y))
  }

  /** Every entry of the tables is the central moment of its rectangle. */
  predicate TablesCorrect(t: CentralTables)
  {
    && t.cc20.Keys == t.cc00.Keys && t.cc02.Keys == t.cc00.Keys
    && forall k {:trigger t.cc00[k]} :: k in t.cc00 ==> (t.cc00[k], t.cc20[k], t.cc02[k]) == RectCentral(k.0, k.1)
  }

  /** The sizes setCentralMoments((more, less)) tabulates: 1 x 1, every X x 1 with
      1 <= X <= more, and every X x Y with 2 <= Y <= less and Y <= X <= more. */
  predicate IsKey(k: (int, int), sides: (int, int))
  {
    k == (1, 1) || (1 <= k.1 <= k.0 <= sides.0 && (k.1 == 1 || k.1 <= sides.1))
  }

  /** sum_half: entry f is 0.5^2 + 1.5^2 + ... + (f - 0.5)^2. */
  method HalfSums(more: int) returns (sh: seq<real>)
    ensures |sh| == if more >= 1 then more + 1 else 2
    ensures forall f :: 0 <= f < |sh| ==> sh[f] == SumHalf(f)
  {
    sh := [0.0, 0.25];
    var f := 2;
    while f <= more
      invariant |sh| == f && 2 <= f <= if more >= 1 then more + 1 else 2
      invariant forall g :: 0 <= g < |sh| ==> sh[g] == SumHalf(g)
    {
      var next := sh[f - 1] + (f as real - 0.5) * (f as real - 0.5);
      assert next == SumHalf(f);
      sh := sh + [next];
      f := f + 1;
    }
  }

  /** sum_full: entry f is 1^2 + 2^2 + ... + f^2. */
  method FullSums(more: int) returns (sf: seq<int>)
    ensures |sf| == if more >= 0 then more + 1 else 1
    ensures forall f :: 0 <= f < |sf| ==> sf[f] == PowerSum(2, f)
  {
    sf := [0];
    var f := 1;
    while f <= more
      invariant |sf| == f && 1 <= f <= if more >= 0 then more + 1 else 1
      invariant forall g :: 0 <= g < |sf| ==> sf[g] == PowerSum(2, g)
    {
      PowSmall(f);
      sf := sf + [sf[f - 1] + f * f];
      f := f + 1;
    }
  }

  /** The two lists, complete for sides up to `more`. */
  predicate SumsReady(sh: seq<real>, sf: seq<int>, more: int)
  {
    && |sh| > more / 2 && |sf| > more / 2
    && (forall f :: 0 <= f < |sh| ==> sh[f] == SumHalf(f))
    && (forall f :: 0 <= f < |sf| ==> sf[f] == PowerSum(2, f))
  }

  /** sum_x[X // 2]: the half sums for an even side, the full sums for an odd one. */
  function HalfOrFull(sh: seq<real>, sf: seq<int>, X: int): real
    requires 1 <= X && X / 2 < |sh| && X / 2 < |sf|
  {
    if X % 2 == 0 then sh[X / 2] else sf[X / 2] as real
  }

  /** Twice sum_x[X // 2] is (X^3 - X)/12. */
  lemma {:induction false} HalfOrFullIsCentral(sh: seq<real>, sf: seq<int>, more: int, X: int)
    requires SumsReady(sh, sf, more) && 1 <= X <= more
    ensures 2.0 * HalfOrFull(sh, sf, X) == Central2(X)
  {
    HalfAndFullSumsGiveCentral2(X);
  }

  /** 2 n s is n c when 2 s is c. */
  lemma {:induction false} Doubled(n: int, s: real, c: real)
    requires 2.0 * s == c
    ensures (2 * n) as real * s == n as real * c
  {
  }

  /** The three values are those of the X x Y rectangle. */
  lemma {:induction false} EntryValues(X: int, Y: int, a: real, b: real)
    requires a == Y as real * Central2(X) && b == X as real * Central2(Y)
    ensures (X * Y, a, b) == RectCentral(X, Y)
  {
  }

  /** The entry the nested loop stores for X x Y: 2 Y sum_x[X // 2] and 2 X sum_y[Y // 2]
      are Y (X^3 - X)/12 and X (Y^3 - Y)/12. */
  lemma {:induction false} RowEntry(X: int, Y: int, sX: real, sY: real)
    requires 2.0 * sX == Central2(X) && 2.0 * sY == Central2(Y)
    ensures (X * Y, (2 * Y) as real * sX, (2 * X) as real * sY) == RectCentral(X, Y)
  {
    Doubled(Y, sX, Central2(X));
    Doubled(X, sY, Central2(Y));
    EntryValues(X, Y, (2 * Y) as real * sX, (2 * X) as real * sY);
  }

  /** Storing the central moments of one more size keeps the tables correct. */
  lemma {:induction false} StoreEntry(t: CentralTables, k: (int, int), a: int, b: real, c: real)
    requires TablesCorrect(t) && (a, b, c) == RectCentral(k.0, k.1)
    ensures TablesCorrect(CentralTables(t.cc00[k := a], t.cc20[k := b], t.cc02[k := c]))
  {
  }

  /** The row of sizes X x 1 for X = 1, ..., more. */
  method FillFirstRow(t0: CentralTables, sh: seq<real>, sf: seq<int>, more: int) returns (t: CentralTables)
    requires SumsReady(sh, sf, more) && TablesCorrect(t0)
    ensures TablesCorrect(t)
    ensures forall k :: k in t.cc00 <==> k in t0.cc00 || (k.1 == 1 && 1 <= k.0 <= more)
  {
    var cc00, cc20, cc02 := t0.cc00, t0.cc20, t0.cc02;
    var X := 1;
    while X <= more
      invariant 1 <= X <= if more >= 1 then more + 1 else 1
      invariant TablesCorrect(CentralTables(cc00, cc20, cc02))
      invariant forall k :: k in cc00 <==> k in t0.cc00 || (k.1 == 1 && 1 <= k.0 < X)
    {
      HalfOrFullIsCentral(sh, sf, more, X);
      var v20 := if X % 2 == 0 then 2.0 * sh[X / 2] else 2.0 * sf[X / 2] as real;
      assert v20 == 1 as real * Central2(X) && 0.0 == X as real * Central2(1);
      StoreEntry(CentralTables(cc00, cc20, cc02), (X, 1), X, v20, 0.0);
      cc00 := cc00[(X, 1) := X];
      cc02 := cc02[(X, 1) := 0.0];
      cc20 := cc20[(X, 1) := v20];
      X := X + 1;
    }
    t := CentralTables(cc00, cc20, cc02);
  }

  /** The row of sizes X x Y for X = Y, ..., more. */
  method FillRow(t0: CentralTables, sh: seq<real>, sf: seq<int>, more: int, Y: int) returns (t: CentralTables)
    requires SumsReady(sh, sf, more) && TablesCorrect(t0) && 2 <= Y
    ensures TablesCorrect(t)
    ensures forall k :: k in t.cc00 <==> k in t0.cc00 || (k.1 == Y && Y <= k.0 <= more)
  {
    var cc00, cc20, cc02 := t0.cc00, t0.cc20, t0.cc02;
    var X := Y;
    while X <= more
      invariant Y <= X <= if more >= Y then more + 1 else Y
      invariant TablesCorrect(CentralTables(cc00, cc20, cc02))
      invariant forall k :: k in cc00 <==> k in t0.cc00 || (k.1 == Y && Y <= k.0 < X)
    {
      var sumX := HalfOrFull(sh, sf, X);
      var sumY := HalfOrFull(sh, sf, Y);
      var v20 := (2 * Y) as real * sumX;
      var v02 := (2 * X) as real * sumY;
      HalfOrFullIsCentral(sh, sf, more, X);
      HalfOrFullIsCentral(sh, sf, more, Y);
      RowEntry(X, Y, sumX, sumY);
      StoreEntry(CentralTables(cc00, cc20, cc02), (X, Y), X * Y, v20, v02);
      cc00 := cc00[(X, Y) := X * Y];
      cc20 := cc20[(X, Y) := v20];
      cc02 := cc02[(X, Y) := v02];
      X := X + 1;
    }
    t := CentralTables(cc00, cc20, cc02);
  }

  /** setCentralMoments((more, less)): the tables hold exactly the sizes of IsKey, each with
      its central moments. */
  method SetCentralMoments(more: int, less: int) returns (t: CentralTables)
    ensures TablesCorrect(t)
    ensures forall k :: k in t.cc00 <==> IsKey(k, (more, less))
  {
    t := CentralTables(map[(1, 1) := 1], map[(1, 1) := 0.0], map[(1, 1) := 0.0]);
    var sh := HalfSums(more);
    var sf := FullSums(more);
    t := FillFirstRow(t, sh, sf, more);
    var Y := 2;
    while Y <= less
      invariant 2 <= Y <= if less >= 2 then less + 1 else 2
      invariant TablesCorrect(t)
      invariant forall k :: k in t.cc00 <==> k == (1, 1) || (1 <= k.0 <= more && k.1 == 1)
                                              || (2 <= k.1 < Y && k.1 <= k.0 <= more)
    {
      t := FillRow(t, sh, sf, more, Y);
      Y := Y + 1;
    }
  }

  /** a d is a (n^3 - n)/12 when d is the sum of the squared distances of 0, ..., n-1 from
      their centre. */
  lemma {:induction false} ScaledDeviations(a: real, n: nat, d: real)
    ensures d == Deviations(n, (n - 1) as real / 2.0) ==> a * d == a * Central2(n)
  {
    CentralIsDeviationSum(n);
  }

  /** The central moments of an X x Y rectangle agree with the check by brute force: mu20 is Y
      times the sum of the squared distances of the columns 0, ..., X-1 from their centre
      (X-1)/2, and mu02 likewise along the rows. */
  lemma {:induction false} CentralMatchesBruteForce(X: nat, Y: nat)
    ensures RectCentral(X, Y).1 == Y as real * Deviations(X, (X - 1) as real / 2.0)
    ensures RectCentral(X, Y).2 == X as real * Deviations(Y, (Y - 1) as real / 2.0)
  {
    ScaledDeviations(Y as real, X, Deviations(X, (X - 1) as real / 2.0));
    ScaledDeviations(X as real, Y, Deviations(Y, (Y - 1) as real / 2.0));
  }

  // ----- One block -----

  /** The key of a block: its size with the longer side first (x first on a tie). */
  function Key(b: S2.Block): (k: (int, int))
    ensures k.0 >= k.1
    ensures (k.0, k.1) == (S2.Width(b), S2.Height(b)) || (k.0, k.1) == (S2.Height(b), S2.Width(b))
  {
    if b.x1 - b.x0 >= b.y1 - b.y0 then (b.x1 - b.x0 + 1, b.y1 - b.y0 + 1)
    else (b.y1 - b.y0 + 1, b.x1 - b.x0 + 1)
  }

  /** The central moments of a block read from the tables, with mu20 and mu02 exchanged when
      the block is taller than wide.  A missing key raises KeyError. */
  function Lookup(t: CentralTables, b: S2.Block): (r: Result<(int, real, real)>)
    ensures r.Success? <==> Key(b) in t.cc00 && Key(b) in t.cc20 && Key(b) in t.cc02
    ensures r.Failure? ==> r.error == KeyError
    ensures r.Success? && TablesCorrect(t) ==> r.value == RectCentral(S2.Width(b), S2.Height(b))
  {
    var key := Key(b);
    if key !in t.cc00 || key !in t.cc20 || key !in t.cc02 then Failure(KeyError)
    else if b.x1 - b.x0 >= b.y1 - b.y0 then Success((t.cc00[key], t.cc20[key], t.cc02[key]))
    else
      assert TablesCorrect(t) ==> t.cc00[key] == S2.Width(b) * S2.Height(b);
      Success((t.cc00[key], t.cc02[key], t.cc20[key]))
  }

  /** Tables that hold every size of IsKey(sides) have every block whose sides fit. */
  lemma {:induction false} KeyPresent(t: CentralTables, sides: (int, int), b: S2.Block)
    requires TablesCorrect(t) && forall k :: k in t.cc00 <==> IsKey(k, sides)
    requires IsKey(Key(b), sides)
    ensures Lookup(t, b).Success?
  {
  }

  /** The barycentre 0.5 (x0 + x1) is the centre of the block's columns. */
  lemma {:induction false} BarycentreIsCentre(c0: int, c1: int)
    ensures 0.5 * (c1 + c0) as real == Centre(c0, c1 - c0 + 1)
  {
  }

  /** The looked-up values and the barycentre are the central moments and centre of the
      block's rectangle. */
  lemma {:induction false} BlockCentral(c: (int, real, real), xx: real, yy: real, b: S2.Block)
    requires S2.NonEmpty(b) && c == RectCentral(S2.Width(b), S2.Height(b))
    requires xx == 0.5 * (b.x1 + b.x0) as real && yy == 0.5 * (b.y1 + b.y0) as real
    ensures CentralOfRect(c.0, c.1, c.2, xx, yy, b.x0, S2.Width(b), b.y0, S2.Height(b))
  {
    BarycentreIsCentre(b.x0, b.x1);
    BarycentreIsCentre(b.y0, b.y1);
  }

  /** Shifting a block's central moments gives the block's moment of order (p, q). */
  lemma {:induction false} ShiftIsBlockOrder(s: Shifted, c: (int, real, real), xx: real, yy: real, b: S2.Block, p: nat, q: nat)
    requires S2.NonEmpty(b) && IsShift(c.0, c.1, c.2, xx, yy, s) && p + q <= 3
    requires CentralOfRect(c.0, c.1, c.2, xx, yy, b.x0, S2.Width(b), b.y0, S2.Height(b))
    ensures Term(s, p, q) == MB.BlockMoment(p, q)(b)
  {
    ShiftIsRectMoment(s, c.0, c.1, c.2, xx, yy, b.x0, S2.Width(b), b.y0, S2.Height(b), p, q);
    assert b.x0 + S2.Width(b) - 1 == b.x1 && b.y0 + S2.Height(b) - 1 == b.y1;
  }

  /** Shifting a block's central moments gives, order by order, the block's moment. */
  lemma {:induction false} ShiftIsBlockMoment(s: Shifted, c: (int, real, real), xx: real, yy: real, b: S2.Block)
    requires S2.NonEmpty(b) && IsShift(c.0, c.1, c.2, xx, yy, s)
    requires CentralOfRect(c.0, c.1, c.2, xx, yy, b.x0, S2.Width(b), b.y0, S2.Height(b))
    ensures forall o :: o in Orders ==> Term(s, o.0, o.1) == MB.BlockMoment(o.0, o.1)(b)
  {
    OrdersAreAllUpToThree();
    forall o | o in Orders
      ensures Term(s, o.0, o.1) == MB.BlockMoment(o.0, o.1)(b)
    {
      ShiftIsBlockOrder(s, c, xx, yy, b, o.0, o.1);
    }
  }

  /** The direct way for one block, the loop over the orders: each listed order gains mx * my,
      the product of the two axis factors read from the power-sum table, added only when one
      of them is non-zero. */
  method AddDirect(pm: PowerMatrix?, MM0: map<(nat, nat), int>, b: S2.Block, os: seq<(nat, nat)>)
    returns (r: Result<map<(nat, nat), int>>)
    requires pm != null ==> pm.Valid() && pm.maxK == 3
    requires forall i :: 0 <= i < |os| ==> os[i].0 <= 3 && os[i].1 <= 3 && os[i] in MM0
    requires forall i, j :: 0 <= i < j < |os| ==> os[i] != os[j]
    ensures r.Failure? <==> exists i :: 0 <= i < |os| && MB.AxisFails(pm, os[i].0, os[i].1, b)
    ensures r.Failure? ==> r.error == (if pm == null then AttributeError else IndexError)
    ensures r.Success? ==> r.value.Keys == MM0.Keys
    ensures r.Success? && 0 <= b.x0 <= b.x1 && 0 <= b.y0 <= b.y1 ==>
              forall k :: k in MM0 ==> r.value[k] == MM0[k] + (if k in os then MB.BlockMoment(k.0, k.1)(b) else 0)
  {
    var MM := MM0;
    for i := 0 to |os|
      invariant MM.Keys == MM0.Keys
      invariant forall i' :: 0 <= i' < i ==> !MB.AxisFails(pm, os[i'].0, os[i'].1, b)
      invariant 0 <= b.x0 <= b.x1 && 0 <= b.y0 <= b.y1 ==>
                  forall k :: k in MM0 ==> MM[k] == MM0[k] + (if k in os[..i] then MB.BlockMoment(k.0, k.1)(b) else 0)
    {
      var (p, q) := os[i];
      var mx := MB.AxisSum(pm, p, b.x0, b.x1);
      if mx.Failure? {
        return Failure(mx.error);
      }
      var my := MB.AxisSum(pm, q, b.y0, b.y1);
      if my.Failure? {
        return Failure(my.error);
      }
      assert os[..i + 1] == os[..i] + [os[i]];
      assert os[i] !in os[..i];
      if mx.value != 0 || my.value != 0 {
        MM := MM[(p, q) := MM[(p, q)] + mx.value * my.value];
      }
    }
    assert os[..|os|] == os;
    return Success(MM);
  }

  /** The new way for one block: look its central moments up, shift them to the origin and
      add the ten moments.  For correct tables every order gains the block's moment. */
  method AddCentral(MM0: map<(nat, nat), int>, t: CentralTables, b: S2.Block) returns (r: Result<map<(nat, nat), int>>)
    requires MM0.Keys == OrderKeys
    ensures r.Failure? <==> Lookup(t, b).Failure?
    ensures r.Failure? ==> r.error == KeyError
    ensures r.Success? ==> r.value.Keys == OrderKeys
    ensures r.Success? && TablesCorrect(t) && S2.NonEmpty(b) ==>
              forall o :: o in Orders ==> r.value[o] == MM0[o] + MB.BlockMoment(o.0, o.1)(b)
  {
    var xx := 0.5 * (b.x1 + b.x0) as real;
    var yy := 0.5 * (b.y1 + b.y0) as real;
    var c := Lookup(t, b);
    if c.Failure? {
      return Failure(c.error);
    }
    var (c00, c20, c02) := c.value;
    var s := ShiftToOrigin(c00, c20, c02, xx, yy);
    var MM := AddShifted(MM0, s);
    if TablesCorrect(t) && S2.NonEmpty(b) {
      BlockCentral(c.value, xx, yy, b);
      ShiftIsBlockMoment(s, c.value, xx, yy, b);
    }
    return Success(MM);
  }

  // ----- The engine -----

  /** A block left to the direct way: at optimization level 2, one whose shorter side
      exceeds LIMIT. */
  predicate Fallback(level: int, b: S2.Block)
  {
    level > 1 && S2.Width(b) > Limit && S2.Height(b) > Limit
  }

  /** Reading a block's factors from the power-sum table fails: there is no table, or one of
      the columns x1, x0 - 1 (when x0 > 0), y1, y0 - 1 (when y0 > 0) is outside it. */
  predicate ReadFails(pm: PowerMatrix?, b: S2.Block)
  {
    || pm == null
    || !MB.InTable(pm, b.x1) || (b.x0 > 0 && !MB.InTable(pm, b.x0 - 1))
    || !MB.InTable(pm, b.y1) || (b.y0 > 0 && !MB.InTable(pm, b.y0 - 1))
  }

  /** The exception blockMoments raises at block b, if any: the direct way fails on a missing
      power-sum table (AttributeError) or an index outside it (IndexError); the new way raises
      NameError before any table was built and KeyError for a size the tables lack. */
  function BlockError(level: int, pm: PowerMatrix?, tables: Option<CentralTables>, b: S2.Block): Option<Error>
  {
    if Fallback(level, b) then
      if ReadFails(pm, b) then Some(if pm == null then AttributeError else IndexError) else None
    else if tables.None? then Some(NameError)
    else if Lookup(tables.value, b).Failure? then Some(KeyError)
    else None
  }

  /** Block j is the first one at which blockMoments raises. */
  predicate FailsFirstAt(level: int, pm: PowerMatrix?, tables: Option<CentralTables>, blocks: seq<S2.Block>, j: int)
  {
    && 0 <= j < |blocks| && BlockError(level, pm, tables, blocks[j]).Some?
    && forall j' :: 0 <= j' < j ==> BlockError(level, pm, tables, blocks[j']).None?
  }

  /** The number of blocks left to the direct way (VECCHIO); none below level 2. */
  function FallbackCount(level: int, blocks: seq<S2.Block>): (n: nat)
    ensures n <= |blocks|
    ensures level <= 1 ==> n == 0
  {
    if blocks == [] then 0
    else FallbackCount(level, blocks[..|blocks| - 1]) + (if Fallback(level, blocks[|blocks| - 1]) then 1 else 0)
  }


  /** The direct way fails for some order exactly when the block's factors cannot be read. */
  lemma {:induction false} DirectFailsAtOrderOne(pm: PowerMatrix?, b: S2.Block)
    requires pm != null ==> pm.Valid() && pm.maxK == 3
    ensures (exists i :: 0 <= i < |Orders| && MB.AxisFails(pm, Orders[i].0, Orders[i].1, b)) <==> ReadFails(pm, b)
  {
    FirstOrders();
    if i :| 0 <= i < |Orders| && MB.AxisFails(pm, Orders[i].0, Orders[i].1, b) {
      MB.AxisFailsAtOrderOne(pm, Orders[i].0, Orders[i].1, b);
    }
    if ReadFails(pm, b) {
      assert MB.AxisFails(pm, Orders[3].0, Orders[3].1, b);
    }
  }

  /** The argument preprocessing passes to setCentralMoments, from the largest block height h
      and width w: (m, m) with m the larger at level 0, the pair in decreasing order at level
      1, and at level 2 the same with the smaller capped at LIMIT. */
  function Sides(level: int, h: int, w: int): (int, int)
  {
    var more := if h >= w then h else w;
    var less := if h >= w then w else h;
    if level == 0 then (more, more)
    else if level == 1 then (more, less)
    else (more, if less <= Limit then less else Limit)
  }

  /** Every non-empty block the new way handles has its size in the tables preprocessing
      builds for the decomposition it belongs to. */
  lemma {:induction false} KeysCover(level: int, blocks: seq<S2.Block>, j: int)
    requires 0 <= level <= 2 && 0 <= j < |blocks|
    requires S2.NonEmpty(blocks[j]) && !Fallback(level, blocks[j])
    ensures IsKey(Key(blocks[j]), Sides(level, MaxOver(blocks, S2.Height), MaxOver(blocks, S2.Width)))
  {
  }

  /** The direct way reads every block within the power-sum table. */
  lemma {:induction false} DirectReadsInTable(pm: PowerMatrix, b: S2.Block)
    requires 0 <= b.x0 <= b.x1 <= pm.maxN && 0 <= b.y0 <= b.y1 <= pm.maxN
    ensures !ReadFails(pm, b)
  {
  }

  /** After preprocessing, blockMoments raises for no block of a decomposition within the
      image: the tables hold every size the new way looks up, and at level 2 the power-sum
      table covers every coordinate. */
  lemma {:induction false} NoErrorAfterPreprocessing(level: int, pm: PowerMatrix?, t: CentralTables, blocks: seq<S2.Block>)
    requires 0 <= level <= 2 && (pm != null ==> pm.Valid() && pm.maxK == 3)
    requires TablesCorrect(t)
    requires forall k :: k in t.cc00 <==> IsKey(k, Sides(level, MaxOver(blocks, S2.Height), MaxOver(blocks, S2.Width)))
    requires MB.AllAnchored(blocks)
    requires level == 2 ==> pm != null && forall j :: 0 <= j < |blocks| ==> blocks[j].x1 <= pm.maxN && blocks[j].y1 <= pm.maxN
    ensures forall j :: 0 <= j < |blocks| ==> BlockError(level, pm, Some(t), blocks[j]).None?
  {
    forall j | 0 <= j < |blocks|
      ensures BlockError(level, pm, Some(t), blocks[j]).None?
    {
      if Fallback(level, blocks[j]) {
        DirectReadsInTable(pm, blocks[j]);
      } else {
        KeysCover(level, blocks, j);
        KeyPresent(t, Sides(level, MaxOver(blocks, S2.Height), MaxOver(blocks, S2.Width)), blocks[j]);
      }
    }
  }

  /** The tables preprocessing_once builds at levels 1 and 2 stop at LIMIT for the shorter
      side: at level 1, where no block is left to the direct way, a block whose sides both
      exceed LIMIT raises KeyError. */
  lemma {:induction false} OnceTablesMissWideBlocks(t: CentralTables, maxSide: int, b: S2.Block)
    requires TablesCorrect(t) && forall k :: k in t.cc00 <==> IsKey(k, (maxSide, Limit))
    requires S2.Width(b) > Limit && S2.Height(b) > Limit
    ensures BlockError(1, null, Some(t), b) == Some(KeyError)
  {
  }

  /** One more block adds its moment to every running sum. */
  lemma {:induction false} AddBlockToSums(MM0: map<(nat, nat), int>, MM: map<(nat, nat), int>, blocks: seq<S2.Block>, j: int)
    requires 0 <= j < |blocks| && MM0.Keys == OrderKeys && MM.Keys == OrderKeys
    requires forall o :: o in Orders ==> MM0[o] == SumSeq(blocks[..j], MB.BlockMoment(o.0, o.1))
    requires forall o :: o in Orders ==> MM[o] == MM0[o] + MB.BlockMoment(o.0, o.1)(blocks[j])
    ensures forall o :: o in Orders ==> MM[o] == SumSeq(blocks[..j + 1], MB.BlockMoment(o.0, o.1))
  {
    assert blocks[..j + 1][..j] == blocks[..j];
  }

  /** The three branches of preprocessing that build the tables from the largest block
      height h and width w. */
  method TablesFor(level: int, h: int, w: int) returns (t: CentralTables)
    ensures TablesCorrect(t)
    ensures forall k :: k in t.cc00 <==> IsKey(k, Sides(level, h, w))
  {
    var more, less;
    if level == 0 {
      var maximum := if h >= w then h else w;
      more, less := maximum, maximum;
    } else if level == 1 {
      more, less := if h >= w then h else w, if h >= w then w else h;
    } else {
      more, less := if h >= w then h else w, if h >= w then w else h;
      less := if less <= Limit then less else Limit;
    }
    t := SetCentralMoments(more, less);
  }

  /** The engine of momentBlockNew2D: the module globals OPT_LEVEL, powers, CC00/CC20/CC02
      (None until preprocessing builds them) and the counters NUOVO and VECCHIO. */
  class CentralEngine2D {
    var optLevel: int
    var powers: PowerMatrix?
    var tables: Option<CentralTables>
    var nuovo: int
    var vecchio: int

    ghost predicate Valid()
      reads this, powers, if powers != null then {powers.matrix} else {}
    {
      && 0 <= optLevel <= 2
      && (powers != null ==> powers.Valid() && powers.maxK == 3)
      && (tables.Some? ==> TablesCorrect(tables.value))
    }

    /** The module as loaded: level 2, no tables yet. */
    constructor ()
      ensures optLevel == 2 && powers == null && tables == None && nuovo == 0 && vecchio == 0
      ensures Valid()
    {
      optLevel := 2;
      powers := null;
      tables := None;
      nuovo := 0;
      vecchio := 0;
    }

    /** setOptimizationLevel: levels 0, 1 and 2 are accepted, anything else fails the
        assertion and leaves the level as it was. */
    method SetOptimizationLevel(level: int) returns (err: Option<Error>)
      requires Valid()
      modifies this`optLevel
      ensures Valid()
      ensures 0 <= level <= 2 ==> err == None && optLevel == level
      ensures !(0 <= level <= 2) ==> err == Some(AssertionError) && optLevel == old(optLevel)
    {
      if !(0 <= level <= 2) {
        return Some(AssertionError);
      }
      optLevel := level;
      err := None;
    }

    /** preprocessing: the tables for the largest block sides of the decomposition, as Sides
        arranges them for the level; at level 2 also the power-sum table up to origsize,
        built after the tables (a negative size raises IndexError). */
    method Preprocessing(ibr: S2.BlockImage2D) returns (err: Option<Error>)
      requires Valid()
      modifies this`tables, this`powers
      ensures Valid()
      ensures tables.Some?
      ensures forall k :: k in tables.value.cc00 <==>
                IsKey(k, Sides(optLevel, MaxOver(ibr.block, S2.Height), MaxOver(ibr.block, S2.Width)))
      ensures err == (if optLevel == 2 && ibr.origsize < 0 then Some(IndexError) else None)
      ensures optLevel < 2 || ibr.origsize < 0 ==> powers == old(powers)
      ensures optLevel == 2 && ibr.origsize >= 0 ==> powers != null && fresh(powers) && powers.maxN == ibr.origsize
    {
      var h, w := ibr.MaxPair();
      var t := TablesFor(optLevel, h, w);
      tables := Some(t);
      if optLevel == 2 {
        if ibr.origsize < 0 {
          return Some(IndexError);
        }
        powers := new PowerMatrix(3, ibr.origsize);
      }
      err := None;
    }

    /** preprocessing_once: the power-sum table up to maxSide first (a negative size raises
        IndexError and changes nothing), then the tables for sides up to maxSide, the shorter
        one capped at LIMIT at levels 1 and 2. */
    method PreprocessingOnce(maxSide: int) returns (err: Option<Error>)
      requires Valid()
      modifies this`tables, this`powers
      ensures Valid()
      ensures maxSide < 0 ==> err == Some(IndexError) && powers == old(powers) && tables == old(tables)
      ensures maxSide >= 0 ==> && err == None && powers != null && fresh(powers) && powers.maxN == maxSide
                               && tables.Some?
                               && forall k :: k in tables.value.cc00 <==>
                                    IsKey(k, if optLevel == 0 then (maxSide, maxSide) else (maxSide, Limit))
    {
      if maxSide < 0 {
        return Some(IndexError);
      }
      powers := new PowerMatrix(3, maxSide);
      var t;
      if optLevel == 0 {
        t := SetCentralMoments(maxSide, maxSide);
      } else {
        t := SetCentralMoments(maxSide, Limit);
      }
      tables := Some(t);
      err := None;
    }

    /** The new way for one block, after NUOVO is counted: NameError before any table was
        built, otherwise the lookup and the shift. */
    method CentralStep(MM0: map<(nat, nat), int>, b: S2.Block) returns (r: Result<map<(nat, nat), int>>)
      requires Valid() && MM0.Keys == OrderKeys && !Fallback(optLevel, b)
      ensures r.Failure? <==> BlockError(optLevel, powers, tables, b).Some?
      ensures r.Failure? ==> r.error == BlockError(optLevel, powers, tables, b).value
      ensures r.Success? ==> r.value.Keys == OrderKeys
      ensures r.Success? && S2.NonEmpty(b) ==>
                forall o :: o in Orders ==> r.value[o] == MM0[o] + MB.BlockMoment(o.0, o.1)(b)
    {
      if tables.None? {
        return Failure(NameError);
      }
      r := AddCentral(MM0, tables.value, b);
    }

    /** The direct way for one block. */
    method DirectStep(MM0: map<(nat, nat), int>, b: S2.Block) returns (r: Result<map<(nat, nat), int>>)
      requires Valid() && MM0.Keys == OrderKeys && Fallback(optLevel, b)
      ensures r.Failure? <==> BlockError(optLevel, powers, tables, b).Some?
      ensures r.Failure? ==> r.error == BlockError(optLevel, powers, tables, b).value
      ensures r.Success? ==> r.value.Keys == OrderKeys
      ensures r.Success? && 0 <= b.x0 <= b.x1 && 0 <= b.y0 <= b.y1 ==>
                forall o :: o in Orders ==> r.value[o] == MM0[o] + MB.BlockMoment(o.0, o.1)(b)
    {
      FirstOrders();
      OrdersDistinct();
      r := AddDirect(powers, MM0, b, Orders);
      DirectFailsAtOrderOne(powers, b);
    }

    /** The loop of blockMoments over the blocks, each the direct way or the new way, with
        the counts of blocks taken each way (n new, v direct) as far as it got.  It fails at
        the first block where BlockError does; otherwise each moment is the sum of the block
        moments. */
    method SumBlocks(blocks: seq<S2.Block>) returns (r: Result<map<(nat, nat), int>>, n: int, v: int)
      requires Valid()
      ensures r.Success? <==> forall j :: 0 <= j < |blocks| ==> BlockError(optLevel, powers, tables, blocks[j]).None?
      ensures r.Failure? ==> exists j :: && FailsFirstAt(optLevel, powers, tables, blocks, j)
                                        && r.error == BlockError(optLevel, powers, tables, blocks[j]).value
                                        && v == FallbackCount(optLevel, blocks[..j])
                                        && n == j - v + (if Fallback(optLevel, blocks[j]) then 0 else 1)
      ensures r.Success? ==> v == FallbackCount(optLevel, blocks) && n + v == |blocks|
      ensures r.Success? ==> r.value.Keys == OrderKeys
      ensures r.Success? && MB.AllAnchored(blocks) ==>
                forall o :: o in Orders ==> r.value[o] == SumSeq(blocks, MB.BlockMoment(o.0, o.1))
    {
      FirstOrders();
      var MM := map o | o in Orders :: 0;
      n, v := 0, 0;
      for j := 0 to |blocks|
        invariant MM.Keys == OrderKeys
        invariant forall j' :: 0 <= j' < j ==> BlockError(optLevel, powers, tables, blocks[j']).None?
        invariant v == FallbackCount(optLevel, blocks[..j]) && n == j - v
        invariant MB.AllAnchored(blocks) ==>
                    forall o :: o in Orders ==> MM[o] == SumSeq(blocks[..j], MB.BlockMoment(o.0, o.1))
      {
        var b := blocks[j];
        assert blocks[..j + 1][..j] == blocks[..j];
        var step;
        if optLevel > 1 && S2.Width(b) > Limit && S2.Height(b) > Limit {
          step := DirectStep(MM, b);
          if step.Failure? {
            assert FailsFirstAt(optLevel, powers, tables, blocks, j);
            return Failure(step.error), n, v;
          }
          v := v + 1;
        } else {
          n := n + 1;
          step := CentralStep(MM, b);
          if step.Failure? {
            assert FailsFirstAt(optLevel, powers, tables, blocks, j);
            return Failure(step.error), n, v;
          }
        }
        if MB.AllAnchored(blocks) {
          AddBlockToSums(MM, step.value, blocks, j);
        }
        MM := step.value;
      }
      assert blocks[..|blocks|] == blocks;
      r := Success(MM);
    }

    /** blockMoments: every moment of order at most 3 of the blocks, with NUOVO and VECCHIO
        counting the blocks taken the new way and the direct way.  For disjoint blocks each
        moment is the moment of the pixels they cover. */
    method BlockMoments(ibr: S2.BlockImage2D) returns (r: Result<map<(nat, nat), int>>)
      requires Valid()
      modifies this`nuovo, this`vecchio
      ensures r.Success? <==> forall j :: 0 <= j < |ibr.block| ==> BlockError(optLevel, powers, tables, ibr.block[j]).None?
      ensures r.Failure? ==> exists j :: && FailsFirstAt(optLevel, powers, tables, ibr.block, j)
                                        && r.error == BlockError(optLevel, powers, tables, ibr.block[j]).value
                                        && vecchio == FallbackCount(optLevel, ibr.block[..j])
                                        && nuovo == j - vecchio + (if Fallback(optLevel, ibr.block[j]) then 0 else 1)
      ensures r.Success? ==> vecchio == FallbackCount(optLevel, ibr.block) && nuovo + vecchio == |ibr.block|
      ensures r.Success? ==> r.value.Keys == OrderKeys
      ensures r.Success? && MB.AllAnchored(ibr.block) ==>
                forall o :: o in Orders ==> r.value[o] == SumSeq(ibr.block, MB.BlockMoment(o.0, o.1))
      ensures r.Success? && MB.AllAnchored(ibr.block) && SeqDisjoint(ibr.block, S2.Pixels) ==>
                && (forall o :: o in Orders ==> r.value[o] == Moment(UnionSeq(ibr.block, S2.Pixels), o.0, o.1))
                && r.value[(0, 0)] == |UnionSeq(ibr.block, S2.Pixels)|
    {
      var n, v;
      r, n, v := SumBlocks(ibr.block);
      nuovo, vecchio := n, v;
      if r.Success? && MB.AllAnchored(ibr.block) && SeqDisjoint(ibr.block, S2.Pixels) {
        MB.MomentsOfBlocks(ibr.block, r.value);
      }
    }
  }
}
