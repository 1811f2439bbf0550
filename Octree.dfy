/** The region octree of a binary 3D image.  The domain is the 2^E x 2^E x 2^E cube with corner
    (0, 0, 0); a node is named by its location code, the child positions 0..7 on the path from
    the root, where child digit = 2 * [x in upper half] + [y in upper half] + 4 * [z in upper
    half]: the layout code_for_pixel writes and the build stores (the source's description of the
    children, and min_pixel, exchange the x and y bits).  The tree keeps only its leaves, in a
    map from location code to node, and is built bottom-up: every black voxel becomes a leaf and
    complete groups of eight sibling leaves are merged into their parent. */
module Octree {
  import opened PowerSums
  import opened SetSums
  import opened Outcomes
  import opened Commons3D

  /** A location code: the child positions on the path from the root (the root is []). */
  type Code = seq<nat>

  /** A code of a node of a tree of exponent E. */
  predicate ValidCode(code: Code, E: nat)
  {
    |code| <= E && forall i :: 0 <= i < |code| ==> code[i] < 8
  }

  /** The x half (0 lower, 1 upper) a child digit selects. */
  function XBit(d: nat): nat
  {
    (d / 2) % 2
  }

  /** The y half (0 lower, 1 upper) a child digit selects. */
  function YBit(d: nat): nat
  {
    d % 2
  }

  /** The z half (0 lower, 1 upper) a child digit selects. */
  function ZBit(d: nat): nat
  {
    (d / 4) % 2
  }

  /** A digit below 8 is made of its three half bits. */
  lemma {:induction false} DigitBits(d: nat)
    requires d < 8
    ensures d == 2 * XBit(d) + YBit(d) + 4 * ZBit(d)
    ensures XBit(d) <= 1 && YBit(d) <= 1 && ZBit(d) <= 1
  {
    assert d == 0 || d == 1 || d == 2 || d == 3 || d == 4 || d == 5 || d == 6 || d == 7;
  }

  /** The digits min_pixel tests for each axis are those whose half bit is 1, so each test
      adds bit * s. */
  lemma {:induction false} DigitSets(d: nat, s: int)
    requires d < 8
    ensures (d in {1, 3, 5, 7}) == (YBit(d) == 1) && YBit(d) * s == if YBit(d) == 1 then s else 0
    ensures (d in {2, 3, 6, 7}) == (XBit(d) == 1) && XBit(d) * s == if XBit(d) == 1 then s else 0
    ensures (d in {4, 5, 6, 7}) == (ZBit(d) == 1) && ZBit(d) * s == if ZBit(d) == 1 then s else 0
  {
    assert d == 0 || d == 1 || d == 2 || d == 3 || d == 4 || d == 5 || d == 6 || d == 7;
  }

  /** The half bits of a digit built from half bits. */
  lemma {:induction false} BitsOfDigit(hx: nat, hy: nat, hz: nat)
    requires hx <= 1 && hy <= 1 && hz <= 1
    ensures var d := 2 * hx + hy + 4 * hz;
            d < 8 && XBit(d) == hx && YBit(d) == hy && ZBit(d) == hz
  {
  }

  /** x of the lowest voxel of the node with this code. */
  function CornerX(code: Code, E: nat): int
    requires |code| <= E
  {
    if code == [] then 0 else XBit(code[0]) * Pow(2, E - 1) + CornerX(code[1..], E - 1)
  }

  /** y of the lowest voxel of the node with this code. */
  function CornerY(code: Code, E: nat): int
    requires |code| <= E
  {
    if code == [] then 0 else YBit(code[0]) * Pow(2, E - 1) + CornerY(code[1..], E - 1)
  }

  /** z of the lowest voxel of the node with this code. */
  function CornerZ(code: Code, E: nat): int
    requires |code| <= E
  {
    if code == [] then 0 else ZBit(code[0]) * Pow(2, E - 1) + CornerZ(code[1..], E - 1)
  }

  /** The lowest voxel of the node with this code. */
  function Corner(code: Code, E: nat): Voxel
    requires |code| <= E
  {
    Voxel(CornerX(code, E), CornerY(code, E), CornerZ(code, E))
  }

  /** Reference encoding: the code of the one-voxel node at (x, y, z), digit by digit from the
      root. */
  function Encode(x: int, y: int, z: int, E: nat): Code
    decreases E
  {
    if E == 0 then []
    else
      var h := Pow(2, E - 1);
      var hx := if x >= h then 1 else 0;
      var hy := if y >= h then 1 else 0;
      var hz := if z >= h then 1 else 0;
      [2 * hx + hy + 4 * hz] + Encode(x - hx * h, y - hy * h, z - hz * h, E - 1)
  }

  /** Appending a digit moves the corner by the child's side in the halves the digit selects. */
  lemma {:induction false} CornerAppend(code: Code, d: nat, E: nat)
    requires |code| < E
    ensures CornerX(code + [d], E) == CornerX(code, E) + XBit(d) * Pow(2, E - |code| - 1)
    ensures CornerY(code + [d], E) == CornerY(code, E) + YBit(d) * Pow(2, E - |code| - 1)
    ensures CornerZ(code + [d], E) == CornerZ(code, E) + ZBit(d) * Pow(2, E - |code| - 1)
  {
    if code != [] {
      assert (code + [d])[1..] == code[1..] + [d];
      CornerAppend(code[1..], d, E - 1);
    }
  }

  /** One axis of CornerBounds: a lower or upper half of side 2h, plus an offset that fits in
      the half, fits in the whole. */
  lemma {:induction false} HalfBound(b: nat, h: int, offset: int, s: int)
    requires b <= 1 && 0 <= offset && 0 <= s && offset + s <= h
    ensures 0 <= b * h + offset && b * h + offset + s <= 2 * h
  {
    if b == 0 {
      assert b * h == 0;
    } else {
      assert b * h == h;
    }
  }

  /** The node with a code lies inside the domain: 0 <= corner and corner + side <= 2^E. */
  lemma {:induction false} CornerBounds(code: Code, E: nat)
    requires ValidCode(code, E)
    ensures 0 <= CornerX(code, E) && CornerX(code, E) + Pow(2, E - |code|) <= Pow(2, E)
    ensures 0 <= CornerY(code, E) && CornerY(code, E) + Pow(2, E - |code|) <= Pow(2, E)
    ensures 0 <= CornerZ(code, E) && CornerZ(code, E) + Pow(2, E - |code|) <= Pow(2, E)
  {
    if code != [] {
      var h := Pow(2, E - 1);
      var d, R := code[0], code[1..];
      var s := Pow(2, E - |code|);
      assert ValidCode(R, E - 1);
      CornerBounds(R, E - 1);
      assert E - 1 - |R| == E - |code|;
      assert Pow(2, E) == 2 * h;
      DigitBits(d);
      PowTwoPositive(E - |code|);
      HalfBound(XBit(d), h, CornerX(R, E - 1), s);
      HalfBound(YBit(d), h, CornerY(R, E - 1), s);
      HalfBound(ZBit(d), h, CornerZ(R, E - 1), s);
    }
  }

  /** Every voxel code has E digits. */
  lemma {:induction false} EncodeLength(x: int, y: int, z: int, E: nat)
    ensures |Encode(x, y, z, E)| == E
    decreases E
  {
    if E > 0 {
      var h := Pow(2, E - 1);
      var hx := if x >= h then 1 else 0;
      var hy := if y >= h then 1 else 0;
      var hz := if z >= h then 1 else 0;
      EncodeLength(x - hx * h, y - hy * h, z - hz * h, E - 1);
    }
  }

  /** A voxel of the octant d, one level down, has the code d followed by its code there. */
  /** One axis of EncodeStep: a coordinate that lies in the half b of a side 2h selects that
      half. */
  lemma {:induction false} HalfSelect(b: nat, h: int, v: int)
    requires b <= 1 && 0 <= v - b * h < h
    ensures (if v >= h then 1 else 0) == b
    ensures 0 <= v < 2 * h
  {
    if b == 0 {
      assert b * h == 0;
    } else {
      assert b * h == h;
    }
  }

  lemma {:induction false} EncodeStep(c: Voxel, E: nat, d: nat)
    requires E > 0 && d < 8
    requires var h := Pow(2, E - 1);
             0 <= c.x - XBit(d) * h < h && 0 <= c.y - YBit(d) * h < h
             && 0 <= c.z - ZBit(d) * h < h
    ensures var h := Pow(2, E - 1);
            Encode(c.x, c.y, c.z, E)
            == [d] + Encode(c.x - XBit(d) * h, c.y - YBit(d) * h, c.z - ZBit(d) * h, E - 1)
    ensures 0 <= c.x < Pow(2, E) && 0 <= c.y < Pow(2, E) && 0 <= c.z < Pow(2, E)
  {
    var h := Pow(2, E - 1);
    PowTwoHalf(E);
    DigitBits(d);
    HalfSelect(XBit(d), h, c.x);
    HalfSelect(YBit(d), h, c.y);
    HalfSelect(ZBit(d), h, c.z);
  }

  /** The first digit of a domain voxel's code names the octant holding it. */
  lemma {:induction false} EncodeFirst(c: Voxel, E: nat)
    requires E > 0 && 0 <= c.x < Pow(2, E) && 0 <= c.y < Pow(2, E) && 0 <= c.z < Pow(2, E)
    ensures var d := Encode(c.x, c.y, c.z, E)[0];
            var h := Pow(2, E - 1);
            d < 8 && 0 <= c.x - XBit(d) * h < h && 0 <= c.y - YBit(d) * h < h
            && 0 <= c.z - ZBit(d) * h < h
            && Encode(c.x, c.y, c.z, E)
               == [d] + Encode(c.x - XBit(d) * h, c.y - YBit(d) * h, c.z - ZBit(d) * h, E - 1)
  {
    PowTwoHalf(E);
    var h := Pow(2, E - 1);
    BitsOfDigit(if c.x >= h then 1 else 0, if c.y >= h then 1 else 0, if c.z >= h then 1 else 0);
  }

  /** Every digit of a domain voxel's code is below 8. */
  lemma {:induction false} EncodeDigits(c: Voxel, E: nat)
    requires InDomainBox(c, E)
    ensures ValidCode(Encode(c.x, c.y, c.z, E), E) && |Encode(c.x, c.y, c.z, E)| == E
    decreases E
  {
    EncodeLength(c.x, c.y, c.z, E);
    if E > 0 {
      var h := Pow(2, E - 1);
      EncodeFirst(c, E);
      var d := Encode(c.x, c.y, c.z, E)[0];
      var c' := Voxel(c.x - XBit(d) * h, c.y - YBit(d) * h, c.z - ZBit(d) * h);
      EncodeDigits(c', E - 1);
      var rest := Encode(c'.x, c'.y, c'.z, E - 1);
      assert forall i :: 0 < i < E ==> Encode(c.x, c.y, c.z, E)[i] == rest[i - 1];
    }
  }

  /** Decoding an encoded voxel gives the voxel back. */
  lemma {:induction false} CornerOfEncode(c: Voxel, E: nat)
    requires InDomainBox(c, E)
    ensures ValidCode(Encode(c.x, c.y, c.z, E), E) && |Encode(c.x, c.y, c.z, E)| == E
    ensures Corner(Encode(c.x, c.y, c.z, E), E) == c
    decreases E
  {
    EncodeDigits(c, E);
    if E > 0 {
      var h := Pow(2, E - 1);
      EncodeFirst(c, E);
      var code := Encode(c.x, c.y, c.z, E);
      var d := code[0];
      var c' := Voxel(c.x - XBit(d) * h, c.y - YBit(d) * h, c.z - ZBit(d) * h);
      CornerOfEncode(c', E - 1);
      assert code[1..] == Encode(c'.x, c'.y, c'.z, E - 1);
    }
  }

  /** The voxels of the node with this code: a cube of side 2^(E - |code|). */
  function CodeCell(code: Code, E: nat): set<Voxel>
  {
    if |code| <= E then
      var s := Pow(2, E - |code|);
      Box(CornerX(code, E), CornerX(code, E) + s - 1, CornerY(code, E), CornerY(code, E) + s - 1,
          CornerZ(code, E), CornerZ(code, E) + s - 1)
    else {}
  }

  /** CodeCell as a value, to sum and unite over sets of codes. */
  function CellOf(E: nat): Code -> set<Voxel>
  {
    (code: Code) => CodeCell(code, E)
  }

  /** Whether a voxel lies in the cube of a code. */
  lemma {:induction false} InCell(code: Code, E: nat, c: Voxel)
    requires |code| <= E
    ensures var s := Pow(2, E - |code|);
            c in CodeCell(code, E)
            <==> CornerX(code, E) <= c.x < CornerX(code, E) + s
                 && CornerY(code, E) <= c.y < CornerY(code, E) + s
                 && CornerZ(code, E) <= c.z < CornerZ(code, E) + s
  {
    var s := Pow(2, E - |code|);
    InBox(c, CornerX(code, E), CornerX(code, E) + s - 1, CornerY(code, E), CornerY(code, E) + s - 1,
          CornerZ(code, E), CornerZ(code, E) + s - 1);
  }

  /** A cell always holds its corner voxel, and no voxel of it lies below its corner. */
  lemma {:induction false} CornerInCell(code: Code, E: nat)
    requires |code| <= E
    ensures Corner(code, E) in CodeCell(code, E)
    ensures forall c :: c in CodeCell(code, E) ==>
              CornerX(code, E) <= c.x && CornerY(code, E) <= c.y && CornerZ(code, E) <= c.z
  {
    PowTwoPositive(E - |code|);
    InCell(code, E, Corner(code, E));
    forall c | c in CodeCell(code, E)
      ensures CornerX(code, E) <= c.x && CornerY(code, E) <= c.y && CornerZ(code, E) <= c.z
    {
      InCell(code, E, c);
    }
  }

  /** The cell of [d] + R is the cell of R, one level down, moved to the octant d selects. */
  lemma {:induction false} CellShift(code: Code, E: nat, c: Voxel)
    requires ValidCode(code, E) && |code| > 0
    ensures var h := Pow(2, E - 1);
            var d := code[0];
            c in CodeCell(code, E)
            <==> Voxel(c.x - XBit(d) * h, c.y - YBit(d) * h, c.z - ZBit(d) * h)
                 in CodeCell(code[1..], E - 1)
  {
    var h := Pow(2, E - 1);
    var d, R := code[0], code[1..];
    assert E - 1 - |R| == E - |code|;
    assert CornerX(code, E) == XBit(d) * h + CornerX(R, E - 1);
    assert CornerY(code, E) == YBit(d) * h + CornerY(R, E - 1);
    assert CornerZ(code, E) == ZBit(d) * h + CornerZ(R, E - 1);
    InCell(code, E, c);
    InCell(R, E - 1, Voxel(c.x - XBit(d) * h, c.y - YBit(d) * h, c.z - ZBit(d) * h));
  }

  /** The domain holds the voxels with all coordinates in [0, 2^E). */
  predicate InDomainBox(c: Voxel, E: nat)
  {
    0 <= c.x < Pow(2, E) && 0 <= c.y < Pow(2, E) && 0 <= c.z < Pow(2, E)
  }

  /** A voxel of a cell lies in the domain, and the cell's code is a prefix of its code. */
  lemma {:induction false} CellMemberCode(code: Code, E: nat, c: Voxel)
    requires ValidCode(code, E) && c in CodeCell(code, E)
    ensures |Encode(c.x, c.y, c.z, E)| == E
    ensures InDomainBox(c, E)
    ensures Encode(c.x, c.y, c.z, E)[..|code|] == code
    decreases E
  {
    EncodeLength(c.x, c.y, c.z, E);
    if code == [] {
      InCell(code, E, c);
    } else {
      var d, R := code[0], code[1..];
      var h := Pow(2, E - 1);
      var c' := Voxel(c.x - XBit(d) * h, c.y - YBit(d) * h, c.z - ZBit(d) * h);
      CellShift(code, E, c);
      CellMemberCode(R, E - 1, c');
      EncodeStep(c, E, d);
      assert Encode(c.x, c.y, c.z, E)[..|code|] == [d] + Encode(c'.x, c'.y, c'.z, E - 1)[..|R|];
    }
  }

  /** A domain voxel whose code extends a code lies in that code's cell. */
  lemma {:induction false} CodeMemberCell(code: Code, E: nat, c: Voxel)
    requires ValidCode(code, E) && InDomainBox(c, E)
    requires |Encode(c.x, c.y, c.z, E)| >= |code| && Encode(c.x, c.y, c.z, E)[..|code|] == code
    ensures c in CodeCell(code, E)
    decreases E
  {
    if code == [] {
      InCell(code, E, c);
    } else {
      var d, R := code[0], code[1..];
      var h := Pow(2, E - 1);
      var c' := Voxel(c.x - XBit(d) * h, c.y - YBit(d) * h, c.z - ZBit(d) * h);
      EncodeFirst(c, E);
      var enc := Encode(c.x, c.y, c.z, E);
      assert enc[0] == d;
      assert Encode(c'.x, c'.y, c'.z, E - 1)[..|R|] == enc[1..][..|R|] == R;
      CodeMemberCell(R, E - 1, c');
      CellShift(code, E, c);
      assert c' in CodeCell(code[1..], E - 1);
    }
  }

  /** A voxel lies in the cell of a code exactly when it lies in the domain and the code is a
      prefix of the voxel's own code. */
  lemma {:induction false} CellMember(code: Code, E: nat, c: Voxel)
    requires ValidCode(code, E)
    ensures |Encode(c.x, c.y, c.z, E)| == E
    ensures c in CodeCell(code, E)
            <==> InDomainBox(c, E) && Encode(c.x, c.y, c.z, E)[..|code|] == code
  {
    EncodeLength(c.x, c.y, c.z, E);
    if c in CodeCell(code, E) {
      CellMemberCode(code, E, c);
    }
    if InDomainBox(c, E) && Encode(c.x, c.y, c.z, E)[..|code|] == code {
      CodeMemberCell(code, E, c);
    }
  }

  /** The voxels of the domain: the cell of the root. */
  function Domain(E: nat): set<Voxel>
  {
    CodeCell([], E)
  }

  lemma {:induction false} InDomain(E: nat, c: Voxel)
    ensures c in Domain(E) <==> InDomainBox(c, E)
  {
    CellMember([], E, c);
  }

  /** A full-length code names a single voxel. */
  lemma {:induction false} CellOfFullCode(code: Code, E: nat)
    requires |code| == E
    ensures CodeCell(code, E) == {Corner(code, E)}
  {
    forall d | d in CodeCell(code, E)
      ensures d == Corner(code, E)
    {
      InCell(code, E, d);
    }
    CornerInCell(code, E);
  }

  /** Encoding the corner of a full-length code gives the code back. */
  lemma {:induction false} EncodeOfCorner(code: Code, E: nat)
    requires ValidCode(code, E) && |code| == E
    ensures Encode(CornerX(code, E), CornerY(code, E), CornerZ(code, E), E) == code
  {
    var c := Corner(code, E);
    CornerInCell(code, E);
    CellMemberCode(code, E, c);
    assert Encode(c.x, c.y, c.z, E)[..|code|] == Encode(c.x, c.y, c.z, E);
  }

  /** A voxel of a node's cube lies in the cube of exactly the child its code names. */
  lemma {:induction false} ChildOfVoxel(code: Code, E: nat, c: Voxel, i: nat)
    requires ValidCode(code, E) && |code| < E && i < 8
    ensures |Encode(c.x, c.y, c.z, E)| == E
    ensures c in CodeCell(code + [i], E)
            <==> c in CodeCell(code, E) && Encode(c.x, c.y, c.z, E)[|code|] == i
  {
    assert ValidCode(code + [i], E);
    CellMember(code, E, c);
    CellMember(code + [i], E, c);
    var enc := Encode(c.x, c.y, c.z, E);
    if InDomainBox(c, E) {
      assert enc[..|code| + 1] == enc[..|code|] + [enc[|code|]];
      assert (code + [i])[..|code|] == code;
    }
  }

  /** The location code of the parent node; the root has none. */
  function Parent(code: Code): (r: Option<Code>)
    ensures r.None? <==> code == []
    ensures r.Some? ==> r.value + [code[|code| - 1]] == code
  {
    if |code| == 0 then None else Some(code[..|code| - 1])
  }

  /** Every child names its parent. */
  lemma {:induction false} ParentOfChild(code: Code, i: nat)
    ensures Parent(code + [i]) == Some(code)
  {
    assert (code + [i])[..|code|] == code;
  }

  /** A node: the cube of side 2^exponent with lowest voxel (xmin, ymin, zmin), its centre and
      its colour (0 white, 1 black). */
  datatype OctNode = OctNode(xmin: int, ymin: int, zmin: int, exponent: nat, color: nat,
                             xcen: real, ycen: real, zcen: real)

  /** The side 2^exponent of a node's cube. */
  function Side(n: OctNode): (s: nat)
    ensures s >= 1
  {
    PowTwoPositive(n.exponent);
    Pow(2, n.exponent)
  }

  /** The node constructor: the centre is stored as the corner itself for a one-voxel node and
      as corner + 2^(exponent-1) - 1/2 otherwise, which is in both cases the centre of the
      cube. */
  function NewNode(x0: int, y0: int, z0: int, expon: nat, color: nat): (n: OctNode)
    ensures n.xmin == x0 && n.ymin == y0 && n.zmin == z0
    ensures n.exponent == expon && n.color == color
    ensures n.xcen == x0 as real + (Side(n) - 1) as real / 2.0
    ensures n.ycen == y0 as real + (Side(n) - 1) as real / 2.0
    ensures n.zcen == z0 as real + (Side(n) - 1) as real / 2.0
  {
    if expon == 0 then
      OctNode(x0, y0, z0, 0, color, x0 as real, y0 as real, z0 as real)
    else
      var delta := Pow(2, expon - 1) as real - 0.5;
      assert Pow(2, expon) == 2 * Pow(2, expon - 1);
      OctNode(x0, y0, z0, expon, color, x0 as real + delta, y0 as real + delta, z0 as real + delta)
  }

  /** The voxels of a node's cube. */
  function NodeCell(n: OctNode): set<Voxel>
  {
    Box(n.xmin, n.xmin + Side(n) - 1, n.ymin, n.ymin + Side(n) - 1, n.zmin, n.zmin + Side(n) - 1)
  }

  /** The black leaf a tree of exponent E keeps at a code. */
  function LeafNode(code: Code, E: nat): OctNode
    requires |code| <= E
  {
    NewNode(CornerX(code, E), CornerY(code, E), CornerZ(code, E), E - |code|, 1)
  }

  lemma {:induction false} LeafNodeCell(code: Code, E: nat)
    requires |code| <= E
    ensures NodeCell(LeafNode(code, E)) == CodeCell(code, E)
  {
  }

  /** The least E with 2^E >= L1, L2 and L3, found by doubling. */
  method PowerOfTwo(L1: int, L2: int, L3: int) returns (E: nat)
    ensures Pow(2, E) >= L1 && Pow(2, E) >= L2 && Pow(2, E) >= L3
    ensures forall e: nat :: e < E ==> Pow(2, e) < L1 || Pow(2, e) < L2 || Pow(2, e) < L3
  {
    var L := 1;
    E := 0;
    while L < L1 || L < L2 || L < L3
      invariant L == Pow(2, E) && L >= 1
      invariant forall e: nat :: e < E ==> Pow(2, e) < L1 || Pow(2, e) < L2 || Pow(2, e) < L3
      decreases (if L1 > L2 then (if L1 > L3 then L1 else L3) else (if L2 > L3 then L2 else L3)) - L
    {
      forall e: nat | e <= E
        ensures Pow(2, e) < L1 || Pow(2, e) < L2 || Pow(2, e) < L3
      {
        PowTwoMonotone(e, E);
      }
      L := L * 2;
      E := E + 1;
    }
  }

  /** One round of code_for_pixel: the digit of the half holding (x, y, z) moves the corner to
      that octant, which still holds the voxel. */
  lemma {:induction false} CodeDigitStep(code: Code, E: nat, x: int, y: int, z: int, middle: int,
                      digit: nat, nx: int, ny: int, nz: int)
    requires |code| < E && ValidCode(code, E) && middle == Pow(2, E - 1 - |code|)
    requires CornerX(code, E) <= x < CornerX(code, E) + 2 * middle
    requires CornerY(code, E) <= y < CornerY(code, E) + 2 * middle
    requires CornerZ(code, E) <= z < CornerZ(code, E) + 2 * middle
    requires nx == if x >= CornerX(code, E) + middle then CornerX(code, E) + middle else CornerX(code, E)
    requires ny == if y >= CornerY(code, E) + middle then CornerY(code, E) + middle else CornerY(code, E)
    requires nz == if z >= CornerZ(code, E) + middle then CornerZ(code, E) + middle else CornerZ(code, E)
    requires digit == (if x >= CornerX(code, E) + middle then 2 else 0)
                      + (if y >= CornerY(code, E) + middle then 1 else 0)
                      + (if z >= CornerZ(code, E) + middle then 4 else 0)
    ensures ValidCode(code + [digit], E)
    ensures CornerX(code + [digit], E) == nx && CornerY(code + [digit], E) == ny
    ensures CornerZ(code + [digit], E) == nz
    ensures nx <= x < nx + middle && ny <= y < ny + middle && nz <= z < nz + middle
    ensures |code| + 1 < E ==> middle / 2 == Pow(2, E - 1 - (|code| + 1)) && middle >= 2
                               && 2 * (middle / 2) == middle
  {
    var hx: nat := if x >= CornerX(code, E) + middle then 1 else 0;
    var hy: nat := if y >= CornerY(code, E) + middle then 1 else 0;
    var hz: nat := if z >= CornerZ(code, E) + middle then 1 else 0;
    assert digit == 2 * hx + hy + 4 * hz;
    BitsOfDigit(hx, hy, hz);
    CornerAppend(code, digit, E);
    assert Pow(2, E - |code| - 1) == middle;
    assert XBit(digit) * middle == nx - CornerX(code, E) by {
      if hx == 1 { assert XBit(digit) == 1; } else { assert XBit(digit) == 0; }
    }
    assert YBit(digit) * middle == ny - CornerY(code, E) by {
      if hy == 1 { assert YBit(digit) == 1; } else { assert YBit(digit) == 0; }
    }
    assert ZBit(digit) * middle == nz - CornerZ(code, E) by {
      if hz == 1 { assert ZBit(digit) == 1; } else { assert ZBit(digit) == 0; }
    }
    if |code| + 1 < E {
      PowTwoHalf(E - 1 - |code|);
    }
  }


  /** The octree of an image of x_side x y_side x z_side voxels: its exponent E, the side 2^E
      of its cubic domain, and its leaves by location code. */
  class OctTree {
    const xSide: int
    const ySide: int
    const zSide: int
    const exponent: nat
    const side: nat
    var leaves: map<Code, OctNode>

    /** The tree of an all-white image: the root is its only leaf. */
    constructor (SX: int, SY: int, SZ: int)
      ensures xSide == SX && ySide == SY && zSide == SZ
      ensures Pow(2, exponent) >= SX && Pow(2, exponent) >= SY && Pow(2, exponent) >= SZ
      ensures forall e: nat :: e < exponent ==> Pow(2, e) < SX || Pow(2, e) < SY || Pow(2, e) < SZ
      ensures side == Pow(2, exponent)
      ensures leaves == map[[] := NewNode(0, 0, 0, exponent, 0)]
    {
      xSide := SX;
      ySide := SY;
      zSide := SZ;
      var e := PowerOfTwo(SX, SY, SZ);
      exponent := e;
      PowTwoPositive(e);
      side := Pow(2, e);
      leaves := map[[] := NewNode(0, 0, 0, e, 0)];
    }

    /** The side of the cube of the node with this code: halving per level, so that
        2^|code| of them span the domain along each axis. */
    function NodeSide(code: Code): (s: int)
      reads this
      requires |code| <= exponent
      ensures s >= 1 && s * Pow(2, |code|) == Pow(2, exponent)
    {
      PowAdd(2, exponent - |code|, |code|);
      PowTwoPositive(exponent - |code|);
      Pow(2, exponent - |code|)
    }

    /** The lowest voxel of the node with this code, decoded in code_for_pixel's layout. */
    function MinVoxel(code: Code): (v: Voxel)
      reads this
      requires |code| <= exponent
      ensures v in CodeCell(code, exponent)
      ensures forall c :: c in CodeCell(code, exponent) ==> v.x <= c.x && v.y <= c.y && v.z <= c.z
    {
      CornerInCell(code, exponent);
      Corner(code, exponent)
    }

    /** min_pixel as written: digits 1, 3, 5, 7 add to x, digits 2, 3, 6, 7 to y and digits
        4..7 to z, and only (x, y) is returned although (x, y, z) is promised.  The x and y bits
        follow the module's own description of the children, but code_for_pixel, whose layout
        the build stores and the model keeps, puts x in the digit's 2 bit and y in its 1 bit;
        against it the pair is the node's lowest (y, x), and z is lost. */
    method MinPixelAsWritten(code: Code) returns (x: int, y: int)
      requires ValidCode(code, exponent)
      ensures x == MinVoxel(code).y && y == MinVoxel(code).x
    {
      var s := Pow(2, exponent);
      var z := 0;
      x, y := 0, 0;
      for i := 0 to |code|
        invariant s == Pow(2, exponent - i)
        invariant x == CornerY(code[..i], exponent) && y == CornerX(code[..i], exponent)
        invariant z == CornerZ(code[..i], exponent)
      {
        assert Pow(2, exponent - i) == 2 * Pow(2, exponent - i - 1);
        s := s / 2;
        CornerAppend(code[..i], code[i], exponent);
        assert code[..i + 1] == code[..i] + [code[i]];
        DigitBits(code[i]);
        DigitSets(code[i], s);
        if code[i] in {1, 3, 5, 7} {
          x := x + s;
        }
        if code[i] in {2, 3, 6, 7} {
          y := y + s;
        }
        if code[i] in {4, 5, 6, 7} {
          z := z + s;
        }
      }
      assert code[..|code|] == code;
    }

    /** The code of the one-voxel node at (x, y, z).  When the exponent is 0 the root is that
        node and its code is empty. */
    method CodeForPixel(x: int, y: int, z: int) returns (code: Code)
      requires InDomainBox(Voxel(x, y, z), exponent)
      ensures ValidCode(code, exponent) && |code| == exponent
      ensures MinVoxel(code) == Voxel(x, y, z)
      ensures code == Encode(x, y, z, exponent)
    {
      code := [];
      if exponent == 0 {
        return;
      }
      var x0, y0, z0 := 0, 0, 0;
      var middle := Pow(2, exponent - 1);
      assert Pow(2, exponent) == 2 * middle;
      while true
        invariant |code| < exponent && ValidCode(code, exponent)
        invariant middle == Pow(2, exponent - 1 - |code|) && middle >= 1
        invariant x0 == CornerX(code, exponent) && y0 == CornerY(code, exponent)
        invariant z0 == CornerZ(code, exponent)
        invariant x0 <= x < x0 + 2 * middle && y0 <= y < y0 + 2 * middle
        invariant z0 <= z < z0 + 2 * middle
        decreases middle
      {
        var digit := 0;
        if x >= x0 + middle {
          digit := digit + 2;
          x0 := x0 + middle;
        }
        if y >= y0 + middle {
          digit := digit + 1;
          y0 := y0 + middle;
        }
        if z >= z0 + middle {
          digit := digit + 4;
          z0 := z0 + middle;
        }
        CodeDigitStep(code, exponent, x, y, z, middle, digit, x0, y0, z0);
        code := code + [digit];
        if middle == 1 {
          break;
        }
        middle := middle / 2;
      }
      assert Corner(code, exponent) == Voxel(x, y, z);
      EncodeOfCorner(code, exponent);
    }

    /** Insertion of the one-voxel black leaf of (x, y, z) under the voxel's code. */
    method AddVoxel(x: int, y: int, z: int) returns (C: Code)
      requires InDomainBox(Voxel(x, y, z), exponent)
      modifies this
      ensures C == Encode(x, y, z, exponent)
      ensures leaves == old(leaves)[C := NewNode(x, y, z, 0, 1)]
    {
      C := CodeForPixel(x, y, z);
      leaves := leaves[C := NewNode(x, y, z, 0, 1)];
    }

    /** The merge of the eight sibling leaves under C into one black leaf at C, anchored at
        child 0's corner with one more level of exponent. */
    method MergeGroup(C: Code)
      requires WellFormed(leaves, exponent) && Complete(leaves.Keys, C) && |C| < exponent
      modifies this
      ensures leaves == MergedLeaves(old(leaves), C, exponent)
    {
      var child0 := leaves[C + [0]];
      MergedNodeIsLeaf(leaves, C, exponent);
      leaves := leaves - {C + [0], C + [1], C + [2], C + [3], C + [4], C + [5], C + [6], C + [7]};
      assert leaves == old(leaves) - Kids(C);
      var node := NewNode(child0.xmin, child0.ymin, child0.zmin, child0.exponent + 1, 1);
      assert node == LeafNode(C, exponent);
      leaves := leaves[C := node];
    }

    /** The number of black leaves. */
    function NumElem(): (n: nat)
      reads this
      ensures n <= |leaves|
      ensures n == |leaves| <==> forall code :: code in leaves ==> leaves[code].color == 1
    {
      var black := set code | code in leaves && leaves[code].color == 1;
      assert black <= leaves.Keys && |leaves.Keys| == |leaves|;
      if forall code :: code in leaves ==> leaves[code].color == 1 then
        assert black == leaves.Keys;
        |black|
      else
        var w :| w in leaves && leaves[w].color != 1;
        var others := leaves.Keys - {w};
        assert black <= others;
        assert leaves.Keys == others + {w} && w !in others;
        SubsetSize(black, others);
        |black|
    }
  }

  /** In the 2 x 2 x 2 tree, voxel (1, 0, 1) gets the code [6], whose lowest voxel is
      (1, 0, 1); min_pixel as written reports (0, 1) for it. */
  lemma {:induction false} MinPixelExample()
    ensures Encode(1, 0, 1, 1) == [6]
    ensures Corner([6], 1) == Voxel(1, 0, 1)
  {
    assert Pow(2, 0) == 1;
  }

  /** The codes of the eight children of C. */
  function Kids(C: Code): set<Code>
  {
    {C + [0], C + [1], C + [2], C + [3], C + [4], C + [5], C + [6], C + [7]}
  }

  /** The children of C are C followed by a digit below 8. */
  lemma {:induction false} KidsAreChildren(C: Code, k: Code)
    ensures k in Kids(C) <==> |k| == |C| + 1 && k[..|C|] == C && k[|C|] < 8
  {
    if |k| == |C| + 1 && k[..|C|] == C && k[|C|] < 8 {
      assert k == C + [k[|C|]];
      DigitBits(k[|C|]);
    }
  }

  /** Adding a child with a larger digit than every child so far grows the set by one. */
  lemma {:induction false} AddKid(s: set<Code>, C: Code, j: nat)
    requires forall k :: k in s ==> |k| == |C| + 1 && k[|C|] < j
    ensures |s + {C + [j]}| == |s| + 1
  {
    assert (C + [j])[|C|] == j;
  }

  lemma {:induction false} KidsDistinct(C: Code)
    ensures |Kids(C)| == 8
    ensures C !in Kids(C)
  {
    assert (C + [0])[|C|] == 0;
    AddKid({C + [0]}, C, 1);
    AddKid({C + [0], C + [1]}, C, 2);
    AddKid({C + [0], C + [1], C + [2]}, C, 3);
    AddKid({C + [0], C + [1], C + [2], C + [3]}, C, 4);
    AddKid({C + [0], C + [1], C + [2], C + [3], C + [4]}, C, 5);
    AddKid({C + [0], C + [1], C + [2], C + [3], C + [4], C + [5]}, C, 6);
    AddKid({C + [0], C + [1], C + [2], C + [3], C + [4], C + [5], C + [6]}, C, 7);
  }

  /** All eight children of C are leaves: a group the build merges. */
  predicate Complete(keys: set<Code>, C: Code)
  {
    C + [0] in keys && C + [1] in keys && C + [2] in keys && C + [3] in keys
    && C + [4] in keys && C + [5] in keys && C + [6] in keys && C + [7] in keys
  }

  lemma {:induction false} CompleteIsKids(keys: set<Code>, C: Code)
    ensures Complete(keys, C) <==> Kids(C) <= keys
  {
  }

  /** Every leaf is a valid code whose node is the black cube the code names. */
  ghost predicate WellFormed(leaves: map<Code, OctNode>, E: nat)
  {
    forall K :: K in leaves ==> ValidCode(K, E) && leaves[K] == LeafNode(K, E)
  }

  /** The cells of the leaves are pairwise disjoint and their union is S. */
  ghost predicate Partitions(keys: set<Code>, E: nat, S: set<Voxel>)
  {
    PairwiseDisjoint(keys, CellOf(E)) && UnionOf(keys, CellOf(E)) == S
  }

  /** No complete group of eight sibling leaves is left. */
  ghost predicate Maximal(keys: set<Code>)
  {
    forall C :: !Complete(keys, C)
  }

  /** Invariants of the candidate queue. */
  ghost predicate CandidatesValid(candid: seq<Code>, E: nat)
  {
    forall j :: 0 <= j < |candid| ==> ValidCode(candid[j], E) && |candid[j]| < E
  }

  ghost predicate NonIncreasing(candid: seq<Code>)
  {
    forall i, j :: 0 <= i < j < |candid| ==> |candid[i]| >= |candid[j]|
  }

  ghost predicate TailBound(candid: seq<Code>, I: nat)
  {
    I < |candid| ==> |candid[|candid| - 1]| + 1 >= |candid[I]|
  }

  /** The parent of every leaf that is a child 0 has been queued. */
  ghost predicate ParentsQueued(keys: set<Code>, candid: seq<Code>)
  {
    forall K :: K in keys && |K| > 0 && K[|K| - 1] == 0 ==> K[..|K| - 1] in candid
  }

  /** Every complete group is still waiting in the unscanned part of the queue. */
  ghost predicate CompleteQueued(keys: set<Code>, candid: seq<Code>, I: nat)
  {
    I <= |candid| && forall C :: Complete(keys, C) ==> C in candid[I..]
  }

  ghost predicate BuildInvariant(leaves: map<Code, OctNode>, candid: seq<Code>, I: nat, E: nat,
                                 S: set<Voxel>)
  {
    WellFormed(leaves, E) && Partitions(leaves.Keys, E, S) && CandidatesValid(candid, E)
    && NonIncreasing(candid) && TailBound(candid, I) && ParentsQueued(leaves.Keys, candid)
    && CompleteQueued(leaves.Keys, candid, I)
  }

  /** A voxel of the merged parent's cell lies in one of its children's cells. */
  lemma {:induction false} InSomeKid(C: Code, E: nat, c: Voxel)
    requires ValidCode(C, E) && |C| < E && c in CodeCell(C, E)
    ensures exists k :: k in Kids(C) && c in CodeCell(k, E)
  {
    CellMember(C, E, c);
    EncodeDigits(c, E);
    var i := Encode(c.x, c.y, c.z, E)[|C|];
    ChildOfVoxel(C, E, c, i);
    KidsAreChildren(C, C + [i]);
    assert (C + [i])[..|C|] == C;
  }

  /** A voxel of a child's cell lies in the parent's cell. */
  lemma {:induction false} KidInParent(C: Code, E: nat, k: Code, c: Voxel)
    requires ValidCode(C, E) && |C| < E && k in Kids(C) && c in CodeCell(k, E)
    ensures c in CodeCell(C, E)
  {
    KidsAreChildren(C, k);
    assert k == C + [k[|C|]];
    ChildOfVoxel(C, E, c, k[|C|]);
  }

  /** The parent of a complete group is not itself a leaf: its cell would overlap its
      children's. */
  lemma {:induction false} MergedParentIsNew(keys: set<Code>, E: nat, C: Code)
    requires PairwiseDisjoint(keys, CellOf(E)) && Complete(keys, C) && ValidCode(C, E)
    requires |C| < E
    ensures C !in keys
  {
    if C in keys {
      KidsDistinct(C);
      CornerInCell(C + [0], E);
      KidInParent(C, E, C + [0], Corner(C + [0], E));
      assert false;
    }
  }

  /** The cells after a merge lie in the union before it. */
  lemma {:induction false} MergedUnionWithin(keys: set<Code>, E: nat, C: Code)
    requires Complete(keys, C) && ValidCode(C, E) && |C| < E
    ensures UnionOf(keys - Kids(C) + {C}, CellOf(E)) <= UnionOf(keys, CellOf(E))
  {
    var g := CellOf(E);
    var keys' := keys - Kids(C) + {C};
    forall c | c in UnionOf(keys', g)
      ensures c in UnionOf(keys, g)
    {
      UnionOfMember(keys', g, c);
      UnionOfMember(keys, g, c);
      var k :| k in keys' && c in g(k);
      if k == C {
        InSomeKid(C, E, c);
        var kid :| kid in Kids(C) && c in CodeCell(kid, E);
        CompleteIsKids(keys, C);
        assert kid in keys && c in g(kid);
      } else {
        assert k in keys;
      }
    }
  }

  /** The cells before a merge lie in the union after it. */
  lemma {:induction false} UnionWithinMerged(keys: set<Code>, E: nat, C: Code)
    requires ValidCode(C, E) && |C| < E
    ensures UnionOf(keys, CellOf(E)) <= UnionOf(keys - Kids(C) + {C}, CellOf(E))
  {
    var g := CellOf(E);
    var keys' := keys - Kids(C) + {C};
    forall c | c in UnionOf(keys, g)
      ensures c in UnionOf(keys', g)
    {
      UnionOfMember(keys', g, c);
      UnionOfMember(keys, g, c);
      var k :| k in keys && c in g(k);
      if k in Kids(C) {
        KidInParent(C, E, k, c);
        assert C in keys' && c in g(C);
      } else {
        assert k in keys';
      }
    }
  }

  /** Merging keeps the union of the cells. */
  lemma {:induction false} MergeKeepsUnion(keys: set<Code>, E: nat, C: Code)
    requires Complete(keys, C) && ValidCode(C, E) && |C| < E
    ensures UnionOf(keys - Kids(C) + {C}, CellOf(E)) == UnionOf(keys, CellOf(E))
  {
    MergedUnionWithin(keys, E, C);
    UnionWithinMerged(keys, E, C);
  }

  /** The merged cell does not meet the cell of a leaf outside the group. */
  lemma {:induction false} MergedCellApart(keys: set<Code>, E: nat, C: Code, k: Code)
    requires PairwiseDisjoint(keys, CellOf(E)) && Complete(keys, C) && ValidCode(C, E)
    requires |C| < E && k in keys && k !in Kids(C)
    ensures CodeCell(C, E) !! CodeCell(k, E)
  {
    forall c | c in CodeCell(C, E)
      ensures c !in CodeCell(k, E)
    {
      InSomeKid(C, E, c);
      var kid :| kid in Kids(C) && c in CodeCell(kid, E);
      assert CellOf(E)(kid) !! CellOf(E)(k);
    }
  }

  /** Merging keeps the cells pairwise disjoint. */
  lemma {:induction false} MergeKeepsDisjoint(keys: set<Code>, E: nat, C: Code)
    requires PairwiseDisjoint(keys, CellOf(E)) && Complete(keys, C) && ValidCode(C, E)
    requires |C| < E
    ensures PairwiseDisjoint(keys - Kids(C) + {C}, CellOf(E))
  {
    var keys' := keys - Kids(C) + {C};
    forall k | k in keys' && k != C
      ensures CellOf(E)(C) !! CellOf(E)(k)
    {
      MergedCellApart(keys, E, C, k);
    }
  }

  lemma {:induction false} MergeSize(keys: set<Code>, C: Code)
    requires Complete(keys, C) && C !in keys
    ensures |keys - Kids(C) + {C}| == |keys| - 7
  {
    KidsDistinct(C);
    var rest := keys - Kids(C);
    assert keys == rest + Kids(C) && rest !! Kids(C);
    assert |rest + {C}| == |rest| + 1;
  }

  /** Merging a complete group keeps the partition: the parent's cell is exactly the union of
      the eight children's cells.  The parent was not a leaf, so seven leaves disappear. */
  lemma {:induction false} MergeKeepsPartition(keys: set<Code>, E: nat, S: set<Voxel>, C: Code)
    requires Partitions(keys, E, S) && Complete(keys, C) && ValidCode(C, E) && |C| < E
    ensures C !in keys
    ensures Partitions(keys - Kids(C) + {C}, E, S)
    ensures |keys - Kids(C) + {C}| == |keys| - 7
  {
    MergedParentIsNew(keys, E, C);
    assert Partitions(keys - Kids(C) + {C}, E, S) by {
      MergeKeepsUnion(keys, E, C);
      MergeKeepsDisjoint(keys, E, C);
    }
    MergeSize(keys, C);
  }

  /** The leaves after the group under C is merged into one leaf at C. */
  function MergedLeaves(leaves: map<Code, OctNode>, C: Code, E: nat): map<Code, OctNode>
    requires |C| <= E
  {
    (leaves - Kids(C))[C := LeafNode(C, E)]
  }

  /** The queue after a new leaf at C: its parent is queued when C is a child 0. */
  function Enqueue(candid: seq<Code>, C: Code): seq<Code>
  {
    if |C| > 0 && C[|C| - 1] == 0 then candid + [C[..|C| - 1]] else candid
  }

  /** The node a merge builds from child 0's corner and exponent is the leaf its code names. */
  lemma {:induction false} MergedNodeIsLeaf(leaves: map<Code, OctNode>, C: Code, E: nat)
    requires WellFormed(leaves, E) && C + [0] in leaves && |C| < E
    ensures var child0 := leaves[C + [0]];
            NewNode(child0.xmin, child0.ymin, child0.zmin, child0.exponent + 1, 1)
            == LeafNode(C, E)
  {
    CornerAppend(C, 0, E);
  }

  /** Skipping an incomplete candidate keeps the invariant. */
  lemma {:induction false} SkipStep(leaves: map<Code, OctNode>, candid: seq<Code>, I: nat, E: nat, S: set<Voxel>)
    requires BuildInvariant(leaves, candid, I, E, S) && I < |candid|
    requires !Complete(leaves.Keys, candid[I])
    ensures BuildInvariant(leaves, candid, I + 1, E, S)
  {
    forall C | Complete(leaves.Keys, C)
      ensures C in candid[I + 1..]
    {
      assert C in candid[I..];
      var j :| 0 <= j < |candid[I..]| && candid[I..][j] == C;
      assert j != 0;
      assert candid[I + 1..][j - 1] == C;
    }
  }

  lemma {:induction false} MergeKeepsWellFormed(leaves: map<Code, OctNode>, C: Code, E: nat)
    requires WellFormed(leaves, E) && ValidCode(C, E)
    ensures WellFormed(MergedLeaves(leaves, C, E), E)
  {
  }

  /** A merge keeps the queue sorted by non-increasing code length: the parent it may queue
      is one digit shorter than the scanned code, and no queued code is shorter than that. */
  lemma {:induction false} MergeKeepsOrder(candid: seq<Code>, I: nat, E: nat, C: Code)
    requires CandidatesValid(candid, E) && NonIncreasing(candid) && TailBound(candid, I)
    requires I < |candid| && C == candid[I]
    ensures CandidatesValid(Enqueue(candid, C), E)
    ensures NonIncreasing(Enqueue(candid, C)) && TailBound(Enqueue(candid, C), I + 1)
  {
    if |C| > 0 && C[|C| - 1] == 0 {
      var P := C[..|C| - 1];
      assert Enqueue(candid, C) == candid + [P];
      forall i | 0 <= i < |candid|
        ensures |candid[i]| >= |P|
      {
        if i < |candid| - 1 {
          assert |candid[i]| >= |candid[|candid| - 1]|;
        }
      }
      if I + 1 < |candid| {
        assert |candid[I + 1]| <= |C|;
      }
    } else if I + 1 < |candid| {
      assert |candid[I + 1]| <= |candid[I]|;
    }
  }

  /** A merge keeps the parent of every child-0 leaf queued: the new leaf queues its own. */
  lemma {:induction false} MergeKeepsParentsQueued(leaves: map<Code, OctNode>, candid: seq<Code>, E: nat, C: Code)
    requires ParentsQueued(leaves.Keys, candid) && |C| <= E
    ensures ParentsQueued(MergedLeaves(leaves, C, E).Keys, Enqueue(candid, C))
  {
    if |C| > 0 && C[|C| - 1] == 0 {
      assert Enqueue(candid, C)[|candid|] == C[..|C| - 1];
    }
  }

  /** A complete group other than the scanned one was queued after it. */
  lemma {:induction false} OtherGroupQueued(keys: set<Code>, candid: seq<Code>, I: nat, D: Code)
    requires CompleteQueued(keys, candid, I) && I < |candid|
    requires Complete(keys, D) && D != candid[I]
    ensures D in candid[I + 1..]
  {
    assert D in candid[I..];
    var j :| 0 <= j < |candid[I..]| && candid[I..][j] == D;
    assert candid[I + 1..][j - 1] == D;
  }

  /** The parent D of the scanned code C, when C is not a child 0, was queued with its child 0
      and, being shorter than C, lies after C in the sorted queue. */
  lemma {:induction false} ParentQueuedAfter(keys: set<Code>, candid: seq<Code>, I: nat, D: Code)
    requires NonIncreasing(candid) && ParentsQueued(keys, candid) && I < |candid|
    requires D + [0] in keys && |D| < |candid[I]|
    ensures D in candid[I + 1..]
  {
    assert (D + [0])[..|D|] == D;
    var j :| 0 <= j < |candid| && candid[j] == D;
    assert candid[I + 1..][j - (I + 1)] == D;
  }

  /** One complete group after a merge at C = candid[I] is queued after I. */
  lemma {:induction false} GroupQueuedAfterMerge(keys: set<Code>, candid: seq<Code>, I: nat, C: Code, D: Code)
    requires CompleteQueued(keys, candid, I) && NonIncreasing(candid)
    requires ParentsQueued(keys, candid)
    requires I < |candid| && C == candid[I] && Complete(keys, C)
    requires Complete(keys - Kids(C) + {C}, D)
    ensures D in Enqueue(candid, C)[I + 1..]
  {
    var candid' := Enqueue(candid, C);
    assert candid[I + 1..] <= candid'[I + 1..];
    KidsDistinct(C);
    if D == C {
      assert false;
    } else if C in Kids(D) {
      KidsAreChildren(D, C);
      assert |C| > 0 && C[..|C| - 1] == D;
      if C[|C| - 1] == 0 {
        assert candid'[I + 1..][|candid'| - 1 - (I + 1)] == D;
      } else {
        assert D + [0] != C;
        ParentQueuedAfter(keys, candid, I, D);
      }
    } else {
      assert Complete(keys, D);
      OtherGroupQueued(keys, candid, I, D);
    }
  }

  /** After a merge at C = candid[I], every complete group is still queued after I.  A group
      that the new leaf C completes is C's parent: either C is a child 0 and the parent is
      enqueued now, or the parent was queued with its child 0 and, being shorter than C, has
      not been scanned yet. */
  lemma {:induction false} MergeKeepsCompleteQueued(leaves: map<Code, OctNode>, candid: seq<Code>, I: nat, E: nat,
                                 C: Code)
    requires CompleteQueued(leaves.Keys, candid, I) && NonIncreasing(candid)
    requires ParentsQueued(leaves.Keys, candid)
    requires I < |candid| && C == candid[I] && Complete(leaves.Keys, C) && |C| <= E
    ensures CompleteQueued(MergedLeaves(leaves, C, E).Keys, Enqueue(candid, C), I + 1)
  {
    var keys' := MergedLeaves(leaves, C, E).Keys;
    assert keys' == leaves.Keys - Kids(C) + {C};
    forall D | Complete(keys', D)
      ensures D in Enqueue(candid, C)[I + 1..]
    {
      GroupQueuedAfterMerge(leaves.Keys, candid, I, C, D);
    }
  }

  /** Merging the complete group under the scanned candidate keeps the invariant and removes
      seven leaves. */
  lemma {:induction false} MergeStep(leaves: map<Code, OctNode>, candid: seq<Code>, I: nat, E: nat, S: set<Voxel>)
    requires BuildInvariant(leaves, candid, I, E, S) && I < |candid|
    requires Complete(leaves.Keys, candid[I])
    ensures |candid[I]| < E
    ensures BuildInvariant(MergedLeaves(leaves, candid[I], E), Enqueue(candid, candid[I]), I + 1,
                           E, S)
    ensures |MergedLeaves(leaves, candid[I], E)| == |leaves| - 7
  {
    var C := candid[I];
    assert MergedLeaves(leaves, C, E).Keys == leaves.Keys - Kids(C) + {C};
    MergeKeepsPartition(leaves.Keys, E, S, C);
    MergeKeepsWellFormed(leaves, C, E);
    MergeKeepsOrder(candid, I, E, C);
    MergeKeepsParentsQueued(leaves, candid, E, C);
    MergeKeepsCompleteQueued(leaves, candid, I, E, C);
  }

  /** Invariant of the insertion of the black voxels: every leaf is a one-voxel leaf and the
      queue holds parents of child-0 leaves. */
  ghost predicate InsertInvariant(leaves: map<Code, OctNode>, candid: seq<Code>, E: nat,
                                  S: set<Voxel>)
  {
    WellFormed(leaves, E) && (forall K :: K in leaves ==> |K| == E)
    && Partitions(leaves.Keys, E, S)
    && (forall j :: 0 <= j < |candid| ==> ValidCode(candid[j], E) && |candid[j]| + 1 == E)
    && ParentsQueued(leaves.Keys, candid)
  }

  /** Different one-voxel leaves have different voxels. */
  lemma {:induction false} FullCodesDisjoint(K1: Code, K2: Code, E: nat)
    requires ValidCode(K1, E) && ValidCode(K2, E) && |K1| == E && |K2| == E && K1 != K2
    ensures CodeCell(K1, E) !! CodeCell(K2, E)
  {
    CellOfFullCode(K1, E);
    CellOfFullCode(K2, E);
    EncodeOfCorner(K1, E);
    EncodeOfCorner(K2, E);
  }

  /** The union of a family grows by the cell of a new key. */
  lemma {:induction false} UnionInsert(keys: set<Code>, E: nat, K: Code)
    ensures UnionOf(keys + {K}, CellOf(E)) == UnionOf(keys, CellOf(E)) + CodeCell(K, E)
  {
    var g := CellOf(E);
    UnionOfIsUnion(keys, g);
    UnionOfIsUnion(keys + {K}, g);
    forall c | c in UnionOf(keys + {K}, g)
      ensures c in UnionOf(keys, g) + g(K)
    {
      var k :| k in keys + {K} && c in g(k);
      if k != K {
        assert k in keys;
      }
    }
    forall c | c in UnionOf(keys, g) + g(K)
      ensures c in UnionOf(keys + {K}, g)
    {
      if c in g(K) {
        assert K in keys + {K};
      } else {
        var k :| k in keys && c in g(k);
        assert k in keys + {K};
      }
    }
  }

  /** When the whole queue is scanned no complete group is left. */
  lemma {:induction false} ScanDone(keys: set<Code>, candid: seq<Code>)
    requires CompleteQueued(keys, candid, |candid|)
    ensures Maximal(keys)
  {
  }

  /** Inserting the one-voxel leaf of c keeps the partition of the black set grown by c; the
      leaf may already be there when the voxel is listed twice. */
  lemma {:induction false} InsertKeepsPartition(keys: set<Code>, E: nat, S: set<Voxel>, c: Voxel)
    requires Partitions(keys, E, S) && forall K :: K in keys ==> ValidCode(K, E) && |K| == E
    requires InDomainBox(c, E)
    ensures Partitions(keys + {Encode(c.x, c.y, c.z, E)}, E, S + {c})
  {
    var K := Encode(c.x, c.y, c.z, E);
    var g := CellOf(E);
    CornerOfEncode(c, E);
    CellOfFullCode(K, E);
    assert g(K) == {c};
    if K in keys {
      assert keys + {K} == keys;
      UnionOfIsUnion(keys, g);
      assert c in S;
      assert S + {c} == S;
    } else {
      UnionInsert(keys, E, K);
      forall k | k in keys
        ensures g(k) !! g(K)
      {
        FullCodesDisjoint(k, K, E);
      }
    }
  }

  /** Inserting the leaf of one black voxel keeps every leaf a one-voxel black leaf. */
  lemma {:induction false} InsertKeepsShape(leaves: map<Code, OctNode>, E: nat, c: Voxel)
    requires WellFormed(leaves, E) && forall K :: K in leaves ==> |K| == E
    requires InDomainBox(c, E)
    ensures var leaves' := leaves[Encode(c.x, c.y, c.z, E) := NewNode(c.x, c.y, c.z, 0, 1)];
            WellFormed(leaves', E) && forall K :: K in leaves' ==> |K| == E
  {
    CornerOfEncode(c, E);
  }

  /** Queueing the parent of a new one-voxel leaf keeps the queue of one-voxel parents. */
  lemma {:induction false} InsertKeepsQueue(keys: set<Code>, candid: seq<Code>, E: nat, c: Voxel)
    requires forall j :: 0 <= j < |candid| ==> ValidCode(candid[j], E) && |candid[j]| + 1 == E
    requires ParentsQueued(keys, candid)
    requires InDomainBox(c, E)
    ensures var K := Encode(c.x, c.y, c.z, E);
            var candid' := Enqueue(candid, K);
            (forall j :: 0 <= j < |candid'| ==> ValidCode(candid'[j], E) && |candid'[j]| + 1 == E)
            && ParentsQueued(keys + {K}, candid')
  {
    var K := Encode(c.x, c.y, c.z, E);
    CornerOfEncode(c, E);
    if |K| > 0 && K[|K| - 1] == 0 {
      assert Enqueue(candid, K)[|candid|] == K[..|K| - 1];
    }
  }

  /** Inserting the leaf of one black voxel keeps the insertion invariant. */
  lemma {:induction false} InsertStep(leaves: map<Code, OctNode>, candid: seq<Code>, E: nat, S: set<Voxel>,
                   c: Voxel)
    requires InsertInvariant(leaves, candid, E, S)
    requires InDomainBox(c, E)
    ensures var K := Encode(c.x, c.y, c.z, E);
            InsertInvariant(leaves[K := NewNode(c.x, c.y, c.z, 0, 1)], Enqueue(candid, K), E,
                            S + {c})
  {
    var K := Encode(c.x, c.y, c.z, E);
    var leaves' := leaves[K := NewNode(c.x, c.y, c.z, 0, 1)];
    assert leaves'.Keys == leaves.Keys + {K};
    InsertKeepsShape(leaves, E, c);
    InsertKeepsPartition(leaves.Keys, E, S, c);
    InsertKeepsQueue(leaves.Keys, candid, E, c);
  }

  /** After the insertion the scan invariant holds with nothing scanned: a complete group has a
      child 0 among the leaves, so its code is queued. */
  lemma {:induction false} StartScan(leaves: map<Code, OctNode>, candid: seq<Code>, E: nat, S: set<Voxel>)
    requires InsertInvariant(leaves, candid, E, S)
    ensures BuildInvariant(leaves, candid, 0, E, S)
  {
    forall C | Complete(leaves.Keys, C)
      ensures C in candid[0..]
    {
      assert (C + [0])[..|C|] == C;
      assert candid[0..] == candid;
    }
  }

  /** The empty tree satisfies the insertion invariant. */
  lemma {:induction false} EmptyInsertInvariant(E: nat)
    ensures InsertInvariant(map[], [], E, {})
  {
    assert UnionOf({}, CellOf(E)) == {};
  }

  /** Whether every voxel of the list lies in the x_side x y_side x z_side image. */
  predicate InImage(voxels: seq<Voxel>, SX: int, SY: int, SZ: int)
  {
    forall i :: 0 <= i < |voxels| ==>
      0 <= voxels[i].x < SX && 0 <= voxels[i].y < SY && 0 <= voxels[i].z < SZ
  }

  /** octreeBuild: the tree of the SX x SY x SZ image whose black voxels are listed.  Every
      black voxel becomes a leaf and complete groups of eight sibling leaves are merged into
      their parent, scanning a FIFO queue of candidate parents.  The leaves are black cubes
      that partition the black set, no eight siblings are left unmerged, and the root is a
      leaf exactly when the whole domain is black. */
  method OctreeBuild(SX: int, SY: int, SZ: int, voxels: seq<Voxel>) returns (Q: OctTree)
    requires InImage(voxels, SX, SY, SZ)
    ensures fresh(Q) && Q.xSide == SX && Q.ySide == SY && Q.zSide == SZ
    ensures Pow(2, Q.exponent) >= SX && Pow(2, Q.exponent) >= SY && Pow(2, Q.exponent) >= SZ
    ensures forall e: nat :: e < Q.exponent ==> Pow(2, e) < SX || Pow(2, e) < SY || Pow(2, e) < SZ
    ensures WellFormed(Q.leaves, Q.exponent)
    ensures Partitions(Q.leaves.Keys, Q.exponent, VoxelSet(voxels))
    ensures Maximal(Q.leaves.Keys)
    ensures [] in Q.leaves <==> VoxelSet(voxels) == Domain(Q.exponent)
  {
    Q := new OctTree(SX, SY, SZ);
    Q.leaves := Q.leaves - {[]};
    assert Q.leaves == map[];
    var candid := InsertVoxels(Q, voxels);
    MergeCandidates(Q, candid, VoxelSet(voxels));
    VoxelsInDomain(voxels, SX, SY, SZ, Q.exponent);
    if [] in Q.leaves {
      RootCoversDomain(Q.leaves.Keys, Q.exponent, VoxelSet(voxels));
    }
    if VoxelSet(voxels) == Domain(Q.exponent) {
      RootOfFullDomain(Q.leaves.Keys, Q.exponent);
    }
  }

  /** The first pass of octreeBuild, on a tree without leaves: every listed voxel becomes a
      one-voxel black leaf, and the parent of every child-0 leaf is queued. */
  method InsertVoxels(Q: OctTree, voxels: seq<Voxel>) returns (candid: seq<Code>)
    requires Q.leaves == map[]
    requires forall i :: 0 <= i < |voxels| ==> InDomainBox(voxels[i], Q.exponent)
    modifies Q
    ensures InsertInvariant(Q.leaves, candid, Q.exponent, VoxelSet(voxels))
  {
    var E := Q.exponent;
    candid := [];
    EmptyInsertInvariant(E);
    for i := 0 to |voxels|
      invariant InsertInvariant(Q.leaves, candid, E, VoxelSet(voxels[..i]))
    {
      var x, y, z := voxels[i].x, voxels[i].y, voxels[i].z;
      InsertStep(Q.leaves, candid, E, VoxelSet(voxels[..i]), voxels[i]);
      var C := Q.AddVoxel(x, y, z);
      VoxelSetSnoc(voxels, i);
      if |C| > 0 && C[|C| - 1] == 0 {
        candid := candid + [Parent(C).value];
      }
    }
    assert voxels[..|voxels|] == voxels;
  }

  /** The second pass of octreeBuild: the queue is scanned first to last, and the eight
      children of a scanned code are merged when all of them are leaves; the merged leaf queues
      its own parent when it is a child 0. */
  method MergeCandidates(Q: OctTree, candid0: seq<Code>, ghost S: set<Voxel>)
    requires InsertInvariant(Q.leaves, candid0, Q.exponent, S)
    modifies Q
    ensures WellFormed(Q.leaves, Q.exponent) && Partitions(Q.leaves.Keys, Q.exponent, S)
    ensures Maximal(Q.leaves.Keys)
  {
    var E := Q.exponent;
    var candid := candid0;
    StartScan(Q.leaves, candid, E, S);
    var I := 0;
    while I < |candid|
      invariant I <= |candid|
      invariant BuildInvariant(Q.leaves, candid, I, E, S)
      decreases |Q.leaves|, |candid| - I
    {
      ghost var scanned := I;
      var C := candid[I];
      I := I + 1;
      if !Complete(Q.leaves.Keys, C) {
        SkipStep(Q.leaves, candid, scanned, E, S);
        continue;
      }
      MergeStep(Q.leaves, candid, scanned, E, S);
      ghost var queued := candid;
      Q.MergeGroup(C);
      if |C| > 0 && C[|C| - 1] == 0 {
        candid := candid + [Parent(C).value];
      }
      assert candid == Enqueue(queued, C);
    }
    ScanDone(Q.leaves.Keys, candid);
  }

  /** octreeBuild as written.  Merging the eight children of the root (when every voxel of the
      domain is black) evaluates the last digit of the empty code and raises IndexError; the
      tree is then left with the root as its only leaf.  Any other input builds the tree
      OctreeBuild builds. */
  method OctreeBuildAsWritten(SX: int, SY: int, SZ: int, voxels: seq<Voxel>)
    returns (Q: OctTree, err: Option<Error>)
    requires InImage(voxels, SX, SY, SZ) && (SX > 1 || SY > 1 || SZ > 1)
    ensures fresh(Q) && Q.xSide == SX && Q.ySide == SY && Q.zSide == SZ
    ensures err.Some? <==> VoxelSet(voxels) == Domain(Q.exponent)
    ensures err.Some? ==> err.value == IndexError
    ensures WellFormed(Q.leaves, Q.exponent)
    ensures Partitions(Q.leaves.Keys, Q.exponent, VoxelSet(voxels))
    ensures err.None? ==> Maximal(Q.leaves.Keys)
  {
    Q := new OctTree(SX, SY, SZ);
    Q.leaves := Q.leaves - {[]};
    assert Q.leaves == map[];
    assert Q.exponent >= 1;
    var candid := InsertVoxels(Q, voxels);
    VoxelsInDomain(voxels, SX, SY, SZ, Q.exponent);
    err := MergeCandidatesAsWritten(Q, candid, VoxelSet(voxels));
  }

  /** The second pass of octreeBuild as written, where the parent of a merged code is queued
      after reading its last digit, which fails for the root. */
  method MergeCandidatesAsWritten(Q: OctTree, candid0: seq<Code>, ghost S: set<Voxel>)
    returns (err: Option<Error>)
    requires InsertInvariant(Q.leaves, candid0, Q.exponent, S)
    requires Q.exponent >= 1 && S <= Domain(Q.exponent)
    modifies Q
    ensures err.Some? <==> S == Domain(Q.exponent)
    ensures err.Some? ==> err.value == IndexError
    ensures WellFormed(Q.leaves, Q.exponent) && Partitions(Q.leaves.Keys, Q.exponent, S)
    ensures err.None? ==> Maximal(Q.leaves.Keys)
  {
    var E := Q.exponent;
    var candid := candid0;
    StartScan(Q.leaves, candid, E, S);
    var I := 0;
    while I < |candid|
      invariant I <= |candid| && [] !in Q.leaves
      invariant BuildInvariant(Q.leaves, candid, I, E, S)
      decreases |Q.leaves|, |candid| - I
    {
      ghost var scanned := I;
      var C := candid[I];
      I := I + 1;
      if !Complete(Q.leaves.Keys, C) {
        SkipStep(Q.leaves, candid, scanned, E, S);
        continue;
      }
      MergeStep(Q.leaves, candid, scanned, E, S);
      ghost var queued, before := candid, Q.leaves;
      Q.MergeGroup(C);
      if C == [] {
        RootCoversDomain(Q.leaves.Keys, E, S);
        return Some(IndexError);
      }
      MergeKeepsRootOut(before, C, E);
      if C[|C| - 1] == 0 {
        candid := candid + [Parent(C).value];
      }
      assert candid == Enqueue(queued, C);
    }
    ScanDone(Q.leaves.Keys, candid);
    if S == Domain(E) {
      RootOfFullDomain(Q.leaves.Keys, E);
    }
    err := None;
  }

  /** The listed voxels lie in the domain of a tree whose side covers the image. */
  lemma {:induction false} VoxelsInDomain(voxels: seq<Voxel>, SX: int, SY: int, SZ: int, E: nat)
    requires InImage(voxels, SX, SY, SZ)
    requires Pow(2, E) >= SX && Pow(2, E) >= SY && Pow(2, E) >= SZ
    ensures VoxelSet(voxels) <= Domain(E)
  {
    forall c | c in VoxelSet(voxels)
      ensures c in Domain(E)
    {
      InDomain(E, c);
    }
  }

  /** A root leaf covers the whole domain. */
  lemma {:induction false} RootCoversDomain(keys: set<Code>, E: nat, S: set<Voxel>)
    requires Partitions(keys, E, S) && S <= Domain(E) && [] in keys
    ensures S == Domain(E)
  {
    forall c | c in Domain(E)
      ensures c in S
    {
      UnionOfMember(keys, CellOf(E), c);
    }
  }

  /** Merging below the root does not make the root a leaf. */
  lemma {:induction false} MergeKeepsRootOut(leaves: map<Code, OctNode>, C: Code, E: nat)
    requires C != [] && |C| <= E && [] !in leaves
    ensures [] !in MergedLeaves(leaves, C, E)
  {
  }

  /** If two cells share a voxel, the shorter code is a prefix of the longer. */
  lemma {:induction false} CellsMeetAtPrefix(A: Code, B: Code, E: nat, c: Voxel)
    requires ValidCode(A, E) && ValidCode(B, E) && |A| <= |B|
    requires c in CodeCell(A, E) && c in CodeCell(B, E)
    ensures A == B[..|A|]
  {
    CellMember(A, E, c);
    CellMember(B, E, c);
    var enc := Encode(c.x, c.y, c.z, E);
    assert B[..|A|] == enc[..|B|][..|A|] == enc[..|A|];
  }

  /** The cell of a code holds the cells of its extensions. */
  lemma {:induction false} PrefixCellHoldsCorner(A: Code, B: Code, E: nat)
    requires ValidCode(B, E) && |A| <= |B| && A == B[..|A|]
    ensures Corner(B, E) in CodeCell(A, E)
  {
    var c := Corner(B, E);
    assert ValidCode(A, E);
    CornerInCell(B, E);
    CellMember(B, E, c);
    CellMember(A, E, c);
    var enc := Encode(c.x, c.y, c.z, E);
    assert enc[..|A|] == enc[..|B|][..|A|];
  }

  /** A non-empty finite set of codes has a longest element. */
  lemma {:induction false} LongestCode(keys: set<Code>) returns (K: Code)
    requires keys != {}
    ensures K in keys && forall K' :: K' in keys ==> |K'| <= |K|
    decreases keys
  {
    var k :| k in keys;
    if keys == {k} {
      K := k;
    } else {
      var L := LongestCode(keys - {k});
      K := if |k| >= |L| then k else L;
    }
  }

  /** In a partition, no leaf code is a proper prefix of another: their cells would overlap. */
  lemma {:induction false} NoLeafAboveAnother(keys: set<Code>, E: nat, K: Code, L: Code)
    requires forall k :: k in keys ==> ValidCode(k, E)
    requires PairwiseDisjoint(keys, CellOf(E))
    requires K in keys && L in keys && |L| < |K|
    ensures L != K[..|L|]
  {
    if L == K[..|L|] {
      PrefixCellHoldsCorner(L, K, E);
      CornerInCell(K, E);
      assert false;
    }
  }

  /** A leaf covering a voxel of a sibling of the longest leaf K is that sibling: a longer leaf
      does not exist, and a shorter one would be a prefix of K. */
  lemma {:induction false} SiblingIsLeaf(keys: set<Code>, E: nat, K: Code, i: nat)
    requires forall k :: k in keys ==> ValidCode(k, E)
    requires PairwiseDisjoint(keys, CellOf(E)) && UnionOf(keys, CellOf(E)) == Domain(E)
    requires K in keys && |K| > 0 && i < 8
    requires forall K' :: K' in keys ==> |K'| <= |K|
    ensures K[..|K| - 1] + [i] in keys
  {
    var sib := K[..|K| - 1] + [i];
    assert ValidCode(sib, E);
    var c := Corner(sib, E);
    CornerInCell(sib, E);
    CellMemberCode(sib, E, c);
    InDomain(E, c);
    UnionOfMember(keys, CellOf(E), c);
    var L :| L in keys && c in CodeCell(L, E);
    assert |L| <= |sib|;
    CellsMeetAtPrefix(L, sib, E, c);
    if |L| < |K| {
      assert sib[..|L|] == K[..|L|];
      NoLeafAboveAnother(keys, E, K, L);
      assert false;
    }
    assert L == sib[..|sib|] == sib;
  }

  /** A leaf set that partitions the whole domain and has no complete group is the root
      alone. */
  lemma {:induction false} RootOfFullDomain(keys: set<Code>, E: nat)
    requires forall k :: k in keys ==> ValidCode(k, E)
    requires Partitions(keys, E, Domain(E)) && Maximal(keys)
    ensures [] in keys
  {
    if [] !in keys {
      InDomain(E, Voxel(0, 0, 0));
      PowTwoPositive(E);
      UnionOfMember(keys, CellOf(E), Voxel(0, 0, 0));
      var K := LongestCode(keys);
      var P := K[..|K| - 1];
      forall i: nat | i < 8
        ensures P + [i] in keys
      {
        SiblingIsLeaf(keys, E, K, i);
      }
      assert Complete(keys, P);
      assert false;
    }
  }

  /** The 2 x 2 x 2 image with all eight voxels black covers its whole domain, so octreeBuild
      as written raises IndexError on it. */
  lemma {:induction false} FullCubeCoversDomain()
    ensures VoxelSet([Voxel(0, 0, 0), Voxel(0, 0, 1), Voxel(0, 1, 0), Voxel(0, 1, 1),
                      Voxel(1, 0, 0), Voxel(1, 0, 1), Voxel(1, 1, 0), Voxel(1, 1, 1)])
            == Domain(1)
  {
    var S := VoxelSet([Voxel(0, 0, 0), Voxel(0, 0, 1), Voxel(0, 1, 0), Voxel(0, 1, 1),
                       Voxel(1, 0, 0), Voxel(1, 0, 1), Voxel(1, 1, 0), Voxel(1, 1, 1)]);
    forall c | c in Domain(1)
      ensures c in S
    {
      InDomain(1, c);
    }
    forall c | c in S
      ensures c in Domain(1)
    {
      InDomain(1, c);
    }
  }

  /** The volume side^3 of the leaf stored at a code (0 for a code that is not a leaf). */
  function LeafVolume(leaves: map<Code, OctNode>): Code -> int
  {
    (K: Code) => if K in leaves then Side(leaves[K]) * (Side(leaves[K]) * Side(leaves[K])) else 0
  }

  /** The leaf volumes add up to the number of distinct black voxels. */
  lemma {:induction false} LeafVolumesCountVoxels(leaves: map<Code, OctNode>, E: nat, S: set<Voxel>)
    requires WellFormed(leaves, E) && Partitions(leaves.Keys, E, S)
    ensures SumOver(leaves.Keys, LeafVolume(leaves)) == |S|
  {
    var one := (c: Voxel) => 1;
    forall K | K in leaves.Keys
      ensures LeafVolume(leaves)(K) == SumOver(CellOf(E)(K), one)
    {
      var n := leaves[K];
      LeafNodeCell(K, E);
      BoxSize(n.xmin, n.xmin + Side(n) - 1, n.ymin, n.ymin + Side(n) - 1, n.zmin, n.zmin + Side(n) - 1);
      SumOverConstant(NodeCell(n), one, 1);
    }
    SumOverFamily(leaves.Keys, CellOf(E), one, LeafVolume(leaves));
    SumOverConstant(S, one, 1);
  }

  /** buildOctree: the tree of the smallest image holding every listed voxel, 1 + the largest
      coordinate on each axis.  Python's max raises ValueError on the empty list. */
  method BuildOctree(voxels: seq<Voxel>) returns (r: Result<OctTree>)
    requires forall i :: 0 <= i < |voxels| ==> voxels[i].x >= 0 && voxels[i].y >= 0 && voxels[i].z >= 0
    ensures r.Failure? <==> |voxels| == 0
    ensures r.Failure? ==> r.error == ValueError
    ensures r.Success? ==>
              var Q := r.value;
              fresh(Q)
              && Q.xSide == 1 + MaxOf(seq(|voxels|, i requires 0 <= i < |voxels| => voxels[i].x))
              && Q.ySide == 1 + MaxOf(seq(|voxels|, i requires 0 <= i < |voxels| => voxels[i].y))
              && Q.zSide == 1 + MaxOf(seq(|voxels|, i requires 0 <= i < |voxels| => voxels[i].z))
              && WellFormed(Q.leaves, Q.exponent)
              && Partitions(Q.leaves.Keys, Q.exponent, VoxelSet(voxels))
              && Maximal(Q.leaves.Keys)
  {
    if |voxels| == 0 {
      return Failure(ValueError);
    }
    var xs := seq(|voxels|, i requires 0 <= i < |voxels| => voxels[i].x);
    var ys := seq(|voxels|, i requires 0 <= i < |voxels| => voxels[i].y);
    var zs := seq(|voxels|, i requires 0 <= i < |voxels| => voxels[i].z);
    var maxX := 1 + MaxOf(xs);
    var maxY := 1 + MaxOf(ys);
    var maxZ := 1 + MaxOf(zs);
    assert forall i :: 0 <= i < |voxels| ==> xs[i] == voxels[i].x && ys[i] == voxels[i].y
                                             && zs[i] == voxels[i].z;
    var Q := OctreeBuild(maxX, maxY, maxZ, voxels);
    r := Success(Q);
  }
}
