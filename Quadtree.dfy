/** The region quadtree of a binary 2D image.  The domain is the 2^E x 2^E square with corner
    (0, 0); a node is named by its location code, the child positions 0..3 on the path from the
    root, where child digit = 2 * [x in upper half] + [y in upper half]: the layout code_for_pixel
    writes and the build stores (the source's description of the children, and min_pixel, use the
    opposite one).  The tree keeps only its leaves, in a map from location code to node, and is
    built bottom-up: every black pixel becomes a leaf and complete groups of four sibling leaves
    are merged into their parent. */
module Quadtree {
  import opened PowerSums
  import opened SetSums
  import opened Outcomes
  import opened Commons2D

  /** A location code: the child positions on the path from the root (the root is []). */
  type Code = seq<nat>

  /** A code of a node of a tree of exponent E. */
  predicate ValidCode(code: Code, E: nat)
  {
    |code| <= E && forall i :: 0 <= i < |code| ==> code[i] < 4
  }

  /** The x half (0 lower, 1 upper) a child digit selects. */
  function XBit(d: nat): nat
  {
    if d >= 2 then 1 else 0
  }

  /** The y half (0 lower, 1 upper) a child digit selects. */
  function YBit(d: nat): nat
  {
    d % 2
  }

  /** x of the lowest pixel of the node with this code. */
  function CornerX(code: Code, E: nat): int
    requires |code| <= E
  {
    if code == [] then 0 else XBit(code[0]) * Pow(2, E - 1) + CornerX(code[1..], E - 1)
  }

  /** y of the lowest pixel of the node with this code. */
  function CornerY(code: Code, E: nat): int
    requires |code| <= E
  {
    if code == [] then 0 else YBit(code[0]) * Pow(2, E - 1) + CornerY(code[1..], E - 1)
  }

  /** Reference encoding: the code of the one-pixel node at (x, y), digit by digit from the
      root. */
  function Encode(x: int, y: int, E: nat): Code
    decreases E
  {
    if E == 0 then []
    else
      var h := Pow(2, E - 1);
      var hx := if x >= h then 1 else 0;
      var hy := if y >= h then 1 else 0;
      [2 * hx + hy] + Encode(x - hx * h, y - hy * h, E - 1)
  }

  /** Appending a digit moves the corner by the child's side in the halves the digit selects. */
  lemma {:induction false} CornerAppend(code: Code, d: nat, E: nat)
    requires |code| < E
    ensures CornerX(code + [d], E) == CornerX(code, E) + XBit(d) * Pow(2, E - |code| - 1)
    ensures CornerY(code + [d], E) == CornerY(code, E) + YBit(d) * Pow(2, E - |code| - 1)
  {
    if code != [] {
      assert (code + [d])[1..] == code[1..] + [d];
      CornerAppend(code[1..], d, E - 1);
    }
  }

  /** The node with a code lies inside the domain: 0 <= corner and corner + side <= 2^E. */
  lemma {:induction false} CornerBounds(code: Code, E: nat)
    requires ValidCode(code, E)
    ensures 0 <= CornerX(code, E) && CornerX(code, E) + Pow(2, E - |code|) <= Pow(2, E)
    ensures 0 <= CornerY(code, E) && CornerY(code, E) + Pow(2, E - |code|) <= Pow(2, E)
  {
    if code != [] {
      var h := Pow(2, E - 1);
      assert ValidCode(code[1..], E - 1);
      CornerBounds(code[1..], E - 1);
      assert E - 1 - |code[1..]| == E - |code|;
      assert Pow(2, E) == 2 * h;
      assert 0 <= XBit(code[0]) * h <= h && 0 <= YBit(code[0]) * h <= h by {
        PowTwoPositive(E - 1);
      }
    }
  }

  /** Decoding an encoded pixel gives the pixel back. */
  lemma {:induction false} CornerOfEncode(x: int, y: int, E: nat)
    requires 0 <= x < Pow(2, E) && 0 <= y < Pow(2, E)
    ensures ValidCode(Encode(x, y, E), E) && |Encode(x, y, E)| == E
    ensures CornerX(Encode(x, y, E), E) == x && CornerY(Encode(x, y, E), E) == y
  {
    if E > 0 {
      var h := Pow(2, E - 1);
      assert Pow(2, E) == 2 * h;
      var hx := if x >= h then 1 else 0;
      var hy := if y >= h then 1 else 0;
      var rest := Encode(x - hx * h, y - hy * h, E - 1);
      CornerOfEncode(x - hx * h, y - hy * h, E - 1);
      var code := Encode(x, y, E);
      assert code == [2 * hx + hy] + rest;
      assert code[1..] == rest;
      assert XBit(code[0]) == hx && YBit(code[0]) == hy;
      assert CornerX(code, E) == hx * h + CornerX(rest, E - 1);
      assert CornerY(code, E) == hy * h + CornerY(rest, E - 1);
    }
  }

  /** The first digit of a full-length code is recovered from its corner. */
  lemma {:induction false} FirstDigitOfCorner(code: Code, E: nat)
    requires ValidCode(code, E) && |code| == E && E > 0
    ensures var h := Pow(2, E - 1);
            var hx := if CornerX(code, E) >= h then 1 else 0;
            var hy := if CornerY(code, E) >= h then 1 else 0;
            2 * hx + hy == code[0]
            && CornerX(code, E) - hx * h == CornerX(code[1..], E - 1)
            && CornerY(code, E) - hy * h == CornerY(code[1..], E - 1)
  {
    var h := Pow(2, E - 1);
    var rest := code[1..];
    assert ValidCode(rest, E - 1);
    CornerBounds(rest, E - 1);
    assert E - 1 - |rest| == 0;
    assert Pow(2, 0) == 1;
    assert 0 <= CornerX(rest, E - 1) < h && 0 <= CornerY(rest, E - 1) < h;
    assert code[0] == 0 || code[0] == 1 || code[0] == 2 || code[0] == 3;
  }

  /** Encoding the corner of a full-length code gives the code back. */
  lemma {:induction false} EncodeOfCorner(code: Code, E: nat)
    requires ValidCode(code, E) && |code| == E
    ensures Encode(CornerX(code, E), CornerY(code, E), E) == code
    decreases E
  {
    if E > 0 {
      var rest := code[1..];
      assert ValidCode(rest, E - 1);
      FirstDigitOfCorner(code, E);
      EncodeOfCorner(rest, E - 1);
      assert code == [code[0]] + rest;
    }
  }

  /** The pixels of the node with this code: a square of side 2^(E - |code|). */
  function CodeCell(code: Code, E: nat): set<Pixel>
  {
    if |code| <= E then
      var s := Pow(2, E - |code|);
      Rect(CornerX(code, E), CornerX(code, E) + s - 1, CornerY(code, E), CornerY(code, E) + s - 1)
    else {}
  }

  /** CodeCell as a value, to sum and unite over sets of codes. */
  function CellOf(E: nat): Code -> set<Pixel>
  {
    (code: Code) => CodeCell(code, E)
  }

  /** No pixel of a cell lies below or left of its corner. */
  lemma {:induction false} CellCorner(code: Code, E: nat)
    requires |code| <= E
    ensures forall c :: c in CodeCell(code, E) ==> CornerX(code, E) <= c.x && CornerY(code, E) <= c.y
  {
    var s := Pow(2, E - |code|);
    forall c | c in CodeCell(code, E)
      ensures CornerX(code, E) <= c.x && CornerY(code, E) <= c.y
    {
      InRect(c, CornerX(code, E), CornerX(code, E) + s - 1, CornerY(code, E), CornerY(code, E) + s - 1);
    }
  }

  /** One round of code_for_pixel: the digit of the half holding (x, y) moves the corner to
      that half, which still holds (x, y). */
  lemma {:induction false} CodeDigitStep(code: Code, E: nat, x: int, y: int, middle: int,
                      digit: nat, nx: int, ny: int)
    requires |code| < E && ValidCode(code, E) && middle == Pow(2, E - 1 - |code|)
    requires CornerX(code, E) <= x < CornerX(code, E) + 2 * middle
    requires CornerY(code, E) <= y < CornerY(code, E) + 2 * middle
    requires nx == if x >= CornerX(code, E) + middle then CornerX(code, E) + middle else CornerX(code, E)
    requires ny == if y >= CornerY(code, E) + middle then CornerY(code, E) + middle else CornerY(code, E)
    requires digit == (if x >= CornerX(code, E) + middle then 2 else 0)
                      + (if y >= CornerY(code, E) + middle then 1 else 0)
    ensures ValidCode(code + [digit], E)
    ensures CornerX(code + [digit], E) == nx && CornerY(code + [digit], E) == ny
    ensures nx <= x < nx + middle && ny <= y < ny + middle
    ensures |code| + 1 < E ==> middle / 2 == Pow(2, E - 1 - (|code| + 1)) && middle >= 2
                               && 2 * (middle / 2) == middle
  {
    CornerAppend(code, digit, E);
    assert Pow(2, E - |code| - 1) == middle;
    assert XBit(digit) * middle == nx - CornerX(code, E) by {
      if x >= CornerX(code, E) + middle { assert XBit(digit) == 1; } else { assert XBit(digit) == 0; }
    }
    assert YBit(digit) * middle == ny - CornerY(code, E) by {
      if y >= CornerY(code, E) + middle { assert YBit(digit) == 1; } else { assert YBit(digit) == 0; }
    }
    if |code| + 1 < E {
      PowTwoHalf(E - 1 - |code|);
    }
  }


  /** A cell always holds its corner pixel. */
  lemma {:induction false} CornerInCell(code: Code, E: nat)
    requires |code| <= E
    ensures Pixel(CornerX(code, E), CornerY(code, E)) in CodeCell(code, E)
  {
    PowTwoPositive(E - |code|);
    InRect(Pixel(CornerX(code, E), CornerY(code, E)), CornerX(code, E),
           CornerX(code, E) + Pow(2, E - |code|) - 1, CornerY(code, E),
           CornerY(code, E) + Pow(2, E - |code|) - 1);
  }

  /** A full-length code names a single pixel. */
  lemma {:induction false} CellOfFullCode(code: Code, E: nat)
    requires |code| == E
    ensures CodeCell(code, E) == {Pixel(CornerX(code, E), CornerY(code, E))}
  {
    var c := Pixel(CornerX(code, E), CornerY(code, E));
    forall d | d in CodeCell(code, E)
      ensures d == c
    {
      InRect(d, c.x, c.x, c.y, c.y);
    }
    CornerInCell(code, E);
  }

  /** The cell of child i: the quadrant of the parent's square selected by the digit. */
  lemma {:induction false} ChildCell(code: Code, E: nat, i: nat)
    requires |code| < E
    ensures var h := Pow(2, E - |code| - 1);
            var x0 := CornerX(code, E) + XBit(i) * h;
            var y0 := CornerY(code, E) + YBit(i) * h;
            CodeCell(code + [i], E) == Rect(x0, x0 + h - 1, y0, y0 + h - 1)
  {
    CornerAppend(code, i, E);
    assert E - |code + [i]| == E - |code| - 1;
  }

  /** ChildCell with the child's corner given by the caller. */
  lemma {:induction false} ChildCellAt(code: Code, E: nat, i: nat, x0: int, y0: int, h: int)
    requires |code| < E && h == Pow(2, E - |code| - 1)
    requires x0 == CornerX(code, E) + XBit(i) * h && y0 == CornerY(code, E) + YBit(i) * h
    ensures CodeCell(code + [i], E) == Rect(x0, x0 + h - 1, y0, y0 + h - 1)
  {
    ChildCell(code, E, i);
  }

  /** The four children of a node cover its square. */
  lemma {:induction false} QuadrantCover(code: Code, E: nat)
    requires |code| < E
    ensures CodeCell(code, E)
            == CodeCell(code + [0], E) + CodeCell(code + [1], E)
               + CodeCell(code + [2], E) + CodeCell(code + [3], E)
  {
    var h := Pow(2, E - |code| - 1);
    assert Pow(2, E - |code|) == 2 * h;
    var x0, y0 := CornerX(code, E), CornerY(code, E);
    ChildCellAt(code, E, 0, x0, y0, h);
    ChildCellAt(code, E, 1, x0, y0 + h, h);
    ChildCellAt(code, E, 2, x0 + h, y0, h);
    ChildCellAt(code, E, 3, x0 + h, y0 + h, h);
    assert CodeCell(code, E) == Rect(x0, x0 + 2 * h - 1, y0, y0 + 2 * h - 1);
    SquareQuadrants(x0, y0, h);
  }


  /** Two different children of a node do not overlap. */
  lemma {:induction false} QuadrantsDisjoint(code: Code, E: nat, i: nat, j: nat)
    requires |code| < E && i < 4 && j < 4 && i != j
    ensures CodeCell(code + [i], E) !! CodeCell(code + [j], E)
  {
    var h := Pow(2, E - |code| - 1);
    var x0, y0 := CornerX(code, E), CornerY(code, E);
    ChildCell(code, E, i);
    ChildCell(code, E, j);
    assert XBit(i) != XBit(j) || YBit(i) != YBit(j);
    forall c | c in CodeCell(code + [i], E)
      ensures c !in CodeCell(code + [j], E)
    {
      InRect(c, x0 + XBit(i) * h, x0 + XBit(i) * h + h - 1, y0 + YBit(i) * h, y0 + YBit(i) * h + h - 1);
      InRect(c, x0 + XBit(j) * h, x0 + XBit(j) * h + h - 1, y0 + YBit(j) * h, y0 + YBit(j) * h + h - 1);
    }
  }

  /** The location code of the parent node; the root has none. */
  function Parent(code: Code): (r: Option<Code>)
    ensures r.None? <==> code == []
    ensures r.Some? ==> r.value + [code[|code| - 1]] == code
  {
    if |code| == 0 then None else Some(code[..|code| - 1])
  }

  /** Every child names its parent. */
  lemma {:induction false} ParentOfChild(code: Code, i: nat)
    ensures Parent(code + [i]) == Some(code)
  {
    assert (code + [i])[..|code|] == code;
  }

  /** A node: the square of side 2^exponent with lowest pixel (xmin, ymin), its centre and its
      colour (0 white, 1 black). */
  datatype QtrNode = QtrNode(xmin: int, ymin: int, exponent: nat, color: nat, xcen: real, ycen: real)

  /** The side 2^exponent of a node's square. */
  function Side(n: QtrNode): (s: nat)
    ensures s >= 1
  {
    PowTwoPositive(n.exponent);
    Pow(2, n.exponent)
  }

  /** The node constructor: the centre is stored as x0 itself for a one-pixel node and as
      x0 + 2^(exponent-1) - 1/2 otherwise, which is in both cases the centre of the square. */
  function NewNode(x0: int, y0: int, expon: nat, color: nat): (n: QtrNode)
    ensures n.xmin == x0 && n.ymin == y0 && n.exponent == expon && n.color == color
    ensures n.xcen == x0 as real + (Side(n) - 1) as real / 2.0
    ensures n.ycen == y0 as real + (Side(n) - 1) as real / 2.0
  {
    if expon == 0 then
      QtrNode(x0, y0, 0, color, x0 as real, y0 as real)
    else
      var delta := Pow(2, expon - 1) as real - 0.5;
      assert Pow(2, expon) == 2 * Pow(2, expon - 1);
      QtrNode(x0, y0, expon, color, x0 as real + delta, y0 as real + delta)
  }

  /** The pixels of a node's square. */
  function NodeCell(n: QtrNode): set<Pixel>
  {
    Rect(n.xmin, n.xmin + Side(n) - 1, n.ymin, n.ymin + Side(n) - 1)
  }

  /** The black leaf a tree of exponent E keeps at a code. */
  function LeafNode(code: Code, E: nat): QtrNode
    requires |code| <= E
  {
    NewNode(CornerX(code, E), CornerY(code, E), E - |code|, 1)
  }

  lemma {:induction false} LeafNodeCell(code: Code, E: nat)
    requires |code| <= E
    ensures NodeCell(LeafNode(code, E)) == CodeCell(code, E)
  {
  }

  /** The least E with 2^E >= L1 and 2^E >= L2, found by doubling. */
  method PowerOfTwo(L1: int, L2: int) returns (E: nat)
    ensures Pow(2, E) >= L1 && Pow(2, E) >= L2
    ensures forall e: nat :: e < E ==> Pow(2, e) < L1 || Pow(2, e) < L2
  {
    var L := 1;
    E := 0;
    while L < L1 || L < L2
      invariant L == Pow(2, E) && L >= 1
      invariant forall e: nat :: e < E ==> Pow(2, e) < L1 || Pow(2, e) < L2
      decreases (if L1 > L2 then L1 else L2) - L
    {
      forall e: nat | e <= E
        ensures Pow(2, e) < L1 || Pow(2, e) < L2
      {
        PowTwoMonotone(e, E);
      }
      L := L * 2;
      E := E + 1;
    }
  }

  /** The value of `middle` in code_for_pixel as written, after `steps` halvings: it starts at
      2**(E-1), which is the float 0.5 when E = 0, and each step floor-divides it by 2. */
  function MiddleAsWritten(E: nat, steps: nat): real
  {
    if steps == 0 then (if E == 0 then 0.5 else Pow(2, E - 1) as real)
    else (MiddleAsWritten(E, steps - 1) / 2.0).Floor as real
  }

  /** As written, code_for_pixel leaves its loop only when `middle` is 1.  For E >= 1 that
      happens after E digits; for E = 0 (the image whose only pixel is (0, 0)) `middle` is 0.5
      and then 0.0 for ever, so the loop never ends. */
  lemma {:induction false} CodeForPixelNeverStopsAtExponentZero(steps: nat)
    ensures MiddleAsWritten(0, steps) != 1.0
    ensures steps >= 1 ==> MiddleAsWritten(0, steps) == 0.0
  {
    if steps >= 1 {
      CodeForPixelNeverStopsAtExponentZero(steps - 1);
    }
  }

  /** For E >= 1 the as-written loop stops exactly after E digits. */
  lemma {:induction false} CodeForPixelStopsAfterExponentDigits(E: nat, steps: nat)
    requires E >= 1 && steps <= E - 1
    ensures MiddleAsWritten(E, steps) == Pow(2, E - 1 - steps) as real
    ensures MiddleAsWritten(E, steps) == 1.0 <==> steps == E - 1
  {
    if steps >= 1 {
      CodeForPixelStopsAfterExponentDigits(E, steps - 1);
      var m := Pow(2, E - 1 - steps);
      assert Pow(2, E - 1 - (steps - 1)) == 2 * m;
      assert (Pow(2, E - 1 - (steps - 1)) as real / 2.0) == m as real;
    }
    if steps < E - 1 {
      assert Pow(2, E - 1 - steps) == 2 * Pow(2, E - 2 - steps);
      PowTwoPositive(E - 2 - steps);
    }
  }

  /** In the 2 x 2 tree, pixel (1, 0) gets the code [2], whose lowest pixel is (1, 0); min_pixel
      as written reports (0, 1) for it. */
  lemma {:induction false} MinPixelSwapExample()
    ensures Encode(1, 0, 1) == [2]
    ensures CornerX([2], 1) == 1 && CornerY([2], 1) == 0
  {
    assert Pow(2, 0) == 1;
  }

  /** The quadtree of an image of x_side x y_side pixels: its exponent E, the side 2^E of its
      square domain, and its leaves by location code. */
  class QtrTree {
    const xSide: int
    const ySide: int
    const exponent: nat
    const side: nat
    var leaves: map<Code, QtrNode>

    /** The tree of an all-white image: the root is its only leaf. */
    constructor (SX: int, SY: int)
      ensures xSide == SX && ySide == SY
      ensures Pow(2, exponent) >= SX && Pow(2, exponent) >= SY
      ensures forall e: nat :: e < exponent ==> Pow(2, e) < SX || Pow(2, e) < SY
      ensures side == Pow(2, exponent)
      ensures leaves == map[[] := NewNode(0, 0, exponent, 0)]
    {
      xSide := SX;
      ySide := SY;
      var e := PowerOfTwo(SX, SY);
      exponent := e;
      PowTwoPositive(e);
      side := Pow(2, e);
      leaves := map[[] := NewNode(0, 0, e, 0)];
    }

    /** The side of the square of the node with this code: halving per level, so that
        2^|code| of them span the domain. */
    function NodeSide(code: Code): (s: int)
      reads this
      requires |code| <= exponent
      ensures s >= 1 && s * Pow(2, |code|) == Pow(2, exponent)
    {
      PowAdd(2, exponent - |code|, |code|);
      PowTwoPositive(exponent - |code|);
      Pow(2, exponent - |code|)
    }

    /** The lowest pixel of the node with this code, decoded in code_for_pixel's layout. */
    function MinPixel(code: Code): (p: Pixel)
      reads this
      requires |code| <= exponent
      ensures p in CodeCell(code, exponent)
      ensures forall c :: c in CodeCell(code, exponent) ==> p.x <= c.x && p.y <= c.y
    {
      CornerInCell(code, exponent);
      CellCorner(code, exponent);
      Pixel(CornerX(code, exponent), CornerY(code, exponent))
    }

    /** min_pixel as written: digits 1 and 3 add to x and digits 2 and 3 add to y.  That is the
        layout the module's own description of the children documents, and the opposite of the
        one code_for_pixel uses; the model keeps code_for_pixel's layout because it is the one
        the build stores, so against it x and y come out swapped. */
    method MinPixelAsWritten(code: Code) returns (x: int, y: int)
      requires ValidCode(code, exponent)
      ensures x == MinPixel(code).y && y == MinPixel(code).x
    {
      var s := Pow(2, exponent);
      x, y := 0, 0;
      for i := 0 to |code|
        invariant s == Pow(2, exponent - i)
        invariant x == CornerY(code[..i], exponent) && y == CornerX(code[..i], exponent)
      {
        assert Pow(2, exponent - i) == 2 * Pow(2, exponent - i - 1);
        s := s / 2;
        CornerAppend(code[..i], code[i], exponent);
        assert code[..i + 1] == code[..i] + [code[i]];
        if code[i] == 1 || code[i] == 3 {
          x := x + s;
        }
        if code[i] == 2 || code[i] == 3 {
          y := y + s;
        }
      }
      assert code[..|code|] == code;
    }

    /** The code of the one-pixel node at (x, y).  When the exponent is 0 the root is that node
        and its code is empty. */
    method CodeForPixel(x: int, y: int) returns (code: Code)
      requires 0 <= x < Pow(2, exponent) && 0 <= y < Pow(2, exponent)
      ensures ValidCode(code, exponent) && |code| == exponent
      ensures MinPixel(code) == Pixel(x, y)
      ensures code == Encode(x, y, exponent)
    {
      code := [];
      if exponent == 0 {
        return;
      }
      var x0, y0 := 0, 0;
      var middle := Pow(2, exponent - 1);
      assert Pow(2, exponent) == 2 * middle;
      while true
        invariant |code| < exponent && ValidCode(code, exponent)
        invariant middle == Pow(2, exponent - 1 - |code|) && middle >= 1
        invariant x0 == CornerX(code, exponent) && y0 == CornerY(code, exponent)
        invariant x0 <= x < x0 + 2 * middle && y0 <= y < y0 + 2 * middle
        decreases middle
      {
        var digit := 0;
        if x >= x0 + middle {
          digit := digit + 2;
          x0 := x0 + middle;
        }
        if y >= y0 + middle {
          digit := digit + 1;
          y0 := y0 + middle;
        }
        CodeDigitStep(code, exponent, x, y, middle, digit, x0, y0);
        code := code + [digit];
        if middle == 1 {
          break;
        }
        middle := middle / 2;
      }
      EncodeOfCorner(code, exponent);
    }

    /** Insertion of the one-pixel black leaf of (x, y) under the pixel's code. */
    method AddPixel(x: int, y: int) returns (C: Code)
      requires 0 <= x < Pow(2, exponent) && 0 <= y < Pow(2, exponent)
      modifies this
      ensures C == Encode(x, y, exponent)
      ensures leaves == old(leaves)[C := NewNode(x, y, 0, 1)]
    {
      C := CodeForPixel(x, y);
      leaves := leaves[C := NewNode(x, y, 0, 1)];
    }

    /** The merge of the four sibling leaves under C into one black leaf at C, anchored at
        child 0's corner with one more level of exponent. */
    method MergeGroup(C: Code)
      requires WellFormed(leaves, exponent) && Complete(leaves.Keys, C) && |C| < exponent
      modifies this
      ensures leaves == MergedLeaves(old(leaves), C, exponent)
    {
      var child0 := leaves[C + [0]];
      MergedNodeIsLeaf(leaves, C, exponent);
      leaves := leaves - {C + [0], C + [1], C + [2], C + [3]};
      assert leaves == old(leaves) - Kids(C);
      var node := NewNode(child0.xmin, child0.ymin, child0.exponent + 1, 1);
      assert node == LeafNode(C, exponent);
      leaves := leaves[C := node];
    }

    /** The number of black leaves. */
    function NumElem(): (n: nat)
      reads this
      ensures n <= |leaves|
      ensures n == |leaves| <==> forall code :: code in leaves ==> leaves[code].color == 1
    {
      var black := set code | code in leaves && leaves[code].color == 1;
      assert black <= leaves.Keys && |leaves.Keys| == |leaves|;
      if forall code :: code in leaves ==> leaves[code].color == 1 then
        assert black == leaves.Keys;
        |black|
      else
        var w :| w in leaves && leaves[w].color != 1;
        assert black <= leaves.Keys - {w};
        var others := leaves.Keys - {w};
        assert leaves.Keys == others + {w} && w !in others;
        SubsetSize(black, others);
        |black|
    }
  }

  /** The codes of the four children of C. */
  function Kids(C: Code): set<Code>
  {
    {C + [0], C + [1], C + [2], C + [3]}
  }

  lemma {:induction false} KidsDistinct(C: Code)
    ensures |Kids(C)| == 4
    ensures forall i: nat, j: nat :: i < 4 && j < 4 && C + [i] == C + [j] ==> i == j
    ensures C !in Kids(C)
  {
    forall i: nat, j: nat | i < 4 && j < 4 && C + [i] == C + [j]
      ensures i == j
    {
      assert (C + [i])[|C|] == i && (C + [j])[|C|] == j;
    }
    assert (C + [0])[|C|] == 0 && (C + [1])[|C|] == 1;
    assert (C + [2])[|C|] == 2 && (C + [3])[|C|] == 3;
  }

  /** All four children of C are leaves: a group the build merges. */
  predicate Complete(keys: set<Code>, C: Code)
  {
    C + [0] in keys && C + [1] in keys && C + [2] in keys && C + [3] in keys
  }

  /** Every leaf is a valid code whose node is the black square the code names. */
  ghost predicate WellFormed(leaves: map<Code, QtrNode>, E: nat)
  {
    forall K :: K in leaves ==> ValidCode(K, E) && leaves[K] == LeafNode(K, E)
  }

  /** The cells of the leaves are pairwise disjoint and their union is S. */
  ghost predicate Partitions(keys: set<Code>, E: nat, S: set<Pixel>)
  {
    PairwiseDisjoint(keys, CellOf(E)) && UnionOf(keys, CellOf(E)) == S
  }

  /** No complete group of four sibling leaves is left. */
  ghost predicate Maximal(keys: set<Code>)
  {
    forall C :: !Complete(keys, C)
  }

  /** Invariants of the candidate queue. */
  ghost predicate CandidatesValid(candid: seq<Code>, E: nat)
  {
    forall j :: 0 <= j < |candid| ==> ValidCode(candid[j], E) && |candid[j]| < E
  }

  ghost predicate NonIncreasing(candid: seq<Code>)
  {
    forall i, j :: 0 <= i < j < |candid| ==> |candid[i]| >= |candid[j]|
  }

  ghost predicate TailBound(candid: seq<Code>, I: nat)
  {
    I < |candid| ==> |candid[|candid| - 1]| + 1 >= |candid[I]|
  }

  /** The parent of every leaf that is a child 0 has been queued. */
  ghost predicate ParentsQueued(keys: set<Code>, candid: seq<Code>)
  {
    forall K :: K in keys && |K| > 0 && K[|K| - 1] == 0 ==> K[..|K| - 1] in candid
  }

  /** Every complete group is still waiting in the unscanned part of the queue. */
  ghost predicate CompleteQueued(keys: set<Code>, candid: seq<Code>, I: nat)
  {
    I <= |candid| && forall C :: Complete(keys, C) ==> C in candid[I..]
  }

  ghost predicate BuildInvariant(leaves: map<Code, QtrNode>, candid: seq<Code>, I: nat, E: nat,
                                 S: set<Pixel>)
  {
    WellFormed(leaves, E) && Partitions(leaves.Keys, E, S) && CandidatesValid(candid, E)
    && NonIncreasing(candid) && TailBound(candid, I) && ParentsQueued(leaves.Keys, candid)
    && CompleteQueued(leaves.Keys, candid, I)
  }

  /** A cell of a valid code is never empty. */
  lemma {:induction false} CellNonEmpty(K: Code, E: nat)
    requires |K| <= E
    ensures Pixel(CornerX(K, E), CornerY(K, E)) in CodeCell(K, E)
  {
    CornerInCell(K, E);
  }

  /** The parent of a complete group is not itself a leaf: its cell would overlap its
      children's. */
  lemma {:induction false} MergedParentIsNew(keys: set<Code>, E: nat, C: Code)
    requires PairwiseDisjoint(keys, CellOf(E)) && Complete(keys, C) && |C| < E
    ensures C !in keys
  {
    if C in keys {
      KidsDistinct(C);
      QuadrantCover(C, E);
      CellNonEmpty(C + [0], E);
      assert false;
    }
  }

  /** A pixel of the merged parent's cell lies in one of its children's cells. */
  lemma {:induction false} InSomeKid(C: Code, E: nat, c: Pixel)
    requires |C| < E && c in CodeCell(C, E)
    ensures exists k :: k in Kids(C) && c in CodeCell(k, E)
  {
    QuadrantCover(C, E);
    if c in CodeCell(C + [0], E) {
      assert C + [0] in Kids(C);
    } else if c in CodeCell(C + [1], E) {
      assert C + [1] in Kids(C);
    } else if c in CodeCell(C + [2], E) {
      assert C + [2] in Kids(C);
    } else {
      assert C + [3] in Kids(C);
    }
  }

  /** A pixel of a child's cell lies in the parent's cell. */
  lemma {:induction false} KidInParent(C: Code, E: nat, k: Code, c: Pixel)
    requires |C| < E && k in Kids(C) && c in CodeCell(k, E)
    ensures c in CodeCell(C, E)
  {
    QuadrantCover(C, E);
  }

  /** Merging keeps the union of the cells. */
  lemma {:induction false} MergeKeepsUnion(keys: set<Code>, E: nat, C: Code)
    requires Complete(keys, C) && |C| < E
    ensures UnionOf(keys - Kids(C) + {C}, CellOf(E)) == UnionOf(keys, CellOf(E))
  {
    var g := CellOf(E);
    var kids := Kids(C);
    var keys' := keys - kids + {C};
    UnionOfIsUnion(keys, g);
    UnionOfIsUnion(keys', g);
    forall c | c in UnionOf(keys', g)
      ensures c in UnionOf(keys, g)
    {
      var k :| k in keys' && c in g(k);
      if k == C {
        InSomeKid(C, E, c);
      }
    }
    forall c | c in UnionOf(keys, g)
      ensures c in UnionOf(keys', g)
    {
      var k :| k in keys && c in g(k);
      if k in kids {
        KidInParent(C, E, k, c);
        assert C in keys';
      } else {
        assert k in keys';
      }
    }
  }

  /** Merging keeps the cells pairwise disjoint. */
  lemma {:induction false} MergeKeepsDisjoint(keys: set<Code>, E: nat, C: Code)
    requires PairwiseDisjoint(keys, CellOf(E)) && Complete(keys, C) && |C| < E
    ensures PairwiseDisjoint(keys - Kids(C) + {C}, CellOf(E))
  {
    var g := CellOf(E);
    var kids := Kids(C);
    var keys' := keys - kids + {C};
    QuadrantCover(C, E);
    var cover := g(C + [0]) + g(C + [1]) + g(C + [2]) + g(C + [3]);
    assert g(C) == cover;
    forall k | k in keys' && k != C
      ensures g(C) !! g(k)
    {
      assert k in keys && k !in kids;
      assert g(C + [0]) !! g(k) && g(C + [1]) !! g(k);
      assert g(C + [2]) !! g(k) && g(C + [3]) !! g(k);
    }
  }

  lemma {:induction false} MergeSize(keys: set<Code>, C: Code)
    requires Complete(keys, C) && C !in keys
    ensures |keys - Kids(C) + {C}| == |keys| - 3
  {
    KidsDistinct(C);
    var rest := keys - Kids(C);
    assert keys == rest + Kids(C) && rest !! Kids(C);
    assert |rest + {C}| == |rest| + 1;
  }

  /** Merging a complete group keeps the partition: the parent's cell is exactly the union of
      the four children's cells.  The parent was not a leaf, so three leaves disappear. */
  lemma {:induction false} MergeKeepsPartition(keys: set<Code>, E: nat, S: set<Pixel>, C: Code)
    requires Partitions(keys, E, S) && Complete(keys, C) && |C| < E
    ensures C !in keys
    ensures Partitions(keys - Kids(C) + {C}, E, S)
    ensures |keys - Kids(C) + {C}| == |keys| - 3
  {
    MergedParentIsNew(keys, E, C);
    assert Partitions(keys - Kids(C) + {C}, E, S) by {
      MergeKeepsUnion(keys, E, C);
      MergeKeepsDisjoint(keys, E, C);
    }
    MergeSize(keys, C);
  }

  /** The leaves after the group under C is merged into one leaf at C. */
  function MergedLeaves(leaves: map<Code, QtrNode>, C: Code, E: nat): map<Code, QtrNode>
    requires |C| <= E
  {
    (leaves - Kids(C))[C := LeafNode(C, E)]
  }

  /** The queue after a new leaf at C: its parent is queued when C is a child 0. */
  function Enqueue(candid: seq<Code>, C: Code): seq<Code>
  {
    if |C| > 0 && C[|C| - 1] == 0 then candid + [C[..|C| - 1]] else candid
  }

  /** The node a merge builds from child 0's corner and exponent is the leaf its code names. */
  lemma {:induction false} MergedNodeIsLeaf(leaves: map<Code, QtrNode>, C: Code, E: nat)
    requires WellFormed(leaves, E) && C + [0] in leaves && |C| < E
    ensures var child0 := leaves[C + [0]];
            NewNode(child0.xmin, child0.ymin, child0.exponent + 1, 1) == LeafNode(C, E)
  {
    CornerAppend(C, 0, E);
  }

  /** Skipping an incomplete candidate keeps the invariant. */
  lemma {:induction false} SkipStep(leaves: map<Code, QtrNode>, candid: seq<Code>, I: nat, E: nat, S: set<Pixel>)
    requires BuildInvariant(leaves, candid, I, E, S) && I < |candid|
    requires !Complete(leaves.Keys, candid[I])
    ensures BuildInvariant(leaves, candid, I + 1, E, S)
  {
    forall C | Complete(leaves.Keys, C)
      ensures C in candid[I + 1..]
    {
      assert C in candid[I..];
      var j :| 0 <= j < |candid[I..]| && candid[I..][j] == C;
      assert j != 0;
      assert candid[I + 1..][j - 1] == C;
    }
  }

  lemma {:induction false} MergeKeepsWellFormed(leaves: map<Code, QtrNode>, C: Code, E: nat)
    requires WellFormed(leaves, E) && ValidCode(C, E)
    ensures WellFormed(MergedLeaves(leaves, C, E), E)
  {
  }

  /** A merge keeps the queue sorted by non-increasing code length: the parent it may queue
      is one digit shorter than the scanned code, and no queued code is shorter than that. */
  lemma {:induction false} MergeKeepsOrder(candid: seq<Code>, I: nat, E: nat, C: Code)
    requires CandidatesValid(candid, E) && NonIncreasing(candid) && TailBound(candid, I)
    requires I < |candid| && C == candid[I]
    ensures CandidatesValid(Enqueue(candid, C), E)
    ensures NonIncreasing(Enqueue(candid, C)) && TailBound(Enqueue(candid, C), I + 1)
  {
    if |C| > 0 && C[|C| - 1] == 0 {
      var P := C[..|C| - 1];
      assert Enqueue(candid, C) == candid + [P];
      forall i | 0 <= i < |candid|
        ensures |candid[i]| >= |P|
      {
        if i < |candid| - 1 {
          assert |candid[i]| >= |candid[|candid| - 1]|;
        }
      }
      if I + 1 < |candid| {
        assert |candid[I + 1]| <= |C|;
      }
    } else if I + 1 < |candid| {
      assert |candid[I + 1]| <= |candid[I]|;
    }
  }

  /** A merge keeps the parent of every child-0 leaf queued: the new leaf queues its own. */
  lemma {:induction false} MergeKeepsParentsQueued(leaves: map<Code, QtrNode>, candid: seq<Code>, E: nat, C: Code)
    requires ParentsQueued(leaves.Keys, candid) && |C| <= E
    ensures ParentsQueued(MergedLeaves(leaves, C, E).Keys, Enqueue(candid, C))
  {
    if |C| > 0 && C[|C| - 1] == 0 {
      assert Enqueue(candid, C)[|candid|] == C[..|C| - 1];
    }
  }

  /** A complete group other than the scanned one was queued after it. */
  lemma {:induction false} OtherGroupQueued(keys: set<Code>, candid: seq<Code>, I: nat, D: Code)
    requires CompleteQueued(keys, candid, I) && I < |candid|
    requires Complete(keys, D) && D != candid[I]
    ensures D in candid[I + 1..]
  {
    assert D in candid[I..];
    var j :| 0 <= j < |candid[I..]| && candid[I..][j] == D;
    assert candid[I + 1..][j - 1] == D;
  }

  /** The parent D of the scanned code C, when C is not a child 0, was queued with its child 0
      and, being shorter than C, lies after C in the sorted queue. */
  lemma {:induction false} ParentQueuedAfter(keys: set<Code>, candid: seq<Code>, I: nat, D: Code)
    requires NonIncreasing(candid) && ParentsQueued(keys, candid) && I < |candid|
    requires D + [0] in keys && |D| < |candid[I]|
    ensures D in candid[I + 1..]
  {
    assert (D + [0])[..|D|] == D;
    var j :| 0 <= j < |candid| && candid[j] == D;
    assert candid[I + 1..][j - (I + 1)] == D;
  }

  /** One complete group after a merge at C = candid[I] is queued after I. */
  lemma {:induction false} GroupQueuedAfterMerge(keys: set<Code>, candid: seq<Code>, I: nat, C: Code, D: Code)
    requires CompleteQueued(keys, candid, I) && NonIncreasing(candid)
    requires ParentsQueued(keys, candid)
    requires I < |candid| && C == candid[I] && Complete(keys, C)
    requires Complete(keys - Kids(C) + {C}, D)
    ensures D in Enqueue(candid, C)[I + 1..]
  {
    var candid' := Enqueue(candid, C);
    assert candid[I + 1..] <= candid'[I + 1..];
    KidsDistinct(C);
    if D == C {
      assert false;
    } else if D + [0] == C || D + [1] == C || D + [2] == C || D + [3] == C {
      assert |C| > 0 && C[..|C| - 1] == D;
      if C[|C| - 1] == 0 {
        assert candid'[I + 1..][|candid'| - 1 - (I + 1)] == D;
      } else {
        assert D + [0] != C;
        ParentQueuedAfter(keys, candid, I, D);
      }
    } else {
      assert Complete(keys, D);
      OtherGroupQueued(keys, candid, I, D);
    }
  }

  /** After a merge at C = candid[I], every complete group is still queued after I.  A group
      that the new leaf C completes is C's parent: either C is a child 0 and the parent is
      enqueued now, or the parent was queued with its child 0 and, being shorter than C, has
      not been scanned yet. */
  lemma {:induction false} MergeKeepsCompleteQueued(leaves: map<Code, QtrNode>, candid: seq<Code>, I: nat, E: nat,
                                 C: Code)
    requires CompleteQueued(leaves.Keys, candid, I) && NonIncreasing(candid)
    requires ParentsQueued(leaves.Keys, candid)
    requires I < |candid| && C == candid[I] && Complete(leaves.Keys, C) && |C| <= E
    ensures CompleteQueued(MergedLeaves(leaves, C, E).Keys, Enqueue(candid, C), I + 1)
  {
    var keys' := MergedLeaves(leaves, C, E).Keys;
    assert keys' == leaves.Keys - Kids(C) + {C};
    forall D | Complete(keys', D)
      ensures D in Enqueue(candid, C)[I + 1..]
    {
      GroupQueuedAfterMerge(leaves.Keys, candid, I, C, D);
    }
  }

  /** Merging the complete group under the scanned candidate keeps the invariant and removes
      three leaves. */
  lemma {:induction false} MergeStep(leaves: map<Code, QtrNode>, candid: seq<Code>, I: nat, E: nat, S: set<Pixel>)
    requires BuildInvariant(leaves, candid, I, E, S) && I < |candid|
    requires Complete(leaves.Keys, candid[I])
    ensures |candid[I]| < E
    ensures BuildInvariant(MergedLeaves(leaves, candid[I], E), Enqueue(candid, candid[I]), I + 1,
                           E, S)
    ensures |MergedLeaves(leaves, candid[I], E)| == |leaves| - 3
  {
    var C := candid[I];
    assert MergedLeaves(leaves, C, E).Keys == leaves.Keys - Kids(C) + {C};
    MergeKeepsPartition(leaves.Keys, E, S, C);
    MergeKeepsWellFormed(leaves, C, E);
    MergeKeepsOrder(candid, I, E, C);
    MergeKeepsParentsQueued(leaves, candid, E, C);
    MergeKeepsCompleteQueued(leaves, candid, I, E, C);
  }

  /** Invariant of the insertion of the black pixels: every leaf is a one-pixel leaf and the
      queue holds parents of child-0 leaves. */
  ghost predicate InsertInvariant(leaves: map<Code, QtrNode>, candid: seq<Code>, E: nat,
                                  S: set<Pixel>)
  {
    WellFormed(leaves, E) && (forall K :: K in leaves ==> |K| == E)
    && Partitions(leaves.Keys, E, S)
    && (forall j :: 0 <= j < |candid| ==> ValidCode(candid[j], E) && |candid[j]| + 1 == E)
    && ParentsQueued(leaves.Keys, candid)
  }

  /** The pixels of one-pixel leaves are their corners, and different leaves have different
      pixels. */
  lemma {:induction false} FullCodesDisjoint(K1: Code, K2: Code, E: nat)
    requires ValidCode(K1, E) && ValidCode(K2, E) && |K1| == E && |K2| == E && K1 != K2
    ensures CodeCell(K1, E) !! CodeCell(K2, E)
  {
    CellOfFullCode(K1, E);
    CellOfFullCode(K2, E);
    EncodeOfCorner(K1, E);
    EncodeOfCorner(K2, E);
  }

  /** The union of a family grows by the cell of a new key. */
  lemma {:induction false} UnionInsert(keys: set<Code>, E: nat, K: Code)
    ensures UnionOf(keys + {K}, CellOf(E)) == UnionOf(keys, CellOf(E)) + CodeCell(K, E)
  {
    var g := CellOf(E);
    UnionOfIsUnion(keys, g);
    UnionOfIsUnion(keys + {K}, g);
    forall c | c in UnionOf(keys + {K}, g)
      ensures c in UnionOf(keys, g) + g(K)
    {
      var k :| k in keys + {K} && c in g(k);
      if k != K {
        assert k in keys;
      }
    }
    forall c | c in UnionOf(keys, g) + g(K)
      ensures c in UnionOf(keys + {K}, g)
    {
      if c in g(K) {
        assert K in keys + {K};
      } else {
        var k :| k in keys && c in g(k);
        assert k in keys + {K};
      }
    }
  }

  /** When the whole queue is scanned no complete group is left. */
  lemma {:induction false} ScanDone(keys: set<Code>, candid: seq<Code>)
    requires CompleteQueued(keys, candid, |candid|)
    ensures Maximal(keys)
  {
  }

  /** Inserting the one-pixel leaf of (x, y) keeps the partition of the black set grown by
      (x, y); the leaf may already be there when the pixel is listed twice. */
  lemma {:induction false} InsertKeepsPartition(keys: set<Code>, E: nat, S: set<Pixel>, x: int, y: int)
    requires Partitions(keys, E, S) && forall K :: K in keys ==> ValidCode(K, E) && |K| == E
    requires 0 <= x < Pow(2, E) && 0 <= y < Pow(2, E)
    ensures Partitions(keys + {Encode(x, y, E)}, E, S + {Pixel(x, y)})
  {
    var K := Encode(x, y, E);
    var g := CellOf(E);
    CornerOfEncode(x, y, E);
    CellOfFullCode(K, E);
    assert g(K) == {Pixel(x, y)};
    if K in keys {
      assert keys + {K} == keys;
      UnionOfIsUnion(keys, g);
      assert Pixel(x, y) in S;
      assert S + {Pixel(x, y)} == S;
    } else {
      UnionInsert(keys, E, K);
      forall k | k in keys
        ensures g(k) !! g(K)
      {
        FullCodesDisjoint(k, K, E);
      }
    }
  }

  /** Inserting the leaf of one black pixel keeps every leaf a one-pixel black leaf. */
  lemma {:induction false} InsertKeepsShape(leaves: map<Code, QtrNode>, E: nat, x: int, y: int)
    requires WellFormed(leaves, E) && forall K :: K in leaves ==> |K| == E
    requires 0 <= x < Pow(2, E) && 0 <= y < Pow(2, E)
    ensures var leaves' := leaves[Encode(x, y, E) := NewNode(x, y, 0, 1)];
            WellFormed(leaves', E) && forall K :: K in leaves' ==> |K| == E
  {
    CornerOfEncode(x, y, E);
  }

  /** Queueing the parent of a new one-pixel leaf keeps the queue of one-pixel parents. */
  lemma {:induction false} InsertKeepsQueue(keys: set<Code>, candid: seq<Code>, E: nat, x: int, y: int)
    requires forall j :: 0 <= j < |candid| ==> ValidCode(candid[j], E) && |candid[j]| + 1 == E
    requires ParentsQueued(keys, candid)
    requires 0 <= x < Pow(2, E) && 0 <= y < Pow(2, E)
    ensures var K := Encode(x, y, E);
            var candid' := Enqueue(candid, K);
            (forall j :: 0 <= j < |candid'| ==> ValidCode(candid'[j], E) && |candid'[j]| + 1 == E)
            && ParentsQueued(keys + {K}, candid')
  {
    var K := Encode(x, y, E);
    CornerOfEncode(x, y, E);
    if |K| > 0 && K[|K| - 1] == 0 {
      assert Enqueue(candid, K)[|candid|] == K[..|K| - 1];
    }
  }

  /** Inserting the leaf of one black pixel keeps the insertion invariant. */
  lemma {:induction false} InsertStep(leaves: map<Code, QtrNode>, candid: seq<Code>, E: nat, S: set<Pixel>,
                   x: int, y: int)
    requires InsertInvariant(leaves, candid, E, S)
    requires 0 <= x < Pow(2, E) && 0 <= y < Pow(2, E)
    ensures var K := Encode(x, y, E);
            InsertInvariant(leaves[K := NewNode(x, y, 0, 1)], Enqueue(candid, K), E,
                            S + {Pixel(x, y)})
  {
    var K := Encode(x, y, E);
    var leaves' := leaves[K := NewNode(x, y, 0, 1)];
    assert leaves'.Keys == leaves.Keys + {K};
    InsertKeepsShape(leaves, E, x, y);
    InsertKeepsPartition(leaves.Keys, E, S, x, y);
    InsertKeepsQueue(leaves.Keys, candid, E, x, y);
  }

  /** After the insertion the scan invariant holds with nothing scanned: a complete group has a
      child 0 among the leaves, so its code is queued. */
  lemma {:induction false} StartScan(leaves: map<Code, QtrNode>, candid: seq<Code>, E: nat, S: set<Pixel>)
    requires InsertInvariant(leaves, candid, E, S)
    ensures BuildInvariant(leaves, candid, 0, E, S)
  {
    forall C | Complete(leaves.Keys, C)
      ensures C in candid[0..]
    {
      assert (C + [0])[..|C|] == C;
      assert candid[0..] == candid;
    }
  }

  /** The empty tree satisfies the insertion invariant. */
  lemma {:induction false} EmptyInsertInvariant(E: nat)
    ensures InsertInvariant(map[], [], E, {})
  {
    assert UnionOf({}, CellOf(E)) == {};
  }

  /** Whether every pixel of the list lies in the x_side x y_side image. */
  predicate InImage(pixels: seq<Pixel>, SX: int, SY: int)
  {
    forall i :: 0 <= i < |pixels| ==> 0 <= pixels[i].x < SX && 0 <= pixels[i].y < SY
  }

  /** quadtreeBuild: the tree of the SX x SY image whose black pixels are listed.  Every black
      pixel becomes a leaf and complete groups of four sibling leaves are merged into their
      parent, scanning a FIFO queue of candidate parents.  The leaves are black squares that
      partition the black set, and no four siblings are left unmerged. */
  method QuadtreeBuild(SX: int, SY: int, pixels: seq<Pixel>) returns (Q: QtrTree)
    requires InImage(pixels, SX, SY)
    ensures fresh(Q) && Q.xSide == SX && Q.ySide == SY
    ensures Pow(2, Q.exponent) >= SX && Pow(2, Q.exponent) >= SY
    ensures forall e: nat :: e < Q.exponent ==> Pow(2, e) < SX || Pow(2, e) < SY
    ensures WellFormed(Q.leaves, Q.exponent)
    ensures Partitions(Q.leaves.Keys, Q.exponent, PixelSet(pixels))
    ensures Maximal(Q.leaves.Keys)
    ensures [] in Q.leaves <==> PixelSet(pixels) == Domain(Q.exponent)
  {
    Q := new QtrTree(SX, SY);
    Q.leaves := Q.leaves - {[]};
    assert Q.leaves == map[];
    var candid := InsertPixels(Q, pixels);
    MergeCandidates(Q, candid, PixelSet(pixels));
    PixelsInDomain(pixels, SX, SY, Q.exponent);
    if [] in Q.leaves {
      RootCoversDomain(Q.leaves.Keys, Q.exponent, PixelSet(pixels));
    }
    if PixelSet(pixels) == Domain(Q.exponent) {
      RootOfFullDomain(Q.leaves.Keys, Q.exponent);
    }
  }

  /** quadtreeBuild as written.  Merging the four children of the root (when every pixel of the
      domain is black) evaluates the last digit of the empty code and raises IndexError; the
      tree is then left with the root as its only leaf.  Any other input builds the tree
      QuadtreeBuild builds. */
  method QuadtreeBuildAsWritten(SX: int, SY: int, pixels: seq<Pixel>)
    returns (Q: QtrTree, err: Option<Error>)
    requires InImage(pixels, SX, SY) && (SX > 1 || SY > 1)
    ensures fresh(Q) && Q.xSide == SX && Q.ySide == SY
    ensures err.Some? <==> PixelSet(pixels) == Domain(Q.exponent)
    ensures err.Some? ==> err.value == IndexError
    ensures WellFormed(Q.leaves, Q.exponent)
    ensures Partitions(Q.leaves.Keys, Q.exponent, PixelSet(pixels))
    ensures err.None? ==> Maximal(Q.leaves.Keys)
  {
    Q := new QtrTree(SX, SY);
    Q.leaves := Q.leaves - {[]};
    assert Q.leaves == map[];
    assert Q.exponent >= 1;
    var candid := InsertPixels(Q, pixels);
    PixelsInDomain(pixels, SX, SY, Q.exponent);
    err := MergeCandidatesAsWritten(Q, candid, PixelSet(pixels));
  }

  /** The listed pixels lie in the domain of a tree whose side covers the image. */
  lemma {:induction false} PixelsInDomain(pixels: seq<Pixel>, SX: int, SY: int, E: nat)
    requires InImage(pixels, SX, SY) && Pow(2, E) >= SX && Pow(2, E) >= SY
    ensures PixelSet(pixels) <= Domain(E)
  {
    forall c | c in PixelSet(pixels)
      ensures c in Domain(E)
    {
      InDomain(E, c);
    }
  }

  /** A root leaf covers the whole domain. */
  lemma {:induction false} RootCoversDomain(keys: set<Code>, E: nat, S: set<Pixel>)
    requires Partitions(keys, E, S) && S <= Domain(E) && [] in keys
    ensures S == Domain(E)
  {
    forall c | c in Domain(E)
      ensures c in S
    {
      UnionOfMember(keys, CellOf(E), c);
    }
  }

  /** Merging below the root does not make the root a leaf. */
  lemma {:induction false} MergeKeepsRootOut(leaves: map<Code, QtrNode>, C: Code, E: nat)
    requires C != [] && |C| <= E && [] !in leaves
    ensures [] !in MergedLeaves(leaves, C, E)
  {
  }

  /** The 2 x 2 image with all four pixels black covers its whole domain, so quadtreeBuild as
      written raises IndexError on it. */
  lemma {:induction false} FullSquareCoversDomain()
    ensures PixelSet([Pixel(0, 0), Pixel(0, 1), Pixel(1, 0), Pixel(1, 1)]) == Domain(1)
  {
    var S := PixelSet([Pixel(0, 0), Pixel(0, 1), Pixel(1, 0), Pixel(1, 1)]);
    forall c | c in Domain(1)
      ensures c in S
    {
      InDomain(1, c);
    }
    forall c | c in S
      ensures c in Domain(1)
    {
      InDomain(1, c);
    }
  }

  /** The second pass of quadtreeBuild as written, where the parent of a merged code is queued
      after reading its last digit, which fails for the root. */
  method MergeCandidatesAsWritten(Q: QtrTree, candid0: seq<Code>, ghost S: set<Pixel>)
    returns (err: Option<Error>)
    requires InsertInvariant(Q.leaves, candid0, Q.exponent, S)
    requires Q.exponent >= 1 && S <= Domain(Q.exponent)
    modifies Q
    ensures err.Some? <==> S == Domain(Q.exponent)
    ensures err.Some? ==> err.value == IndexError
    ensures WellFormed(Q.leaves, Q.exponent) && Partitions(Q.leaves.Keys, Q.exponent, S)
    ensures err.None? ==> Maximal(Q.leaves.Keys)
  {
    var E := Q.exponent;
    var candid := candid0;
    StartScan(Q.leaves, candid, E, S);
    var I := 0;
    while I < |candid|
      invariant I <= |candid| && [] !in Q.leaves
      invariant BuildInvariant(Q.leaves, candid, I, E, S)
      decreases |Q.leaves|, |candid| - I
    {
      ghost var scanned := I;
      var C := candid[I];
      I := I + 1;
      if !(C + [0] in Q.leaves && C + [1] in Q.leaves && C + [2] in Q.leaves
           && C + [3] in Q.leaves) {
        SkipStep(Q.leaves, candid, scanned, E, S);
        continue;
      }
      MergeStep(Q.leaves, candid, scanned, E, S);
      ghost var queued, before := candid, Q.leaves;
      Q.MergeGroup(C);
      if C == [] {
        RootCoversDomain(Q.leaves.Keys, E, S);
        return Some(IndexError);
      }
      MergeKeepsRootOut(before, C, E);
      if C[|C| - 1] == 0 {
        candid := candid + [Parent(C).value];
      }
      assert candid == Enqueue(queued, C);
    }
    ScanDone(Q.leaves.Keys, candid);
    if S == Domain(E) {
      RootOfFullDomain(Q.leaves.Keys, E);
    }
    err := None;
  }

  /** The first pass of quadtreeBuild, on a tree without leaves: every listed pixel becomes a
      one-pixel black leaf, and the parent of every child-0 leaf is queued. */
  method InsertPixels(Q: QtrTree, pixels: seq<Pixel>) returns (candid: seq<Code>)
    requires Q.leaves == map[]
    requires forall i :: 0 <= i < |pixels| ==>
               0 <= pixels[i].x < Pow(2, Q.exponent) && 0 <= pixels[i].y < Pow(2, Q.exponent)
    modifies Q
    ensures InsertInvariant(Q.leaves, candid, Q.exponent, PixelSet(pixels))
  {
    var E := Q.exponent;
    candid := [];
    EmptyInsertInvariant(E);
    for i := 0 to |pixels|
      invariant InsertInvariant(Q.leaves, candid, E, PixelSet(pixels[..i]))
    {
      var x, y := pixels[i].x, pixels[i].y;
      InsertStep(Q.leaves, candid, E, PixelSet(pixels[..i]), x, y);
      var C := Q.AddPixel(x, y);
      PixelSetSnoc(pixels, i);
      if |C| > 0 && C[|C| - 1] == 0 {
        candid := candid + [Parent(C).value];
      }
    }
    assert pixels[..|pixels|] == pixels;
  }

  /** The second pass of quadtreeBuild: the queue is scanned first to last, and the four
      children of a scanned code are merged when all of them are leaves; the merged leaf queues
      its own parent when it is a child 0. */
  method MergeCandidates(Q: QtrTree, candid0: seq<Code>, ghost S: set<Pixel>)
    requires InsertInvariant(Q.leaves, candid0, Q.exponent, S)
    modifies Q
    ensures WellFormed(Q.leaves, Q.exponent) && Partitions(Q.leaves.Keys, Q.exponent, S)
    ensures Maximal(Q.leaves.Keys)
  {
    var E := Q.exponent;
    var candid := candid0;
    StartScan(Q.leaves, candid, E, S);
    var I := 0;
    while I < |candid|
      invariant I <= |candid|
      invariant BuildInvariant(Q.leaves, candid, I, E, S)
      decreases |Q.leaves|, |candid| - I
    {
      ghost var scanned := I;
      var C := candid[I];
      I := I + 1;
      if !(C + [0] in Q.leaves && C + [1] in Q.leaves && C + [2] in Q.leaves
           && C + [3] in Q.leaves) {
        SkipStep(Q.leaves, candid, scanned, E, S);
        continue;
      }
      MergeStep(Q.leaves, candid, scanned, E, S);
      ghost var queued := candid;
      Q.MergeGroup(C);
      if |C| > 0 && C[|C| - 1] == 0 {
        candid := candid + [Parent(C).value];
      }
      assert candid == Enqueue(queued, C);
    }
    ScanDone(Q.leaves.Keys, candid);
  }

  /** Every pixel code has E digits. */
  lemma {:induction false} EncodeLength(x: int, y: int, E: nat)
    ensures |Encode(x, y, E)| == E
    decreases E
  {
    if E > 0 {
      var h := Pow(2, E - 1);
      var hx := if x >= h then 1 else 0;
      var hy := if y >= h then 1 else 0;
      EncodeLength(x - hx * h, y - hy * h, E - 1);
    }
  }

  /** The cell of [d] + R is the cell of R, one level down, moved to the quadrant d selects. */
  lemma {:induction false} CellShift(code: Code, E: nat, c: Pixel)
    requires ValidCode(code, E) && |code| > 0
    ensures var h := Pow(2, E - 1);
            c in CodeCell(code, E)
            <==> Pixel(c.x - XBit(code[0]) * h, c.y - YBit(code[0]) * h) in CodeCell(code[1..], E - 1)
  {
    var h := Pow(2, E - 1);
    var R := code[1..];
    var s := Pow(2, E - |code|);
    assert E - 1 - |R| == E - |code|;
    var dx, dy := XBit(code[0]) * h, YBit(code[0]) * h;
    var X, Y := CornerX(R, E - 1), CornerY(R, E - 1);
    assert CornerX(code, E) == dx + X && CornerY(code, E) == dy + Y;
    InRect(c, dx + X, dx + X + s - 1, dy + Y, dy + Y + s - 1);
    InRect(Pixel(c.x - dx, c.y - dy), X, X + s - 1, Y, Y + s - 1);
  }

  /** A pixel of the quadrant d, one level down, has the code d followed by its code there. */
  lemma {:induction false} EncodeStep(c: Pixel, E: nat, d: nat)
    requires E > 0 && d < 4
    requires var h := Pow(2, E - 1);
             0 <= c.x - XBit(d) * h < h && 0 <= c.y - YBit(d) * h < h
    ensures var h := Pow(2, E - 1);
            Encode(c.x, c.y, E) == [d] + Encode(c.x - XBit(d) * h, c.y - YBit(d) * h, E - 1)
    ensures 0 <= c.x < Pow(2, E) && 0 <= c.y < Pow(2, E)
  {
    PowTwoHalf(E);
    assert d == 0 || d == 1 || d == 2 || d == 3;
  }

  /** The first digit of a domain pixel's code names the quadrant holding it. */
  lemma {:induction false} EncodeFirst(c: Pixel, E: nat)
    requires E > 0 && 0 <= c.x < Pow(2, E) && 0 <= c.y < Pow(2, E)
    ensures var d := Encode(c.x, c.y, E)[0];
            var h := Pow(2, E - 1);
            d < 4 && 0 <= c.x - XBit(d) * h < h && 0 <= c.y - YBit(d) * h < h
            && Encode(c.x, c.y, E) == [d] + Encode(c.x - XBit(d) * h, c.y - YBit(d) * h, E - 1)
  {
    PowTwoHalf(E);
  }

  /** A pixel of a cell lies in the domain, and the cell's code is a prefix of its code. */
  lemma {:induction false} CellMemberCode(code: Code, E: nat, c: Pixel)
    requires ValidCode(code, E) && c in CodeCell(code, E)
    ensures |Encode(c.x, c.y, E)| == E
    ensures 0 <= c.x < Pow(2, E) && 0 <= c.y < Pow(2, E)
    ensures Encode(c.x, c.y, E)[..|code|] == code
    decreases E
  {
    EncodeLength(c.x, c.y, E);
    if code == [] {
      InRect(c, 0, Pow(2, E) - 1, 0, Pow(2, E) - 1);
    } else {
      var d, R := code[0], code[1..];
      var h := Pow(2, E - 1);
      var c' := Pixel(c.x - XBit(d) * h, c.y - YBit(d) * h);
      CellShift(code, E, c);
      CellMemberCode(R, E - 1, c');
      EncodeStep(c, E, d);
      assert Encode(c.x, c.y, E)[..|code|] == [d] + Encode(c'.x, c'.y, E - 1)[..|R|];
    }
  }

  /** A domain pixel whose code extends a code lies in that code's cell. */
  lemma {:induction false} CodeMemberCell(code: Code, E: nat, c: Pixel)
    requires ValidCode(code, E)
    requires 0 <= c.x < Pow(2, E) && 0 <= c.y < Pow(2, E)
    requires |Encode(c.x, c.y, E)| >= |code| && Encode(c.x, c.y, E)[..|code|] == code
    ensures c in CodeCell(code, E)
    decreases E
  {
    if code == [] {
      InRect(c, 0, Pow(2, E) - 1, 0, Pow(2, E) - 1);
    } else {
      var d, R := code[0], code[1..];
      var h := Pow(2, E - 1);
      var c' := Pixel(c.x - XBit(d) * h, c.y - YBit(d) * h);
      EncodeFirst(c, E);
      var enc := Encode(c.x, c.y, E);
      assert enc[0] == d;
      assert Encode(c'.x, c'.y, E - 1)[..|R|] == enc[1..][..|R|] == R;
      CodeMemberCell(R, E - 1, c');
      CellShift(code, E, c);
    }
  }

  /** A pixel lies in the cell of a code exactly when it lies in the domain and the code is a
      prefix of the pixel's own code. */
  lemma {:induction false} CellMember(code: Code, E: nat, c: Pixel)
    requires ValidCode(code, E)
    ensures |Encode(c.x, c.y, E)| == E
    ensures c in CodeCell(code, E)
            <==> 0 <= c.x < Pow(2, E) && 0 <= c.y < Pow(2, E)
                 && Encode(c.x, c.y, E)[..|code|] == code
  {
    EncodeLength(c.x, c.y, E);
    if c in CodeCell(code, E) {
      CellMemberCode(code, E, c);
    }
    if 0 <= c.x < Pow(2, E) && 0 <= c.y < Pow(2, E) && Encode(c.x, c.y, E)[..|code|] == code {
      CodeMemberCell(code, E, c);
    }
  }

  /** The pixels of the domain: the cell of the root. */
  function Domain(E: nat): set<Pixel>
  {
    CodeCell([], E)
  }

  lemma {:induction false} InDomain(E: nat, c: Pixel)
    ensures c in Domain(E) <==> 0 <= c.x < Pow(2, E) && 0 <= c.y < Pow(2, E)
  {
    CellMember([], E, c);
  }

  /** If two cells share a pixel, the shorter code is a prefix of the longer. */
  lemma {:induction false} CellsMeetAtPrefix(A: Code, B: Code, E: nat, c: Pixel)
    requires ValidCode(A, E) && ValidCode(B, E) && |A| <= |B|
    requires c in CodeCell(A, E) && c in CodeCell(B, E)
    ensures A == B[..|A|]
  {
    CellMember(A, E, c);
    CellMember(B, E, c);
    var enc := Encode(c.x, c.y, E);
    assert B[..|A|] == enc[..|B|][..|A|] == enc[..|A|];
  }

  /** The cell of a code holds the cells of its extensions. */
  lemma {:induction false} PrefixCellHoldsCorner(A: Code, B: Code, E: nat)
    requires ValidCode(B, E) && |A| <= |B| && A == B[..|A|]
    ensures Pixel(CornerX(B, E), CornerY(B, E)) in CodeCell(A, E)
  {
    var c := Pixel(CornerX(B, E), CornerY(B, E));
    assert ValidCode(A, E);
    CornerInCell(B, E);
    CellMember(B, E, c);
    CellMember(A, E, c);
    var enc := Encode(c.x, c.y, E);
    assert enc[..|A|] == enc[..|B|][..|A|];
  }

  /** A non-empty finite set of codes has a longest element. */
  lemma {:induction false} LongestCode(keys: set<Code>) returns (K: Code)
    requires keys != {}
    ensures K in keys && forall K' :: K' in keys ==> |K'| <= |K|
    decreases keys
  {
    var k :| k in keys;
    if keys == {k} {
      K := k;
    } else {
      var L := LongestCode(keys - {k});
      K := if |k| >= |L| then k else L;
    }
  }

  /** In a partition, no leaf code is a proper prefix of another: their cells would overlap. */
  lemma {:induction false} NoLeafAboveAnother(keys: set<Code>, E: nat, K: Code, L: Code)
    requires forall k :: k in keys ==> ValidCode(k, E)
    requires PairwiseDisjoint(keys, CellOf(E))
    requires K in keys && L in keys && |L| < |K|
    ensures L != K[..|L|]
  {
    if L == K[..|L|] {
      PrefixCellHoldsCorner(L, K, E);
      CornerInCell(K, E);
      assert false;
    }
  }

  /** A leaf covering a pixel of a sibling of the longest leaf K is that sibling: a longer leaf
      does not exist, and a shorter one would be a prefix of K. */
  lemma {:induction false} SiblingIsLeaf(keys: set<Code>, E: nat, K: Code, i: nat)
    requires forall k :: k in keys ==> ValidCode(k, E)
    requires PairwiseDisjoint(keys, CellOf(E)) && UnionOf(keys, CellOf(E)) == Domain(E)
    requires K in keys && |K| > 0 && i < 4
    requires forall K' :: K' in keys ==> |K'| <= |K|
    ensures K[..|K| - 1] + [i] in keys
  {
    var sib := K[..|K| - 1] + [i];
    assert ValidCode(sib, E);
    var c := Pixel(CornerX(sib, E), CornerY(sib, E));
    CornerInCell(sib, E);
    CellMemberCode(sib, E, c);
    InDomain(E, c);
    UnionOfMember(keys, CellOf(E), c);
    var L :| L in keys && c in CodeCell(L, E);
    assert |L| <= |sib|;
    CellsMeetAtPrefix(L, sib, E, c);
    if |L| < |K| {
      assert sib[..|L|] == K[..|L|];
      NoLeafAboveAnother(keys, E, K, L);
      assert false;
    }
    assert L == sib[..|sib|] == sib;
  }

  /** A leaf set that partitions the whole domain and has no complete group is the root
      alone. */
  lemma {:induction false} RootOfFullDomain(keys: set<Code>, E: nat)
    requires forall k :: k in keys ==> ValidCode(k, E)
    requires Partitions(keys, E, Domain(E)) && Maximal(keys)
    ensures [] in keys
  {
    if [] !in keys {
      InDomain(E, Pixel(0, 0));
      PowTwoPositive(E);
      UnionOfMember(keys, CellOf(E), Pixel(0, 0));
      var K := LongestCode(keys);
      var P := K[..|K| - 1];
      SiblingIsLeaf(keys, E, K, 0);
      SiblingIsLeaf(keys, E, K, 1);
      SiblingIsLeaf(keys, E, K, 2);
      SiblingIsLeaf(keys, E, K, 3);
      assert Complete(keys, P);
      assert false;
    }
  }

  /** The area side^2 of the leaf stored at a code (0 for a code that is not a leaf). */
  function LeafArea(leaves: map<Code, QtrNode>): Code -> int
  {
    (K: Code) => if K in leaves then Side(leaves[K]) * Side(leaves[K]) else 0
  }

  /** The leaf areas add up to the number of distinct black pixels. */
  lemma {:induction false} LeafAreasCountPixels(leaves: map<Code, QtrNode>, E: nat, S: set<Pixel>)
    requires WellFormed(leaves, E) && Partitions(leaves.Keys, E, S)
    ensures SumOver(leaves.Keys, LeafArea(leaves)) == |S|
  {
    var one := (c: Pixel) => 1;
    forall K | K in leaves.Keys
      ensures LeafArea(leaves)(K) == SumOver(CellOf(E)(K), one)
    {
      var n := leaves[K];
      LeafNodeCell(K, E);
      RectSize(n.xmin, n.xmin + Side(n) - 1, n.ymin, n.ymin + Side(n) - 1);
      SumOverConstant(NodeCell(n), one, 1);
    }
    SumOverFamily(leaves.Keys, CellOf(E), one, LeafArea(leaves));
    SumOverConstant(S, one, 1);
  }

  /** buildQuadtree: the tree of the smallest image holding every listed pixel, 1 + the
      largest coordinate on each axis.  Python's max raises ValueError on the empty list. */
  method BuildQuadtree(pixels: seq<Pixel>) returns (r: Result<QtrTree>)
    requires forall i :: 0 <= i < |pixels| ==> pixels[i].x >= 0 && pixels[i].y >= 0
    ensures r.Failure? <==> |pixels| == 0
    ensures r.Failure? ==> r.error == ValueError
    ensures r.Success? ==>
              var Q := r.value;
              fresh(Q)
              && Q.xSide == 1 + MaxOf(seq(|pixels|, i requires 0 <= i < |pixels| => pixels[i].x))
              && Q.ySide == 1 + MaxOf(seq(|pixels|, i requires 0 <= i < |pixels| => pixels[i].y))
              && WellFormed(Q.leaves, Q.exponent)
              && Partitions(Q.leaves.Keys, Q.exponent, PixelSet(pixels))
              && Maximal(Q.leaves.Keys)
  {
    if |pixels| == 0 {
      return Failure(ValueError);
    }
    var xs := seq(|pixels|, i requires 0 <= i < |pixels| => pixels[i].x);
    var ys := seq(|pixels|, i requires 0 <= i < |pixels| => pixels[i].y);
    var maxX := 1 + MaxOf(xs);
    var maxY := 1 + MaxOf(ys);
    assert forall i :: 0 <= i < |pixels| ==> xs[i] == pixels[i].x && ys[i] == pixels[i].y;
    var Q := QuadtreeBuild(maxX, maxY, pixels);
    r := Success(Q);
  }
}
