/** The central-moment method on a quadtree: the central moments mu00 and mu20 = mu02 of the
    squares of side 2^e are tabulated once, and every black leaf adds the moments of its square,
    shifted from its centre (xcen, ycen) to the origin by the same ten lines as the block
    method. */
module MomentTreeNew2D {
  import opened PowerSums
  import opened SetSums
  import opened Outcomes
  import opened Commons2D
  import opened CentralShift2D
  import opened Quadtree
  import T2 = MomentTree2D
  import BN = MomentBlockNew2D

  /** Entry e of the two tables is mu00 = L^2 and mu20 = mu02 = L (L^3 - L) / 12 of the square
      of side L = 2^e: the central moments the block method tabulates for an L x L block. */
  predicate StoredCorrect(stored0: seq<int>, stored2: seq<int>)
  {
    && |stored0| == |stored2|
    && forall e :: 0 <= e < |stored0| ==> SquareEntry(stored0[e], stored2[e], Pow(2, e))
  }

  /** mu00 = a and mu20 = mu02 = b are the central moments of the L x L square. */
  predicate SquareEntry(a: int, b: int, L: int)
  {
    (a, b as real, b as real) == BN.RectCentral(L, L)
  }

  /** A table of n entries covers the sides 1 and 2 and every larger power of two up to
      maxSide, and no more. */
  predicate Covers(n: nat, maxSide: int)
  {
    n >= 2 && Pow(2, n) > maxSide && (n > 2 ==> Pow(2, n - 1) <= maxSide)
  }

  /** The exponents a table of n entries covers are exactly e <= 1 and those with 2^e <= maxSide. */
  lemma {:induction false} CoversExactly(n: nat, maxSide: int, e: nat)
    requires Covers(n, maxSide)
    ensures e < n <==> (e <= 1 || Pow(2, e) <= maxSide)
  {
    if e < n && e > 1 {
      PowTwoMonotone(e, n - 1);
    }
    if e >= n {
      PowTwoMonotone(n, e);
    }
  }

  /** One step of the inner loop: the odd t = 2j + 1 adds (t/2)^2 = (j + 1 - 1/2)^2 to sommaQ. */
  lemma {:induction false} HalfStep(j: int, t: int)
    requires j >= 0 && t == 2 * j + 1
    ensures SumHalf(j + 1) == SumHalf(j) + (0.5 * t as real) * (0.5 * t as real)
  {
    assert (j + 1) as real - 0.5 == 0.5 * t as real;
  }

  /** The closed forms of the two sums, combined: both sides are m^2 (4m^2 - 1) / 3. */
  lemma {:induction false} CombineClosedForms(k: real, f: real, M: real, P: real, S: real)
    requires k == 4.0 * M * P - 2.0 * M * M * (M + 1.0) + M * M && f == 4.0 * M
    requires P == M * (M + 1.0) * (2.0 * M + 1.0) / 6.0 && S == M * (4.0 * M * M - 1.0) / 12.0
    ensures k == f * S
  {
  }

  /** The integer combination, cast to a real. */
  lemma {:induction false} CastCombination(m: int, p: int, M: real, P: real)
    ensures M == m as real && P == p as real ==>
              (4 * m * p - 2 * m * m * (m + 1) + m * m) as real == 4.0 * M * P - 2.0 * M * M * (M + 1.0) + M * M
  {
  }

  /** 4m S = 2m (2 S). */
  lemma {:induction false} DoubleScaled(m: int, S: real, c: real)
    ensures 2.0 * S == c ==> (4 * m) as real * S == (2 * m) as real * c
  {
  }

  /** For the square of side 2m, 2 (2m) sum_{j=1..m} (j - 1/2)^2 is the integer
      4m sum_{j=1..m} j^2 - 2m^2 (m + 1) + m^2, and it is 2m times mu20 of the side. */
  lemma {:induction false} EvenSquareCentral(m: nat, L: int, k: int, f: real, S: real, c: real)
    requires m >= 1 && L == 2 * m && k == 4 * m * PowerSum(2, m) - 2 * m * m * (m + 1) + m * m
    requires f == (4 * m) as real && S == SumHalf(m) && c == Central2(L)
    ensures k as real == f * S && f * S == L as real * c
  {
    HalfSumInteger(m, PowerSum(2, m), k, f, S);
    HalfSumCentral(m, L, f, S, c);
  }

  /** 4m sum_{j=1..m} (j - 1/2)^2 = 4m sum_{j=1..m} j^2 - 2m^2 (m + 1) + m^2. */
  lemma {:induction false} HalfSumInteger(m: nat, p: int, k: int, f: real, S: real)
    requires p == PowerSum(2, m) && k == 4 * m * p - 2 * m * m * (m + 1) + m * m
    requires f == (4 * m) as real && S == SumHalf(m)
    ensures k as real == f * S
  {
    SumHalfClosed(m);
    SumFullClosed(m);
    HalfSumAlgebra(m, p, k, f, S, m as real, p as real);
  }

  /** The same, from the closed forms of the two sums. */
  lemma {:induction false} HalfSumAlgebra(m: int, p: int, k: int, f: real, S: real, M: real, P: real)
    requires k == 4 * m * p - 2 * m * m * (m + 1) + m * m && f == (4 * m) as real
    requires M == m as real && P == p as real
    requires P == M * (M + 1.0) * (2.0 * M + 1.0) / 6.0 && S == M * (4.0 * M * M - 1.0) / 12.0
    ensures k as real == f * S
  {
    CastCombination(m, p, M, P);
    CombineClosedForms(k as real, f, M, P, S);
  }

  /** 4m sum_{j=1..m} (j - 1/2)^2 = 2m mu20 of the side 2m. */
  lemma {:induction false} HalfSumCentral(m: nat, L: int, f: real, S: real, c: real)
    requires m >= 1 && L == 2 * m && f == (4 * m) as real && S == SumHalf(m) && c == Central2(L)
    ensures f * S == L as real * c
  {
    EvenCentral2(m);
    DoubleScaled(m, S, c);
  }

  /** Twice sum_{j=1..m} (j - 1/2)^2 is mu20 of the side 2m. */
  lemma {:induction false} EvenCentral2(m: int)
    requires m >= 1
    ensures 2.0 * SumHalf(m) == Central2(2 * m)
  {
    EvenHalf(m);
    HalfAndFullSumsGiveCentral2(2 * m);
  }

  /** 2m is even and its half is m. */
  lemma {:induction false} EvenHalf(m: int)
    ensures (2 * m) / 2 == m && (2 * m) % 2 == 0
  {
  }

  /** The entry the while loop appends for edge L: int(2 L sommaQ) is exactly L mu20 of the
      L x L square, so int() loses nothing. */
  lemma {:induction false} ExactEntry(L: int, f: real, S: real, c: real)
    requires L >= 2 && L % 2 == 0 && f == (2 * L) as real && S == SumHalf(L / 2) && c == Central2(L)
    ensures Trunc(f * S) as real == L as real * c
  {
    var m := L / 2;
    var k := 4 * m * PowerSum(2, m) - 2 * m * m * (m + 1) + m * m;
    assert L == 2 * m;
    EvenSquareCentral(m, L, k, f, S, c);
    TruncOfInteger(k);
  }

  /** An integer b equal to L mu20 of the L x L square makes, with L^2, its table entry. */
  lemma {:induction false} SquareEntryOf(L: int, b: int)
    ensures b as real == L as real * Central2(L) ==> SquareEntry(L * L, b, L)
  {
  }

  /** The entry the while loop appends for edge L: edge^2 and int(2 edge sommaQ), which is
      exactly L mu20 of the L x L square, so int() loses nothing. */
  lemma {:induction false} TreeEntry(L: int, sommaQ: real)
    requires L >= 2 && L % 2 == 0 && sommaQ == SumHalf(L / 2)
    ensures SquareEntry(L * L, Trunc((2 * L) as real * sommaQ), L)
  {
    ExactEntry(L, (2 * L) as real, sommaQ, Central2(L));
    SquareEntryOf(L, Trunc((2 * L) as real * sommaQ));
  }

  /** Appending the entry for side 2^|stored0| keeps the tables correct. */
  lemma {:induction false} StoreSquare(stored0: seq<int>, stored2: seq<int>, a: int, b: int, L: int)
    requires StoredCorrect(stored0, stored2) && L == Pow(2, |stored0|) && SquareEntry(a, b, L)
    ensures StoredCorrect(stored0 + [a], stored2 + [b])
  {
  }

  /** The loop state of setCentralMoments after n entries: edge = 2^n and prev_edge = 2^(n-1),
      both even. */
  predicate Doubling(n: nat, prev: int, edge: int)
  {
    n >= 2 && edge == Pow(2, n) && prev == Pow(2, n - 1) && edge == 2 * prev && prev % 2 == 0
  }

  /** prev_edge = edge and edge *= 2 keep the doubling state for one more entry. */
  lemma {:induction false} DoublingStep(n: nat, prev: int, edge: int)
    requires Doubling(n, prev, edge)
    ensures Doubling(n + 1, edge, edge * 2)
  {
    assert Pow(2, n + 1) == 2 * Pow(2, n);
  }

  /** The inner loop of setCentralMoments: for t in range(prev + 1, edge, 2), sommaQ gains
      (t/2)^2, which takes sum_{j=1..prev/2} (j - 1/2)^2 to sum_{j=1..edge/2} (j - 1/2)^2. */
  method AddOddSquares(prev: int, edge: int, sommaQ0: real) returns (sommaQ: real)
    requires prev >= 2 && prev % 2 == 0 && edge == 2 * prev && sommaQ0 == SumHalf(prev / 2)
    ensures sommaQ == SumHalf(edge / 2)
  {
    ghost var h := prev / 2;
    assert prev == 2 * h && edge / 2 == 2 * h;
    sommaQ := sommaQ0;
    var t := prev + 1;
    ghost var j := h;
    while t < edge
      invariant t == 2 * j + 1 && h <= j <= 2 * h
      invariant sommaQ == SumHalf(j)
    {
      HalfStep(j, t);
      sommaQ := sommaQ + (0.5 * t as real) * (0.5 * t as real);
      t := t + 2;
      j := j + 1;
    }
  }

  /** setCentralMoments: the entries for sides 1 and 2, then while edge <= max_side the odd t
      between the previous edge and this one add (t/2)^2 to sommaQ, and edge^2 and
      int(2 edge sommaQ) are appended. */
  method SetCentralMoments(maxSide: int) returns (stored0: seq<int>, stored2: seq<int>)
    ensures StoredCorrect(stored0, stored2)
    ensures Covers(|stored0|, maxSide)
  {
    stored0 := [1, 4];
    stored2 := [0, 1];
    assert Pow(2, 0) == 1 && Pow(2, 1) == 2;
    var prev := 2;
    var edge := 4;
    var sommaQ := 0.25;
    while edge <= maxSide
      invariant Doubling(|stored0|, prev, edge)
      invariant sommaQ == SumHalf(prev / 2)
      invariant StoredCorrect(stored0, stored2)
      invariant |stored0| > 2 ==> Pow(2, |stored0| - 1) <= maxSide
      decreases maxSide - edge
    {
      sommaQ := AddOddSquares(prev, edge, sommaQ);
      var sqrEdge := edge * edge;
      TreeEntry(edge, sommaQ);
      StoreSquare(stored0, stored2, sqrEdge, Trunc((2 * edge) as real * sommaQ), edge);
      DoublingStep(|stored0|, prev, edge);
      stored0 := stored0 + [sqrEdge];
      stored2 := stored2 + [Trunc((2 * edge) as real * sommaQ)];
      prev := edge;
      edge := edge * 2;
    }
  }

  /** The centre a node stores is the centre of its square. */
  predicate Centred(n: QtrNode)
  {
    n.xcen == Centre(n.xmin, Side(n)) && n.ycen == Centre(n.ymin, Side(n))
  }

  /** The leaves of a well-formed tree of exponent E are centred and no larger than the domain. */
  lemma {:induction false} WellFormedLeaves(leaves: map<Code, QtrNode>, E: nat)
    requires WellFormed(leaves, E)
    ensures forall K :: K in leaves ==> Centred(leaves[K]) && leaves[K].exponent <= E
  {
  }

  /** One leaf's term of order (p, q), shifted from the tabulated central moments of its
      square, is the moment of that square. */
  lemma {:induction false} ShiftIsNodeMoment(s: Shifted, n: QtrNode, c00: int, c2: int, p: nat, q: nat)
    requires Centred(n) && p + q <= 3
    requires SquareEntry(c00, c2, Side(n))
    requires IsShift(c00, c2 as real, c2 as real, n.xcen, n.ycen, s)
    ensures Term(s, p, q) == T2.NodeMoment(n, p, q)
  {
    ShiftIsRectMoment(s, c00, c2 as real, c2 as real, n.xcen, n.ycen, n.xmin, Side(n), n.ymin, Side(n), p, q);
  }

  /** Every one of the ten terms of a leaf is the moment of its square. */
  lemma {:induction false} ShiftIsLeafMoment(s: Shifted, n: QtrNode, c00: int, c2: int)
    requires Centred(n)
    requires SquareEntry(c00, c2, Side(n))
    requires IsShift(c00, c2 as real, c2 as real, n.xcen, n.ycen, s)
    ensures forall o :: o in Orders ==> Term(s, o.0, o.1) == T2.NodeMoment(n, o.0, o.1)
  {
    forall o | o in Orders
      ensures Term(s, o.0, o.1) == T2.NodeMoment(n, o.0, o.1)
    {
      ShiftIsNodeMoment(s, n, c00, c2, o.0, o.1);
    }
  }

  /** Adding one leaf's terms to sums over the leaves done so far gives the sums over done
      and that leaf; a white leaf adds nothing. */
  lemma {:induction false} AddLeafToSums(leaves: map<Code, QtrNode>, done: set<Code>, K: Code,
                      MM0: map<(nat, nat), int>, MM: map<(nat, nat), int>,
                      os: seq<(nat, nat)>)
    requires K in leaves && K !in done
    requires forall o :: o in os ==> o in MM0 && o in MM
    requires forall o :: o in os ==> MM0[o] == SumOver(done, T2.LeafMoment(leaves, o.0, o.1))
    requires forall o :: o in os ==> MM[o] == MM0[o] + T2.LeafMoment(leaves, o.0, o.1)(K)
    ensures forall o :: o in os ==> MM[o] == SumOver(done + {K}, T2.LeafMoment(leaves, o.0, o.1))
  {
    forall o | o in os
      ensures MM[o] == SumOver(done + {K}, T2.LeafMoment(leaves, o.0, o.1))
    {
      SumOverAdd(done, T2.LeafMoment(leaves, o.0, o.1), K);
    }
  }

  /** The body of the loop for one black leaf: look up the tables at its exponent, shift, and
      add the ten moments. */
  method AddLeaf(MM0: map<(nat, nat), int>, n: QtrNode, stored0: seq<int>, stored2: seq<int>)
    returns (MM: map<(nat, nat), int>)
    requires MM0.Keys == OrderKeys && |stored0| == |stored2| && n.exponent < |stored0|
    ensures MM.Keys == OrderKeys
    ensures StoredCorrect(stored0, stored2) && Centred(n) ==>
              forall o :: o in Orders ==> MM[o] == MM0[o] + T2.NodeMoment(n, o.0, o.1)
  {
    var x, y := n.xcen, n.ycen;
    var m00 := stored0[n.exponent];
    var c2 := stored2[n.exponent];
    var s := ShiftToOrigin(m00, c2 as real, c2 as real, x, y);
    MM := AddShifted(MM0, s);
    if StoredCorrect(stored0, stored2) && Centred(n) {
      assert SquareEntry(m00, c2, Side(n));
      ShiftIsLeafMoment(s, n, m00, c2);
    }
  }

  /** A black leaf whose exponent is beyond the tables. */
  predicate OutOfTable(leaves: map<Code, QtrNode>, K: Code, size: nat)
  {
    K in leaves && leaves[K].color != 0 && leaves[K].exponent >= size
  }

  /** Every leaf is centred. */
  predicate AllCentred(leaves: map<Code, QtrNode>)
  {
    forall K :: K in leaves ==> Centred(leaves[K])
  }

  /** The loop over the leaves: white leaves are skipped, a black leaf beyond the tables raises
      IndexError, and every other black leaf adds its ten moments. */
  method SumLeaves(leaves: map<Code, QtrNode>, stored0: seq<int>, stored2: seq<int>)
    returns (r: Result<map<(nat, nat), int>>)
    requires |stored0| == |stored2|
    ensures r.Failure? <==> exists K :: OutOfTable(leaves, K, |stored0|)
    ensures r.Failure? ==> r.error == IndexError
    ensures r.Success? ==> r.value.Keys == OrderKeys
    ensures r.Success? && StoredCorrect(stored0, stored2) && AllCentred(leaves) ==>
              forall o :: o in Orders ==> r.value[o] == SumOver(leaves.Keys, T2.LeafMoment(leaves, o.0, o.1))
  {
    var MM := map o | o in Orders :: 0;
    var todo := leaves.Keys;
    ghost var done: set<Code> := {};
    ghost var exact := StoredCorrect(stored0, stored2) && AllCentred(leaves);
    while todo != {}
      invariant todo + done == leaves.Keys && todo !! done
      invariant MM.Keys == OrderKeys
      invariant forall K :: K in done ==> !OutOfTable(leaves, K, |stored0|)
      invariant exact ==> forall o :: o in Orders ==> MM[o] == SumOver(done, T2.LeafMoment(leaves, o.0, o.1))
      decreases todo
    {
      var K :| K in todo;
      var node := leaves[K];
      ghost var MM0 := MM;
      if node.color != 0 {
        if node.exponent >= |stored0| {
          assert OutOfTable(leaves, K, |stored0|);
          return Failure(IndexError);
        }
        MM := AddLeaf(MM, node, stored0, stored2);
      }
      if exact {
        AddLeafToSums(leaves, done, K, MM0, MM, Orders);
      }
      todo := todo - {K};
      done := done + {K};
    }
    r := Success(MM);
  }

  /** Tables built for the side 2^E of a well-formed tree's domain reach every leaf: the
      IndexError cannot happen on the tree preprocessing was given. */
  lemma {:induction false} TablesCoverTree(leaves: map<Code, QtrNode>, E: nat, side: int, n: nat)
    requires WellFormed(leaves, E) && side == Pow(2, E) && Covers(n, side)
    ensures forall K :: !OutOfTable(leaves, K, n)
  {
    forall K | K in leaves
      ensures leaves[K].exponent < n
    {
      var e := leaves[K].exponent;
      assert e <= E;
      PowTwoMonotone(e, E);
      CoversExactly(n, side, e);
    }
  }

  /** The engine: the two tables are module globals, unset until preprocessing runs. */
  class TreeEngine2D {
    var stored: Option<(seq<int>, seq<int>)>

    ghost predicate Valid()
      reads this
    {
      stored.Some? ==> StoredCorrect(stored.value.0, stored.value.1)
    }

    /** The module as loaded: no tables yet. */
    constructor ()
      ensures stored == None && Valid()
    {
      stored := None;
    }

    /** preprocessing: tabulate the squares up to the side of the tree's domain. */
    method Preprocessing(QT: QtrTree)
      modifies this`stored
      ensures stored.Some? && Valid() && Covers(|stored.value.0|, QT.side)
    {
      var s0, s2 := SetCentralMoments(QT.side);
      stored := Some((s0, s2));
    }

    /** quadtreeMoments: NameError before preprocessing; otherwise the ten moments summed over
        the black leaves, which for a well-formed tree whose leaves are disjoint squares are
        the moments of the pixels they cover. */
    method QuadtreeMoments(QT: QtrTree) returns (r: Result<map<(nat, nat), int>>)
      requires Valid()
      ensures stored.None? ==> r == Failure(NameError)
      ensures stored.Some? ==>
                && (r.Failure? <==> exists K :: OutOfTable(QT.leaves, K, |stored.value.0|))
                && (r.Failure? ==> r.error == IndexError)
      ensures r.Success? ==> r.value.Keys == OrderKeys
      ensures r.Success? && AllCentred(QT.leaves) ==>
                forall o :: o in Orders ==> r.value[o] == SumOver(QT.leaves.Keys, T2.LeafMoment(QT.leaves, o.0, o.1))
      ensures r.Success? && WellFormed(QT.leaves, QT.exponent) && PairwiseDisjoint(QT.leaves.Keys, CellOf(QT.exponent)) ==>
                && (forall o :: o in Orders ==>
                      r.value[o] == Moment(UnionOf(QT.leaves.Keys, CellOf(QT.exponent)), o.0, o.1))
                && r.value[(0, 0)] == |UnionOf(QT.leaves.Keys, CellOf(QT.exponent))|
    {
      if stored.None? {
        return Failure(NameError);
      }
      var (s0, s2) := stored.value;
      r := SumLeaves(QT.leaves, s0, s2);
      if r.Success? && WellFormed(QT.leaves, QT.exponent) && PairwiseDisjoint(QT.leaves.Keys, CellOf(QT.exponent)) {
        WellFormedLeaves(QT.leaves, QT.exponent);
        T2.MomentsOfLeaves(QT.leaves, QT.exponent, r.value);
      }
    }
  }
}
