/** The central-moment method on an octree: the central moments mu000 and
    mu200 = mu020 = mu002 of the cubes of side 2^e are tabulated, and every black leaf adds
    the twenty moments of its cube, shifted from its centre (xcen, ycen, zcen) to the origin.
    The moments are summed as they are, without int(). */
module MomentTreeNew3D {
  import opened PowerSums
  import opened SetSums
  import opened Outcomes
  import opened Commons3D
  import opened CentralShift3D
  import opened Octree
  import T3 = MomentTree3D
  import TN2 = MomentTreeNew2D

  /** mu000 = a and mu200 = mu020 = mu002 = b are the central moments of the L x L x L cube:
      a = L^3 and b = L^2 (L^3 - L) / 12. */
  predicate CubeEntry(a: int, b: int, L: int)
  {
    a == L * L * L && b as real == L as real * L as real * Central2(L)
  }

  /** Entry e of the two tables holds the central moments of the cube of side 2^e. */
  predicate StoredCorrect(stored0: seq<int>, stored2: seq<int>)
  {
    && |stored0| == |stored2|
    && forall e :: 0 <= e < |stored0| ==> CubeEntry(stored0[e], stored2[e], Pow(2, e))
  }

  /** For an even L, 2 L sum_{j=1..L/2} (j - 1/2)^2 is an integer k, and k = L mu20 of the
      L x L square. */
  lemma {:induction false} EvenEntry(L: int, f: real, S: real, c: real) returns (k: int)
    requires L >= 2 && L % 2 == 0 && f == (2 * L) as real && S == SumHalf(L / 2) && c == Central2(L)
    ensures f * S == k as real && k as real == L as real * c
  {
    var m := L / 2;
    k := 4 * m * PowerSum(2, m) - 2 * m * m * (m + 1) + m * m;
    assert L == 2 * m;
    TN2.EvenSquareCentral(m, L, k, f, S, c);
  }

  /** 2 L^2 S = L (2 L S): when 2 L S is the integer k = L mu20, 2 L^2 S is the integer
      L k = L^2 mu20, which int() keeps. */
  lemma {:induction false} CubeFromSquare(L: int, k: int, h: real, g: real, S: real, c: real)
    requires h == (2 * L) as real && g == (2 * (L * L)) as real && h * S == k as real && k as real == L as real * c
    ensures Trunc(g * S) == L * k && (L * k) as real == L as real * L as real * c
  {
    assert g == L as real * h;
    assert g * S == (L * k) as real;
    TruncOfInteger(L * k);
  }

  /** The entry the while loop appends for edge L: edge^3 and int(2 edge^2 sommaQ), which is
      exactly L^2 mu200 of the L x L x L cube, so int() loses nothing. */
  lemma {:induction false} TreeEntry(L: int, sq: int, sommaQ: real)
    requires L >= 2 && L % 2 == 0 && sq == L * L && sommaQ == SumHalf(L / 2)
    ensures CubeEntry(L * sq, Trunc((2 * sq) as real * sommaQ), L)
  {
    var k := EvenEntry(L, (2 * L) as real, sommaQ, Central2(L));
    CubeOfSquare(L, sq, k, sommaQ);
  }

  /** When 2 L S is the integer k = L mu20 of the L x L square, L^3 and int(2 L^2 S) are the
      table entry for side L. */
  lemma {:induction false} CubeOfSquare(L: int, sq: int, k: int, S: real)
    requires sq == L * L && (2 * L) as real * S == k as real && k as real == L as real * Central2(L)
    ensures CubeEntry(L * sq, Trunc((2 * sq) as real * S), L)
  {
    CubeFromSquare(L, k, (2 * L) as real, (2 * sq) as real, S, Central2(L));
    CubeEntryOf(L, sq, Trunc((2 * sq) as real * S), L * k);
  }

  /** The integer b = L k with L k = L^2 mu20 makes, with L^3, the table entry for side L. */
  lemma {:induction false} CubeEntryOf(L: int, sq: int, b: int, t: int)
    requires sq == L * L && b == t && t as real == L as real * L as real * Central2(L)
    ensures CubeEntry(L * sq, b, L)
  {
    Associate(L, L, L);
  }

  /** Appending the entry for side 2^|stored0| keeps the tables correct. */
  lemma {:induction false} StoreCube(stored0: seq<int>, stored2: seq<int>, a: int, b: int, L: int)
    requires StoredCorrect(stored0, stored2) && L == Pow(2, |stored0|) && CubeEntry(a, b, L)
    ensures StoredCorrect(stored0 + [a], stored2 + [b])
  {
  }

  /** setCentralMoments: the entries for sides 1 and 2, then while edge <= max_side the odd t
      between the previous edge and this one add (t/2)^2 to sommaQ, and edge^3 and
      int(2 edge^2 sommaQ) are appended. */
  method SetCentralMoments(maxSide: int) returns (stored0: seq<int>, stored2: seq<int>)
    ensures StoredCorrect(stored0, stored2)
    ensures TN2.Covers(|stored0|, maxSide)
  {
    stored0 := [1, 8];
    stored2 := [0, 2];
    assert Pow(2, 0) == 1 && Pow(2, 1) == 2;
    assert CubeEntry(8, 2, 2);
    var prev := 2;
    var edge := 4;
    var sommaQ := 0.25;
    while edge <= maxSide
      invariant TN2.Doubling(|stored0|, prev, edge)
      invariant sommaQ == SumHalf(prev / 2)
      invariant StoredCorrect(stored0, stored2)
      invariant |stored0| > 2 ==> Pow(2, |stored0| - 1) <= maxSide
      decreases maxSide - edge
    {
      sommaQ := TN2.AddOddSquares(prev, edge, sommaQ);
      var sqrEdge := edge * edge;
      TreeEntry(edge, sqrEdge, sommaQ);
      StoreCube(stored0, stored2, edge * sqrEdge, Trunc((2 * sqrEdge) as real * sommaQ), edge);
      TN2.DoublingStep(|stored0|, prev, edge);
      stored0 := stored0 + [edge * sqrEdge];
      stored2 := stored2 + [Trunc((2 * sqrEdge) as real * sommaQ)];
      prev := edge;
      edge := edge * 2;
    }
  }

  /** The centre a node stores is the centre of its cube. */
  predicate Centred(n: OctNode)
  {
    && n.xcen == Centre(n.xmin, Side(n)) && n.ycen == Centre(n.ymin, Side(n))
    && n.zcen == Centre(n.zmin, Side(n))
  }

  /** Every leaf is centred. */
  predicate AllCentred(leaves: map<Code, OctNode>)
  {
    forall K :: K in leaves ==> Centred(leaves[K])
  }

  /** The leaves of a well-formed tree of exponent E are centred and no larger than the domain. */
  lemma {:induction false} WellFormedLeaves(leaves: map<Code, OctNode>, E: nat)
    requires WellFormed(leaves, E)
    ensures AllCentred(leaves)
    ensures forall K :: K in leaves ==> leaves[K].exponent <= E
  {
  }

  /** One leaf's moment of order (p, q, r), shifted from the tabulated central moments of its
      cube, is the moment of that cube. */
  lemma {:induction false} ShiftIsNodeMoment(s: Shifted3, n: OctNode, c000: int, c2: int, p: nat, q: nat, r: nat)
    requires Centred(n) && p + q + r <= 3
    requires CubeEntry(c000, c2, Side(n))
    requires IsShift3(c000, c2 as real, c2 as real, c2 as real, n.xcen, n.ycen, n.zcen, s)
    ensures Field3(s, p, q, r) == T3.NodeMoment(n, p, q, r) as real
  {
    var L := Side(n);
    ShiftIsBoxMoment(s, c000, c2 as real, c2 as real, c2 as real, n.xcen, n.ycen, n.zcen,
                     n.xmin, L, n.ymin, L, n.zmin, L, p, q, r);
  }

  /** Every one of the twenty moments of a leaf is the moment of its cube. */
  lemma {:induction false} ShiftIsLeafMoment(s: Shifted3, n: OctNode, c000: int, c2: int)
    requires Centred(n)
    requires CubeEntry(c000, c2, Side(n))
    requires IsShift3(c000, c2 as real, c2 as real, c2 as real, n.xcen, n.ycen, n.zcen, s)
    ensures forall o :: o in Orders ==> Field3(s, o.0, o.1, o.2) == T3.NodeMoment(n, o.0, o.1, o.2) as real
  {
    OrdersAreAllUpToThree();
    forall o | o in Orders
      ensures Field3(s, o.0, o.1, o.2) == T3.NodeMoment(n, o.0, o.1, o.2) as real
    {
      assert (o.0, o.1, o.2) in Orders;
      ShiftIsNodeMoment(s, n, c000, c2, o.0, o.1, o.2);
    }
  }

  /** The body of the loop for one black leaf: look up the tables at its exponent, shift, and
      add the twenty moments. */
  method AddLeaf(MM0: map<(nat, nat, nat), real>, n: OctNode, stored0: seq<int>, stored2: seq<int>)
    returns (MM: map<(nat, nat, nat), real>)
    requires MM0.Keys == OrderKeys && |stored0| == |stored2| && n.exponent < |stored0|
    ensures MM.Keys == OrderKeys
    ensures StoredCorrect(stored0, stored2) && Centred(n) ==>
              forall o :: o in Orders ==> MM[o] == MM0[o] + T3.NodeMoment(n, o.0, o.1, o.2) as real
  {
    var x, y, z := n.xcen, n.ycen, n.zcen;
    var m000 := stored0[n.exponent];
    var c2 := stored2[n.exponent];
    var s := ShiftToOrigin3(m000, c2 as real, c2 as real, c2 as real, x, y, z);
    MM := AddShiftedReal3(MM0, s);
    if StoredCorrect(stored0, stored2) && Centred(n) {
      assert CubeEntry(m000, c2, Side(n));
      ShiftIsLeafMoment(s, n, m000, c2);
    }
  }

  /** Adding one leaf's moments to sums over the leaves done so far gives the sums over done
      and that leaf; a white leaf adds nothing. */
  lemma {:induction false} AddLeafToSums(leaves: map<Code, OctNode>, done: set<Code>, K: Code,
                      MM0: map<(nat, nat, nat), real>, MM: map<(nat, nat, nat), real>,
                      os: seq<(nat, nat, nat)>)
    requires K in leaves && K !in done
    requires forall o :: o in os ==> o in MM0 && o in MM
    requires forall o :: o in os ==> MM0[o] == SumOver(done, T3.LeafMoment(leaves, o.0, o.1, o.2)) as real
    requires forall o :: o in os ==> MM[o] == MM0[o] + T3.LeafMoment(leaves, o.0, o.1, o.2)(K) as real
    ensures forall o :: o in os ==> MM[o] == SumOver(done + {K}, T3.LeafMoment(leaves, o.0, o.1, o.2)) as real
  {
    forall o | o in os
      ensures MM[o] == SumOver(done + {K}, T3.LeafMoment(leaves, o.0, o.1, o.2)) as real
    {
      var f := T3.LeafMoment(leaves, o.0, o.1, o.2);
      SumOverAdd(done, f, K);
      CastSum(MM[o], MM0[o], SumOver(done, f), f(K), SumOver(done + {K}, f));
    }
  }

  /** A real sum that starts from the integer a and gains the integer b is the integer a + b. */
  lemma {:induction false} CastSum(x: real, x0: real, a: int, b: int, t: int)
    requires x0 == a as real && x == x0 + b as real && t == b + a
    ensures x == t as real
  {
  }

  /** A black leaf whose exponent is beyond the tables. */
  predicate OutOfTable(leaves: map<Code, OctNode>, K: Code, size: nat)
  {
    K in leaves && leaves[K].color != 0 && leaves[K].exponent >= size
  }

  /** The loop over the leaves: white leaves are skipped, a black leaf beyond the tables raises
      IndexError, and every other black leaf adds its twenty moments. */
  method SumLeaves(leaves: map<Code, OctNode>, stored0: seq<int>, stored2: seq<int>)
    returns (r: Result<map<(nat, nat, nat), real>>)
    requires |stored0| == |stored2|
    ensures r.Failure? <==> exists K :: OutOfTable(leaves, K, |stored0|)
    ensures r.Failure? ==> r.error == IndexError
    ensures r.Success? ==> r.value.Keys == OrderKeys
    ensures r.Success? && StoredCorrect(stored0, stored2) && AllCentred(leaves) ==>
              forall o :: o in Orders ==> r.value[o] == SumOver(leaves.Keys, T3.LeafMoment(leaves, o.0, o.1, o.2)) as real
  {
    var MM := map o | o in Orders :: 0.0;
    var todo := leaves.Keys;
    ghost var done: set<Code> := {};
    ghost var exact := StoredCorrect(stored0, stored2) && AllCentred(leaves);
    while todo != {}
      invariant todo + done == leaves.Keys && todo !! done
      invariant MM.Keys == OrderKeys
      invariant forall K :: K in done ==> !OutOfTable(leaves, K, |stored0|)
      invariant exact ==>
                  forall o :: o in Orders ==> MM[o] == SumOver(done, T3.LeafMoment(leaves, o.0, o.1, o.2)) as real
      decreases todo
    {
      var K :| K in todo;
      var node := leaves[K];
      ghost var MM0 := MM;
      if node.color != 0 {
        if node.exponent >= |stored0| {
          assert OutOfTable(leaves, K, |stored0|);
          return Failure(IndexError);
        }
        MM := AddLeaf(MM, node, stored0, stored2);
      }
      if exact {
        AddLeafToSums(leaves, done, K, MM0, MM, Orders);
      }
      todo := todo - {K};
      done := done + {K};
    }
    r := Success(MM);
  }

  /** Tables built for the side 2^E of a well-formed tree's domain reach every leaf. */
  lemma {:induction false} TablesCoverTree(leaves: map<Code, OctNode>, E: nat, side: int, n: nat)
    requires WellFormed(leaves, E) && side == Pow(2, E) && TN2.Covers(n, side)
    ensures forall K :: !OutOfTable(leaves, K, n)
  {
    forall K | K in leaves
      ensures leaves[K].exponent < n
    {
      var e := leaves[K].exponent;
      assert e <= E;
      PowTwoMonotone(e, E);
      TN2.CoversExactly(n, side, e);
    }
  }

  /** A black leaf larger than both the unit cube and the side the tables were built for. */
  predicate BeyondSide(leaves: map<Code, OctNode>, K: Code, side: int)
  {
    K in leaves && leaves[K].color != 0 && leaves[K].exponent > 1 && Pow(2, leaves[K].exponent) > side
  }

  /** For tables that cover a side exactly, a black leaf is out of the tables just when its
      cube is larger than that side. */
  lemma {:induction false} OutOfTableIsBeyondSide(leaves: map<Code, OctNode>, side: int, n: nat)
    requires TN2.Covers(n, side)
    ensures (exists K :: OutOfTable(leaves, K, n)) <==> (exists K :: BeyondSide(leaves, K, side))
  {
    forall K | K in leaves
      ensures OutOfTable(leaves, K, n) <==> BeyondSide(leaves, K, side)
    {
      TN2.CoversExactly(n, side, leaves[K].exponent);
    }
  }

  /** octreeMoments: the tables are rebuilt for OT.side (the globals set by preprocessing are
      not read), then the twenty moments are summed over the black leaves.  IndexError only
      when a black leaf is a cube larger than OT.side, which a well-formed tree of side 2^E
      never has; otherwise each moment is the sum of the leaf moments, which for a tree whose
      leaves are disjoint cubes is the moment of the voxels they cover. */
  method OctreeMoments(OT: OctTree) returns (r: Result<map<(nat, nat, nat), real>>)
    ensures r.Failure? <==> exists K :: BeyondSide(OT.leaves, K, OT.side)
    ensures r.Failure? ==> r.error == IndexError
    ensures r.Success? ==> r.value.Keys == OrderKeys
    ensures r.Success? && AllCentred(OT.leaves) ==>
              forall o :: o in Orders ==>
                r.value[o] == SumOver(OT.leaves.Keys, T3.LeafMoment(OT.leaves, o.0, o.1, o.2)) as real
    ensures WellFormed(OT.leaves, OT.exponent) && OT.side == Pow(2, OT.exponent) ==> r.Success?
    ensures r.Success? && WellFormed(OT.leaves, OT.exponent) && PairwiseDisjoint(OT.leaves.Keys, CellOf(OT.exponent)) ==>
              && (forall o :: o in Orders ==>
                    r.value[o] == Moment(UnionOf(OT.leaves.Keys, CellOf(OT.exponent)), o.0, o.1, o.2) as real)
              && r.value[(0, 0, 0)] == |UnionOf(OT.leaves.Keys, CellOf(OT.exponent))| as real
  {
    var s0, s2 := SetCentralMoments(OT.side);
    r := SumLeaves(OT.leaves, s0, s2);
    OutOfTableIsBeyondSide(OT.leaves, OT.side, |s0|);
    if WellFormed(OT.leaves, OT.exponent) && OT.side == Pow(2, OT.exponent) {
      TablesCoverTree(OT.leaves, OT.exponent, OT.side, |s0|);
    }
    if r.Success? && WellFormed(OT.leaves, OT.exponent) && PairwiseDisjoint(OT.leaves.Keys, CellOf(OT.exponent)) {
      WellFormedLeaves(OT.leaves, OT.exponent);
      T3.MomentsOfLeaves(OT.leaves, OT.exponent, r.value);
    }
  }

  /** The module globals stored0 and stored2, which preprocessing sets and octreeMoments does
      not read. */
  class TreeEngine3D {
    var stored: Option<(seq<int>, seq<int>)>

    /** The module as loaded: no tables yet. */
    constructor ()
      ensures stored == None
    {
      stored := None;
    }

    /** preprocessing: tabulate the cubes up to the side of the tree's domain. */
    method Preprocessing(QT: OctTree)
      modifies this`stored
      ensures stored.Some? && StoredCorrect(stored.value.0, stored.value.1)
      ensures TN2.Covers(|stored.value.0|, QT.side)
    {
      var s0, s2 := SetCentralMoments(QT.side);
      stored := Some((s0, s2));
    }
  }
}
