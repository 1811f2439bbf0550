/** Sums of integer weights over finite sets, unions of set families, and sums over
    sequences.  A moment of a binary image is such a sum over its set of black pixels, and every
    decomposition (quadtree leaves, Spiliotis-Mertzios blocks) splits that set into disjoint
    pieces whose sums add up. */
module SetSums {

  /** f summed over the finite set s. */
  ghost function SumOver<T>(s: set<T>, f: T -> int): int
    decreases s
  {
    if s == {} then 0 else var x :| x in s; f(x) + SumOver(s - {x}, f)
  }

  /** Any element can be taken out first: the sum does not depend on the order. */
  lemma {:induction false} SumOverRemove<T>(s: set<T>, f: T -> int, y: T)
    requires y in s
    ensures SumOver(s, f) == f(y) + SumOver(s - {y}, f)
    decreases s
  {
    var x :| x in s && SumOver(s, f) == f(x) + SumOver(s - {x}, f);
    if x != y {
      assert s - {x} - {y} == s - {y} - {x};
      SumOverRemove(s - {x}, f, y);
      SumOverRemove(s - {y}, f, x);
    }
  }

  lemma {:induction false} SumOverSingleton<T>(x: T, f: T -> int)
    ensures SumOver({x}, f) == f(x)
  {
    SumOverRemove({x}, f, x);
    assert {x} - {x} == {};
  }

  /** Adding a new element adds its value. */
  lemma {:induction false} SumOverAdd<T>(s: set<T>, f: T -> int, y: T)
    requires y !in s
    ensures SumOver(s + {y}, f) == f(y) + SumOver(s, f)
  {
    SumOverRemove(s + {y}, f, y);
    assert s + {y} - {y} == s;
  }

  /** The sum over a disjoint union is the sum of the sums. */
  lemma {:induction false} SumOverUnion<T>(a: set<T>, b: set<T>, f: T -> int)
    requires a !! b
    ensures SumOver(a + b, f) == SumOver(a, f) + SumOver(b, f)
    decreases a
  {
    if a != {} {
      var x :| x in a;
      SumOverRemove(a + b, f, x);
      SumOverRemove(a, f, x);
      assert (a + b) - {x} == (a - {x}) + b;
      SumOverUnion(a - {x}, b, f);
    } else {
      assert a + b == b;
    }
  }

  /** Weights that agree on s give the same sum. */
  lemma {:induction false} SumOverCongruent<T>(s: set<T>, f: T -> int, g: T -> int)
    requires forall x :: x in s ==> f(x) == g(x)
    ensures SumOver(s, f) == SumOver(s, g)
    decreases s
  {
    if s != {} {
      var x :| x in s;
      SumOverRemove(s, f, x);
      SumOverRemove(s, g, x);
      SumOverCongruent(s - {x}, f, g);
    }
  }

  /** A sum of zero weights is zero. */
  lemma {:induction false} SumOverZero<T>(s: set<T>, f: T -> int)
    requires forall x :: x in s ==> f(x) == 0
    ensures SumOver(s, f) == 0
    decreases s
  {
    if s != {} {
      var x :| x in s;
      SumOverRemove(s, f, x);
      SumOverZero(s - {x}, f);
    }
  }

  /** A constant weight sums to that constant times the size of the set. */
  lemma {:induction false} SumOverConstant<T>(s: set<T>, f: T -> int, c: int)
    requires forall x :: x in s ==> f(x) == c
    ensures SumOver(s, f) == c * |s|
    decreases s
  {
    if s != {} {
      var x :| x in s;
      SumOverRemove(s, f, x);
      SumOverConstant(s - {x}, f, c);
    }
  }

  /** Multiplying every weight by c multiplies the sum by c. */
  lemma {:induction false} SumOverScale<T>(s: set<T>, f: T -> int, g: T -> int, c: int)
    requires forall x :: x in s ==> g(x) == c * f(x)
    ensures SumOver(s, g) == c * SumOver(s, f)
    decreases s
  {
    if s != {} {
      var x :| x in s;
      SumOverRemove(s, f, x);
      SumOverRemove(s, g, x);
      SumOverScale(s - {x}, f, g, c);
    }
  }

  /** A subset is no larger than its superset. */
  lemma {:induction false} SubsetSize<T>(a: set<T>, b: set<T>)
    requires a <= b
    ensures |a| <= |b|
    decreases b
  {
    if a != {} {
      var x :| x in a;
      SubsetSize(a - {x}, b - {x});
    }
  }

  /** The union of the sets g(k) for k in keys. */
  ghost function UnionOf<K, T>(keys: set<K>, g: K -> set<T>): set<T>
    decreases keys
  {
    if keys == {} then {} else var k :| k in keys; g(k) + UnionOf(keys - {k}, g)
  }

  lemma {:induction false} UnionOfMember<K, T>(keys: set<K>, g: K -> set<T>, t: T)
    ensures t in UnionOf(keys, g) <==> exists k :: k in keys && t in g(k)
    decreases keys
  {
    if keys != {} {
      var k :| k in keys && UnionOf(keys, g) == g(k) + UnionOf(keys - {k}, g);
      UnionOfMember(keys - {k}, g, t);
      if t in g(k) {
        assert exists k' :: k' in keys && t in g(k');
      }
      if exists k' :: k' in keys && t in g(k') {
        var k' :| k' in keys && t in g(k');
        if k' != k {
          assert k' in keys - {k};
        }
      }
    }
  }

  /** The members of a family's union, stated pointwise. */
  lemma {:induction false} UnionOfIsUnion<K, T>(keys: set<K>, g: K -> set<T>)
    ensures forall t :: t in UnionOf(keys, g) <==> exists k :: k in keys && t in g(k)
  {
    forall t
      ensures t in UnionOf(keys, g) <==> exists k :: k in keys && t in g(k)
    {
      UnionOfMember(keys, g, t);
    }
  }

  /** The sets of a family are pairwise disjoint. */
  ghost predicate PairwiseDisjoint<K, T>(keys: set<K>, g: K -> set<T>)
  {
    forall k1, k2 :: k1 in keys && k2 in keys && k1 != k2 ==> g(k1) !! g(k2)
  }

  /** The sum over the union of a pairwise disjoint family is the sum, over the family, of
      the sums over its members. */
  lemma {:induction false} SumOverFamily<K, T>(keys: set<K>, g: K -> set<T>, f: T -> int,
                                               h: K -> int)
    requires PairwiseDisjoint(keys, g)
    requires forall k :: k in keys ==> h(k) == SumOver(g(k), f)
    ensures SumOver(UnionOf(keys, g), f) == SumOver(keys, h)
    decreases keys
  {
    if keys != {} {
      var k :| k in keys && UnionOf(keys, g) == g(k) + UnionOf(keys - {k}, g);
      var rest := UnionOf(keys - {k}, g);
      forall t | t in rest
        ensures t !in g(k)
      {
        UnionOfMember(keys - {k}, g, t);
        var k' :| k' in keys - {k} && t in g(k');
      }
      SumOverUnion(g(k), rest, f);
      SumOverFamily(keys - {k}, g, f, h);
      SumOverRemove(keys, h, k);
    }
  }

  /** Sum of f over the elements of a sequence, first to last. */
  function SumSeq<T>(xs: seq<T>, f: T -> int): int
  {
    if xs == [] then 0 else SumSeq(xs[..|xs| - 1], f) + f(xs[|xs| - 1])
  }

  lemma {:induction false} SumSeqAppend<T>(xs: seq<T>, ys: seq<T>, f: T -> int)
    ensures SumSeq(xs + ys, f) == SumSeq(xs, f) + SumSeq(ys, f)
    decreases |ys|
  {
    if ys == [] {
      assert xs + ys == xs;
    } else {
      var zs := ys[..|ys| - 1];
      assert (xs + ys)[..|xs + ys| - 1] == xs + zs;
      SumSeqAppend(xs, zs, f);
    }
  }

  /** The union of g over the elements of a sequence. */
  ghost function UnionSeq<T, U>(xs: seq<T>, g: T -> set<U>): set<U>
  {
    if xs == [] then {} else UnionSeq(xs[..|xs| - 1], g) + g(xs[|xs| - 1])
  }

  lemma {:induction false} UnionSeqAppend<T, U>(xs: seq<T>, ys: seq<T>, g: T -> set<U>)
    ensures UnionSeq(xs + ys, g) == UnionSeq(xs, g) + UnionSeq(ys, g)
    decreases |ys|
  {
    if ys == [] {
      assert xs + ys == xs;
    } else {
      var zs := ys[..|ys| - 1];
      assert (xs + ys)[..|xs + ys| - 1] == xs + zs;
      UnionSeqAppend(xs, zs, g);
    }
  }

  lemma {:induction false} UnionSeqMember<T, U>(xs: seq<T>, g: T -> set<U>, u: U)
    ensures u in UnionSeq(xs, g) <==> exists i :: 0 <= i < |xs| && u in g(xs[i])
    decreases |xs|
  {
    if xs != [] {
      var ys := xs[..|xs| - 1];
      UnionSeqMember(ys, g, u);
      if exists i :: 0 <= i < |ys| && u in g(ys[i]) {
        var i :| 0 <= i < |ys| && u in g(ys[i]);
        assert xs[i] == ys[i];
      }
      if exists i :: 0 <= i < |xs| && u in g(xs[i]) {
        var i :| 0 <= i < |xs| && u in g(xs[i]);
        if i < |ys| {
          assert xs[i] == ys[i];
        }
      }
    }
  }

  /** The elements of a sequence have pairwise disjoint images under g. */
  ghost predicate SeqDisjoint<T, U>(xs: seq<T>, g: T -> set<U>)
  {
    forall i, j :: 0 <= i < j < |xs| ==> g(xs[i]) !! g(xs[j])
  }

  /** The sum over the union of pairwise disjoint pieces is the sum of the pieces' sums. */
  lemma {:induction false} SumOverUnionSeq<T, U>(xs: seq<T>, g: T -> set<U>, f: U -> int,
                                                 h: T -> int)
    requires SeqDisjoint(xs, g)
    requires forall i :: 0 <= i < |xs| ==> h(xs[i]) == SumOver(g(xs[i]), f)
    ensures SumOver(UnionSeq(xs, g), f) == SumSeq(xs, h)
    decreases |xs|
  {
    if xs != [] {
      var ys := xs[..|xs| - 1];
      var last := xs[|xs| - 1];
      assert forall i :: 0 <= i < |ys| ==> ys[i] == xs[i];
      SumOverUnionSeq(ys, g, f, h);
      forall u | u in UnionSeq(ys, g)
        ensures u !in g(last)
      {
        UnionSeqMember(ys, g, u);
      }
      SumOverUnion(UnionSeq(ys, g), g(last), f);
    }
  }

  /** Appending an element adds its image to the union. */
  lemma {:induction false} UnionSeqSnoc<T, U>(xs: seq<T>, x: T, g: T -> set<U>)
    ensures UnionSeq(xs + [x], g) == UnionSeq(xs, g) + g(x)
  {
    assert (xs + [x])[..|xs|] == xs;
  }

  /** The image of every element lies in the union. */
  lemma {:induction false} UnionSeqHolds<T, U>(xs: seq<T>, g: T -> set<U>, i: int)
    requires 0 <= i < |xs|
    ensures g(xs[i]) <= UnionSeq(xs, g)
  {
    forall u | u in g(xs[i])
      ensures u in UnionSeq(xs, g)
    {
      UnionSeqMember(xs, g, u);
    }
  }

  /** Replacing one element of a disjoint sequence replaces its image in the union. */
  lemma {:induction false} UnionSeqUpdate<T, U>(xs: seq<T>, k: int, v: T, g: T -> set<U>)
    requires 0 <= k < |xs| && SeqDisjoint(xs, g)
    ensures UnionSeq(xs[k := v], g) == UnionSeq(xs, g) - g(xs[k]) + g(v)
  {
    var ys := xs[k := v];
    assert |ys| == |xs|;
    var R := UnionSeq(xs, g) - g(xs[k]) + g(v);
    forall u | u in R
      ensures u in UnionSeq(ys, g)
    {
      UnionSeqMember(xs, g, u);
      UnionSeqMember(ys, g, u);
      if u in g(v) {
        assert ys[k] == v && u in g(ys[k]);
      } else {
        var i :| 0 <= i < |xs| && u in g(xs[i]);
        assert i != k && ys[i] == xs[i] && u in g(ys[i]);
      }
    }
    forall u | u in UnionSeq(ys, g)
      ensures u in R
    {
      UnionSeqMember(xs, g, u);
      UnionSeqMember(ys, g, u);
      if u !in g(v) {
        var i :| 0 <= i < |ys| && u in g(ys[i]);
        assert i != k && ys[i] == xs[i];
        if i < k {
          assert g(xs[i]) !! g(xs[k]);
        } else {
          assert g(xs[k]) !! g(xs[i]);
        }
      }
    }
  }

  /** Replacing one element by one whose image misses the others' keeps the sequence
      disjoint. */
  lemma {:induction false} SeqDisjointUpdate<T, U>(xs: seq<T>, k: int, v: T, g: T -> set<U>)
    requires 0 <= k < |xs| && SeqDisjoint(xs, g)
    requires forall i :: 0 <= i < |xs| && i != k ==> g(v) !! g(xs[i])
    ensures SeqDisjoint(xs[k := v], g)
  {
  }

  /** Appending an element whose image misses the union keeps the sequence disjoint. */
  lemma {:induction false} SeqDisjointSnoc<T, U>(xs: seq<T>, x: T, g: T -> set<U>)
    requires SeqDisjoint(xs, g) && g(x) !! UnionSeq(xs, g)
    ensures SeqDisjoint(xs + [x], g)
  {
    forall i | 0 <= i < |xs|
      ensures g(xs[i]) !! g(x)
    {
      UnionSeqHolds(xs, g, i);
    }
  }

  /** The largest of a non-empty list of integers. */
  function MaxOf(xs: seq<int>): (m: int)
    requires |xs| > 0
    ensures forall i :: 0 <= i < |xs| ==> xs[i] <= m
    ensures exists i :: 0 <= i < |xs| && xs[i] == m
  {
    if |xs| == 1 then xs[0]
    else
      var m' := MaxOf(xs[..|xs| - 1]);
      assert forall i :: 0 <= i < |xs| - 1 ==> xs[..|xs| - 1][i] == xs[i];
      if xs[|xs| - 1] > m' then xs[|xs| - 1] else m'
  }

  /** The largest value of f over a list, and 0 for an empty list or when every value
      is below 0: the running maximum the source starts from 0. */
  function MaxOver<T>(xs: seq<T>, f: T -> int): (m: int)
    ensures m >= 0
    ensures forall i :: 0 <= i < |xs| ==> f(xs[i]) <= m
    ensures m == 0 || exists i :: 0 <= i < |xs| && f(xs[i]) == m
  {
    if xs == [] then 0
    else
      var rest := MaxOver(xs[..|xs| - 1], f);
      assert forall i :: 0 <= i < |xs| - 1 ==> xs[..|xs| - 1][i] == xs[i];
      var last := f(xs[|xs| - 1]);
      if last > rest then last else rest
  }

  // ----- Bags: the check that a list of pieces is a partition of a list of cells -----

  /** The cells of a list of pieces, each counted once per piece holding it. */
  ghost function SeqBag<T, U>(xs: seq<T>, g: T -> set<U>): multiset<U>
  {
    if xs == [] then multiset{} else SeqBag(xs[..|xs| - 1], g) + multiset(g(xs[|xs| - 1]))
  }

  /** The list with the first occurrence of p removed (Python's list.remove). */
  function RemoveFirst<U(==)>(s: seq<U>, p: U): (r: seq<U>)
    requires p in s
    ensures multiset(r) == multiset(s) - multiset{p}
  {
    assert s == [s[0]] + s[1..];
    if s[0] == p then s[1..] else [s[0]] + RemoveFirst(s[1..], p)
  }

  lemma {:induction false} BagOfDisjointUnion<U>(A: set<U>, B: set<U>)
    requires A !! B
    ensures multiset(A + B) == multiset(A) + multiset(B)
  {
    assert forall u :: multiset(A + B)[u] == (multiset(A) + multiset(B))[u];
  }

  lemma {:induction false} BagAssoc<U>(a: multiset<U>, b: multiset<U>, c: multiset<U>)
    ensures a + b + c == a + (b + c)
  {
    assert forall u :: (a + b + c)[u] == (a + (b + c))[u];
  }

  /** One removal of a check that crosses the cells seen off a list of the cells M: a cell
      still listed is removed, and one that is not makes the check fail. */
  lemma {:induction false} RemovalStep<U>(M: multiset<U>, seen: multiset<U>, rest: seq<U>, p: U)
    requires multiset(rest) == M - seen
    ensures p in rest ==> multiset(RemoveFirst(rest, p)) == M - (seen + multiset{p})
    ensures p !in rest ==> multiset(rest) == M - (seen + multiset{p})
    ensures (seen + multiset{p} <= M) <==> (seen <= M && p in rest)
  {
    assert p in rest <==> M[p] > seen[p];
    assert forall u :: (M - (seen + multiset{p}))[u] == (if u == p && M[p] > seen[p] then (M - seen)[u] - 1 else (M - seen)[u]);
  }

  /** No cell is left and no removal failed exactly when the cells seen are M. */
  lemma {:induction false} RemovalEnds<U>(M: multiset<U>, T: multiset<U>, rest: seq<U>)
    requires multiset(rest) == M - T
    ensures (T <= M && |rest| == 0) <==> T == M
  {
    if T <= M && |rest| == 0 {
      assert forall u :: (M - T)[u] == 0;
    }
  }

  /** A cell is in the bag exactly when some piece holds it. */
  lemma {:induction false} SeqBagMember<T, U>(xs: seq<T>, g: T -> set<U>, u: U)
    ensures SeqBag(xs, g)[u] > 0 <==> u in UnionSeq(xs, g)
    decreases |xs|
  {
    if xs != [] {
      SeqBagMember(xs[..|xs| - 1], g, u);
    }
  }

  /** Disjoint pieces count every cell once. */
  lemma {:induction false} BagOfDisjointSeq<T, U>(xs: seq<T>, g: T -> set<U>)
    requires SeqDisjoint(xs, g)
    ensures SeqBag(xs, g) == multiset(UnionSeq(xs, g))
    decreases |xs|
  {
    if xs != [] {
      var pre := xs[..|xs| - 1];
      var last := xs[|xs| - 1];
      assert forall i :: 0 <= i < |pre| ==> pre[i] == xs[i];
      BagOfDisjointSeq(pre, g);
      forall u | u in UnionSeq(pre, g)
        ensures u !in g(last)
      {
        UnionSeqMember(pre, g, u);
      }
      BagOfDisjointUnion(UnionSeq(pre, g), g(last));
    }
  }

  /** Pieces counting no cell twice are disjoint. */
  lemma {:induction false} SingleCountIsDisjoint<T, U>(xs: seq<T>, g: T -> set<U>)
    requires forall u :: SeqBag(xs, g)[u] <= 1
    ensures SeqDisjoint(xs, g)
    decreases |xs|
  {
    if xs != [] {
      var pre := xs[..|xs| - 1];
      var last := xs[|xs| - 1];
      assert forall i :: 0 <= i < |pre| ==> pre[i] == xs[i];
      assert forall u :: SeqBag(pre, g)[u] <= SeqBag(xs, g)[u];
      SingleCountIsDisjoint(pre, g);
      forall i | 0 <= i < |pre|
        ensures g(pre[i]) !! g(last)
      {
        forall u | u in g(pre[i])
          ensures u !in g(last)
        {
          UnionSeqHolds(pre, g, i);
          SeqBagMember(pre, g, u);
          assert SeqBag(xs, g)[u] == SeqBag(pre, g)[u] + multiset(g(last))[u];
          CountAtMostOne(SeqBag(xs, g), u);
        }
      }
    }
  }

  lemma {:induction false} CountAtMostOne<U>(M: multiset<U>, u: U)
    requires forall v :: M[v] <= 1
    ensures M[u] <= 1
  {
  }

  /** Sets with equal multisets are equal. */
  lemma {:induction false} SameBagSameSet<U>(A: set<U>, B: set<U>)
    requires multiset(A) == multiset(B)
    ensures A == B
  {
    forall u | u in A
      ensures u in B
    {
      assert multiset(A)[u] == multiset(B)[u];
    }
    forall u | u in B
      ensures u in A
    {
      assert multiset(A)[u] == multiset(B)[u];
    }
  }

  /** The set of cells listed. */
  function ListSet<U>(xs: seq<U>): set<U>
  {
    set u | u in xs
  }

  /** A list without repeated cells is the multiset of its set of cells. */
  lemma {:induction false} DistinctBag<U>(img: seq<U>)
    requires forall i, j :: 0 <= i < j < |img| ==> img[i] != img[j]
    ensures multiset(img) == multiset(ListSet(img))
    decreases |img|
  {
    if img != [] {
      var pre := img[..|img| - 1];
      var last := img[|img| - 1];
      assert img == pre + [last];
      DistinctBag(pre);
      assert ListSet(img) == ListSet(pre) + {last};
      BagOfDisjointUnion(ListSet(pre), {last});
    }
  }

  /** For a list of cells without repeats, the pieces count each cell as often as the list
      exactly when they are pairwise disjoint and cover exactly the listed cells. */
  lemma {:induction false} SeqBagIsPartition<T, U>(xs: seq<T>, g: T -> set<U>, img: seq<U>)
    requires forall i, j :: 0 <= i < j < |img| ==> img[i] != img[j]
    ensures SeqBag(xs, g) == multiset(img)
            <==> SeqDisjoint(xs, g) && UnionSeq(xs, g) == ListSet(img)
  {
    DistinctBag(img);
    var S := ListSet(img);
    if SeqBag(xs, g) == multiset(img) {
      assert forall u :: SeqBag(xs, g)[u] == multiset(S)[u];
      SingleCountIsDisjoint(xs, g);
      BagOfDisjointSeq(xs, g);
      SameBagSameSet(UnionSeq(xs, g), S);
    }
    if SeqDisjoint(xs, g) && UnionSeq(xs, g) == S {
      BagOfDisjointSeq(xs, g);
      assert SeqBag(xs, g) == multiset(S);
    }
  }
}
