/** The bookkeeping of the Spiliotis-Mertzios scans: a list of finished blocks and an array of
    slots, each empty or holding one block still in progress.  The scans keep the cells of all
    these blocks pairwise disjoint and make their union the part of the image scanned so far;
    the lemmas here say how that is kept when a slot is overwritten or flushed. */
module Slots {
  import opened SetSums
  import opened Outcomes

  /** The cells of a slot: none when it is empty. */
  function SlotCells<T, U>(g: T -> set<U>): Option<T> -> set<U>
  {
    (o: Option<T>) => if o.None? then {} else g(o.value)
  }

  /** The cells of the finished blocks and of the blocks in progress. */
  ghost function Covered<T, U>(blocks: seq<T>, slots: seq<Option<T>>, g: T -> set<U>): set<U>
  {
    UnionSeq(blocks, g) + UnionSeq(slots, SlotCells(g))
  }

  /** No cell belongs to two blocks, finished or in progress. */
  ghost predicate Apart<T, U>(blocks: seq<T>, slots: seq<Option<T>>, g: T -> set<U>)
  {
    SeqDisjoint(blocks, g) && SeqDisjoint(slots, SlotCells(g))
    && UnionSeq(blocks, g) !! UnionSeq(slots, SlotCells(g))
  }

  /** Overwriting slot k with a block whose cells are the old slot's plus cells not covered
      yet keeps the blocks apart and adds those cells to the cover. */
  lemma {:induction false} ReplaceSlot<T, U>(blocks: seq<T>, slots: seq<Option<T>>, k: int, v: Option<T>,
                          added: set<U>, g: T -> set<U>)
    requires 0 <= k < |slots| && Apart(blocks, slots, g)
    requires added !! Covered(blocks, slots, g)
    requires SlotCells(g)(v) == SlotCells(g)(slots[k]) + added
    ensures Apart(blocks, slots[k := v], g)
    ensures Covered(blocks, slots[k := v], g) == Covered(blocks, slots, g) + added
  {
    var G := SlotCells(g);
    UnionSeqUpdate(slots, k, v, G);
    UnionSeqHolds(slots, G, k);
    assert UnionSeq(slots[k := v], G) == UnionSeq(slots, G) + added;
    forall i | 0 <= i < |slots| && i != k
      ensures G(v) !! G(slots[i])
    {
      UnionSeqHolds(slots, G, i);
      if i < k {
        assert G(slots[i]) !! G(slots[k]);
      } else {
        assert G(slots[k]) !! G(slots[i]);
      }
    }
    SeqDisjointUpdate(slots, k, v, G);
  }

  /** Moving the block of slot k to the end of the finished list keeps the blocks apart and
      the cover unchanged. */
  lemma {:induction false} MoveSlot<T, U>(blocks: seq<T>, slots: seq<Option<T>>, k: int, g: T -> set<U>)
    requires 0 <= k < |slots| && slots[k].Some? && Apart(blocks, slots, g)
    ensures Apart(blocks + [slots[k].value], slots[k := None], g)
    ensures Covered(blocks + [slots[k].value], slots[k := None], g) == Covered(blocks, slots, g)
  {
    var G := SlotCells(g);
    var b := slots[k].value;
    UnionSeqHolds(slots, G, k);
    UnionSeqSnoc(blocks, b, g);
    SeqDisjointSnoc(blocks, b, g);
    UnionSeqUpdate(slots, k, None, G);
    assert G(None) == {};
    forall i | 0 <= i < |slots| && i != k
      ensures G(None) !! G(slots[i])
    {
    }
    SeqDisjointUpdate(slots, k, None, G);
  }

  /** A row of empty slots covers nothing. */
  lemma {:induction false} EmptySlots<T, U>(slots: seq<Option<T>>, g: T -> set<U>)
    requires forall i :: 0 <= i < |slots| ==> slots[i].None?
    ensures UnionSeq(slots, SlotCells(g)) == {} && SeqDisjoint(slots, SlotCells(g))
    decreases |slots|
  {
    if slots != [] {
      EmptySlots(slots[..|slots| - 1], g);
    }
  }
}
