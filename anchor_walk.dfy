/**
 * The anchor walk: resolving the first item to render for a scroll offset by
 * walking from the stored anchor, one item at a time, in the scroll direction,
 * while accumulating into the pending size delta the difference between the
 * estimated and the real size of every item crossed.
 */
module AnchorWalk {
  import opened SizeCache

  datatype ScrollDirection = Forward | Backward

  /**
   * The state of a walk: the current item, the distance `delta` from that
   * item's position to the target offset, and the pending size delta.
   */
  datatype Anchor = Anchor(index: int, delta: int, sizeDelta: int)

  /**
   * The forward walk: while the target lies beyond the current item, step past
   * it (never beyond the last item) and credit estimate - size to the delta.
   */
  function WalkForward(sizeMap: map<int, int>, est: int, itemCount: int, index: int, delta: int, sizeDelta: int): (r: Anchor)
    requires WellFormed(sizeMap, est)
    ensures r.delta <= Size(sizeMap, est, r.index)
    ensures r.index <= Max(index, itemCount - 1)
    ensures index >= 0 && itemCount >= 1 ==> r.index >= 0
    decreases delta
  {
    var size := Size(sizeMap, est, index);
    if delta > size then
      WalkForward(sizeMap, est, itemCount, Min(itemCount - 1, index + 1), delta - size, sizeDelta + (est - size))
    else
      Anchor(index, delta, sizeDelta)
  }

  /**
   * The backward walk: while the target lies before the current item, step to
   * the previous item (never before item 0) and credit size - estimate to the delta.
   */
  function WalkBackward(sizeMap: map<int, int>, est: int, index: int, delta: int, sizeDelta: int): (r: Anchor)
    requires WellFormed(sizeMap, est)
    ensures r.delta >= 0
    ensures index >= 0 ==> 0 <= r.index <= index
    decreases -delta
  {
    if delta < 0 then
      var previous := Max(0, index - 1);
      var size := Size(sizeMap, est, previous);
      WalkBackward(sizeMap, est, previous, delta + size, sizeDelta - (est - size))
    else
      Anchor(index, delta, sizeDelta)
  }

  /** The walk from the stored anchor, whose estimated offset is anchorIndex * estimate, to `offset`. */
  function Resolve(
    sizeMap: map<int, int>, est: int, itemCount: int,
    anchorIndex: int, anchorSizeDelta: int, offset: int, direction: ScrollDirection): Anchor
    requires WellFormed(sizeMap, est)
  {
    var delta := offset - anchorIndex * est;
    if direction == Backward then WalkBackward(sizeMap, est, anchorIndex, delta, anchorSizeDelta)
    else WalkForward(sizeMap, est, itemCount, anchorIndex, delta, anchorSizeDelta)
  }

  /** The loops of the anchor walk; returns the new anchor index and the new pending size delta. */
  method ResolveAnchor(
    sizeMap: map<int, int>, est: int, itemCount: int,
    anchorIndex: int, anchorSizeDelta: int, offset: int, direction: ScrollDirection)
    returns (index: int, sizeDelta: int)
    requires WellFormed(sizeMap, est)
    ensures var r := Resolve(sizeMap, est, itemCount, anchorIndex, anchorSizeDelta, offset, direction);
            index == r.index && sizeDelta == r.sizeDelta
  {
    index, sizeDelta := anchorIndex, anchorSizeDelta;
    var offsetIndex := index * est;
    var delta := offset - offsetIndex;

    if direction == Backward {
      while delta < 0
        invariant WalkBackward(sizeMap, est, index, delta, sizeDelta)
               == WalkBackward(sizeMap, est, anchorIndex, offset - offsetIndex, anchorSizeDelta)
        decreases -delta
      {
        index := Max(0, index - 1);
        var nextSize := Size(sizeMap, est, index);
        sizeDelta := sizeDelta - (est - nextSize);
        delta := delta + nextSize;
      }
    } else {
      while delta > Size(sizeMap, est, index)
        invariant WalkForward(sizeMap, est, itemCount, index, delta, sizeDelta)
               == WalkForward(sizeMap, est, itemCount, anchorIndex, offset - offsetIndex, anchorSizeDelta)
        decreases delta
      {
        var nextSize := Size(sizeMap, est, index);
        sizeDelta := sizeDelta + (est - nextSize);
        delta := delta - nextSize;
        index := Min(itemCount - 1, index + 1);
      }
    }
  }

  /**
   * The forward walk from `anchor`, resumed at item `index` after crossing the
   * items [anchor, index) without a clamp: it ends inside the list, with what
   * is left of the target distance measured from the item where it stops.
   */
  lemma {:induction false} WalkForwardFrom(
    sizeMap: map<int, int>, est: int, itemCount: int, anchor: int, target: int, index: int, delta: int, sizeDelta: int)
    requires WellFormed(sizeMap, est)
    requires 0 <= anchor <= index <= itemCount - 1
    requires target <= SumSizes(sizeMap, est, anchor, itemCount)
    requires delta == target - SumSizes(sizeMap, est, anchor, index)
    ensures var r := WalkForward(sizeMap, est, itemCount, index, delta, sizeDelta);
            index <= r.index <= itemCount - 1 &&
            r.delta == target - SumSizes(sizeMap, est, anchor, r.index)
    decreases itemCount - index
  {
    var size := Size(sizeMap, est, index);
    if delta > size {
      assert SumSizes(sizeMap, est, anchor, index + 1) == SumSizes(sizeMap, est, anchor, index) + size;
      assert index < itemCount - 1;
      WalkForwardFrom(sizeMap, est, itemCount, anchor, target, index + 1, delta - size, sizeDelta + (est - size));
    }
  }

  /** The items the walk crosses all end before the target. */
  lemma {:induction false} WalkForwardCrossed(
    sizeMap: map<int, int>, est: int, itemCount: int, anchor: int, target: int, index: int, delta: int, sizeDelta: int)
    requires WellFormed(sizeMap, est)
    requires 0 <= anchor <= index <= itemCount - 1
    requires target <= SumSizes(sizeMap, est, anchor, itemCount)
    requires anchor < index ==> SumSizes(sizeMap, est, anchor, index) < target
    requires delta == target - SumSizes(sizeMap, est, anchor, index)
    ensures var r := WalkForward(sizeMap, est, itemCount, index, delta, sizeDelta);
            anchor < r.index ==> SumSizes(sizeMap, est, anchor, r.index) < target
    decreases itemCount - index
  {
    var size := Size(sizeMap, est, index);
    if delta > size {
      assert SumSizes(sizeMap, est, anchor, index + 1) == SumSizes(sizeMap, est, anchor, index) + size;
      assert index < itemCount - 1;
      WalkForwardCrossed(sizeMap, est, itemCount, anchor, target, index + 1, delta - size, sizeDelta + (est - size));
    }
  }

  /** Every item the walk crosses moves the size delta by estimate - size. */
  lemma {:induction false} WalkForwardGap(
    sizeMap: map<int, int>, est: int, itemCount: int, anchor: int, target: int, initialSizeDelta: int,
    index: int, delta: int, sizeDelta: int)
    requires WellFormed(sizeMap, est)
    requires 0 <= anchor <= index <= itemCount - 1
    requires target <= SumSizes(sizeMap, est, anchor, itemCount)
    requires delta == target - SumSizes(sizeMap, est, anchor, index)
    requires sizeDelta == initialSizeDelta - SizeGap(sizeMap, est, anchor, index)
    ensures var r := WalkForward(sizeMap, est, itemCount, index, delta, sizeDelta);
            r.sizeDelta == initialSizeDelta - SizeGap(sizeMap, est, anchor, r.index)
    decreases itemCount - index
  {
    var size := Size(sizeMap, est, index);
    if delta > size {
      assert SumSizes(sizeMap, est, anchor, index + 1) == SumSizes(sizeMap, est, anchor, index) + size;
      assert SizeGap(sizeMap, est, anchor, index + 1) == SizeGap(sizeMap, est, anchor, index) + (size - est);
      assert index < itemCount - 1;
      WalkForwardGap(sizeMap, est, itemCount, anchor, target, initialSizeDelta,
                     index + 1, delta - size, sizeDelta + (est - size));
    }
  }

  /**
   * A forward walk from an anchor inside the list to a target no further than
   * the end of the list stops on an item whose end is at or after the target;
   * when it crosses at least one item, the stop item's extent (start, end]
   * holds the target (a walk that takes no step stays on the anchor even when
   * the target lies before the anchor's end, as after a scroll to an item).
   * What is left of the target distance is measured from the stop item,
   * and the size delta is lowered by the gap (size - estimate) summed over the
   * items crossed.
   */
  lemma WalkForwardCovers(sizeMap: map<int, int>, est: int, itemCount: int, index: int, delta: int, sizeDelta: int)
    requires WellFormed(sizeMap, est)
    requires 0 <= index <= itemCount - 1
    requires delta <= SumSizes(sizeMap, est, index, itemCount)
    ensures var r := WalkForward(sizeMap, est, itemCount, index, delta, sizeDelta);
            index <= r.index <= itemCount - 1 &&
            delta <= SumSizes(sizeMap, est, index, r.index + 1) &&
            (index < r.index ==> SumSizes(sizeMap, est, index, r.index) < delta) &&
            r.delta == delta - SumSizes(sizeMap, est, index, r.index) &&
            r.sizeDelta == sizeDelta - SizeGap(sizeMap, est, index, r.index)
  {
    WalkForwardFrom(sizeMap, est, itemCount, index, delta, index, delta, sizeDelta);
    WalkForwardCrossed(sizeMap, est, itemCount, index, delta, index, delta, sizeDelta);
    WalkForwardGap(sizeMap, est, itemCount, index, delta, sizeDelta, index, delta, sizeDelta);
    var r := WalkForward(sizeMap, est, itemCount, index, delta, sizeDelta);
    assert SumSizes(sizeMap, est, index, r.index + 1) == SumSizes(sizeMap, est, index, r.index) + Size(sizeMap, est, r.index);
  }

  /**
   * A backward walk from an anchor to a target no earlier than the start of the
   * list stops on an item whose start is at or before the target; when it
   * crosses at least one item, the stop item's extent [start, end) holds the
   * target (a walk that takes no step stays on the anchor even when the target
   * lies at or past the anchor's end). The size delta grows by the sum of
   * size - estimate over the items crossed.
   */
  lemma {:induction false} WalkBackwardCovers(sizeMap: map<int, int>, est: int, index: int, delta: int, sizeDelta: int)
    requires WellFormed(sizeMap, est)
    requires 0 <= index
    requires 0 <= delta + SumSizes(sizeMap, est, 0, index)
    ensures var r := WalkBackward(sizeMap, est, index, delta, sizeDelta);
            0 <= r.index <= index &&
            r.delta == delta + SumSizes(sizeMap, est, r.index, index) &&
            (r.index < index ==> delta + SumSizes(sizeMap, est, r.index + 1, index) < 0) &&
            r.sizeDelta == sizeDelta + SizeGap(sizeMap, est, r.index, index)
    decreases index
  {
    assert SumSizes(sizeMap, est, index, index) == 0;
    if delta < 0 {
      var previous := index - 1;
      var size := Size(sizeMap, est, previous);
      WalkBackwardCovers(sizeMap, est, previous, delta + size, sizeDelta - (est - size));
    }
  }

  /** The arithmetic step of the accounting identity, kept apart from the walk. */
  lemma AccountingStep(offset: int, est: int, anchor: int, index: int, sum: int, gap: int,
                       delta: int, initialSizeDelta: int, sizeDelta: int)
    requires index <= anchor ==> delta == offset - anchor * est + sum && sizeDelta == initialSizeDelta + gap
                                 && gap == sum - (anchor - index) * est
    requires anchor < index ==> delta == offset - anchor * est - sum && sizeDelta == initialSizeDelta - gap
                                && gap == sum - (index - anchor) * est
    ensures offset - index * est == delta - (sizeDelta - initialSizeDelta)
  {
    if index <= anchor {
      assert (anchor - index) * est == anchor * est - index * est;
    } else {
      assert (index - anchor) * est == index * est - anchor * est;
    }
  }

  /**
   * While no clamp occurs, the walk keeps the accounting identity
   * offset - index * estimate == delta - (sizeDelta - initial sizeDelta):
   * the new anchor's estimated offset plus what is left of the target
   * distance, corrected by the accumulated size delta, is the target.
   */
  lemma ResolveAccounting(
    sizeMap: map<int, int>, est: int, itemCount: int,
    anchorIndex: int, anchorSizeDelta: int, offset: int, direction: ScrollDirection)
    requires WellFormed(sizeMap, est)
    requires 0 <= anchorIndex
    requires direction == Forward ==>
               anchorIndex <= itemCount - 1 &&
               offset - anchorIndex * est <= SumSizes(sizeMap, est, anchorIndex, itemCount)
    requires direction == Backward ==> 0 <= offset - anchorIndex * est + SumSizes(sizeMap, est, 0, anchorIndex)
    ensures var r := Resolve(sizeMap, est, itemCount, anchorIndex, anchorSizeDelta, offset, direction);
            offset - r.index * est == r.delta - (r.sizeDelta - anchorSizeDelta)
  {
    if direction == Backward {
      WalkBackwardAccounting(sizeMap, est, anchorIndex, anchorSizeDelta, offset);
    } else {
      WalkForwardAccounting(sizeMap, est, itemCount, anchorIndex, anchorSizeDelta, offset);
    }
  }

  lemma WalkForwardAccounting(sizeMap: map<int, int>, est: int, itemCount: int, anchor: int, sizeDelta: int, offset: int)
    requires WellFormed(sizeMap, est)
    requires 0 <= anchor <= itemCount - 1
    requires offset - anchor * est <= SumSizes(sizeMap, est, anchor, itemCount)
    ensures var r := WalkForward(sizeMap, est, itemCount, anchor, offset - anchor * est, sizeDelta);
            offset - r.index * est == r.delta - (r.sizeDelta - sizeDelta)
  {
    var delta := offset - anchor * est;
    WalkForwardCovers(sizeMap, est, itemCount, anchor, delta, sizeDelta);
    var r := WalkForward(sizeMap, est, itemCount, anchor, delta, sizeDelta);
    var sum, gap := SumSizes(sizeMap, est, anchor, r.index), SizeGap(sizeMap, est, anchor, r.index);
    assert gap == sum - (r.index - anchor) * est by {
      SizeGapIsSumMinusEstimate(sizeMap, est, anchor, r.index);
    }
    AccountingStep(offset, est, anchor, r.index, sum, gap, r.delta, sizeDelta, r.sizeDelta);
  }

  lemma WalkBackwardAccounting(sizeMap: map<int, int>, est: int, anchor: int, sizeDelta: int, offset: int)
    requires WellFormed(sizeMap, est)
    requires 0 <= anchor
    requires 0 <= offset - anchor * est + SumSizes(sizeMap, est, 0, anchor)
    ensures var r := WalkBackward(sizeMap, est, anchor, offset - anchor * est, sizeDelta);
            offset - r.index * est == r.delta - (r.sizeDelta - sizeDelta)
  {
    var delta := offset - anchor * est;
    WalkBackwardCovers(sizeMap, est, anchor, delta, sizeDelta);
    var r := WalkBackward(sizeMap, est, anchor, delta, sizeDelta);
    var sum, gap := SumSizes(sizeMap, est, r.index, anchor), SizeGap(sizeMap, est, r.index, anchor);
    assert gap == sum - (anchor - r.index) * est by {
      SizeGapIsSumMinusEstimate(sizeMap, est, r.index, anchor);
    }
    AccountingStep(offset, est, anchor, r.index, sum, gap, r.delta, sizeDelta, r.sizeDelta);
  }

  /**
   * Crossing only unmeasured items leaves the pending size delta unchanged;
   * measurements outside the crossed range play no part.
   */
  lemma ResolveOverUnmeasured(
    sizeMap: map<int, int>, est: int, itemCount: int,
    anchorIndex: int, anchorSizeDelta: int, offset: int, direction: ScrollDirection)
    requires WellFormed(sizeMap, est)
    requires 0 <= anchorIndex
    requires direction == Forward ==>
               anchorIndex <= itemCount - 1 &&
               offset - anchorIndex * est <= SumSizes(sizeMap, est, anchorIndex, itemCount)
    requires direction == Backward ==> 0 <= offset - anchorIndex * est + SumSizes(sizeMap, est, 0, anchorIndex)
    ensures var r := Resolve(sizeMap, est, itemCount, anchorIndex, anchorSizeDelta, offset, direction);
            (forall i :: Min(r.index, anchorIndex) <= i < Max(r.index, anchorIndex) ==> !Measured(sizeMap, i))
            ==> r.sizeDelta == anchorSizeDelta
  {
    var delta := offset - anchorIndex * est;
    var r := Resolve(sizeMap, est, itemCount, anchorIndex, anchorSizeDelta, offset, direction);
    if forall i :: Min(r.index, anchorIndex) <= i < Max(r.index, anchorIndex) ==> !Measured(sizeMap, i) {
      if direction == Backward {
        WalkBackwardCovers(sizeMap, est, anchorIndex, delta, anchorSizeDelta);
        SizeGapUnmeasured(sizeMap, est, r.index, anchorIndex);
      } else {
        WalkForwardCovers(sizeMap, est, itemCount, anchorIndex, delta, anchorSizeDelta);
        SizeGapUnmeasured(sizeMap, est, anchorIndex, r.index);
      }
    }
  }

  /**
   * Scroll compensation makes the walk stable: after a walk that started with
   * no pending delta, shifting the target offset by the delta it produced and
   * walking again from the new anchor stays on that anchor with no new delta.
   */
  lemma CompensatedOffsetIsStable(
    sizeMap: map<int, int>, est: int, itemCount: int,
    anchorIndex: int, offset: int, direction: ScrollDirection)
    requires WellFormed(sizeMap, est)
    requires 0 <= anchorIndex
    requires direction == Forward ==>
               anchorIndex <= itemCount - 1 &&
               offset - anchorIndex * est <= SumSizes(sizeMap, est, anchorIndex, itemCount)
    requires direction == Backward ==> 0 <= offset - anchorIndex * est + SumSizes(sizeMap, est, 0, anchorIndex)
    ensures var r := Resolve(sizeMap, est, itemCount, anchorIndex, 0, offset, direction);
            Resolve(sizeMap, est, itemCount, r.index, 0, offset + r.sizeDelta, direction) == Anchor(r.index, r.delta, 0)
  {
    ResolveAccounting(sizeMap, est, itemCount, anchorIndex, 0, offset, direction);
  }

  /** Resolving the estimated offset of the anchor itself, as scrolling to an item does, stays on the anchor. */
  lemma ResolveAnchorOffset(
    sizeMap: map<int, int>, est: int, itemCount: int,
    anchorIndex: int, anchorSizeDelta: int, direction: ScrollDirection)
    requires WellFormed(sizeMap, est)
    ensures Resolve(sizeMap, est, itemCount, anchorIndex, anchorSizeDelta, anchorIndex * est, direction)
         == Anchor(anchorIndex, 0, anchorSizeDelta)
  {
  }
}
