/**
 * Read-only layout queries of a dynamic-size list: the offset and size of an
 * item, the estimated total extent, and the last index to render for a
 * viewport. They read a snapshot of the instance state and change nothing.
 */
module ItemLayout {
  import opened SizeCache

  /**
   * The part of the per-instance state that the layout queries consult: the
   * measured sizes, the estimate, the anchor and the stop index of the last render.
   */
  datatype LayoutState = LayoutState(
    itemSizeMap: map<int, int>,
    estimatedItemSize: int,
    anchorIndex: int,
    stopIndex: int)
  {
    predicate Valid() {
      WellFormed(itemSizeMap, estimatedItemSize)
    }

    function SizeOf(i: int): int {
      Size(itemSizeMap, estimatedItemSize, i)
    }

    function Sum(lo: int, hi: int): int {
      SumSizes(itemSizeMap, estimatedItemSize, lo, hi)
    }

    /** Indices strictly after the anchor and up to the stop index have been walked. */
    predicate InWalkedRange(index: int) {
      anchorIndex < index <= stopIndex
    }

    /** The number of items in [anchorIndex, stopIndex]. */
    function WindowLength(): int {
      if stopIndex >= anchorIndex then stopIndex - anchorIndex + 1 else 0
    }
  }

  datatype ItemMetadata = ItemMetadata(offset: int, size: int)

  /**
   * The metadata of item `index`: the anchor sits at its estimated offset
   * anchorIndex * estimate; items in the walked range are laid out after it by
   * their sizes; every other item is placed at the anchor's offset.
   */
  function Metadata(p: LayoutState, index: int): (md: ItemMetadata)
    ensures p.Valid() ==> md.size > 0
    ensures p.Valid() && p.anchorIndex >= 0 ==> md.offset >= 0
  {
    var base := p.anchorIndex * p.estimatedItemSize;
    ItemMetadata(
      if p.InWalkedRange(index) then base + p.Sum(p.anchorIndex, index) else base,
      p.SizeOf(index))
  }

  /** The sizes of the window [anchorIndex, stopIndex] plus the estimate for every other item. */
  function TotalSize(p: LayoutState, itemCount: int): int {
    p.Sum(p.anchorIndex, p.stopIndex + 1) + (itemCount - p.WindowLength()) * p.estimatedItemSize
  }

  /** The offset of the far edge of item `k` when the items from `startIndex` on are laid out one after another. */
  function TrailingEdge(p: LayoutState, startIndex: int, k: int): int {
    Metadata(p, startIndex).offset + p.Sum(startIndex, k + 1)
  }

  method GetItemMetadata(p: LayoutState, index: int) returns (md: ItemMetadata)
    ensures md == Metadata(p, index)
  {
    var size := p.SizeOf(index);
    var offset := p.anchorIndex * p.estimatedItemSize;
    if index > p.anchorIndex && index <= p.stopIndex {
      var i := p.anchorIndex;
      while i < index
        invariant p.anchorIndex <= i <= index
        invariant offset == p.anchorIndex * p.estimatedItemSize + p.Sum(p.anchorIndex, i)
      {
        offset := offset + p.SizeOf(i);
        i := i + 1;
      }
    }
    md := ItemMetadata(offset, size);
  }

  method GetEstimatedTotalSize(p: LayoutState, itemCount: int) returns (total: int)
    ensures total == TotalSize(p, itemCount)
  {
    var totalMeasuredSize := 0;
    var rendered := 0;
    var i := p.anchorIndex;
    while i <= p.stopIndex
      invariant p.anchorIndex <= i && (i <= p.stopIndex + 1 || i == p.anchorIndex)
      invariant totalMeasuredSize == p.Sum(p.anchorIndex, i)
      invariant rendered == i - p.anchorIndex
    {
      totalMeasuredSize := totalMeasuredSize + p.SizeOf(i);
      rendered := rendered + 1;
      i := i + 1;
    }
    var restSize := (itemCount - rendered) * p.estimatedItemSize;
    total := restSize + totalMeasuredSize;
  }

  /** The `direction` property of a list. */
  datatype Direction = Ltr | Rtl | HorizontalDirection | VerticalDirection

  /** The `layout` property of a list. */
  datatype Layout = Horizontal | Vertical

  /** The extent of the viewport along the scrolling axis. */
  function ViewportSize(direction: Direction, layout: Layout, width: int, height: int): int {
    if direction == HorizontalDirection || layout == Horizontal then width else height
  }

  /**
   * The last index to render: advance from `startIndex` while the far edge of
   * the current item is still before the viewport's far edge and items remain.
   */
  method GetStopIndexForStartIndex(
    p: LayoutState, itemCount: int, direction: Direction, layout: Layout,
    width: int, height: int, startIndex: int, scrollOffset: int)
    returns (stopIndex: int)
    ensures startIndex <= stopIndex <= Max(startIndex, itemCount - 1)
    ensures forall k :: startIndex <= k < stopIndex ==>
              TrailingEdge(p, startIndex, k) < scrollOffset + ViewportSize(direction, layout, width, height)
    ensures stopIndex < itemCount - 1 ==>
              scrollOffset + ViewportSize(direction, layout, width, height) <= TrailingEdge(p, startIndex, stopIndex)
  {
    var size := ViewportSize(direction, layout, width, height);
    var itemMetadata := GetItemMetadata(p, startIndex);
    var maxOffset := scrollOffset + size;

    var offset := itemMetadata.offset + itemMetadata.size;
    stopIndex := startIndex;
    assert SumSizes(p.itemSizeMap, p.estimatedItemSize, startIndex, startIndex) == 0;

    while stopIndex < itemCount - 1 && offset < maxOffset
      invariant startIndex <= stopIndex <= Max(startIndex, itemCount - 1)
      invariant offset == TrailingEdge(p, startIndex, stopIndex)
      invariant forall k :: startIndex <= k < stopIndex ==> TrailingEdge(p, startIndex, k) < maxOffset
      decreases itemCount - stopIndex
    {
      stopIndex := stopIndex + 1;
      var next := GetItemMetadata(p, stopIndex);
      offset := offset + next.size;
    }
  }

  /** Inside the walked window, each item starts exactly where the previous one ends. */
  lemma MetadataContiguous(p: LayoutState, i: int)
    requires p.anchorIndex <= i < p.stopIndex
    ensures Metadata(p, i + 1).offset == Metadata(p, i).offset + Metadata(p, i).size
  {
    assert p.Sum(p.anchorIndex, i + 1) == p.Sum(p.anchorIndex, i) + p.SizeOf(i);
  }

  /** Inside the walked window, offsets strictly increase with the index. */
  lemma MetadataOffsetIncreasing(p: LayoutState, i: int, j: int)
    requires p.Valid()
    requires p.anchorIndex <= i < j <= p.stopIndex
    ensures Metadata(p, i).offset < Metadata(p, j).offset
  {
    SumSizesSplit(p.itemSizeMap, p.estimatedItemSize, p.anchorIndex, i, j);
    assert p.Sum(i, j) > 0;
  }

  /** With nothing measured in the window, the total extent is the item count times the estimate. */
  lemma TotalSizeUnmeasured(p: LayoutState, itemCount: int)
    requires forall i :: p.anchorIndex <= i <= p.stopIndex ==> !Measured(p.itemSizeMap, i)
    ensures TotalSize(p, itemCount) == itemCount * p.estimatedItemSize
  {
    if p.stopIndex >= p.anchorIndex {
      SumSizesUnmeasured(p.itemSizeMap, p.estimatedItemSize, p.anchorIndex, p.stopIndex + 1);
    }
  }

  /** A fresh instance (empty cache, anchor 0, stop 0) estimates itemCount * estimate. */
  lemma FreshTotalSize(est: int, itemCount: int)
    ensures TotalSize(LayoutState(map[], est, 0, 0), itemCount) == itemCount * est
  {
    TotalSizeUnmeasured(LayoutState(map[], est, 0, 0), itemCount);
  }

  /** When the window spans the whole list, the total is exactly the sum of all sizes. */
  lemma TotalSizeWholeList(p: LayoutState, itemCount: int)
    requires itemCount >= 0
    requires p.anchorIndex == 0 && p.stopIndex == itemCount - 1
    ensures TotalSize(p, itemCount) == p.Sum(0, itemCount)
  {
    assert p.WindowLength() == itemCount;
  }

  /** The estimated total extent is never negative while the window fits in the list. */
  lemma TotalSizeNonNegative(p: LayoutState, itemCount: int)
    requires p.Valid()
    requires p.WindowLength() <= itemCount
    ensures TotalSize(p, itemCount) >= 0
  {
  }

  /** A new measurement for item `i` changes the total by the change in Size(i) if `i` is in the window, else not at all. */
  lemma TotalSizeAfterMeasurement(p: LayoutState, itemCount: int, i: int, newSize: int)
    ensures var q := p.(itemSizeMap := p.itemSizeMap[i := newSize]);
            TotalSize(q, itemCount)
            == TotalSize(p, itemCount)
               + (if p.anchorIndex <= i <= p.stopIndex then q.SizeOf(i) - p.SizeOf(i) else 0)
  {
    SumSizesAfterMeasurement(p.itemSizeMap, p.estimatedItemSize, p.anchorIndex, p.stopIndex + 1, i, newSize);
  }

  /**
   * A new measurement for item `i` changes the size of item `i` only, and moves
   * exactly the walked items after `i` by the change in its size.
   */
  lemma MetadataAfterMeasurement(p: LayoutState, i: int, newSize: int, index: int)
    ensures var q := p.(itemSizeMap := p.itemSizeMap[i := newSize]);
            Metadata(q, index).size == (if index == i then q.SizeOf(i) else p.SizeOf(index)) &&
            Metadata(q, index).offset
            == Metadata(p, index).offset
               + (if p.InWalkedRange(index) && p.anchorIndex <= i < index then q.SizeOf(i) - p.SizeOf(i) else 0)
  {
    SumSizesAfterMeasurement(p.itemSizeMap, p.estimatedItemSize, p.anchorIndex, index, i, newSize);
  }
}
