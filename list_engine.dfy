/**
 * The per-instance state of a dynamic-size list and the operations that change
 * it: resolving the start index (which moves the anchor), scrolling to an item,
 * recording the rendered stop index, receiving measurements, the single-slot
 * debounce timer, the unmount hook and the commit hook that applies the
 * pending size delta to the scroll offset.
 */
module ListEngine {
  import opened SizeCache
  import opened ItemLayout
  import opened AnchorWalk

  datatype Option<T> = None | Some(value: T)

  /** The estimate used when none is configured or it is 0. */
  const DefaultEstimatedItemSize: int := 50

  /** The configured estimate, or the default when the configured one is missing or 0. */
  function EffectiveEstimate(configured: Option<int>): (est: int)
    requires configured.Some? ==> configured.value >= 0
    ensures est > 0
    ensures configured.Some? && configured.value > 0 ==> est == configured.value
    ensures !(configured.Some? && configured.value > 0) ==> est == DefaultEstimatedItemSize
  {
    if configured.Some? && configured.value != 0 then configured.value else DefaultEstimatedItemSize
  }

  /** The alignment requested by a scroll-to-item call; the model, like the list, ignores it. */
  datatype ScrollToAlign = Auto | Smart | Center | End | Start

  class ListInstance {
    const estimatedItemSize: int
    var itemSizeMap: map<int, int>
    var anchorIndex: int
    var anchorSizeDelta: int
    var stopIndex: int

    /** A debounced re-render is scheduled (the timer handle is not null). */
    var timerPending: bool
    /** A first-after-mount measurement arrived since the last commit. */
    var hasNewMeasurements: bool
    /** The list's scroll offset (its state). */
    var scrollOffset: int
    /** The direction of the last scroll (its state), which picks the walk's direction. */
    var scrollDirection: ScrollDirection
    /** How many times a re-render was forced. */
    var forceUpdates: nat

    // Ghost bookkeeping: how many timers were armed, fired and cancelled,
    // and how much size delta the walks produced and the commits applied.
    ghost var timersArmed: nat
    ghost var timersFired: nat
    ghost var timersCancelled: nat
    ghost var accruedDelta: int
    ghost var appliedDelta: int
    /** The net distance the scroll events moved the scroll offset. */
    ghost var scrolledDelta: int
    /** The scroll offset the list was created with. */
    ghost const startScrollOffset: int

    /**
     * The instance invariant: a well-formed cache, an anchor inside the list's
     * index space, at most one live timer (every armed timer has fired or been
     * cancelled, except the pending one), and every unit of size delta the walks
     * produced is either applied to the scroll offset or still pending, and the
     * scroll offset has moved from where it started by exactly the scroll events'
     * moves plus the applied delta.
     */
    ghost predicate Valid()
      reads this
    {
      WellFormed(itemSizeMap, estimatedItemSize) &&
      anchorIndex >= 0 &&
      timersArmed == timersFired + timersCancelled + (if timerPending then 1 else 0) &&
      accruedDelta == appliedDelta + anchorSizeDelta &&
      scrollOffset == startScrollOffset + scrolledDelta + appliedDelta
    }

    /** The state the read-only layout queries consult. */
    function Layout(): LayoutState
      reads this
    {
      LayoutState(itemSizeMap, estimatedItemSize, anchorIndex, stopIndex)
    }

    /** Creates the instance state with its defaults. */
    constructor (configuredEstimate: Option<int>, initialScrollOffset: int)
      requires configuredEstimate.Some? ==> configuredEstimate.value >= 0
      ensures Valid()
      ensures estimatedItemSize == EffectiveEstimate(configuredEstimate)
      ensures itemSizeMap == map[] && anchorIndex == 0 && anchorSizeDelta == 0 && stopIndex == 0
      ensures !timerPending && !hasNewMeasurements
      ensures scrollOffset == initialScrollOffset && scrollDirection == Forward && forceUpdates == 0
      ensures timersArmed == 0 && accruedDelta == 0 && scrolledDelta == 0
    {
      estimatedItemSize := EffectiveEstimate(configuredEstimate);
      itemSizeMap := map[];
      anchorIndex := 0;
      anchorSizeDelta := 0;
      stopIndex := 0;
      timerPending := false;
      hasNewMeasurements := false;
      scrollOffset := initialScrollOffset;
      scrollDirection := Forward;
      forceUpdates := 0;
      timersArmed, timersFired, timersCancelled := 0, 0, 0;
      accruedDelta, appliedDelta, scrolledDelta := 0, 0, 0;
      startScrollOffset := initialScrollOffset;
    }

    /**
     * Scroll to an item: the target is the item's estimated offset, and the
     * item becomes the anchor. Alignment and the current offset are ignored.
     */
    method GetOffsetForIndexAndAlignment(index: int, align: ScrollToAlign, currentScrollOffset: int)
      returns (offset: int)
      requires Valid()
      requires index >= 0
      modifies this`anchorIndex
      ensures Valid()
      ensures offset == index * estimatedItemSize
      ensures anchorIndex == index
    {
      anchorIndex := index;
      offset := index * estimatedItemSize;
    }

    /**
     * A scroll event: the list's state takes the new scroll offset and the
     * direction of the move.
     */
    method Scroll(newOffset: int, direction: ScrollDirection)
      requires Valid()
      modifies this`scrollOffset, this`scrollDirection, this`scrolledDelta
      ensures Valid()
      ensures scrollOffset == newOffset && scrollDirection == direction
      ensures scrolledDelta == old(scrolledDelta) + (newOffset - old(scrollOffset))
    {
      scrolledDelta := scrolledDelta + (newOffset - scrollOffset);
      scrollOffset := newOffset;
      scrollDirection := direction;
    }

    /**
     * Resolve the first item to render for `offset` by the anchor walk in the
     * direction of the last scroll, and store the new anchor and pending size delta.
     */
    method GetStartIndexForOffset(offset: int, itemCount: int)
      returns (startIndex: int)
      requires Valid()
      requires itemCount >= 1
      modifies this`anchorIndex, this`anchorSizeDelta, this`accruedDelta
      ensures Valid()
      ensures var r := Resolve(itemSizeMap, estimatedItemSize, itemCount,
                               old(anchorIndex), old(anchorSizeDelta), offset, scrollDirection);
              anchorIndex == r.index && anchorSizeDelta == r.sizeDelta
      ensures accruedDelta - old(accruedDelta) == anchorSizeDelta - old(anchorSizeDelta)
      ensures startIndex == anchorIndex
    {
      var index, sizeDelta := ResolveAnchor(itemSizeMap, estimatedItemSize, itemCount,
                                            anchorIndex, anchorSizeDelta, offset, scrollDirection);
      accruedDelta := accruedDelta + (sizeDelta - anchorSizeDelta);
      anchorIndex := index;
      anchorSizeDelta := sizeDelta;
      startIndex := anchorIndex;
    }

    /** The render records the stop index of the range it renders. */
    method RecordStopIndex(renderedStopIndex: int)
      requires Valid()
      modifies this`stopIndex
      ensures Valid()
      ensures stopIndex == renderedStopIndex
    {
      stopIndex := renderedStopIndex;
    }

    /** Schedule a re-render unless one is already scheduled. */
    method DebounceForceUpdate()
      requires Valid()
      modifies this`timerPending, this`timersArmed
      ensures Valid()
      ensures timerPending
      ensures timersArmed == old(timersArmed) + (if old(timerPending) then 0 else 1)
    {
      if !timerPending {
        timerPending := true;
        timersArmed := timersArmed + 1;
      }
    }

    /** The scheduled timer fires: the slot is cleared and one re-render is forced. */
    method FireTimer()
      requires Valid()
      requires timerPending
      modifies this`timerPending, this`forceUpdates, this`timersFired
      ensures Valid()
      ensures !timerPending
      ensures forceUpdates == old(forceUpdates) + 1
      ensures timersFired == old(timersFired) + 1
    {
      timerPending := false;
      timersFired := timersFired + 1;
      forceUpdates := forceUpdates + 1;
    }

    /** Before unmounting, cancel the scheduled timer if there is one. */
    method UnmountHook()
      requires Valid()
      modifies this`timerPending, this`timersCancelled
      ensures Valid()
      ensures !timerPending
      ensures timersCancelled == old(timersCancelled) + (if old(timerPending) then 1 else 0)
    {
      if timerPending {
        timerPending := false;
        timersCancelled := timersCancelled + 1;
      }
    }

    /**
     * After mount and every update: apply the pending size delta once to the
     * scroll offset and clear it; consume the new-measurements flag, forcing a
     * re-render when sizes changed but the delta came to 0.
     */
    method CommitHook()
      requires Valid()
      modifies this`anchorSizeDelta, this`scrollOffset, this`hasNewMeasurements,
               this`forceUpdates, this`appliedDelta
      ensures Valid()
      ensures anchorSizeDelta == 0
      ensures scrollOffset == old(scrollOffset) + old(anchorSizeDelta)
      ensures appliedDelta == old(appliedDelta) + old(anchorSizeDelta)
      ensures !hasNewMeasurements
      ensures forceUpdates == old(forceUpdates)
                + (if old(hasNewMeasurements) && old(anchorSizeDelta) == 0 then 1 else 0)
    {
      var anchorSizeDeltaForStateUpdate := anchorSizeDelta;

      if anchorSizeDeltaForStateUpdate != 0 {
        anchorSizeDelta := anchorSizeDelta - anchorSizeDeltaForStateUpdate;
        scrollOffset := scrollOffset + anchorSizeDeltaForStateUpdate;
        appliedDelta := appliedDelta + anchorSizeDeltaForStateUpdate;
      }

      if hasNewMeasurements {
        hasNewMeasurements := false;
        if anchorSizeDeltaForStateUpdate == 0 {
          forceUpdates := forceUpdates + 1;
        }
      }
    }

    /**
     * A measurement report: the size of item `index` is overwritten; a first
     * measurement after mounting marks new measurements for the next commit,
     * any other one schedules a debounced re-render.
     */
    method HandleNewMeasurements(index: int, newSize: int, isFirstMeasureAfterMounting: bool)
      requires Valid()
      requires newSize >= 0
      modifies this`itemSizeMap, this`hasNewMeasurements, this`timerPending, this`timersArmed
      ensures Valid()
      ensures itemSizeMap == old(itemSizeMap)[index := newSize]
      ensures isFirstMeasureAfterMounting ==>
                hasNewMeasurements && timerPending == old(timerPending) && timersArmed == old(timersArmed)
      ensures !isFirstMeasureAfterMounting ==>
                hasNewMeasurements == old(hasNewMeasurements) && timerPending &&
                timersArmed == old(timersArmed) + (if old(timerPending) then 0 else 1)
    {
      itemSizeMap := itemSizeMap[index := newSize];

      if isFirstMeasureAfterMounting {
        hasNewMeasurements := true;
      } else {
        DebounceForceUpdate();
      }
    }
  }
}
