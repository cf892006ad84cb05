# DynamicSizeList windowing engine, in Dafny

This project models the engine behind react-window's `DynamicSizeList`. The engine decides which items of a long list to render, and where to place them, when item sizes are known only after each item has been rendered and measured. It has three parts:

- **Size cache and offset arithmetic** (`sizes.dfy`, `item_layout.dfy`). The cache is a sparse map from item index to measured size. The size of an item is its measurement if that is present and non-zero, else the estimate. The read-only queries are:
  - `getItemMetadata`: an item's offset and size;
  - `getEstimatedTotalSize`: the scrollable extent;
  - `getStopIndexForStartIndex`: the last item to render for a viewport.

  Each query is a loop method, proved equal to (or characterised by) a recursive specification function. Lemmas about those functions state how the layout behaves.
- **The anchor walk** (`anchor_walk.dfy`). `getStartIndexForOffset` walks from the stored anchor, forward or backward in the direction of the last scroll, towards the target offset. It stops on an item whose end (forward) or start (backward) is on the far side of the target; the item's extent holds the target whenever the walk crossed at least one item. On every step it adds the gap between estimated and real size to the pending size delta. `WalkForward` and `WalkBackward` define the walk, and `ResolveAnchor` runs the loops. The lemmas state three things:
  - where the walk stops;
  - how the delta accounts for the items crossed;
  - that applying the delta to the scroll offset makes the next walk stay put.
- **The per-instance state machine** (`list_engine.dfy`). Class `ListInstance` holds:
  - the cache;
  - the anchor index, pending size delta and stop index;
  - the single-slot debounce timer and the new-measurements flag;
  - the scroll offset and a count of forced re-renders.

  Its methods are the list-component callbacks `getOffsetForIndexAndAlignment` and `getStartIndexForOffset` (src/DynamicSizeList.js:106, 163), the closures that `initInstanceProps` installs (src/DynamicSizeList.js:224-386), the stop-index write of the render, and `Scroll`, the scroll event that sets the list's scroll offset and direction; each has a contract stating the whole new state. Ghost counters and the invariant `Valid()` state two facts. At most one timer is ever live. Every unit of size delta the walks produce is either pending or applied, and the scroll offset differs from its initial value by exactly the scroll events' moves plus the applied delta, so each unit of delta reaches the scroll offset once.

`scenarios.dfy` holds four client methods. Using the contracts alone, they check four cases: a fresh list, a compensation after a measured item is crossed, a burst of measurements that schedules one re-render, and reports for different items that leave the same cache in either order of arrival.

In these places `src/DynamicSizeList.js` behaves differently from what a first reading suggests; the model follows the code:
- `getItemMetadata` places an item outside the walked range (anchor, stop] at the anchor's offset `anchorIndex * estimate`, not at `index * estimate` (src/DynamicSizeList.js:58-66).
- A later measurement arms the debounce timer only when none is pending. A burst is not re-armed on every measurement (src/DynamicSizeList.js:238-245).
- A first-after-mount measurement only sets a flag. The commit hook forces the re-render, and only when the delta is 0 (src/DynamicSizeList.js:296-305).
- The estimated total is exact only when the window [anchor, stop] spans the whole list (`TotalSizeWholeList`). Measuring every item does not make it exact: items outside the window count at the estimate (src/DynamicSizeList.js:74-83).
- The two walk directions treat item boundaries differently. The forward walk stops on an item whose end is at or after the target, and the backward walk on an item whose start is at or before it. When the walk crosses at least one item, the stop item's extent (start, end] (forward) or [start, end) (backward) holds the target. A walk that takes no step stays on the anchor even when the anchor's extent does not hold the target, as after a scroll to an item. `WalkForwardCovers` and `WalkBackwardCovers` state this.

Sizes and offsets are unbounded integers. The estimate must be positive: a negative configured estimate is truthy under `||` (src/DynamicSizeList.js:228) and is not rejected, and with it the walk loops of src/DynamicSizeList.js:178-190 can run forever: each step over an unmeasured item moves the delta away from the loop's exit condition. Measurements must be non-negative, and a measurement of 0 falls back to the estimate, as the JavaScript `||` does.

## Model

| member | source | states |
|---|---|---|
| `SizeCache.Size` | src/DynamicSizeList.js:51 | The size of item i is its measurement when present and non-zero, else the estimate. It does not depend on the anchor or the stop index. It is positive for a well-formed cache. |
| `SizeCache.SumSizes` | src/DynamicSizeList.js:61-63 | The sum of sizes over [lo, hi) is non-negative and at least hi - lo for a well-formed cache. |
| `SizeCache.ApplyReportsElsewhere` | src/DynamicSizeList.js:317-319 | Reports for other indices leave a cache entry as it was, whether present or absent. |
| `SizeCache.ApplyReportsLastWins` | src/DynamicSizeList.js:319 | The last report for an index decides its cache entry, whatever came before. |
| `SizeCache.ApplyReportsSwap` | src/DynamicSizeList.js:309-319 | Two adjacent reports for different indices give the same cache in either order. |
| `ItemLayout.Metadata` | src/DynamicSizeList.js:51-67 | The size is positive. The offset is non-negative when the anchor is. |
| `ItemLayout.GetItemMetadata` | src/DynamicSizeList.js:38-68 | The loop returns `Metadata`. The size is `Size(index)`. The offset is `anchorIndex*est` plus the sizes over [anchorIndex, index) when anchorIndex < index <= stopIndex, else `anchorIndex*est`. |
| `ItemLayout.GetEstimatedTotalSize` | src/DynamicSizeList.js:70-84 | The loop returns the sizes over [anchorIndex, stopIndex] plus (itemCount - window length) * est. The window length is 0 when stopIndex < anchorIndex, which gives itemCount*est. |
| `ItemLayout.GetStopIndexForStartIndex` | src/DynamicSizeList.js:199-222 | startIndex <= result <= max(startIndex, itemCount-1). Every earlier item's trailing edge is before scrollOffset + viewport. When result < itemCount-1, its own trailing edge reaches scrollOffset + viewport. The viewport is the width when direction or layout is horizontal, else the height. |
| `ItemLayout.MetadataContiguous` | src/DynamicSizeList.js:58-64 | Inside the walked window, item i+1 starts where item i ends. |
| `ItemLayout.MetadataOffsetIncreasing` | src/DynamicSizeList.js:60-64 | Inside the walked window, offsets strictly increase with the index. |
| `ItemLayout.TotalSizeUnmeasured` | src/DynamicSizeList.js:74-83 | With nothing measured in [anchorIndex, stopIndex], the total is itemCount * est. |
| `ItemLayout.FreshTotalSize` | src/DynamicSizeList.js:227-235 | A fresh instance (empty cache, anchor 0, stop 0) has total itemCount * est. |
| `ItemLayout.TotalSizeWholeList` | src/DynamicSizeList.js:74-83 | When the window is [0, itemCount-1], the total is exactly the sum of all item sizes. |
| `ItemLayout.TotalSizeNonNegative` | src/DynamicSizeList.js:74-83 | The total is non-negative while the window is no longer than the list. |
| `ItemLayout.TotalSizeAfterMeasurement` | src/DynamicSizeList.js:76-80 | A new measurement for item i changes the total by the change in Size(i) when i is in the window. Otherwise the total does not change. |
| `ItemLayout.MetadataAfterMeasurement` | src/DynamicSizeList.js:58-64 | A new measurement for item i changes only item i's size. It moves exactly the walked items after i, by the change in Size(i). |
| `AnchorWalk.WalkForward` | src/DynamicSizeList.js:184-191 | The forward walk ends with the remaining delta <= Size(index). The index never exceeds max(anchor, itemCount-1). The index stays >= 0 when the anchor is >= 0 and itemCount >= 1. |
| `AnchorWalk.WalkBackward` | src/DynamicSizeList.js:177-183 | The backward walk ends with the remaining delta >= 0. From an anchor >= 0 it ends with 0 <= index <= anchor. |
| `AnchorWalk.ResolveAnchor` | src/DynamicSizeList.js:163-197 | The two while loops, chosen by scroll direction, return the index and size delta of the walk from the stored anchor, starting at delta = offset - anchorIndex*est. |
| `AnchorWalk.WalkForwardCovers` | src/DynamicSizeList.js:185-190 | A forward walk whose target is within the list stops on an item j whose end is at or after the target; when it crossed at least one item, j's extent (start, end] holds the target. The remaining delta is the target minus the sizes over [anchor, j). The size delta decreases by the sum of (size - est) over the crossed items. |
| `AnchorWalk.WalkBackwardCovers` | src/DynamicSizeList.js:178-183 | A backward walk whose target is not before item 0 stops on an item j whose start is at or before the target (the remaining delta is >= 0); when it crossed at least one item, j's extent [start, end) holds the target. The size delta increases by the sum of (size - est) over the crossed items. |
| `AnchorWalk.ResolveAccounting` | src/DynamicSizeList.js:172-191 | Without a clamp, offset - index*est == remainingDelta - (anchorSizeDelta - initial anchorSizeDelta) in both directions. |
| `AnchorWalk.ResolveOverUnmeasured` | src/DynamicSizeList.js:181-187 | When no item between the old and the new anchor is measured, the walk leaves anchorSizeDelta unchanged, whatever is measured elsewhere. |
| `AnchorWalk.CompensatedOffsetIsStable` | src/DynamicSizeList.js:172-196 | Take a walk that started with no pending delta. Shift the target by the delta it produced, as the commit hook does to the scroll offset. Walking again from the new anchor then stays on that anchor and adds no delta. |
| `AnchorWalk.ResolveAnchorOffset` | src/DynamicSizeList.js:172-173 | Resolving the anchor's own estimated offset, as after a scroll to an item, returns the anchor with the delta unchanged. |
| `ListEngine.EffectiveEstimate` | src/DynamicSizeList.js:228 | The estimate is the configured value when it is positive, else the default of 50. It is always positive. |
| `ListEngine.ListInstance.constructor` | src/DynamicSizeList.js:224-255 | The defaults: an empty cache, anchor 0, delta 0, stop 0, no pending timer, no new measurements, no forced updates; the scroll offset is the initial one and the direction forward. |
| `ListEngine.ListInstance.Scroll` | src/DynamicSizeList.js:163-176 | A scroll event stores the offset and direction the walk reads (the direction at line 176); the ledger records the move, so the invariant ties the scroll offset to the scroll moves plus the applied delta. |
| `ListEngine.ListInstance.GetOffsetForIndexAndAlignment` | src/DynamicSizeList.js:106-116 | Returns index*est and sets anchorIndex to the index. It ignores align and scrollOffset, and its frame changes nothing else. |
| `ListEngine.ListInstance.GetStartIndexForOffset` | src/DynamicSizeList.js:163-197 | Walks in the list's current scroll direction, stores the walk's final index and size delta as anchorIndex and anchorSizeDelta, and returns the index. The invariant is kept, and the change in delta is recorded as accrued. |
| `ListEngine.ListInstance.RecordStopIndex` | src/DynamicSizeList.js:343-346 | The render stores the stop index of its range, and nothing else changes. |
| `ListEngine.ListInstance.DebounceForceUpdate` | src/DynamicSizeList.js:237-245 | Afterwards a timer is pending. A new one is armed only when none was pending, so at most one is ever live. |
| `ListEngine.ListInstance.FireTimer` | src/DynamicSizeList.js:240-243 | Firing clears the slot and forces exactly one re-render. |
| `ListEngine.ListInstance.UnmountHook` | src/DynamicSizeList.js:247-253 | Afterwards no timer is pending. A pending one is counted as cancelled. |
| `ListEngine.ListInstance.CommitHook` | src/DynamicSizeList.js:258-307 | The pending delta d is consumed: it becomes 0 and the scroll offset grows by exactly d, once. The new-measurements flag is cleared. A re-render is forced only when the flag was set and d was 0. With d = 0 and no flag, nothing changes. |
| `ListEngine.ListInstance.HandleNewMeasurements` | src/DynamicSizeList.js:312-326 | Overwrites only itemSizeMap[index]. A first-after-mount report sets the flag and leaves the timer alone. Any other report leaves the flag alone and debounces. |

## Left out

- React element construction in `_renderItems` (`createElement`, `ItemMeasurer`, `itemKey`, `_getItemStyle`) is UI plumbing. Only its write of the stop index (src/DynamicSizeList.js:346) is modelled, as `RecordStopIndex`.
- The DOM side of the commit hook (`scrollBy`, and the `scrollLeft`/`scrollTop` fallback) is browser I/O. Only the state change `scrollOffset += d` is modelled. `setState` is taken to apply immediately.
- `setTimeout` and `clearTimeout` are host calls. The timer is a pending flag plus an explicit `FireTimer` event, and the 1 ms delay is not modelled.
- The `_itemStyleCache` deletion inside `getItemMetadata` is a render-cache side effect that does not affect the returned metadata. The model's metadata query has no side effect.
- The commented-out alignment code is dead, and `align` is ignored as in the code.
- `getItemSize` always returns undefined and has no logic to model.
- The `validateProps` check for an `itemSize` prop is an environment-dependent diagnostic. The model's constructor takes no `itemSize`.
- createListComponent is not part of this model. Its scroll handler becomes `Scroll`, which takes the new offset and direction as given (how the handler derives the direction from the DOM event is not modelled); the offset handed to the walk and the viewport props become parameters. The initial forward direction is that component's default state. Its overscan is not modelled: `RecordStopIndex` receives the visible stop index, the fourth element of the range without overscan (src/DynamicSizeList.js:343). Its range computation returns early for an empty list, so `GetStartIndexForOffset` requires itemCount >= 1. Without that, a forward step would set the index to -1.
- `ListEngine.ListInstance.GetOffsetForIndexAndAlignment` requires index >= 0. The scroll-to-item caller in createListComponent clamps the index into the list before calling it.
- `AnchorWalk.WalkForwardCovers`, `AnchorWalk.WalkBackwardCovers`, `AnchorWalk.ResolveAccounting`, `AnchorWalk.ResolveOverUnmeasured` and `AnchorWalk.CompensatedOffsetIsStable` assume no clamp: the target lies within the list's extent measured from the anchor. A clamped walk keeps stepping on the last item, or on item 0, and adds that item's gap again on every step. For clamped walks only the bounds in `WalkForward` and `WalkBackward` are stated.
- JavaScript numbers are modelled as unbounded integers: floating point, NaN (also falsy under `||`) and negative measurements are not modelled.
- A negative configured estimate is excluded (`EffectiveEstimate` requires a non-negative value): the code accepts it, and its anchor walk can then run forever over unmeasured items, which a terminating model cannot express.
- Re-entrant calls, such as a measurement arriving during the commit hook, and React's scheduling of renders are not modelled. Each method runs to completion.
