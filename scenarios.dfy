/**
 * Clients of the list instance that show, from the contracts alone, how the
 * pieces fit together.
 */
module Scenarios {
  import opened SizeCache
  import opened ItemLayout
  import opened AnchorWalk
  import opened ListEngine

  /** A fresh list of 1000 items with the default estimate spans 50000 and starts at item 0. */
  method FreshList()
  {
    var list := new ListInstance(None, 0);
    assert list.estimatedItemSize == 50;
    FreshTotalSize(50, 1000);
    var total := GetEstimatedTotalSize(list.Layout(), 1000);
    assert total == 50000;
    var start := list.GetStartIndexForOffset(list.scrollOffset, 1000);
    assert start == 0 && list.anchorSizeDelta == 0;
  }

  /**
   * The list is scrolled to item 1 (offset 50) and item 0 is measured at 80
   * instead of 50; the user scrolls back to 0, and walking back over item 0
   * leaves a pending delta of 30, which the commit adds to the scroll offset once.
   */
  method MeasuredItemCompensation()
  {
    var list := new ListInstance(Some(50), 50);
    var target := list.GetOffsetForIndexAndAlignment(1, Start, list.scrollOffset);
    assert target == 50 && list.anchorIndex == 1;
    list.HandleNewMeasurements(0, 80, true);
    assert list.hasNewMeasurements && list.itemSizeMap == map[0 := 80];
    list.Scroll(0, Backward);
    assert Size(map[0 := 80], 50, 0) == 80;
    assert WalkBackward(map[0 := 80], 50, 1, -50, 0) == Anchor(0, 30, 30);
    var start := list.GetStartIndexForOffset(list.scrollOffset, 1000);
    assert start == 0 && list.anchorSizeDelta == 30;
    list.CommitHook();
    assert list.anchorSizeDelta == 0 && list.scrollOffset == 30;
    assert list.forceUpdates == 0 && !list.hasNewMeasurements;
    list.CommitHook();
    assert list.scrollOffset == 30;
  }

  /** Three later measurements in a burst schedule one re-render, and it runs once. */
  method MeasurementBurst()
  {
    var list := new ListInstance(Some(50), 0);
    list.HandleNewMeasurements(10, 40, false);
    list.HandleNewMeasurements(11, 70, false);
    list.HandleNewMeasurements(12, 55, false);
    assert list.timersArmed == 1 && list.timerPending;
    list.FireTimer();
    assert list.forceUpdates == 1 && !list.timerPending;
    list.UnmountHook();
    assert list.timersCancelled == 0;
  }

  /**
   * Measurements of different items may arrive in either order: two lists that
   * receive the same two reports in opposite orders end with the same cache,
   * which is the report sequence applied in either order.
   */
  method OutOfOrderReports()
  {
    var first := new ListInstance(Some(50), 0);
    first.HandleNewMeasurements(5, 80, false);
    first.HandleNewMeasurements(2, 30, false);
    var second := new ListInstance(Some(50), 0);
    second.HandleNewMeasurements(2, 30, false);
    second.HandleNewMeasurements(5, 80, false);

    var reports := [Report(5, 80), Report(2, 30)];
    assert first.itemSizeMap == ApplyReports(map[], reports);
    ApplyReportsSwap(map[], reports, 0);
    assert reports[..0] + [reports[1], reports[0]] + reports[2..] == [Report(2, 30), Report(5, 80)];
    assert second.itemSizeMap == ApplyReports(map[], [Report(2, 30), Report(5, 80)]);
    assert first.itemSizeMap == second.itemSizeMap;
  }
}
