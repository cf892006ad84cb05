/**
 * The size cache of a dynamic-size list: a sparse map from item index to the
 * size measured for that item, with the configured estimate as the fallback.
 */
module SizeCache {

  function Min(a: int, b: int): int { if a <= b then a else b }

  function Max(a: int, b: int): int { if a >= b then a else b }

  /** Item `i` has a usable measurement: it is in the map and is not 0. */
  predicate Measured(sizeMap: map<int, int>, i: int) {
    i in sizeMap && sizeMap[i] != 0
  }

  /**
   * A well-formed cache: a positive estimate and no negative measurement.
   * A measurement of 0 is allowed; it falls back to the estimate.
   */
  predicate WellFormed(sizeMap: map<int, int>, est: int) {
    est > 0 && forall i :: i in sizeMap ==> sizeMap[i] >= 0
  }

  /** The size used for item `i`: its measurement if present and non-zero, else the estimate. */
  function Size(sizeMap: map<int, int>, est: int, i: int): (s: int)
    ensures WellFormed(sizeMap, est) ==> s > 0
    ensures Measured(sizeMap, i) ==> s == sizeMap[i]
    ensures !Measured(sizeMap, i) ==> s == est
  {
    if Measured(sizeMap, i) then sizeMap[i] else est
  }

  /** The sum of Size(i) over the index range [lo, hi); 0 when the range is empty. */
  function SumSizes(sizeMap: map<int, int>, est: int, lo: int, hi: int): (total: int)
    ensures WellFormed(sizeMap, est) ==> total >= 0 && total >= hi - lo
    decreases hi - lo
  {
    if hi <= lo then 0 else SumSizes(sizeMap, est, lo, hi - 1) + Size(sizeMap, est, hi - 1)
  }

  /** A range sum splits at any point inside the range. */
  lemma {:induction false} SumSizesSplit(sizeMap: map<int, int>, est: int, lo: int, mid: int, hi: int)
    requires lo <= mid <= hi
    ensures SumSizes(sizeMap, est, lo, hi) == SumSizes(sizeMap, est, lo, mid) + SumSizes(sizeMap, est, mid, hi)
    decreases hi - mid
  {
    if mid < hi {
      SumSizesSplit(sizeMap, est, lo, mid, hi - 1);
    }
  }

  /** Over a range where nothing is measured, the sum is the estimate times the length. */
  lemma {:induction false} SumSizesUnmeasured(sizeMap: map<int, int>, est: int, lo: int, hi: int)
    requires lo <= hi
    requires forall i :: lo <= i < hi ==> !Measured(sizeMap, i)
    ensures SumSizes(sizeMap, est, lo, hi) == (hi - lo) * est
    decreases hi - lo
  {
    if lo < hi {
      SumSizesUnmeasured(sizeMap, est, lo, hi - 1);
    }
  }

  /**
   * Writing a measurement for item `i` changes a range sum by exactly the change
   * of Size(i) when `i` is in the range, and not at all otherwise.
   */
  lemma {:induction false} SumSizesAfterMeasurement(sizeMap: map<int, int>, est: int, lo: int, hi: int, i: int, newSize: int)
    ensures SumSizes(sizeMap[i := newSize], est, lo, hi)
         == SumSizes(sizeMap, est, lo, hi)
            + (if lo <= i < hi then Size(sizeMap[i := newSize], est, i) - Size(sizeMap, est, i) else 0)
    decreases hi - lo
  {
    if lo < hi {
      SumSizesAfterMeasurement(sizeMap, est, lo, hi - 1, i, newSize);
      assert hi - 1 != i ==> Size(sizeMap[i := newSize], est, hi - 1) == Size(sizeMap, est, hi - 1);
    }
  }

  /**
   * The sum of Size(i) - est over [lo, hi): how far the sizes of a range
   * exceed their estimate. Positive when the items turned out larger.
   */
  function SizeGap(sizeMap: map<int, int>, est: int, lo: int, hi: int): int
    decreases hi - lo
  {
    if hi <= lo then 0 else SizeGap(sizeMap, est, lo, hi - 1) + (Size(sizeMap, est, hi - 1) - est)
  }

  /** The gap of a range is its size sum minus the estimate times its length. */
  lemma {:induction false} SizeGapIsSumMinusEstimate(sizeMap: map<int, int>, est: int, lo: int, hi: int)
    requires lo <= hi
    ensures SizeGap(sizeMap, est, lo, hi) == SumSizes(sizeMap, est, lo, hi) - (hi - lo) * est
    decreases hi - lo
  {
    if lo < hi {
      SizeGapIsSumMinusEstimate(sizeMap, est, lo, hi - 1);
      assert (hi - lo) * est == (hi - 1 - lo) * est + est;
    }
  }

  /** Over a range where nothing is measured, the gap is 0. */
  lemma {:induction false} SizeGapUnmeasured(sizeMap: map<int, int>, est: int, lo: int, hi: int)
    requires forall i :: lo <= i < hi ==> !Measured(sizeMap, i)
    ensures SizeGap(sizeMap, est, lo, hi) == 0
    decreases hi - lo
  {
    if lo < hi {
      SizeGapUnmeasured(sizeMap, est, lo, hi - 1);
    }
  }

  /** A measurement report: item `index` was measured at `size`. */
  datatype Report = Report(index: int, size: int)

  /** The cache after the reports are written in order, each overwriting its index. */
  function ApplyReports(sizeMap: map<int, int>, reports: seq<Report>): map<int, int>
    decreases |reports|
  {
    if |reports| == 0 then sizeMap
    else ApplyReports(sizeMap[reports[0].index := reports[0].size], reports[1..])
  }

  /** Reports for other indices leave an entry as it was, present or absent. */
  lemma {:induction false} ApplyReportsElsewhere(sizeMap: map<int, int>, reports: seq<Report>, k: int)
    requires forall j :: 0 <= j < |reports| ==> reports[j].index != k
    ensures k in ApplyReports(sizeMap, reports) <==> k in sizeMap
    ensures k in sizeMap ==> ApplyReports(sizeMap, reports)[k] == sizeMap[k]
    decreases |reports|
  {
    if |reports| > 0 {
      ApplyReportsElsewhere(sizeMap[reports[0].index := reports[0].size], reports[1..], k);
    }
  }

  /** The last report for an index decides its entry, whatever came before it. */
  lemma {:induction false} ApplyReportsLastWins(sizeMap: map<int, int>, reports: seq<Report>, j: int)
    requires 0 <= j < |reports|
    requires forall l :: j < l < |reports| ==> reports[l].index != reports[j].index
    ensures reports[j].index in ApplyReports(sizeMap, reports)
    ensures ApplyReports(sizeMap, reports)[reports[j].index] == reports[j].size
    decreases |reports|
  {
    var next := sizeMap[reports[0].index := reports[0].size];
    if j == 0 {
      ApplyReportsElsewhere(next, reports[1..], reports[0].index);
    } else {
      ApplyReportsLastWins(next, reports[1..], j - 1);
    }
  }

  /** Two adjacent reports for different indices may arrive in either order. */
  lemma {:induction false} ApplyReportsSwap(sizeMap: map<int, int>, reports: seq<Report>, j: int)
    requires 0 <= j < |reports| - 1
    requires reports[j].index != reports[j + 1].index
    ensures ApplyReports(sizeMap, reports)
         == ApplyReports(sizeMap, reports[..j] + [reports[j + 1], reports[j]] + reports[j + 2..])
    decreases |reports|
  {
    var swapped := reports[..j] + [reports[j + 1], reports[j]] + reports[j + 2..];
    if j == 0 {
      var a, b := reports[0], reports[1];
      assert sizeMap[a.index := a.size][b.index := b.size] == sizeMap[b.index := b.size][a.index := a.size];
      assert reports[2..] == swapped[2..];
    } else {
      var next := sizeMap[reports[0].index := reports[0].size];
      ApplyReportsSwap(next, reports[1..], j - 1);
      assert swapped[0] == reports[0];
      assert swapped[1..] == reports[1..][..j - 1] + [reports[j + 1], reports[j]] + reports[1..][j + 1..];
    }
  }
}
