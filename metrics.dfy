/**
 * The metrics widget's mutable state and the code that updates it in place: the four
 * observer callbacks, the two samplers and `update`, which publishes a copy of the state.
 *
 * The browser's entry lists and buffers are parameters. A callback receives its batch and
 * the resource and navigation buffers as `update` would read them at that moment.
 */
module Metrics {
  import opened Wrappers
  import opened Entries
  import opened Aggregate

  /** The loop of `collectResources` that adds up the bytes of every resource. */
  method SumTransferBytes(entries: seq<ResourceEntry>) returns (total: int)
    ensures total == TotalBytes(entries)
  {
    total := 0;
    var i := 0;
    while i < |entries|
      invariant 0 <= i <= |entries|
      invariant total == TotalBytes(entries[..i])
    {
      assert entries[..i + 1][..i] == entries[..i];
      total := total + TransferBytes(entries[i]);
      i := i + 1;
    }
    assert entries[..i] == entries;
  }

  class MetricsState {
    var fcp: Option<real>
    var lcp: Option<real>
    var cls: real
    var clsEntries: seq<LayoutShiftEntry>
    var longTasks: nat
    var longTasksTime: real
    var totalBlockingTime: real
    var resources: seq<ResourceEntry>
    var totalRequests: nat
    var totalBytes: int
    var nav: Option<NavigationEntry>

    /** The last published copy of the state (`window.__metrics`); `None` until the first `update`. */
    var published: Option<Snapshot>

    /** Every entry each observer has been handed since the state was created. */
    ghost var history: History

    /** The state's fields as one value. */
    function Snap(): Snapshot
      reads this
    {
      Snapshot(fcp, lcp, cls, clsEntries, longTasks, longTasksTime, totalBlockingTime,
               resources, totalRequests, totalBytes, nav)
    }

    /**
     * The state is what the deliveries so far determine, and the published copy, once there
     * is one, is the current state.
     */
    ghost predicate Valid()
      reads this
    {
      Explains(history, Snap()) && (published.Some? ==> published.value == Snap())
    }

    constructor ()
      ensures Valid()
      ensures Snap() == Initial && published == None && history == NoHistory
    {
      fcp, lcp := None, None;
      cls, clsEntries := 0.0, [];
      longTasks, longTasksTime, totalBlockingTime := 0, 0.0, 0.0;
      resources, totalRequests, totalBytes := [], 0, 0;
      nav := None;
      published := None;
      history := NoHistory;
    }

    /** `collectResources`: replace the resources and recompute the request count and byte total. */
    method CollectResources(buffer: seq<ResourceEntry>)
      modifies this
      ensures Snap() == WithResources(old(Snap()), buffer)
      ensures published == old(published) && history == old(history)
    {
      resources := buffer;
      totalRequests := |buffer| + 1;
      var total := SumTransferBytes(buffer);
      totalBytes := total;
    }

    /** `collectNavigation`: take the first navigation entry if the buffer has one. */
    method CollectNavigation(buffer: seq<NavigationEntry>)
      modifies this
      ensures Snap() == WithNavigation(old(Snap()), buffer)
      ensures published == old(published) && history == old(history)
    {
      if |buffer| > 0 {
        nav := Some(buffer[0]);
      }
    }

    /**
     * `update`: sample both buffers, then publish a copy of the state. From a state the
     * deliveries so far determine, the result satisfies the invariant.
     */
    method Update(resourceBuffer: seq<ResourceEntry>, navigationBuffer: seq<NavigationEntry>)
      modifies this
      ensures Explains(history, old(Snap())) ==> Valid()
      ensures Snap() == Sample(old(Snap()), resourceBuffer, navigationBuffer)
      ensures published == Some(Snap()) && history == old(history)
    {
      CollectResources(resourceBuffer);
      CollectNavigation(navigationBuffer);
      if Explains(history, old(Snap())) {
        SampleExplained(history, old(Snap()), resourceBuffer, navigationBuffer);
      }
      published := Some(Snap());
    }

    /**
     * The loop of the paint callback: the first `first-contentful-paint` entry writes `fcp`
     * while it is unset, and `update` runs right then.
     */
    method RecordPaints(entries: seq<PaintEntry>, resourceBuffer: seq<ResourceEntry>, navigationBuffer: seq<NavigationEntry>)
      modifies this
      ensures Snap() == PaintCallback(old(Snap()), entries, resourceBuffer, navigationBuffer)
      ensures published == if SetsFcp(old(Snap()), entries) then Some(Snap()) else old(published)
      ensures history == old(history)
    {
      var i := 0;
      while i < |entries|
        invariant 0 <= i <= |entries|
        invariant history == old(history)
        invariant Snap() == PaintCallback(old(Snap()), entries[..i], resourceBuffer, navigationBuffer)
        invariant published == if SetsFcp(old(Snap()), entries[..i]) then Some(Snap()) else old(published)
      {
        var e := entries[i];
        assert entries[..i + 1] == entries[..i] + [e];
        PaintCallbackStep(old(Snap()), entries[..i], e, resourceBuffer, navigationBuffer);
        if e.name == FirstContentfulPaint && fcp == None {
          fcp := Some(e.startTime);
          Update(resourceBuffer, navigationBuffer);
        }
        i := i + 1;
      }
      assert entries[..i] == entries;
    }

    /** The paint callback; a batch that sets nothing changes nothing and publishes nothing. */
    method ObservePaint(entries: seq<PaintEntry>, resourceBuffer: seq<ResourceEntry>, navigationBuffer: seq<NavigationEntry>)
      requires Valid()
      modifies this
      ensures Valid()
      ensures history == old(history).(paints := old(history).paints + entries)
      ensures Snap() == PaintCallback(old(Snap()), entries, resourceBuffer, navigationBuffer)
      ensures published == if SetsFcp(old(Snap()), entries) then Some(Snap()) else old(published)
    {
      PaintCallbackExplained(history, Snap(), entries, resourceBuffer, navigationBuffer);
      RecordPaints(entries, resourceBuffer, navigationBuffer);
      history := history.(paints := history.paints + entries);
    }

    /** The loop of the largest-paint callback: every entry overwrites `lcp`. */
    method RecordLargestPaints(entries: seq<LargestPaintEntry>)
      modifies this
      ensures Snap() == FoldLargestPaints(old(Snap()), entries)
      ensures published == old(published) && history == old(history)
    {
      var i := 0;
      while i < |entries|
        invariant 0 <= i <= |entries|
        invariant published == old(published) && history == old(history)
        invariant Snap() == FoldLargestPaints(old(Snap()), entries[..i])
      {
        lcp := Some(Candidate(entries[i]));
        i := i + 1;
      }
      assert entries[..i] == entries;
    }

    /** The largest-paint callback: the loop, then `update`. */
    method ObserveLargestPaint(entries: seq<LargestPaintEntry>, resourceBuffer: seq<ResourceEntry>, navigationBuffer: seq<NavigationEntry>)
      requires Valid()
      modifies this
      ensures Valid()
      ensures history == old(history).(largestPaints := old(history).largestPaints + entries)
      ensures Snap() == LargestPaintCallback(old(Snap()), entries, resourceBuffer, navigationBuffer)
      ensures published == Some(Snap())
    {
      LargestPaintFoldExplained(history, Snap(), entries);
      RecordLargestPaints(entries);
      history := history.(largestPaints := history.largestPaints + entries);
      Update(resourceBuffer, navigationBuffer);
    }

    /**
     * The loop of the layout-shift callback: each shift without recent input adds its score
     * to `cls` and is appended to `clsEntries`.
     */
    method RecordLayoutShifts(entries: seq<LayoutShiftEntry>)
      modifies this
      ensures Snap() == FoldLayoutShifts(old(Snap()), entries)
      ensures published == old(published) && history == old(history)
    {
      var i := 0;
      while i < |entries|
        invariant 0 <= i <= |entries|
        invariant published == old(published) && history == old(history)
        invariant Snap() == FoldLayoutShifts(old(Snap()), entries[..i])
      {
        var e := entries[i];
        assert entries[..i + 1] == entries[..i] + [e];
        LayoutShiftStep(old(Snap()), entries[..i], e);
        if !e.hadRecentInput {
          cls := cls + e.value;
          clsEntries := clsEntries + [e];
        }
        i := i + 1;
      }
      assert entries[..i] == entries;
    }

    /** The layout-shift callback: the loop, then `update`. */
    method ObserveLayoutShift(entries: seq<LayoutShiftEntry>, resourceBuffer: seq<ResourceEntry>, navigationBuffer: seq<NavigationEntry>)
      requires Valid()
      modifies this
      ensures Valid()
      ensures history == old(history).(layoutShifts := old(history).layoutShifts + entries)
      ensures Snap() == LayoutShiftCallback(old(Snap()), entries, resourceBuffer, navigationBuffer)
      ensures published == Some(Snap())
    {
      LayoutShiftFoldExplained(history, Snap(), entries);
      RecordLayoutShifts(entries);
      history := history.(layoutShifts := history.layoutShifts + entries);
      Update(resourceBuffer, navigationBuffer);
    }

    /**
     * The loop of the long-task callback: each task adds one to the count, its duration to
     * the total and its excess over 50 ms to the blocking time.
     */
    method RecordLongTasks(entries: seq<LongTaskEntry>)
      modifies this
      ensures Snap() == FoldLongTasks(old(Snap()), entries)
      ensures published == old(published) && history == old(history)
    {
      var i := 0;
      while i < |entries|
        invariant 0 <= i <= |entries|
        invariant published == old(published) && history == old(history)
        invariant Snap() == FoldLongTasks(old(Snap()), entries[..i])
      {
        var e := entries[i];
        assert entries[..i + 1][..i] == entries[..i];
        longTasks := longTasks + 1;
        longTasksTime := longTasksTime + e.duration;
        totalBlockingTime := totalBlockingTime + Blocking(e.duration);
        i := i + 1;
      }
      assert entries[..i] == entries;
    }

    /** The long-task callback: the loop, then `update`. */
    method ObserveLongTasks(entries: seq<LongTaskEntry>, resourceBuffer: seq<ResourceEntry>, navigationBuffer: seq<NavigationEntry>)
      requires Valid()
      modifies this
      ensures Valid()
      ensures history == old(history).(longTasks := old(history).longTasks + entries)
      ensures Snap() == LongTaskCallback(old(Snap()), entries, resourceBuffer, navigationBuffer)
      ensures published == Some(Snap())
    {
      LongTaskFoldExplained(history, Snap(), entries);
      RecordLongTasks(entries);
      history := history.(longTasks := history.longTasks + entries);
      Update(resourceBuffer, navigationBuffer);
    }
  }
}
