/**
 * Concrete runs of the widget from a freshly created state, each reading back the
 * published snapshot.
 */
module Scenarios {
  import opened Wrappers
  import opened Entries
  import opened Aggregate
  import opened Metrics

  /** Long tasks of 30, 80 and 120 ms: three tasks, 230 ms in all, 0 + 30 + 70 ms blocking. */
  method LongTaskScenario() returns (snap: Snapshot)
    ensures snap.longTasks == 3
    ensures snap.longTasksTime == 230.0
    ensures snap.totalBlockingTime == 100.0
  {
    var m := new MetricsState();
    var tasks := [LongTaskEntry(30.0), LongTaskEntry(80.0), LongTaskEntry(120.0)];
    assert tasks[..2][..1] == [LongTaskEntry(30.0)] && tasks[..2] == [LongTaskEntry(30.0), LongTaskEntry(80.0)];
    assert TotalBlocking(tasks) == 100.0;
    assert TotalDuration(tasks[..2][..1]) == 30.0;
    assert TotalDuration(tasks) == 230.0;
    m.ObserveLongTasks(tasks, [], []);
    snap := m.published.value;
  }

  /**
   * Resources with transfer sizes 1200, 0 and 500 and encoded sizes 1200, 300 and 500:
   * 2000 bytes and four requests, the document included.
   */
  method ResourceScenario() returns (snap: Snapshot)
    ensures snap.totalBytes == 2000
    ensures snap.totalRequests == 4
  {
    var m := new MetricsState();
    var buffer := [ResourceEntry("a.css", Some(1200), Some(1200)),
                   ResourceEntry("b.js", Some(0), Some(300)),
                   ResourceEntry("c.png", Some(500), Some(500))];
    assert buffer[..2][..1] == [buffer[0]] && buffer[..2] == [buffer[0], buffer[1]];
    assert TotalBytes(buffer) == 2000;
    m.Update(buffer, []);
    snap := m.published.value;
  }

  /**
   * Largest-paint candidates 800 then 1500 ms publish 1500; a later 700 ms candidate then
   * replaces it, so the field is the last candidate, not the largest.
   */
  method LargestPaintScenario() returns (afterSecond: Snapshot, afterThird: Snapshot)
    ensures afterSecond.lcp == Some(1500.0)
    ensures afterThird.lcp == Some(700.0)
  {
    var m := new MetricsState();
    m.ObserveLargestPaint([LargestPaintEntry(Some(800.0), None, 10.0)], [], []);
    m.ObserveLargestPaint([LargestPaintEntry(Some(1500.0), None, 20.0)], [], []);
    afterSecond := m.published.value;
    m.ObserveLargestPaint([LargestPaintEntry(Some(0.0), Some(700.0), 30.0)], [], []);
    afterThird := m.published.value;
  }

  /** Two `first-contentful-paint` entries in one batch and one in a later batch: the first wins. */
  method PaintScenario() returns (snap: Snapshot)
    ensures snap.fcp == Some(120.0)
  {
    var m := new MetricsState();
    var batch := [PaintEntry("first-paint", 100.0), PaintEntry(FirstContentfulPaint, 120.0),
                  PaintEntry(FirstContentfulPaint, 300.0)];
    assert "first-paint" != FirstContentfulPaint;
    FirstFcpTimeIsEarliest(batch, 1);
    m.ObservePaint(batch, [], []);
    m.ObservePaint([PaintEntry(FirstContentfulPaint, 50.0)], [], []);
    snap := m.published.value;
  }

  /**
   * When long tasks are never observed, blocking time stays at its initial 0 whatever the
   * other observers deliver and however often the state is recomputed.
   */
  method NoLongTaskScenario(p: seq<PaintEntry>, l: seq<LargestPaintEntry>, c: seq<LayoutShiftEntry>,
                            rb: seq<ResourceEntry>, nb: seq<NavigationEntry>) returns (snap: Snapshot)
    ensures snap.totalBlockingTime == 0.0 && snap.longTasks == 0
  {
    var m := new MetricsState();
    m.ObservePaint(p, rb, nb);
    m.ObserveLargestPaint(l, rb, nb);
    m.ObserveLayoutShift(c, rb, nb);
    m.Update(rb, nb);
    m.Update(rb, nb);
    snap := m.published.value;
  }

  /** Recomputing twice with unchanged buffers publishes the same snapshot twice. */
  method RefreshTwice(m: MetricsState, rb: seq<ResourceEntry>, nb: seq<NavigationEntry>) returns (first: Snapshot, second: Snapshot)
    requires m.Valid()
    modifies m
    ensures m.Valid()
    ensures first == second && m.published == Some(second)
    ensures second == Sample(old(m.Snap()), rb, nb)
  {
    m.Update(rb, nb);
    first := m.published.value;
    m.Update(rb, nb);
    second := m.published.value;
    SampleIdempotent(old(m.Snap()), rb, nb);
  }
}
