/**
 * The widget's aggregate state as a value, and what each observer callback and the
 * sampler do to it.
 *
 * The summaries over a batch (first FCP time, sums, the unflagged shifts) are defined
 * on the LAST entry of the batch, so a loop that has handled a prefix extends them by
 * one step. `History` records everything each observer has been handed, and
 * `Explains` states what the state must then be. The lemmas show that every callback
 * keeps that relation, so the state depends only on what each category delivered
 * overall. It does not depend on how deliveries were split into batches or how the
 * categories interleaved.
 */
module Aggregate {
  import opened Wrappers
  import opened Entries

  /** The aggregate record; also the shape of the published snapshot. */
  datatype Snapshot = Snapshot(
    fcp: Option<real>,
    lcp: Option<real>,
    cls: real,
    clsEntries: seq<LayoutShiftEntry>,
    longTasks: nat,
    longTasksTime: real,
    totalBlockingTime: real,
    resources: seq<ResourceEntry>,
    totalRequests: nat,
    totalBytes: int,
    nav: Option<NavigationEntry>)

  /** The record as the script creates it. */
  const Initial: Snapshot := Snapshot(None, None, 0.0, [], 0, 0.0, 0.0, [], 0, 0, None)

  // ---------------------------------------------------------------------------
  // Summaries of a batch

  /** Start time of the first entry named `first-contentful-paint`, if any. */
  function FirstFcpTime(es: seq<PaintEntry>): Option<real> {
    if es == [] then None
    else
      var earlier := FirstFcpTime(es[..|es| - 1]);
      if earlier.Some? then earlier
      else if es[|es| - 1].name == FirstContentfulPaint then Some(es[|es| - 1].startTime)
      else None
  }

  /** `lcp` after a batch: the last entry's candidate, or `prior` for an empty batch. */
  function LastCandidate(es: seq<LargestPaintEntry>, prior: Option<real>): Option<real> {
    if es == [] then prior else Some(Candidate(es[|es| - 1]))
  }

  /** The shifts not caused by recent input, in delivery order. */
  function Unflagged(es: seq<LayoutShiftEntry>): seq<LayoutShiftEntry> {
    if es == [] then []
    else
      var last := es[|es| - 1];
      Unflagged(es[..|es| - 1]) + (if last.hadRecentInput then [] else [last])
  }

  /** Sum of the shift scores. */
  function ShiftTotal(es: seq<LayoutShiftEntry>): real {
    if es == [] then 0.0 else ShiftTotal(es[..|es| - 1]) + es[|es| - 1].value
  }

  /** Sum of the long-task durations. */
  function TotalDuration(es: seq<LongTaskEntry>): real {
    if es == [] then 0.0 else TotalDuration(es[..|es| - 1]) + es[|es| - 1].duration
  }

  /** Sum of the blocking parts of the long tasks. */
  function TotalBlocking(es: seq<LongTaskEntry>): real {
    if es == [] then 0.0 else TotalBlocking(es[..|es| - 1]) + Blocking(es[|es| - 1].duration)
  }

  /** Sum of the bytes each resource contributes. */
  function TotalBytes(rs: seq<ResourceEntry>): int {
    if rs == [] then 0 else TotalBytes(rs[..|rs| - 1]) + TransferBytes(rs[|rs| - 1])
  }

  /** `nav` after a navigation sample: the first buffered entry, or `prior` if there is none. */
  function FirstNavigation(buffer: seq<NavigationEntry>, prior: Option<NavigationEntry>): Option<NavigationEntry> {
    if |buffer| > 0 then Some(buffer[0]) else prior
  }

  // ---------------------------------------------------------------------------
  // The loops of the four observer callbacks

  function FoldPaints(s: Snapshot, es: seq<PaintEntry>): Snapshot {
    if s.fcp.Some? then s else s.(fcp := FirstFcpTime(es))
  }

  function FoldLargestPaints(s: Snapshot, es: seq<LargestPaintEntry>): Snapshot {
    s.(lcp := LastCandidate(es, s.lcp))
  }

  function FoldLayoutShifts(s: Snapshot, es: seq<LayoutShiftEntry>): Snapshot {
    s.(cls := s.cls + ShiftTotal(Unflagged(es)), clsEntries := s.clsEntries + Unflagged(es))
  }

  function FoldLongTasks(s: Snapshot, es: seq<LongTaskEntry>): Snapshot {
    s.(longTasks := s.longTasks + |es|,
       longTasksTime := s.longTasksTime + TotalDuration(es),
       totalBlockingTime := s.totalBlockingTime + TotalBlocking(es))
  }

  // ---------------------------------------------------------------------------
  // The samplers and the recompute

  function WithResources(s: Snapshot, buffer: seq<ResourceEntry>): Snapshot {
    s.(resources := buffer, totalRequests := |buffer| + 1, totalBytes := TotalBytes(buffer))
  }

  function WithNavigation(s: Snapshot, buffer: seq<NavigationEntry>): Snapshot {
    s.(nav := FirstNavigation(buffer, s.nav))
  }

  /** What `update` does to the state: resources first, then navigation. */
  function Sample(s: Snapshot, resourceBuffer: seq<ResourceEntry>, navigationBuffer: seq<NavigationEntry>): Snapshot {
    WithNavigation(WithResources(s, resourceBuffer), navigationBuffer)
  }

  // ---------------------------------------------------------------------------
  // Whole callbacks: the loop, then `update` with the buffers as they are at that moment

  /** The paint callback calls `update` only when this batch sets `fcp`. */
  predicate SetsFcp(s: Snapshot, es: seq<PaintEntry>) {
    s.fcp.None? && FirstFcpTime(es).Some?
  }

  function PaintCallback(s: Snapshot, es: seq<PaintEntry>, rb: seq<ResourceEntry>, nb: seq<NavigationEntry>): Snapshot {
    if SetsFcp(s, es) then Sample(FoldPaints(s, es), rb, nb) else s
  }

  function LargestPaintCallback(s: Snapshot, es: seq<LargestPaintEntry>, rb: seq<ResourceEntry>, nb: seq<NavigationEntry>): Snapshot {
    Sample(FoldLargestPaints(s, es), rb, nb)
  }

  function LayoutShiftCallback(s: Snapshot, es: seq<LayoutShiftEntry>, rb: seq<ResourceEntry>, nb: seq<NavigationEntry>): Snapshot {
    Sample(FoldLayoutShifts(s, es), rb, nb)
  }

  function LongTaskCallback(s: Snapshot, es: seq<LongTaskEntry>, rb: seq<ResourceEntry>, nb: seq<NavigationEntry>): Snapshot {
    Sample(FoldLongTasks(s, es), rb, nb)
  }

  // ---------------------------------------------------------------------------
  // Everything delivered so far, and the state it determines

  datatype History = History(
    paints: seq<PaintEntry>,
    largestPaints: seq<LargestPaintEntry>,
    layoutShifts: seq<LayoutShiftEntry>,
    longTasks: seq<LongTaskEntry>)

  const NoHistory: History := History([], [], [], [])

  /**
   * `s` is the state after the deliveries in `h`: every observer field is a function of its
   * category's whole delivery sequence, and the derived fields are those of `s.resources`
   * (or still the initial zeroes if nothing has been sampled yet).
   */
  ghost predicate Explains(h: History, s: Snapshot) {
    && s.fcp == FirstFcpTime(h.paints)
    && s.lcp == LastCandidate(h.largestPaints, None)
    && s.clsEntries == Unflagged(h.layoutShifts)
    && s.cls == ShiftTotal(s.clsEntries)
    && s.longTasks == |h.longTasks|
    && s.longTasksTime == TotalDuration(h.longTasks)
    && s.totalBlockingTime == TotalBlocking(h.longTasks)
    && s.totalBytes == TotalBytes(s.resources)
    && (s.totalRequests == |s.resources| + 1 || (s.totalRequests == 0 && s.resources == []))
  }

  /** The fields that never go back, given non-negative scores and durations. */
  ghost predicate Grows(s: Snapshot, t: Snapshot) {
    && (s.fcp.Some? ==> t.fcp == s.fcp)
    && s.cls <= t.cls
    && s.clsEntries <= t.clsEntries
    && s.longTasks <= t.longTasks
    && s.longTasksTime <= t.longTasksTime
    && s.totalBlockingTime <= t.totalBlockingTime
  }

  // ---------------------------------------------------------------------------
  // Summaries over two batches

  lemma {:induction false} FirstFcpTimeAppend(a: seq<PaintEntry>, b: seq<PaintEntry>)
    ensures FirstFcpTime(a + b) == if FirstFcpTime(a).Some? then FirstFcpTime(a) else FirstFcpTime(b)
    decreases |b|
  {
    if b == [] {
      assert a + b == a;
    } else {
      assert (a + b)[..|a + b| - 1] == a + b[..|b| - 1];
      FirstFcpTimeAppend(a, b[..|b| - 1]);
    }
  }

  lemma {:induction false} UnflaggedAppend(a: seq<LayoutShiftEntry>, b: seq<LayoutShiftEntry>)
    ensures Unflagged(a + b) == Unflagged(a) + Unflagged(b)
    decreases |b|
  {
    if b == [] {
      assert a + b == a;
    } else {
      assert (a + b)[..|a + b| - 1] == a + b[..|b| - 1];
      UnflaggedAppend(a, b[..|b| - 1]);
    }
  }

  lemma {:induction false} ShiftTotalAppend(a: seq<LayoutShiftEntry>, b: seq<LayoutShiftEntry>)
    ensures ShiftTotal(a + b) == ShiftTotal(a) + ShiftTotal(b)
    decreases |b|
  {
    if b == [] {
      assert a + b == a;
    } else {
      assert (a + b)[..|a + b| - 1] == a + b[..|b| - 1];
      ShiftTotalAppend(a, b[..|b| - 1]);
    }
  }

  lemma {:induction false} LongTaskTotalsAppend(a: seq<LongTaskEntry>, b: seq<LongTaskEntry>)
    ensures TotalDuration(a + b) == TotalDuration(a) + TotalDuration(b)
    ensures TotalBlocking(a + b) == TotalBlocking(a) + TotalBlocking(b)
    decreases |b|
  {
    if b == [] {
      assert a + b == a;
    } else {
      assert (a + b)[..|a + b| - 1] == a + b[..|b| - 1];
      LongTaskTotalsAppend(a, b[..|b| - 1]);
    }
  }

  lemma {:induction false} TotalBytesAppend(a: seq<ResourceEntry>, b: seq<ResourceEntry>)
    ensures TotalBytes(a + b) == TotalBytes(a) + TotalBytes(b)
    decreases |b|
  {
    if b == [] {
      assert a + b == a;
    } else {
      assert (a + b)[..|a + b| - 1] == a + b[..|b| - 1];
      TotalBytesAppend(a, b[..|b| - 1]);
    }
  }

  // ---------------------------------------------------------------------------
  // What each summary means

  /** The first `first-contentful-paint` entry of a batch gives the time. */
  lemma {:induction false} FirstFcpTimeIsEarliest(es: seq<PaintEntry>, i: nat)
    requires i < |es| && es[i].name == FirstContentfulPaint
    requires forall j :: 0 <= j < i ==> es[j].name != FirstContentfulPaint
    ensures FirstFcpTime(es) == Some(es[i].startTime)
    decreases |es|
  {
    if i < |es| - 1 {
      FirstFcpTimeIsEarliest(es[..|es| - 1], i);
    } else {
      FirstFcpTimeAbsent(es[..i]);
    }
  }

  /** A batch gives no time exactly when it holds no `first-contentful-paint` entry. */
  lemma {:induction false} FirstFcpTimeAbsent(es: seq<PaintEntry>)
    ensures FirstFcpTime(es).None? <==> forall j :: 0 <= j < |es| ==> es[j].name != FirstContentfulPaint
    decreases |es|
  {
    if es != [] {
      var init := es[..|es| - 1];
      FirstFcpTimeAbsent(init);
      assert forall j :: 0 <= j < |init| ==> init[j] == es[j];
    }
  }

  /** The unflagged shifts are exactly the batch's entries with `hadRecentInput` false. */
  lemma {:induction false} UnflaggedMembers(es: seq<LayoutShiftEntry>)
    ensures forall e :: e in Unflagged(es) <==> e in es && !e.hadRecentInput
    decreases |es|
  {
    if es != [] {
      var init := es[..|es| - 1];
      UnflaggedMembers(init);
      assert es == init + [es[|es| - 1]];
    }
  }

  /** A batch made only of shifts after recent input changes nothing. */
  lemma {:induction false} FlaggedShiftsIgnored(s: Snapshot, es: seq<LayoutShiftEntry>)
    requires forall i :: 0 <= i < |es| ==> es[i].hadRecentInput
    ensures Unflagged(es) == []
    ensures FoldLayoutShifts(s, es) == s
    decreases |es|
  {
    if es != [] {
      FlaggedShiftsIgnored(s, es[..|es| - 1]);
    }
    assert s.clsEntries + [] == s.clsEntries;
  }

  lemma {:induction false} ShiftTotalNonNegative(es: seq<LayoutShiftEntry>)
    requires forall i :: 0 <= i < |es| ==> es[i].value >= 0.0
    ensures ShiftTotal(es) >= 0.0
    decreases |es|
  {
    if es != [] {
      ShiftTotalNonNegative(es[..|es| - 1]);
    }
  }

  lemma {:induction false} UnflaggedScoresNonNegative(es: seq<LayoutShiftEntry>)
    requires forall i :: 0 <= i < |es| ==> es[i].value >= 0.0
    ensures ShiftTotal(Unflagged(es)) >= 0.0
  {
    UnflaggedMembers(es);
    var u := Unflagged(es);
    forall i | 0 <= i < |u| ensures u[i].value >= 0.0 {
      assert u[i] in u;
    }
    ShiftTotalNonNegative(u);
  }

  /**
   * Blocking time is never negative and falls short of the raw duration by at most the
   * threshold per task; with non-negative durations it never exceeds the raw duration.
   */
  lemma {:induction false} BlockingBounds(es: seq<LongTaskEntry>)
    ensures 0.0 <= TotalBlocking(es)
    ensures TotalDuration(es) - BlockingThreshold * (|es| as real) <= TotalBlocking(es)
    ensures (forall i :: 0 <= i < |es| ==> es[i].duration >= 0.0) ==> TotalBlocking(es) <= TotalDuration(es)
    decreases |es|
  {
    if es != [] {
      var init := es[..|es| - 1];
      BlockingBounds(init);
      assert forall i :: 0 <= i < |init| ==> init[i] == es[i];
    }
  }

  // ---------------------------------------------------------------------------
  // Batches: two deliveries in a row act as their concatenation

  lemma PaintBatches(s: Snapshot, a: seq<PaintEntry>, b: seq<PaintEntry>)
    ensures FoldPaints(FoldPaints(s, a), b) == FoldPaints(s, a + b)
  {
    FirstFcpTimeAppend(a, b);
  }

  /**
   * One more paint entry in the same batch: the callback writes `fcp` and recomputes only
   * when the entry is a `first-contentful-paint` one and `fcp` is still unset.
   */
  lemma PaintCallbackStep(s: Snapshot, es: seq<PaintEntry>, e: PaintEntry, rb: seq<ResourceEntry>, nb: seq<NavigationEntry>)
    ensures var t := PaintCallback(s, es, rb, nb);
            var writes := e.name == FirstContentfulPaint && t.fcp.None?;
            && PaintCallback(s, es + [e], rb, nb) == (if writes then Sample(t.(fcp := Some(e.startTime)), rb, nb) else t)
            && SetsFcp(s, es + [e]) == (SetsFcp(s, es) || writes)
  {
    assert (es + [e])[..|es + [e]| - 1] == es;
  }

  lemma LargestPaintBatches(s: Snapshot, a: seq<LargestPaintEntry>, b: seq<LargestPaintEntry>)
    ensures FoldLargestPaints(FoldLargestPaints(s, a), b) == FoldLargestPaints(s, a + b)
  {
    if b != [] {
      assert (a + b)[|a + b| - 1] == b[|b| - 1];
    } else {
      assert a + b == a;
    }
  }

  /** One more shift: recorded and scored unless it followed recent input. */
  lemma UnflaggedStep(es: seq<LayoutShiftEntry>, e: LayoutShiftEntry)
    ensures Unflagged(es + [e]) == if e.hadRecentInput then Unflagged(es) else Unflagged(es) + [e]
    ensures ShiftTotal(Unflagged(es + [e])) ==
              if e.hadRecentInput then ShiftTotal(Unflagged(es)) else ShiftTotal(Unflagged(es)) + e.value
  {
    assert (es + [e])[..|es + [e]| - 1] == es;
    if e.hadRecentInput {
      assert Unflagged(es) + [] == Unflagged(es);
    } else {
      ShiftTotalAppend(Unflagged(es), [e]);
    }
  }

  /** One more shift in the loop: the record gains its score and the entry unless it followed input. */
  lemma LayoutShiftStep(s: Snapshot, es: seq<LayoutShiftEntry>, e: LayoutShiftEntry)
    ensures FoldLayoutShifts(s, es + [e]) ==
              if e.hadRecentInput then FoldLayoutShifts(s, es)
              else FoldLayoutShifts(s, es).(cls := FoldLayoutShifts(s, es).cls + e.value,
                                           clsEntries := FoldLayoutShifts(s, es).clsEntries + [e])
  {
    UnflaggedStep(es, e);
    if e.hadRecentInput {
      assert s.clsEntries + Unflagged(es + [e]) == s.clsEntries + Unflagged(es);
    } else {
      assert s.clsEntries + Unflagged(es + [e]) == (s.clsEntries + Unflagged(es)) + [e];
    }
  }

  lemma LayoutShiftBatches(s: Snapshot, a: seq<LayoutShiftEntry>, b: seq<LayoutShiftEntry>)
    ensures FoldLayoutShifts(FoldLayoutShifts(s, a), b) == FoldLayoutShifts(s, a + b)
  {
    UnflaggedAppend(a, b);
    ShiftTotalAppend(Unflagged(a), Unflagged(b));
  }

  lemma LongTaskBatches(s: Snapshot, a: seq<LongTaskEntry>, b: seq<LongTaskEntry>)
    ensures FoldLongTasks(FoldLongTasks(s, a), b) == FoldLongTasks(s, a + b)
  {
    LongTaskTotalsAppend(a, b);
  }

  // ---------------------------------------------------------------------------
  // The recompute

  /** Sampling twice with the same buffers gives the state sampling once gives. */
  lemma SampleIdempotent(s: Snapshot, rb: seq<ResourceEntry>, nb: seq<NavigationEntry>)
    ensures Sample(Sample(s, rb, nb), rb, nb) == Sample(s, rb, nb)
  {
  }

  /** Sampling replaces the resources wholesale and recomputes the derived fields from them. */
  lemma SampleRecomputes(s: Snapshot, rb: seq<ResourceEntry>, nb: seq<NavigationEntry>)
    ensures Sample(s, rb, nb).resources == rb
    ensures Sample(s, rb, nb).totalRequests == |rb| + 1
    ensures Sample(s, rb, nb).totalBytes == TotalBytes(rb)
    ensures Sample(s, rb, nb).nav == (if |nb| > 0 then Some(nb[0]) else s.nav)
    ensures Sample(s, rb, nb) == s.(resources := rb, totalRequests := |rb| + 1, totalBytes := TotalBytes(rb),
                                     nav := Sample(s, rb, nb).nav)
  {
  }

  /** With non-negative encoded body sizes the byte total is non-negative; transfer sizes need no bound, since only a positive one is counted. */
  lemma {:induction false} TotalBytesNonNegative(rs: seq<ResourceEntry>)
    requires forall i :: 0 <= i < |rs| ==> (rs[i].encodedBodySize.Some? ==> rs[i].encodedBodySize.value >= 0)
    ensures TotalBytes(rs) >= 0
    decreases |rs|
  {
    if rs != [] {
      TotalBytesNonNegative(rs[..|rs| - 1]);
    }
  }

  lemma SampleExplained(h: History, s: Snapshot, rb: seq<ResourceEntry>, nb: seq<NavigationEntry>)
    requires Explains(h, s)
    ensures Explains(h, Sample(s, rb, nb))
  {
  }

  // ---------------------------------------------------------------------------
  // Every callback extends the history by its batch and keeps Explains. The paint
  // callback recomputes inside its loop, so its lemma covers the whole callback; the
  // other three recompute after the loop, so theirs cover the loop and SampleExplained
  // covers the `update` that follows.

  /** After a whole paint callback, `fcp` is the first FCP time of all paint entries delivered. */
  lemma PaintCallbackExplained(h: History, s: Snapshot, es: seq<PaintEntry>, rb: seq<ResourceEntry>, nb: seq<NavigationEntry>)
    requires Explains(h, s)
    ensures Explains(h.(paints := h.paints + es), PaintCallback(s, es, rb, nb))
  {
    FirstFcpTimeAppend(h.paints, es);
  }

  lemma LargestPaintFoldExplained(h: History, s: Snapshot, es: seq<LargestPaintEntry>)
    requires Explains(h, s)
    ensures Explains(h.(largestPaints := h.largestPaints + es), FoldLargestPaints(s, es))
  {
    LargestPaintBatches(Initial, h.largestPaints, es);
  }

  lemma LayoutShiftFoldExplained(h: History, s: Snapshot, es: seq<LayoutShiftEntry>)
    requires Explains(h, s)
    ensures Explains(h.(layoutShifts := h.layoutShifts + es), FoldLayoutShifts(s, es))
  {
    UnflaggedAppend(h.layoutShifts, es);
    ShiftTotalAppend(Unflagged(h.layoutShifts), Unflagged(es));
  }

  lemma LongTaskFoldExplained(h: History, s: Snapshot, es: seq<LongTaskEntry>)
    requires Explains(h, s)
    ensures Explains(h.(longTasks := h.longTasks + es), FoldLongTasks(s, es))
  {
    LongTaskTotalsAppend(h.longTasks, es);
  }

  /**
   * What a state built from deliveries satisfies on its own: the score is the sum of the
   * recorded shifts, none of which followed input; blocking time is bounded by the raw
   * durations.
   */
  lemma ExplainedConsistent(h: History, s: Snapshot)
    requires Explains(h, s)
    ensures s.cls == ShiftTotal(s.clsEntries)
    ensures forall e :: e in s.clsEntries ==> !e.hadRecentInput
    ensures 0.0 <= s.totalBlockingTime
    ensures s.longTasksTime - BlockingThreshold * (s.longTasks as real) <= s.totalBlockingTime
    ensures (forall i :: 0 <= i < |h.longTasks| ==> h.longTasks[i].duration >= 0.0) ==>
              s.totalBlockingTime <= s.longTasksTime
  {
    UnflaggedMembers(h.layoutShifts);
    BlockingBounds(h.longTasks);
  }

  // ---------------------------------------------------------------------------
  // Monotonicity and independence of the categories

  /** No callback takes back `fcp` or lowers an accumulator. */
  lemma CallbacksGrow(s: Snapshot, p: seq<PaintEntry>, l: seq<LargestPaintEntry>, c: seq<LayoutShiftEntry>,
                      t: seq<LongTaskEntry>, rb: seq<ResourceEntry>, nb: seq<NavigationEntry>)
    requires forall i :: 0 <= i < |c| ==> c[i].value >= 0.0
    requires forall i :: 0 <= i < |t| ==> t[i].duration >= 0.0
    ensures Grows(s, PaintCallback(s, p, rb, nb))
    ensures Grows(s, LargestPaintCallback(s, l, rb, nb))
    ensures Grows(s, LayoutShiftCallback(s, c, rb, nb))
    ensures Grows(s, LongTaskCallback(s, t, rb, nb))
  {
    UnflaggedScoresNonNegative(c);
    BlockingBounds(t);
    assert TotalDuration(t) >= TotalBlocking(t);
  }

  /**
   * The categories touch disjoint fields, so with the same buffers at hand the order in
   * which two callbacks run does not matter.
   */
  lemma CallbacksCommute(s: Snapshot, p: seq<PaintEntry>, l: seq<LargestPaintEntry>, c: seq<LayoutShiftEntry>,
                         t: seq<LongTaskEntry>, rb: seq<ResourceEntry>, nb: seq<NavigationEntry>)
    ensures PaintCallback(LongTaskCallback(s, t, rb, nb), p, rb, nb) == LongTaskCallback(PaintCallback(s, p, rb, nb), t, rb, nb)
    ensures PaintCallback(LayoutShiftCallback(s, c, rb, nb), p, rb, nb) == LayoutShiftCallback(PaintCallback(s, p, rb, nb), c, rb, nb)
    ensures PaintCallback(LargestPaintCallback(s, l, rb, nb), p, rb, nb) == LargestPaintCallback(PaintCallback(s, p, rb, nb), l, rb, nb)
    ensures LargestPaintCallback(LongTaskCallback(s, t, rb, nb), l, rb, nb) == LongTaskCallback(LargestPaintCallback(s, l, rb, nb), t, rb, nb)
    ensures LargestPaintCallback(LayoutShiftCallback(s, c, rb, nb), l, rb, nb) == LayoutShiftCallback(LargestPaintCallback(s, l, rb, nb), c, rb, nb)
    ensures LayoutShiftCallback(LongTaskCallback(s, t, rb, nb), c, rb, nb) == LongTaskCallback(LayoutShiftCallback(s, c, rb, nb), t, rb, nb)
  {
  }
}
