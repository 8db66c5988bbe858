# Page performance metrics widget — a Dafny model of its aggregation core

The widget in `js/metrics.js` watches the browser's performance entries and keeps one mutable
record of user-experience metrics:
- first contentful paint (`fcp`);
- largest contentful paint (`lcp`);
- cumulative layout shift (`cls`, with the recorded shifts in `clsEntries`);
- long-task count, long-task time and approximate total blocking time;
- the resource list, the request count and the transferred bytes;
- the navigation entry.

Four observer callbacks update the record in place, one per entry category. A recompute
(`update`) re-reads the resource and navigation buffers and publishes a shallow copy of the
record as `window.__metrics`.

The model has four modules:

- `Entries` (`entries.dfy`): the entry records, reduced to the fields the widget reads. It also
  holds the per-entry rules: the `renderTime || loadTime || startTime` candidate, the
  `max(0, duration − 50)` blocking part, and the `transferSize`/`encodedBodySize` fallback.
  JavaScript truthiness is written out: an absent or zero number is falsy.
- `Aggregate` (`aggregate.dfy`): the record as a value (`Snapshot`). For each callback it has a
  function giving the record after the callback's loop (`Fold…`) and after the whole callback
  (`…Callback`: the loop, then `update`). `Sample` is the recompute. `History` holds every entry
  each observer has received, and `Explains` says which record that history determines. The
  lemmas prove that relation is kept. They also cover batching, monotonicity, the commutation of
  the categories and what each summary means.
- `Metrics` (`metrics.dfy`): class `MetricsState`, with the record's fields, the published copy
  and a ghost `history`. The methods are the source's callbacks and samplers with their loops.
  Each is proved against the `Aggregate` functions. `Valid()` holds after the constructor, after
  `Update` (from a record the history determines) and after each `Observe…` callback: the record
  is what the history determines, and the published copy, once there is one, equals the record.
  `CollectResources`, `CollectNavigation` and the `Record…` loops are the inner steps of those
  operations. On their own they do not keep `Valid()`: they change the record without
  republishing it.
- `Scenarios` (`scenarios.dfy`): concrete runs from a fresh state that read the published copy.

Times, durations and shift scores are `real`. Byte counts are `int`. The browser's entry lists
and buffers are method parameters.

Two behaviours one might expect of such a widget are not what the code does, and the model
follows the code:
- A write-once navigation record would keep the first navigation entry forever. The code
  (`js/metrics.js:90-91`) replaces `nav` on every sample whose navigation buffer is non-empty.
  `WithNavigation` and `CollectNavigation` do the same.
- Stopping the paint observer after the first success would end the batch at the first
  `first-contentful-paint` entry. The code does call `poPaint.disconnect()` (`js/metrics.js:31`),
  but that only stops later deliveries. The current batch's loop keeps running, and the
  `fcp == null` guard keeps later entries from writing. That guard already makes every later
  paint entry a no-op, so the model has the guard and leaves the disconnection out.

## Model

| member | source | states |
|---|---|---|
| `Metrics.MetricsState.constructor` | js/metrics.js:6-18 | The record starts with `fcp`, `lcp` and `nav` null, zero accumulators and counters, empty lists and nothing published. The initial state satisfies the invariant with an empty history. |
| `Metrics.MetricsState.RecordPaints` | js/metrics.js:27-33 | The loop writes `fcp` only from an entry named `first-contentful-paint`, and only while `fcp` is unset. After the batch, `fcp` is the old value if one was set; otherwise it is the start time of the batch's first such entry. `update` runs, and the copy is published, exactly when the batch sets `fcp`; otherwise the state and the published copy are unchanged. |
| `Metrics.MetricsState.ObservePaint` | js/metrics.js:26-34 | The paint callback does what `RecordPaints` states and keeps the invariant. `fcp` stays the first FCP time of every paint entry ever delivered. |
| `Metrics.MetricsState.RecordLargestPaints` | js/metrics.js:40-42 | After the loop, `lcp` is the last entry's candidate (`renderTime` if truthy, else `loadTime` if truthy, else `startTime`), not the largest or smallest. An empty batch leaves `lcp` unchanged. No other field changes. |
| `Metrics.MetricsState.ObserveLargestPaint` | js/metrics.js:39-44 | The loop, then a re-sample and a publication of the state. The invariant still holds afterwards. |
| `Metrics.MetricsState.RecordLayoutShifts` | js/metrics.js:53-58 | `cls` grows by the sum of the scores of the entries without recent input. `clsEntries` gets exactly those entries appended, in delivery order. No other field changes. |
| `Metrics.MetricsState.ObserveLayoutShift` | js/metrics.js:52-60 | The loop, then a re-sample and a publication of the state. The invariant still holds afterwards. |
| `Metrics.MetricsState.RecordLongTasks` | js/metrics.js:66-70 | `longTasks` grows by the batch length and `longTasksTime` by the sum of durations. `totalBlockingTime` grows by the sum of `max(0, d − 50)`. No other field changes. |
| `Metrics.MetricsState.ObserveLongTasks` | js/metrics.js:65-72 | The loop, then a re-sample and a publication of the state. The invariant still holds afterwards. |
| `Metrics.MetricsState.CollectResources` | js/metrics.js:76-87 | `resources` becomes the buffer and `totalRequests` its length + 1. `totalBytes` becomes the buffer's byte total. No other field changes. |
| `Metrics.SumTransferBytes` | js/metrics.js:81-86 | The accumulation loop returns the sum of each resource's positive `transferSize`, else its `encodedBodySize`, else 0. |
| `Metrics.MetricsState.CollectNavigation` | js/metrics.js:89-92 | `nav` becomes the first navigation entry when the buffer has one, and stays unchanged when it is empty. |
| `Metrics.MetricsState.Update` | js/metrics.js:131-144 | Only `resources`, `totalRequests`, `totalBytes` and `nav` change, as the samplers set them. The published copy then equals the whole record. From a state the deliveries determine, the invariant holds afterwards. |
| `Entries.Candidate` | js/metrics.js:41 | The largest-paint time is the first truthy value among `renderTime`, `loadTime` and `startTime`, where an absent or zero time is falsy. The result is 0 only when it fell through to a zero `startTime`. |
| `Entries.TransferBytes` | js/metrics.js:83 | A resource counts its `transferSize` when that is positive. Otherwise it counts its `encodedBodySize`, or 0 when that is absent. With a non-negative encoded size the count is non-negative. |
| `Entries.Blocking` | js/metrics.js:69 | The blocking part of a long task is the least value that is at least 0 and at least `duration − 50`. |
| `Aggregate.BlockingBounds` | js/metrics.js:68-69 | Total blocking is never negative. It is at least the total duration minus 50 ms per task. With non-negative durations it is at most the total duration. |
| `Aggregate.LongTaskTotalsAppend` | js/metrics.js:66-70 | Duration and blocking totals of two consecutive batches add up. |
| `Aggregate.LongTaskBatches` | js/metrics.js:65-72 | Two long-task batches in a row give the same record as one batch of their concatenation. |
| `Aggregate.FirstFcpTimeAppend` | js/metrics.js:27-32 | Across two batches, the first batch's FCP time wins whenever it has one. |
| `Aggregate.FirstFcpTimeIsEarliest` | js/metrics.js:27-29 | The FCP time is the start time of the earliest entry named `first-contentful-paint`. |
| `Aggregate.FirstFcpTimeAbsent` | js/metrics.js:28 | A batch gives no FCP time exactly when none of its entries is named `first-contentful-paint`. |
| `Aggregate.PaintBatches` | js/metrics.js:26-34 | Two paint batches act as their concatenation. A set `fcp` is never overwritten. |
| `Aggregate.PaintCallbackStep` | js/metrics.js:27-32 | One more entry in a paint batch writes `fcp` and recomputes exactly when it is named `first-contentful-paint` and `fcp` is still unset; otherwise it changes nothing. |
| `Aggregate.LargestPaintBatches` | js/metrics.js:40-42 | Two largest-paint batches act as their concatenation: the last candidate overall wins. |
| `Aggregate.UnflaggedAppend` | js/metrics.js:53-58 | Filtering out recent-input shifts distributes over concatenation. |
| `Aggregate.UnflaggedStep` | js/metrics.js:54-56 | One more shift is recorded and scored exactly when `hadRecentInput` is false. |
| `Aggregate.LayoutShiftStep` | js/metrics.js:53-58 | One more shift in the loop adds its score to `cls` and itself to the end of `clsEntries`, unless it followed recent input, in which case nothing changes. |
| `Aggregate.ShiftTotalAppend` | js/metrics.js:55 | Shift totals of consecutive lists add up. |
| `Aggregate.UnflaggedMembers` | js/metrics.js:54-56 | The recorded shifts are exactly the batch's entries whose `hadRecentInput` is false. |
| `Aggregate.FlaggedShiftsIgnored` | js/metrics.js:54 | A batch made only of shifts after recent input changes neither `cls` nor `clsEntries`. |
| `Aggregate.LayoutShiftBatches` | js/metrics.js:52-60 | Two layout-shift batches act as their concatenation. |
| `Aggregate.ShiftTotalNonNegative` | js/metrics.js:55 | Non-negative scores have a non-negative total. |
| `Aggregate.UnflaggedScoresNonNegative` | js/metrics.js:54-55 | With non-negative scores a batch never lowers `cls`. |
| `Aggregate.TotalBytesAppend` | js/metrics.js:82-85 | Byte totals of consecutive resource lists add up. |
| `Aggregate.TotalBytesNonNegative` | js/metrics.js:81-86 | When no encoded body size is negative, the byte total is non-negative, whatever the transfer sizes are, since only a positive transfer size is counted. |
| `Aggregate.SampleRecomputes` | js/metrics.js:77-79 | Sampling sets `resources` to the buffer, `totalRequests` to its length + 1 and `totalBytes` to its byte total. It sets `nav` to the first navigation entry or keeps it. No other field changes. |
| `Aggregate.SampleIdempotent` | js/metrics.js:131-133 | Recomputing twice with the same buffers gives the state that recomputing once gives. |
| `Aggregate.SampleExplained` | js/metrics.js:76-92 | Sampling keeps the derived fields consistent with the resources. It leaves the observer fields as the history determines them. |
| `Aggregate.PaintCallbackExplained` | js/metrics.js:26-34 | After the paint callback, `fcp` is the first FCP time of all paint entries ever delivered. |
| `Aggregate.LargestPaintFoldExplained` | js/metrics.js:40-42 | After the largest-paint loop, `lcp` is the candidate of the last largest-paint entry ever delivered. |
| `Aggregate.LayoutShiftFoldExplained` | js/metrics.js:53-58 | After the layout-shift loop, `clsEntries` is every delivered shift without recent input, and `cls` is their total. |
| `Aggregate.LongTaskFoldExplained` | js/metrics.js:66-70 | After the long-task loop, the count, time and blocking fields are those of every long task ever delivered. |
| `Aggregate.ExplainedConsistent` | js/metrics.js:52-72 | In any reachable state, `cls` is the sum of the recorded shifts, and none of them followed input. Blocking time is non-negative and at least the raw time minus 50 ms per task. With non-negative durations it is at most the raw time. |
| `Aggregate.CallbacksGrow` | js/metrics.js:27-29 | No callback unsets or changes a set `fcp`. With non-negative scores and durations, none lowers `cls`, `longTasks`, `longTasksTime` or `totalBlockingTime`, and `clsEntries` only grows at its end. |
| `Aggregate.CallbacksCommute` | js/metrics.js:26-72 | Any two callbacks of different categories give the same record in either order, given the same buffers. |
| `Scenarios.LongTaskScenario` | js/metrics.js:66-70 | Tasks of 30, 80 and 120 ms give 3 tasks, 230 ms and 100 ms of blocking. |
| `Scenarios.ResourceScenario` | js/metrics.js:77-86 | Transfer sizes 1200, 0 and 500 with encoded sizes 1200, 300 and 500 give 2000 bytes and 4 requests. |
| `Scenarios.LargestPaintScenario` | js/metrics.js:40-42 | Candidates of 800 then 1500 ms publish 1500. A later candidate of 700 ms, taken from `loadTime` because `renderTime` is 0, then publishes 700: the last candidate wins, not the largest. |
| `Scenarios.PaintScenario` | js/metrics.js:27-32 | Two FCP entries in one batch and one more in a later batch leave `fcp` at the first entry's time. |
| `Scenarios.NoLongTaskScenario` | js/metrics.js:13 | With no long-task deliveries, blocking time and the task count stay 0, whatever else is delivered or recomputed. |
| `Scenarios.RefreshTwice` | js/metrics.js:131-144 | Two recomputes with unchanged buffers publish equal snapshots, both the sampled state. |

## Left out

- Observer construction, `observe` options, `disconnect`, `takeRecords` on `visibilitychange` and
  the `try`/`catch` around each observer (`js/metrics.js:25-74`) are browser plumbing. An
  unsupported category is modelled as a category that never delivers (`NoLongTaskScenario`).
- The panel's DOM construction, styling, `DOMContentLoaded` insertion and the refresh/close click
  handlers (`js/metrics.js:96-128`, `147-150`) are presentation. The refresh button is simply a
  call to `Update`.
- `fmtMs`, `fmtKB` and the `toFixed` formatting in `update` (`js/metrics.js:20-21`, `135-141`)
  are floating-point string formatting.
- The `load` plus `setTimeout` trigger (`js/metrics.js:152`) is event-loop scheduling.
- `js/script.js` (a busy-wait task simulator and image class toggling) has no aggregation logic.
- IEEE doubles are modelled as reals: no rounding, no NaN, no `-0`.
- Entries keep only the fields the widget reads. The other fields of the browser's entry objects
  are not modelled.
- The published copy is a value, and the model's snapshots never change once taken. In the
  source, `{ ...state }` (`js/metrics.js:143`) is a shallow copy. The array `state.clsEntries` is
  created once (`js/metrics.js:10`) and is only ever pushed to (`js/metrics.js:56`), never
  reassigned. Every snapshot ever published therefore shares that one array. A later push stays
  visible through an older snapshot even after `update` has replaced `window.__metrics`. A reader
  that kept an earlier snapshot sees its `clsEntries` grow past its `cls`. The model does not
  capture this aliasing. Its `published` copy and the `Explains` relation describe only what the
  snapshot held when it was taken.
