/** Optional values: the model's stand-in for a JavaScript field that may be `null` or absent. */
module Wrappers {
  datatype Option<+T> = None | Some(value: T)
}

/**
 * The performance entries the browser hands to the metrics widget, reduced to the fields
 * the widget reads, and the per-entry rules it applies to them.
 *
 * Timestamps, durations and layout-shift scores are `real` (the browser's doubles without
 * rounding or NaN); byte counts are `int`.
 */
module Entries {
  import opened Wrappers

  /** The only paint entry name the paint observer reacts to. */
  const FirstContentfulPaint: string := "first-contentful-paint"

  /** Milliseconds of a long task that do not count as blocking. */
  const BlockingThreshold: real := 50.0

  /** A `paint` entry. */
  datatype PaintEntry = PaintEntry(name: string, startTime: real)

  /** A `largest-contentful-paint` entry; `renderTime` and `loadTime` may be absent. */
  datatype LargestPaintEntry = LargestPaintEntry(renderTime: Option<real>, loadTime: Option<real>, startTime: real)

  /** A `layout-shift` entry. */
  datatype LayoutShiftEntry = LayoutShiftEntry(value: real, hadRecentInput: bool)

  /** A `longtask` entry. */
  datatype LongTaskEntry = LongTaskEntry(duration: real)

  /** A `resource` entry; either size may be absent. */
  datatype ResourceEntry = ResourceEntry(name: string, transferSize: Option<int>, encodedBodySize: Option<int>)

  /** A `navigation` entry; the widget only stores it. */
  datatype NavigationEntry = NavigationEntry(name: string, duration: real)

  /** JavaScript truthiness of a possibly absent number: absent and zero are falsy. */
  predicate Truthy(x: Option<real>) {
    x.Some? && x.value != 0.0
  }

  /** The time a largest-paint entry proposes: `renderTime || loadTime || startTime`. */
  function Candidate(e: LargestPaintEntry): (c: real)
    ensures Truthy(e.renderTime) ==> c == e.renderTime.value
    ensures !Truthy(e.renderTime) && Truthy(e.loadTime) ==> c == e.loadTime.value
    ensures !Truthy(e.renderTime) && !Truthy(e.loadTime) ==> c == e.startTime
    // the `||` chain never yields 0 while a later field is still to be tried
    ensures c == 0.0 ==> e.startTime == 0.0
  {
    if Truthy(e.renderTime) then e.renderTime.value
    else if Truthy(e.loadTime) then e.loadTime.value
    else e.startTime
  }

  /** `Math.max(0, duration - 50)`: the part of a long task beyond the threshold. */
  function Blocking(duration: real): (b: real)
    ensures b >= 0.0 && b >= duration - BlockingThreshold
    ensures b == 0.0 || b == duration - BlockingThreshold
  {
    if duration - BlockingThreshold > 0.0 then duration - BlockingThreshold else 0.0
  }

  /**
   * Bytes one resource contributes: a positive `transferSize`, otherwise
   * `encodedBodySize || 0`.
   */
  function TransferBytes(r: ResourceEntry): (b: int)
    ensures r.transferSize.Some? && r.transferSize.value > 0 ==> b == r.transferSize.value
    ensures !(r.transferSize.Some? && r.transferSize.value > 0) && r.encodedBodySize.Some? ==> b == r.encodedBodySize.value
    ensures !(r.transferSize.Some? && r.transferSize.value > 0) && r.encodedBodySize.None? ==> b == 0
    // a zero, negative or absent transfer size is never counted
    ensures (r.encodedBodySize.Some? ==> r.encodedBodySize.value >= 0) ==> b >= 0
  {
    if r.transferSize.Some? && r.transferSize.value > 0 then r.transferSize.value
    else if r.encodedBodySize.Some? then r.encodedBodySize.value
    else 0
  }
}
