/** The viewer's glue: fitting the camera's clip planes to the scene bound, and turning the
    splat asset's download progress into whole-percent reports that never go backwards. */
module Viewer {
  import opened Wrappers
  import opened JsNumber
  import opened MathUtil

  // ---------------------------------------------------------------------------------------------
  // Clip planes

  /** The near and far clip distances handed to the camera. */
  datatype Clip = Clip(near: real, far: real)

  /** The widest far/near ratio the fit allows: `1024 * 16`. */
  const DepthRange: real := 16384.0

  /** The fit for a bound of radius `radius` whose centre lies `dist` ahead of the camera: the far
      plane just behind the bound (at least 0.01), the near plane just before it, but never closer
      than the far plane over 16384. */
  function ClipPlanes(dist: real, radius: real): Clip {
    var far := Max(dist + radius, 0.01);
    Clip(Max(dist - radius, far / DepthRange), far)
  }

  /** The planes are positive and ordered, far contains the whole bound and the depth ratio stays
      within 16384; the near side of the bound is inside the range exactly when the bound is not
      too close for that ratio. */
  lemma ClipPlanesFit(dist: real, radius: real)
    requires radius >= 0.0
    ensures var c := ClipPlanes(dist, radius);
      && 0.0 < c.near <= c.far
      && c.far >= 0.01 && c.far >= dist + radius
      && c.far <= DepthRange * c.near
      && (c.near <= dist - radius <==> dist - radius >= c.far / DepthRange)
  {
    var far := Max(dist + radius, 0.01);
    assert far / DepthRange * DepthRange == far;
  }

  /** A bound entirely in front of the camera and not too deep for the ratio is clipped exactly at
      its two sides. */
  lemma ClipHugsBound(dist: real, radius: real)
    requires radius >= 0.0 && dist + radius >= 0.01
    requires (dist - radius) * DepthRange >= dist + radius
    ensures ClipPlanes(dist, radius) == Clip(dist - radius, dist + radius)
  {
    assert (dist - radius) * DepthRange / DepthRange == dist - radius;
  }

  // ---------------------------------------------------------------------------------------------
  // Load progress

  /** `Math.min(1, received / length) * 100` for one progress event, or `None` when it is NaN
      (nothing received of an unknown length) or minus infinity, which no watermark is below. A
      positive amount over a zero length is infinity, clamped to 100. */
  function Progress(received: real, length: real): Option<real> {
    if length != 0.0 then Some(Min(1.0, received / length) * 100.0)
    else if received > 0.0 then Some(100.0)
    else None
  }

  /** Whether an event raises the watermark, and so is reported. */
  predicate Raises(watermark: real, received: real, length: real) {
    Progress(received, length).Some? && Progress(received, length).value > watermark
  }

  /** The watermark after an event. */
  function NextWatermark(watermark: real, received: real, length: real): real {
    if Raises(watermark, received, length) then Progress(received, length).value else watermark
  }

  /** A progress value never exceeds 100. */
  lemma ProgressAtMost100(received: real, length: real)
    ensures Progress(received, length).Some? ==> Progress(received, length).value <= 100.0
  {
  }

  /** Each event leaves the watermark where it was or raises it strictly; it never passes 100, and
      it is raised exactly when the event's progress is above it. */
  lemma WatermarkStep(watermark: real, received: real, length: real)
    requires 0.0 <= watermark <= 100.0
    ensures var w := NextWatermark(watermark, received, length);
      && watermark <= w <= 100.0
      && (w > watermark <==> Raises(watermark, received, length))
      && (w == watermark <==> !Raises(watermark, received, length))
  {
  }

  /** The progress events' sizes, as `(received, length)`. */
  type Event = (real, real)

  /** The whole-percent reports a run of events makes, starting from `watermark`. */
  function Reports(watermark: real, events: seq<Event>): seq<int>
    decreases |events|
  {
    if |events| == 0 then []
    else
      var w := NextWatermark(watermark, events[0].0, events[0].1);
      (if Raises(watermark, events[0].0, events[0].1) then [Trunc(w)] else []) + Reports(w, events[1..])
  }

  /** The watermark after a run of events. */
  function WatermarkAfter(watermark: real, events: seq<Event>): real
    decreases |events|
  {
    if |events| == 0 then watermark
    else WatermarkAfter(NextWatermark(watermark, events[0].0, events[0].1), events[1..])
  }

  /** Truncation keeps the order of non-negative numbers. */
  lemma TruncMonotone(a: real, b: real)
    requires 0.0 <= a <= b
    ensures Trunc(a) <= Trunc(b)
  {
  }

  /** Every element of `r` lies in `[lo, hi]` and no element is smaller than one before it. */
  predicate SortedWithin(r: seq<int>, lo: int, hi: int) {
    && (forall i, j :: 0 <= i < j < |r| ==> r[i] <= r[j])
    && (forall i :: 0 <= i < |r| ==> lo <= r[i] <= hi)
  }

  /** Putting a value no greater than the rest in front keeps the order. */
  lemma ConsSorted(x: int, rest: seq<int>, lo: int, hi: int)
    requires lo <= x <= hi && SortedWithin(rest, x, hi)
    ensures SortedWithin([x] + rest, lo, hi)
  {
    var r := [x] + rest;
    assert forall i :: 0 < i < |r| ==> r[i] == rest[i - 1];
    forall i, j | 0 <= i < j < |r|
      ensures r[i] <= r[j]
    {
      assert r[j] == rest[j - 1];
      if i > 0 {
        assert r[i] == rest[i - 1];
      }
    }
  }

  /** Lowering the lower bound keeps a sorted run sorted. */
  lemma Widen(r: seq<int>, lo: int, lo': int, hi: int)
    requires lo' <= lo && SortedWithin(r, lo, hi)
    ensures SortedWithin(r, lo', hi)
  {
  }

  /** The reports never go backwards, each lies between the truncated starting watermark and 100,
      and the watermark ends between where it started and 100. */
  lemma {:induction false} ReportsNonDecreasing(watermark: real, events: seq<Event>)
    requires 0.0 <= watermark <= 100.0
    ensures SortedWithin(Reports(watermark, events), Trunc(watermark), 100)
    ensures watermark <= WatermarkAfter(watermark, events) <= 100.0
    decreases |events|
  {
    if |events| > 0 {
      var e := events[0];
      var w := NextWatermark(watermark, e.0, e.1);
      WatermarkStep(watermark, e.0, e.1);
      ReportsNonDecreasing(w, events[1..]);
      TruncMonotone(watermark, w);
      TruncMonotone(w, 100.0);
      var rest := Reports(w, events[1..]);
      if Raises(watermark, e.0, e.1) {
        ConsSorted(Trunc(w), rest, Trunc(watermark), 100);
      } else {
        Widen(rest, Trunc(w), Trunc(watermark), 100);
      }
    }
  }

  /** Reports are not strictly increasing: two events raising the watermark within the same whole
      percent report that percent twice. */
  lemma SamePercentTwice()
    ensures Reports(0.0, [(10.2, 100.0), (10.7, 100.0)]) == [10, 10]
  {
    assert Progress(10.2, 100.0) == Some(10.2);
    assert Progress(10.7, 100.0) == Some(10.7);
    assert Trunc(10.2) == 10 && Trunc(10.7) == 10;
    var events: seq<Event> := [(10.2, 100.0), (10.7, 100.0)];
    var none: seq<Event> := [];
    assert events[1..] == [(10.7, 100.0)];
    assert events[1..][1..] == none;
  }

  /** The progress listener of one splat load: the watermark and the percentages handed to the
      progress callback. */
  class Load {
    var watermark: real
    var reported: seq<int>

    constructor ()
      ensures watermark == 0.0 && reported == []
    {
      watermark := 0.0;
      reported := [];
    }

    /** One `progress` event of `received` out of `length` bytes. */
    method OnProgress(received: real, length: real)
      modifies this
      ensures watermark == NextWatermark(old(watermark), received, length)
      ensures reported == old(reported) + Reports(old(watermark), [(received, length)])
    {
      var progress: Option<real>;
      if length != 0.0 {
        progress := Some(Min(1.0, received / length) * 100.0);
      } else if received > 0.0 {
        progress := Some(100.0);
      } else {
        progress := None;
      }
      if progress.Some? && progress.value > watermark {
        watermark := progress.value;
        reported := reported + [Trunc(watermark)];
      }
      var one: seq<Event> := [(received, length)];
      var none: seq<Event> := [];
      assert one[1..] == none;
    }
  }
}
