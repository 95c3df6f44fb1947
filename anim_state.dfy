/** animation/anim-state: a camera animation playing a settings track through a looping spline. */
module Animation {
  import opened Types
  import opened JsNumber
  import opened Vectors
  import opened Spline
  import opened Cursor
  import opened Settings

  /** Channels per control point: a position followed by a target. */
  const Channels: nat := 6

  // ---------------------------------------------------------------------------------------------
  // Building the control points from a track

  /** The points `fromTrack` builds from the first n keyframes: for each keyframe its three position
      entries, then its three target entries. */
  function TrackPoints(position: seq<real>, target: seq<real>, n: nat): seq<real>
    requires 3 * n <= |position| && 3 * n <= |target|
  {
    if n == 0 then []
    else
      var i := n - 1;
      TrackPoints(position, target, i) + [position[3 * i], position[3 * i + 1], position[3 * i + 2]]
        + [target[3 * i], target[3 * i + 1], target[3 * i + 2]]
  }

  /** Control point k of a track as spline channels: position then target. */
  function KeyframeValues(position: seq<real>, target: seq<real>, k: nat): seq<Num>
    requires 3 * k + 3 <= |position| && 3 * k + 3 <= |target|
  {
    [Finite(position[3 * k]), Finite(position[3 * k + 1]), Finite(position[3 * k + 2]),
     Finite(target[3 * k]), Finite(target[3 * k + 1]), Finite(target[3 * k + 2])]
  }

  /** The interleaved points hold six channels per keyframe, and control point k holds keyframe k's
      position followed by its target. */
  lemma {:induction false} TrackPointsLayout(position: seq<real>, target: seq<real>, n: nat)
    requires 3 * n <= |position| && 3 * n <= |target|
    ensures |TrackPoints(position, target, n)| == Offset(n, Channels)
    ensures forall k :: 0 <= k < n ==>
      PointValues(TrackPoints(position, target, n), Channels, k) == KeyframeValues(position, target, k)
  {
    if n > 0 {
      var i := n - 1;
      TrackPointsLayout(position, target, i);
      var prev := TrackPoints(position, target, i);
      var added := [position[3 * i], position[3 * i + 1], position[3 * i + 2]]
        + [target[3 * i], target[3 * i + 1], target[3 * i + 2]];
      assert TrackPoints(position, target, n) == prev + added;
      forall k | 0 <= k < n
        ensures PointValues(prev + added, Channels, k) == KeyframeValues(position, target, k)
      {
        if k < i {
          OffsetMonotone(k, i, Channels);
          EarlierPointValues(prev, added, Channels, k);
        } else {
          LastPointValues(prev, added, position, target, i);
        }
      }
    }
  }

  /** Appending after a point leaves its channels as they were. */
  lemma EarlierPointValues(prev: seq<real>, added: seq<real>, dim: nat, k: nat)
    requires Offset(k, dim) + dim <= |prev|
    ensures PointValues(prev + added, dim, k) == PointValues(prev, dim, k)
  {
    forall j | 0 <= j < dim
      ensures PointValues(prev + added, dim, k)[j] == PointValues(prev, dim, k)[j]
    {
      var x := Offset(k, dim) + j;
      assert PointValues(prev + added, dim, k)[j] == At(prev + added, x);
      assert PointValues(prev, dim, k)[j] == At(prev, x);
      assert (prev + added)[x] == prev[x];
    }
  }

  /** The six entries appended for keyframe i form control point i. */
  lemma LastPointValues(prev: seq<real>, added: seq<real>, position: seq<real>, target: seq<real>, i: nat)
    requires 3 * i + 3 <= |position| && 3 * i + 3 <= |target|
    requires |prev| == Offset(i, Channels)
    requires added == [position[3 * i], position[3 * i + 1], position[3 * i + 2]]
      + [target[3 * i], target[3 * i + 1], target[3 * i + 2]]
    ensures PointValues(prev + added, Channels, i) == KeyframeValues(position, target, i)
  {
    forall j | 0 <= j < Channels
      ensures PointValues(prev + added, Channels, i)[j] == KeyframeValues(position, target, i)[j]
    {
      assert PointValues(prev + added, Channels, i)[j] == At(prev + added, |prev| + j);
      assert (prev + added)[|prev| + j] == added[j];
    }
  }

  /** `fromTrack`'s `extra`: one more frame of loop when the duration equals the last keyframe time
      in seconds. A zero frame rate makes that quotient non-finite, which no duration equals. */
  function Extra(duration: real, lastTime: real, frameRate: real): real {
    if frameRate != 0.0 && duration == lastTime / frameRate then 1.0 else 0.0
  }

  /** The loop length (in frames) `fromTrack` gives the spline. */
  function LoopLength(t: AnimTrack): real
    requires |t.times| >= 1
  {
    FrameTime(t.duration + Extra(t.duration, t.times[|t.times| - 1], t.frameRate), t.frameRate)
  }

  /** What `fromTrack` asks of a track: keyframes, three position and three target entries per
      keyframe, and a duration a wrapping cursor can divide by. */
  predicate PlayableTrack(t: AnimTrack) {
    && |t.times| >= 1
    && 3 * |t.times| <= |t.position| && 3 * |t.times| <= |t.target|
    && (t.loopMode.NoLoop? || t.duration != 0.0)
  }

  /** The spline `fromTrack` builds for a track: its control points padded for looping. */
  ghost predicate BuiltFrom(s: CubicSpline, t: AnimTrack)
    requires PlayableTrack(t)
  {
    var points := TrackPoints(t.position, t.target, |t.times|);
    && s.Valid() && s.dim == Channels
    && (|t.times| < 2 ==> s.times == t.times && s.knots == KnotsOf(t.times, points, 1.0))
    && (|t.times| >= 2 ==>
      && s.times == LoopTimes(LoopLength(t), t.times)
      && 2 * Channels <= |points|
      && s.knots == KnotsOf(LoopTimes(LoopLength(t), t.times), LoopPoints(points, Channels), t.smoothness))
  }

  /** The spline of a track with strictly increasing keyframes and a loop longer than their span
      passes through every keyframe's position and target at its time. */
  lemma TrackKeyframes(s: CubicSpline, t: AnimTrack)
    requires PlayableTrack(t) && BuiltFrom(s, t)
    requires |t.times| >= 2 && StrictlyIncreasing(t.times)
    requires LoopLength(t) > t.times[|t.times| - 1] - t.times[0]
    ensures forall k :: 0 <= k < |t.times| ==> s.Sample(t.times[k]) == KeyframeValues(t.position, t.target, k)
  {
    var points := TrackPoints(t.position, t.target, |t.times|);
    TrackLayout(t);
    LoopingSplineSeam(s, LoopLength(t), t.times, points, t.smoothness);
    forall k | 0 <= k < |t.times|
      ensures s.Sample(t.times[k]) == KeyframeValues(t.position, t.target, k)
    {
      assert s.Sample(t.times[k]) == PointValues(points, Channels, k);
    }
  }

  /** Under the same conditions the loop closes: one loop length after the first keyframe the spline
      is back at the first keyframe. */
  lemma TrackLoopCloses(s: CubicSpline, t: AnimTrack)
    requires PlayableTrack(t) && BuiltFrom(s, t)
    requires |t.times| >= 2 && StrictlyIncreasing(t.times)
    requires LoopLength(t) > t.times[|t.times| - 1] - t.times[0]
    ensures s.Valid() && ReturnsAfter(s, LoopLength(t), t.times[0])
  {
    LoopingTrackSpline(s, t);
    SeamOfTrack(s, LoopLength(t), t.times, TrackPoints(t.position, t.target, |t.times|), t.smoothness);
  }

  /** The facts about a looping track spline that the spline's own lemmas ask for. */
  lemma LoopingTrackSpline(s: CubicSpline, t: AnimTrack)
    requires PlayableTrack(t) && BuiltFrom(s, t) && |t.times| >= 2
    ensures var points := TrackPoints(t.position, t.target, |t.times|);
      && |points| % |t.times| == 0 && Dim(t.times, points) == Channels && 2 * Channels <= |points|
      && s.Valid() && s.dim == Channels && s.times == LoopTimes(LoopLength(t), t.times)
      && s.knots == KnotsOf(LoopTimes(LoopLength(t), t.times), LoopPoints(points, Channels), t.smoothness)
  {
    TrackLayout(t);
  }

  lemma SeamOfTrack(s: CubicSpline, length: real, times: seq<real>, points: seq<real>, smoothness: real)
    requires |times| >= 2 && StrictlyIncreasing(times) && |points| % |times| == 0
    requires length > times[|times| - 1] - times[0]
    requires Dim(times, points) == Channels && 2 * Channels <= |points|
    requires s.Valid() && s.dim == Channels && s.times == LoopTimes(length, times)
    requires s.knots == KnotsOf(LoopTimes(length, times), LoopPoints(points, Channels), smoothness)
    ensures ReturnsAfter(s, length, times[0])
  {
    LoopingSplineSeam(s, length, times, points, smoothness);
  }

  /** One loop length after `start` the spline is where it was at `start`. */
  predicate ReturnsAfter(s: CubicSpline, length: real, start: real)
    requires s.Valid()
  {
    s.Sample(length + start) == s.Sample(start)
  }

  /** A track's interleaved points hold six channels per keyframe, in keyframe order. */
  lemma TrackLayout(t: AnimTrack)
    requires PlayableTrack(t)
    ensures var points := TrackPoints(t.position, t.target, |t.times|);
      && |points| % |t.times| == 0 && Dim(t.times, points) == Channels
      && forall k :: 0 <= k < |t.times| ==> PointValues(points, Channels, k) == KeyframeValues(t.position, t.target, k)
  {
    var n := |t.times|;
    var points := TrackPoints(t.position, t.target, n);
    TrackPointsLayout(t.position, t.target, n);
    OffsetIsProduct(n, Channels);
    DivModUnique(|points|, n, Channels, 0);
  }

  /** The spline time, in frames, of a cursor value in seconds. */
  function FrameTime(value: real, frameRate: real): real {
    value * frameRate
  }

  /** Every entry of a sample is a finite number. */
  predicate AllFinite(s: seq<Num>) {
    forall i :: 0 <= i < |s| ==> s[i].Finite?
  }

  /** Three consecutive finite channels as a vector. */
  function VecAt(s: seq<Num>, k: nat): Vec3
    requires k + 3 <= |s| && s[k].Finite? && s[k + 1].Finite? && s[k + 2].Finite?
  {
    Vec3(s[k].v, s[k + 1].v, s[k + 2].v)
  }

  class AnimState {
    const spline: CubicSpline
    const cursor: AnimCursor
    const frameRate: real
    /** The buffer `evaluate` writes the six channels into. */
    const result: array<Num>
    var position: Vec3
    var target: Vec3

    ghost predicate Valid()
      reads this, cursor
    {
      && spline.Valid() && spline.dim == Channels && result.Length == Channels
      && (cursor.loopMode.NoLoop? || cursor.duration != 0.0)
    }

    /** The spline's sample at the cursor's value, in frames. */
    ghost function CurrentSample(): seq<Num>
      requires Valid()
      reads this, cursor
    {
      spline.Sample(FrameTime(Displayed(cursor.duration, cursor.cursor), frameRate))
    }

    /** Position and target are `sample` when all six channels are finite, and `prevPosition` and
        `prevTarget` otherwise. */
    ghost predicate PosedAt(sample: seq<Num>, prevPosition: Vec3, prevTarget: Vec3)
      requires |sample| == Channels
      reads this
    {
      && (AllFinite(sample) ==> position == VecAt(sample, 0) && target == VecAt(sample, 3))
      && (!AllFinite(sample) ==> position == prevPosition && target == prevTarget)
    }

    /** What `update` leaves behind: `result` holds the current sample, and position and target
        are posed at it. */
    ghost predicate ShowsSample(prevPosition: Vec3, prevTarget: Vec3)
      requires Valid()
      reads this, cursor, result
    {
      result[..] == CurrentSample() && PosedAt(result[..], prevPosition, prevTarget)
    }

    /** `new AnimState(spline, duration, loopMode, frameRate)`: a fresh cursor reset to the duration
        and loop mode, and the frame rate. Position and target start at the origin. */
    constructor (spline: CubicSpline, duration: real, loopMode: LoopMode, frameRate: real)
      requires spline.Valid() && spline.dim == Channels
      requires loopMode.NoLoop? || duration != 0.0
      ensures Valid() && fresh(cursor) && fresh(result)
      ensures this.spline == spline && this.frameRate == frameRate
      ensures cursor.duration == duration && cursor.loopMode == loopMode
      ensures cursor.timer == 0.0 && cursor.cursor == 0.0
      ensures position == Zero && target == Zero
    {
      this.spline := spline;
      var c := new AnimCursor(0.0, NoLoop);
      c.Reset(duration, loopMode);
      cursor := c;
      this.frameRate := frameRate;
      result := new Num[Channels](_ => Finite(0.0));
      position := Zero;
      target := Zero;
    }

    /** `update(dt)`: advances the cursor, samples the spline at the cursor's value in frames, and
        takes the sample as the new position and target only when all six channels are finite. */
    method Update(dt: real)
      requires Valid()
      modifies this, cursor, result
      ensures Valid()
      ensures cursor.duration == old(cursor.duration) && cursor.loopMode == old(cursor.loopMode)
      ensures cursor.timer == old(cursor.timer) + dt
      ensures cursor.cursor == Advance(cursor.loopMode, cursor.duration, old(cursor.cursor), dt)
      ensures result[..] == spline.Sample(FrameTime(Displayed(cursor.duration, cursor.cursor), frameRate))
      ensures AllFinite(result[..]) ==> position == VecAt(result[..], 0) && target == VecAt(result[..], 3)
      ensures !AllFinite(result[..]) ==> position == old(position) && target == old(target)
    {
      cursor.Update(dt);
      var time := FrameTime(cursor.Value(), frameRate);
      spline.Evaluate(time, result);
      ghost var sample := result[..];
      assert sample == spline.Sample(time) by {
        assert sample == result[..Channels];
      }
      if forall i | 0 <= i < Channels :: result[i].Finite? {
        position := Vec3(result[0].v, result[1].v, result[2].v);
        target := Vec3(result[3].v, result[4].v, result[5].v);
      }
      assert result[..] == sample;
    }
  }

  /** `fromTrack`'s points loop: pushes each keyframe's position, then its target. */
  method InterleavePoints(times: seq<real>, position: seq<real>, target: seq<real>) returns (points: seq<real>)
    requires 3 * |times| <= |position| && 3 * |times| <= |target|
    ensures points == TrackPoints(position, target, |times|)
  {
    points := [];
    var i := 0;
    while i < |times|
      invariant 0 <= i <= |times|
      invariant points == TrackPoints(position, target, i)
    {
      points := points + [position[i * 3], position[i * 3 + 1], position[i * 3 + 2]];
      points := points + [target[i * 3], target[i * 3 + 1], target[i * 3 + 2]];
      i := i + 1;
    }
  }

  /** `AnimState.fromTrack(track)`: interleaves the keyframes into six-channel points, builds a
      looping spline over (duration + extra) * frameRate frames, and passes the duration, loop mode
      and frame rate through. The field-of-view keyframes are not used. */
  method FromTrack(t: AnimTrack) returns (s: AnimState)
    requires PlayableTrack(t)
    ensures fresh(s) && fresh(s.cursor) && fresh(s.result) && s.Valid()
    ensures BuiltFrom(s.spline, t)
    ensures s.cursor.duration == t.duration && s.cursor.loopMode == t.loopMode && s.frameRate == t.frameRate
    ensures s.cursor.timer == 0.0 && s.cursor.cursor == 0.0
    ensures s.position == Zero && s.target == Zero
  {
    var times := t.times;
    var points := InterleavePoints(times, t.position, t.target);
    TrackPointsLayout(t.position, t.target, |times|);
    OffsetIsProduct(|times|, Channels);
    assert |points| % |times| == 0 && Dim(times, points) == Channels by {
      DivModUnique(|points|, |times|, Channels, 0);
    }
    var extra := if t.frameRate != 0.0 && t.duration == times[|times| - 1] / t.frameRate then 1.0 else 0.0;
    var length := (t.duration + extra) * t.frameRate;
    assert length == LoopLength(t);
    var spline := FromPointsLooping(length, times, points, t.smoothness);
    assert BuiltFrom(spline, t);
    s := new AnimState(spline, t.duration, t.loopMode, t.frameRate);
  }

  /** The loop gains one frame exactly when the duration equals the last keyframe time divided by
      the frame rate. */
  lemma LoopLengthExtra(t: AnimTrack)
    requires |t.times| >= 1
    ensures t.frameRate != 0.0 && t.duration == t.times[|t.times| - 1] / t.frameRate ==>
      LoopLength(t) == (t.duration + 1.0) * t.frameRate
    ensures !(t.frameRate != 0.0 && t.duration == t.times[|t.times| - 1] / t.frameRate) ==>
      LoopLength(t) == t.duration * t.frameRate
  {
  }
}
