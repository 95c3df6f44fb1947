/** animation/anim-cursor: a playhead over an animation of a given duration. */
module Cursor {
  import opened Types
  import opened JsNumber
  import opened MathUtil

  /** Where the cursor lands when `update(dt)` moves it from `cursor`: past the end it stops at the
      duration (`none`), wraps by the duration (`repeat`) or wraps by twice the duration
      (`pingpong`), using JavaScript's truncating `%`. The wrapping modes divide by the duration. */
  function Advance(loopMode: LoopMode, duration: real, cursor: real, dt: real): real
    requires loopMode.NoLoop? || duration != 0.0
  {
    var c := cursor + dt;
    if c >= duration then
      match loopMode
      case NoLoop => duration
      case Repeat => Rem(c, duration)
      case PingPong => Rem(c, duration * 2.0)
    else c
  }

  /** The cursor after a run of updates, one per frame. */
  function AdvanceAll(loopMode: LoopMode, duration: real, cursor: real, dts: seq<real>): real
    requires loopMode.NoLoop? || duration != 0.0
    decreases |dts|
  {
    if |dts| == 0 then cursor
    else AdvanceAll(loopMode, duration, Advance(loopMode, duration, cursor, dts[0]), dts[1..])
  }

  function Sum(dts: seq<real>): real {
    if |dts| == 0 then 0.0 else dts[0] + Sum(dts[1..])
  }

  /** What the `value` getter reports for a cursor: the cursor itself up to the duration and
      `duration - cursor` beyond it. */
  function Displayed(duration: real, cursor: real): real {
    if cursor > duration then duration - cursor else cursor
  }

  class AnimCursor {
    var duration: real
    var loopMode: LoopMode
    var timer: real
    var cursor: real

    /** `new AnimCursor(duration, loopMode)` is exactly a reset. */
    constructor (duration: real, loopMode: LoopMode)
      ensures this.duration == duration && this.loopMode == loopMode
      ensures timer == 0.0 && cursor == 0.0
    {
      new;
      Reset(duration, loopMode);
    }

    /** `update(deltaTime)`: the timer accumulates every delta and is never wrapped; the cursor
        moves as `Advance` says. */
    method Update(deltaTime: real)
      requires loopMode.NoLoop? || duration != 0.0
      modifies this
      ensures duration == old(duration) && loopMode == old(loopMode)
      ensures timer == old(timer) + deltaTime
      ensures cursor == Advance(loopMode, duration, old(cursor), deltaTime)
    {
      timer := timer + deltaTime;
      cursor := cursor + deltaTime;
      if cursor >= duration {
        match loopMode {
          case NoLoop => cursor := duration;
          case Repeat => cursor := Rem(cursor, duration);
          case PingPong => cursor := Rem(cursor, duration * 2.0);
        }
      }
    }

    /** `reset(duration, loopMode)`: new duration and mode, timer and cursor back to 0. */
    method Reset(duration: real, loopMode: LoopMode)
      modifies this
      ensures this.duration == duration && this.loopMode == loopMode
      ensures timer == 0.0 && cursor == 0.0
    {
      this.duration := duration;
      this.loopMode := loopMode;
      timer := 0.0;
      cursor := 0.0;
    }

    /** The `value` setter: the cursor becomes `mod(value, duration)`, which for a positive duration
        lies in [0, duration) and is then read back unchanged by the getter. */
    method SetValue(value: real)
      requires duration != 0.0
      modifies this
      ensures duration == old(duration) && loopMode == old(loopMode) && timer == old(timer)
      ensures cursor == Mod(value, duration)
      ensures duration > 0.0 ==> 0.0 <= cursor < duration && Value() == cursor
    {
      cursor := Mod(value, duration);
      if duration > 0.0 {
        SetterReadsBack(duration, value);
      }
    }

    /** The `value` getter. */
    function Value(): real
      reads this
    {
      Displayed(duration, cursor)
    }
  }

  // ---------------------------------------------------------------------------------------------
  // Loop policies

  /** `none`: from a cursor in [0, duration], a non-negative step stays in [0, duration] and
      reaching the end clamps to exactly the duration. */
  lemma NoLoopClamps(duration: real, cursor: real, dt: real)
    requires 0.0 <= cursor <= duration && dt >= 0.0
    ensures 0.0 <= Advance(NoLoop, duration, cursor, dt) <= duration
    ensures cursor + dt >= duration ==> Advance(NoLoop, duration, cursor, dt) == duration
    ensures cursor + dt < duration ==> Advance(NoLoop, duration, cursor, dt) == cursor + dt
  {
  }

  /** `repeat`: a step that does not move the cursor below 0 leaves it at `mod(cursor + dt, d)`,
      in [0, d). */
  lemma RepeatIsMod(duration: real, cursor: real, dt: real)
    requires duration > 0.0 && cursor + dt >= 0.0
    ensures Advance(Repeat, duration, cursor, dt) == Mod(cursor + dt, duration)
    ensures 0.0 <= Advance(Repeat, duration, cursor, dt) < duration
  {
    WrapIsMod(cursor + dt, duration);
  }

  /** `pingpong`: the same with the period `2 * d`: the cursor lands on `mod(cursor + dt, 2 * d)`,
      which below `2 * d` is simply `cursor + dt`. */
  lemma PingPongIsMod(duration: real, cursor: real, dt: real)
    requires duration > 0.0 && cursor + dt >= 0.0
    ensures Advance(PingPong, duration, cursor, dt) == Mod(cursor + dt, duration * 2.0)
    ensures cursor + dt < duration * 2.0 ==> Advance(PingPong, duration, cursor, dt) == cursor + dt
  {
    WrapIsMod(cursor + dt, duration * 2.0);
    if duration <= cursor + dt < duration * 2.0 {
      RemOfSmall(cursor + dt, duration * 2.0);
    }
  }

  /** `pingpong` from a non-negative cursor: the cursor stays in [0, 2 * d). */
  lemma PingPongBounds(duration: real, cursor: real, dt: real)
    requires duration > 0.0 && cursor + dt >= 0.0
    ensures 0.0 <= Advance(PingPong, duration, cursor, dt) < duration * 2.0
  {
    if cursor + dt >= duration {
      RemOfNonNegative(cursor + dt, duration * 2.0);
    }
  }

  /** For a dividend in [0, m) the truncated remainder is the dividend itself. */
  lemma RemOfSmall(x: real, m: real)
    requires m > 0.0 && 0.0 <= x < m
    ensures Rem(x, m) == x
  {
    DivideBelow(x, m);
  }

  /** On a non-negative value, wrapping as `repeat` does agrees with `mod`. */
  lemma WrapIsMod(x: real, m: real)
    requires m > 0.0 && x >= 0.0
    ensures (if x >= m then Rem(x, m) else x) == Mod(x, m)
    ensures 0.0 <= Mod(x, m) < m
  {
    ModIsFlooredRemainder(x, m);
    RemOfNonNegative(x, m);
    ModUnique(x, m, (x / m).Floor, Rem(x, m));
    if x < m {
      RemOfSmall(x, m);
    }
  }

  /** Over any run of non-negative steps, a `repeat` cursor that starts in [0, d) ends at its start
      plus the total elapsed time, modulo d: wrapping frame by frame loses nothing. */
  lemma {:induction false} RepeatAccumulates(duration: real, cursor: real, dts: seq<real>)
    requires 0.0 <= cursor < duration
    requires forall i :: 0 <= i < |dts| ==> dts[i] >= 0.0
    ensures AdvanceAll(Repeat, duration, cursor, dts) == Mod(cursor + Sum(dts), duration)
    decreases |dts|
  {
    if |dts| == 0 {
      ModUnique(cursor, duration, 0, cursor);
    } else {
      RepeatIsMod(duration, cursor, dts[0]);
      RepeatAccumulates(duration, Advance(Repeat, duration, cursor, dts[0]), dts[1..]);
      ModAdd(cursor + dts[0], Sum(dts[1..]), duration);
    }
  }

  /** The same for `pingpong` with the period `2 * d`: a cursor that starts in [0, 2 * d) ends at
      its start plus the total elapsed time, modulo `2 * d`. */
  lemma {:induction false} PingPongAccumulates(duration: real, cursor: real, dts: seq<real>)
    requires duration > 0.0 && 0.0 <= cursor < duration * 2.0
    requires forall i :: 0 <= i < |dts| ==> dts[i] >= 0.0
    ensures AdvanceAll(PingPong, duration, cursor, dts) == Mod(cursor + Sum(dts), duration * 2.0)
    decreases |dts|
  {
    if |dts| == 0 {
      ModUnique(cursor, duration * 2.0, 0, cursor);
    } else {
      PingPongIsMod(duration, cursor, dts[0]);
      PingPongBounds(duration, cursor, dts[0]);
      PingPongAccumulates(duration, Advance(PingPong, duration, cursor, dts[0]), dts[1..]);
      ModAdd(cursor + dts[0], Sum(dts[1..]), duration * 2.0);
    }
  }

  /** Duration 10 with steps totalling 12 leaves a repeating cursor at 2. */
  lemma RepeatExample()
    ensures AdvanceAll(Repeat, 10.0, 0.0, [5.0, 7.0]) == 2.0
  {
    assert Advance(Repeat, 10.0, 0.0, 5.0) == 5.0;
    assert (12.0 / 10.0).Floor == 1;
    assert Advance(Repeat, 10.0, 5.0, 7.0) == 2.0;
    assert [5.0, 7.0][1..] == [7.0];
  }

  // ---------------------------------------------------------------------------------------------
  // The value getter and setter

  /** Past the middle of a ping-pong cycle the getter reports `duration - cursor`, a negative
      time, rather than the reflected `2 * duration - cursor`. */
  lemma PingPongValueNegative(duration: real, cursor: real)
    requires duration > 0.0 && duration < cursor < duration * 2.0
    ensures Displayed(duration, cursor) == duration - cursor
    ensures -duration < Displayed(duration, cursor) < 0.0
    ensures Displayed(duration, cursor) != duration * 2.0 - cursor
  {
  }

  /** Duration 10, one step of 15 in ping-pong mode: the cursor is 15 and the value is -5. */
  lemma PingPongExample()
    ensures AdvanceAll(PingPong, 10.0, 0.0, [15.0]) == 15.0
    ensures Displayed(10.0, AdvanceAll(PingPong, 10.0, 0.0, [15.0])) == -5.0
  {
    PingPongIsMod(10.0, 0.0, 15.0);
    assert [15.0][1..] == [];
  }

  /** The setter's cursor lies in [0, d) and the getter reports it unchanged. */
  lemma SetterReadsBack(duration: real, value: real)
    requires duration > 0.0
    ensures 0.0 <= Mod(value, duration) < duration
    ensures Displayed(duration, Mod(value, duration)) == Mod(value, duration)
  {
    ModIsFlooredRemainder(value, duration);
  }
}
