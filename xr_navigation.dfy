/** XrNavigation: snap turning with the right thumbstick, and the ground-plane hit of a
    controller's ray used for teleporting. */
module XrNavigation {
  import opened Wrappers
  import opened Vectors
  import opened MathUtil

  /** `Math.sign` on a finite number. */
  function Sign(x: real): int {
    if x > 0.0 then 1 else if x < 0.0 then -1 else 0
  }

  /** The snap-turn settings: the stick deflection that turns, the deflection below which the
      stick counts as released, and the degrees of one turn. */
  datatype SnapSettings = SnapSettings(threshold: real, resetThreshold: real, degrees: real)

  /** The defaults: turn past 0.5, release inside 0.25, 45 degrees a turn. */
  const DefaultSnap := SnapSettings(0.5, 0.25, 45.0)

  /** The hysteresis state after releasing: a stick that has come back inside the reset band on
      the side of the last turn clears it. */
  function Released(last: int, rotate: real, s: SnapSettings): int {
    if last > 0 && rotate < s.resetThreshold then 0
    else if last < 0 && rotate > -s.resetThreshold then 0
    else last
  }

  /** The direction `handleSnapTurning` turns for a stick reading `rotate` (the negated x axis):
      0 for no turn. */
  function TurnOf(last: int, rotate: real, s: SnapSettings): int {
    if Released(last, rotate, s) == 0 && Abs(rotate) > s.threshold then Sign(rotate) else 0
  }

  /** `lastRotateValue` after the reading. */
  function NextRotateValue(last: int, rotate: real, s: SnapSettings): int {
    if TurnOf(last, rotate, s) != 0 then TurnOf(last, rotate, s) else Released(last, rotate, s)
  }

  predicate IsSign(v: int) {
    v == -1 || v == 0 || v == 1
  }

  /** The hysteresis state stays one of -1, 0 and 1; a turn happens only from the neutral state,
      past the threshold, in the stick's direction, and is remembered. */
  lemma SnapTurnSteps(last: int, rotate: real, s: SnapSettings)
    requires IsSign(last) && s.threshold >= 0.0
    ensures IsSign(NextRotateValue(last, rotate, s))
    ensures TurnOf(last, rotate, s) != 0 <==> Released(last, rotate, s) == 0 && Abs(rotate) > s.threshold
    ensures TurnOf(last, rotate, s) != 0 ==>
      TurnOf(last, rotate, s) == Sign(rotate) && NextRotateValue(last, rotate, s) == Sign(rotate)
  {
  }

  /** The number of turns over a run of readings. */
  function TurnsOver(last: int, rotates: seq<real>, s: SnapSettings): nat
    decreases |rotates|
  {
    if |rotates| == 0 then 0
    else (if TurnOf(last, rotates[0], s) != 0 then 1 else 0)
         + TurnsOver(NextRotateValue(last, rotates[0], s), rotates[1..], s)
  }

  /** The state after a run of readings. */
  function RotateValueAfter(last: int, rotates: seq<real>, s: SnapSettings): int
    decreases |rotates|
  {
    if |rotates| == 0 then last else RotateValueAfter(NextRotateValue(last, rotates[0], s), rotates[1..], s)
  }

  /** A stick held to one side, never back inside the reset band, after a turn to that side turns
      no more. */
  lemma {:induction false} HeldAfterTurn(rotates: seq<real>, s: SnapSettings)
    requires 0.0 <= s.resetThreshold
    requires forall i :: 0 <= i < |rotates| ==> rotates[i] >= s.resetThreshold
    ensures TurnsOver(1, rotates, s) == 0 && RotateValueAfter(1, rotates, s) == 1
    decreases |rotates|
  {
    if |rotates| > 0 {
      assert Released(1, rotates[0], s) == 1;
      HeldAfterTurn(rotates[1..], s);
    }
  }

  /** A stick held to one side turns at most once, whatever the state it started from. */
  lemma {:induction false} HeldStickTurnsOnce(last: int, rotates: seq<real>, s: SnapSettings)
    requires IsSign(last) && 0.0 <= s.resetThreshold && 0.0 <= s.threshold
    requires forall i :: 0 <= i < |rotates| ==> rotates[i] >= s.resetThreshold
    ensures TurnsOver(last, rotates, s) <= 1
    decreases |rotates|
  {
    if |rotates| > 0 {
      var next := NextRotateValue(last, rotates[0], s);
      SnapTurnSteps(last, rotates[0], s);
      if TurnOf(last, rotates[0], s) != 0 {
        assert next == 1;
        HeldAfterTurn(rotates[1..], s);
      } else {
        HeldStickTurnsOnce(next, rotates[1..], s);
      }
    }
  }

  /** Flicking the stick right, letting go and flicking it right again turns twice. */
  lemma FlickTwice()
    ensures TurnsOver(0, [0.9, 0.0, 0.9], DefaultSnap) == 2
  {
    assert TurnOf(0, 0.9, DefaultSnap) == 1;
    assert NextRotateValue(0, 0.9, DefaultSnap) == 1;
    assert TurnOf(1, 0.0, DefaultSnap) == 0 && NextRotateValue(1, 0.0, DefaultSnap) == 0;
    assert [0.9, 0.0, 0.9][1..] == [0.0, 0.9];
    assert [0.0, 0.9][1..] == [0.9];
    assert [0.9][1..] == [];
  }

  /** The rig: the hysteresis state, the settings, and the total yaw the snap turns applied. */
  class Navigation {
    var lastRotateValue: int
    var snap: SnapSettings
    var yaw: real

    constructor ()
      ensures lastRotateValue == 0 && snap == DefaultSnap && yaw == 0.0
    {
      lastRotateValue := 0;
      snap := DefaultSnap;
      yaw := 0.0;
    }

    /** `handleSnapTurning` for a right-stick x axis of `axis`. The rig turns only when a camera
        is attached; the hysteresis state moves either way. */
    method HandleSnapTurning(axis: real, hasCamera: bool)
      modifies this
      ensures lastRotateValue == NextRotateValue(old(lastRotateValue), -axis, snap)
      ensures yaw == old(yaw) + if hasCamera then (TurnOf(old(lastRotateValue), -axis, snap) as real) * snap.degrees
                               else 0.0
      ensures snap == old(snap)
    {
      var rotate := -axis;
      if lastRotateValue > 0 && rotate < snap.resetThreshold {
        lastRotateValue := 0;
      } else if lastRotateValue < 0 && rotate > -snap.resetThreshold {
        lastRotateValue := 0;
      }
      if lastRotateValue == 0 && Abs(rotate) > snap.threshold {
        lastRotateValue := Sign(rotate);
        if hasCamera {
          yaw := yaw + (Sign(rotate) as real) * snap.degrees;
        }
      }
    }
  }

  // ---------------------------------------------------------------------------------------------
  // Ground plane

  /** Below this vertical component a ray counts as parallel to the ground. */
  const ParallelEpsilon: real := 0.00001

  /** `findPlaneIntersection(origin, direction)`: where the ray meets the plane y = 0, or none
      when it is (nearly) parallel or the plane is behind it. */
  function FindPlaneIntersection(origin: Vec3, direction: Vec3): Option<Vec3> {
    if Abs(direction.y) < ParallelEpsilon then None
    else
      var t := -origin.y / direction.y;
      if t < 0.0 then None
      else Some(Vec3(origin.x + direction.x * t, 0.0, origin.z + direction.z * t))
  }

  /** A hit exists exactly when the ray is not parallel and the plane lies ahead of the origin,
      and then it is the point of the ray at that distance, on the ground. */
  lemma PlaneIntersectionMeans(origin: Vec3, direction: Vec3)
    ensures FindPlaneIntersection(origin, direction).Some? <==>
      Abs(direction.y) >= ParallelEpsilon && -origin.y / direction.y >= 0.0
    ensures FindPlaneIntersection(origin, direction).Some? ==>
      var t := -origin.y / direction.y;
      && t >= 0.0
      && FindPlaneIntersection(origin, direction).value == Plus(origin, Scale(direction, t))
      && FindPlaneIntersection(origin, direction).value.y == 0.0
  {
    if Abs(direction.y) >= ParallelEpsilon {
      var t := -origin.y / direction.y;
      assert direction.y * t == -origin.y;
      assert origin.y + direction.y * t == 0.0;
      if t >= 0.0 {
        assert Plus(origin, Scale(direction, t)) == Vec3(origin.x + direction.x * t, 0.0, origin.z + direction.z * t);
      }
    }
  }

  /** A ray pointing down from above the ground hits it; one pointing up from above misses. */
  lemma DownwardRayHits(origin: Vec3, direction: Vec3)
    requires origin.y > 0.0
    ensures direction.y <= -ParallelEpsilon ==> FindPlaneIntersection(origin, direction).Some?
    ensures direction.y >= ParallelEpsilon ==> FindPlaneIntersection(origin, direction).None?
  {
    if direction.y <= -ParallelEpsilon {
      var t := -origin.y / direction.y;
      assert t * direction.y == -origin.y;
    }
    if direction.y >= ParallelEpsilon {
      var t := -origin.y / direction.y;
      assert t * direction.y == -origin.y;
    }
  }
}
