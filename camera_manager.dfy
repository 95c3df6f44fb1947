/**
 * camera-manager: which controller drives the view (orbit, fly or a camera animation), the
 * bookkeeping on every change of controller, the eased transition between them and the handling of
 * the commands the input controller and the user interface fire.
 *
 * Camera poses are opaque: the direction and distance `look` computes, the pose half of
 * `Camera.lerp` and the engine's damped orbit and fly integrators are engine services passed in an
 * `Env`. The field of view, the timer and the mode bookkeeping are exact.
 */
module CameraModel {
  import opened Types
  import opened Wrappers
  import opened Vectors
  import opened MathUtil
  import opened Settings
  import opened Cursor
  import opened Animation
  import opened Frames

  /** The placement half of a `Camera`: position, Euler angles and focus distance. */
  datatype Pose = Pose(position: Vec3, angles: Vec3, distance: real)

  /** A `Camera`: a pose and a vertical field of view in degrees. */
  datatype Camera = Camera(pose: Pose, fov: real)

  /** What an orbit or fly controller has been told so far: `attach(pose, smooth)` or one
      `update(inputFrame, dt)` with the deltas it read from the frame. */
  datatype Motion = Attach(pose: Pose, smooth: bool) | Step(input: Deltas, dt: real)

  /** A controller hook the manager ran: `onExit` of the controller it leaves or `onEnter` of the
      one it enters. */
  datatype Hook = Exit(mode: CameraMode) | Enter(mode: CameraMode)

  /** Engine services: the angles (`aim`) and distance (`span`) of a camera at `from` looking at
      `to`; the pose part of `Camera.lerp`; the pose the engine's orbit or fly controller reports
      after a history of motions; and `2 ** x`. */
  datatype Env = Env(
    aim: (Vec3, Vec3) -> Vec3,
    span: (Vec3, Vec3) -> real,
    blend: (Pose, Pose, real) -> Pose,
    integrate: (CameraMode, seq<Motion>) -> Pose,
    pow2: real -> real)

  ghost predicate EnvValid(env: Env) {
    Pow2Like(env.pow2)
  }

  /** `camera.look(from, to)`: placed at `from`, facing `to`, focused at its distance. */
  function Look(env: Env, from: Vec3, to: Vec3): Pose {
    Pose(from, env.aim(from, to), env.span(from, to))
  }

  /** `camera.lerp(a, b, t)`: the pose is blended by the engine and the field of view linearly,
      so two cameras with the same field of view blend to that field of view. */
  function Lerp(env: Env, a: Camera, b: Camera, t: real): (r: Camera)
    ensures a.fov == b.fov ==> r.fov == a.fov
    ensures t == 0.0 ==> r.fov == a.fov
    ensures t == 1.0 ==> r.fov == b.fov
  {
    Camera(env.blend(a.pose, b.pose, t), a.fov + (b.fov - a.fov) * t)
  }

  /** `createCamera(position, target, fov)` for a settings camera. */
  function SettingsCamera(env: Env, c: CameraPose): Camera
    requires |c.position| == 3 && |c.target| == 3
  {
    Camera(Look(env, FromArray(c.position), FromArray(c.target)), c.fov)
  }

  // ---------------------------------------------------------------------------------------------
  // The manager's state as a value, and what each event does to it

  /** Everything the manager and the shared state it writes hold besides the animation itself:
      `state.cameraMode`, `state.animationPaused`, `state.animationTime`, the displayed `camera`,
      the transition's `target` and `from`, `fromMode`, `transitionTimer`, what the orbit and fly
      controllers have been told, and the hooks run so far. */
  datatype Manager = Manager(
    mode: CameraMode,
    paused: bool,
    animationTime: real,
    camera: Camera,
    target: Camera,
    from: Camera,
    fromMode: CameraMode,
    timer: real,
    orbitLog: seq<Motion>,
    flyLog: seq<Motion>,
    hooks: seq<Hook>)

  /** `onEnter(camera)`: the orbit and fly controllers attach, without smoothing, to the displayed
      pose; the animation controller snaps the displayed camera to the animation's pose. */
  function EnterController(m: Manager, mode: CameraMode, animPose: Pose): Manager {
    match mode
    case Orbit => m.(orbitLog := m.orbitLog + [Attach(m.camera.pose, false)])
    case Fly => m.(flyLog := m.flyLog + [Attach(m.camera.pose, false)])
    case Anim => m.(camera := m.camera.(pose := animPose))
  }

  /** `state.cameraMode = value`: the `observe` guard drops an assignment of the current mode;
      otherwise the `cameraMode:changed` handler snapshots the displayed camera into `target` and
      `from`, remembers the previous mode, runs the old controller's `onExit` and the new one's
      `onEnter`, and restarts the transition. `animPose` is where the animation controller would
      snap the camera to. */
  function WithMode(m: Manager, value: CameraMode, animPose: Pose): (r: Manager)
    ensures value == m.mode ==> r == m
    ensures value != m.mode ==>
      && r.mode == value && r.fromMode == m.mode
      && r.target == m.camera && r.from == m.camera && r.timer == 0.0
      && r.hooks == m.hooks + [Exit(m.mode), Enter(value)]
    ensures r.paused == m.paused && r.animationTime == m.animationTime && r.camera.fov == m.camera.fov
  {
    if value == m.mode then m
    else
      var snapshot := m.(mode := value, target := m.camera, from := m.camera, fromMode := m.mode);
      var entered := EnterController(snapshot, value, animPose);
      entered.(hooks := m.hooks + [Exit(m.mode), Enter(value)], timer := 0.0)
  }

  /** A change of mode, field by field: the whole new manager, spelled out so that `SetMode` can
      state its new state (and the fields it keeps) without unfolding `WithMode` and
      `EnterController` in its own proof. */
  lemma SwitchedMode(m: Manager, value: CameraMode, animPose: Pose)
    requires value != m.mode
    ensures WithMode(m, value, animPose) ==
      Manager(value, m.paused, m.animationTime,
              if value == Anim then m.camera.(pose := animPose) else m.camera,
              m.camera, m.camera, m.mode, 0.0,
              if value == Orbit then m.orbitLog + [Attach(m.camera.pose, false)] else m.orbitLog,
              if value == Fly then m.flyLog + [Attach(m.camera.pose, false)] else m.flyLog,
              m.hooks + [Exit(m.mode), Enter(value)])
  {
  }

  /** Switching to orbit, which never consults the animation. */
  function ToOrbit(m: Manager): Manager {
    WithMode(m, Orbit, m.camera.pose)
  }

  /** The `inputEvent` handler. */
  function OnInput(m: Manager, e: InputEvent, hasAnimation: bool, frameCamera: Camera, resetCamera: Camera,
                   animPose: Pose): Manager
  {
    match e
    case Frame =>
      var o := ToOrbit(m);
      o.(orbitLog := o.orbitLog + [Attach(frameCamera.pose, true)])
    case Reset =>
      var o := ToOrbit(m);
      o.(orbitLog := o.orbitLog + [Attach(resetCamera.pose, true)])
    case PlayPause =>
      if !hasAnimation then m
      else if m.mode == Anim then m.(paused := !m.paused)
      else WithMode(m, Anim, animPose).(paused := false)
    case Cancel | Interrupt =>
      if m.mode == Anim then WithMode(m, m.fromMode, animPose) else m
    case Interact | DoubleClick => m
  }

  /** The `pick` handler: orbit, then glide to look from the current position at the picked point. */
  function OnPick(env: Env, m: Manager, position: Vec3): Manager {
    var o := ToOrbit(m);
    o.(orbitLog := o.orbitLog + [Attach(Look(env, o.camera.pose.position, position), true)])
  }

  /** The `annotation.activate` handler: orbit, then glide to the annotation's camera. Only its
      position and target reach the orbit controller; its field of view is written to a scratch
      camera whose field of view `goto` does not read. */
  function OnActivate(env: Env, m: Manager, c: CameraPose): Manager
    requires |c.position| == 3 && |c.target| == 3
  {
    var o := ToOrbit(m);
    o.(orbitLog := o.orbitLog + [Attach(SettingsCamera(env, c).pose, true)])
  }

  /** The time step the active controller gets: none while a paused animation is shown. */
  function ControllerDt(m: Manager, deltaTime: real): real {
    if m.mode == Anim && m.paused then 0.0 else deltaTime
  }

  /** `transitionTimer = Math.min(1, transitionTimer + deltaTime * transitionSpeed)`, speed 2. */
  function NextTimer(timer: real, deltaTime: real): real {
    Min(1.0, timer + deltaTime * 2.0)
  }

  /** The active controller's part of `update`: orbit and fly feed their integrator the frame's
      deltas and `target` takes the pose it reports; the animation, already advanced to
      `animPose`, puts `target` there. */
  function Drive(env: Env, m: Manager, dt: real, input: Deltas, animPose: Pose): Manager {
    match m.mode
    case Orbit =>
      var log := m.orbitLog + [Step(input, dt)];
      m.(orbitLog := log, target := m.target.(pose := env.integrate(Orbit, log)))
    case Fly =>
      var log := m.flyLog + [Step(input, dt)];
      m.(flyLog := log, target := m.target.(pose := env.integrate(Fly, log)))
    case Anim =>
      m.(target := m.target.(pose := animPose))
  }

  /** The end of `update`: the displayed camera eases from `from` to `target` while the timer is
      below 1 and is an exact copy of `target` from then on. */
  function Settle(env: Env, m: Manager, animationTime: real): Manager
    requires EnvValid(env)
  {
    var shown := if m.timer < 1.0 then Lerp(env, m.from, m.target, EaseOut(env.pow2, m.timer)) else m.target;
    m.(camera := shown, animationTime := animationTime)
  }

  /** `update(deltaTime, frame)`: the timer advances by the unpaused time, the active controller
      moves `target` with the possibly paused time, the displayed camera follows, and the
      animation time is published only while the animation is shown. */
  function Tick(env: Env, m: Manager, deltaTime: real, input: Deltas, animPose: Pose, animTime: real): Manager
    requires EnvValid(env)
  {
    var timed := m.(timer := NextTimer(m.timer, deltaTime));
    var driven := Drive(env, timed, ControllerDt(m, deltaTime), input, animPose);
    Settle(env, driven, if m.mode == Anim then animTime else m.animationTime)
  }

  /** The track the manager animates: the first settings track when the settings start with an
      animation, else a generated orbit (`rotateTrack`) for a scene seen from outside its bounds,
      else none. */
  function ChosenTrack(settings: SettingsV2, isObjectExperience: bool, rotateTrack: AnimTrack): Option<AnimTrack> {
    if |settings.animTracks| > 0 && settings.startMode == AnimTrackStart then Some(settings.animTracks[0])
    else if isObjectExperience then Some(rotateTrack)
    else None
  }

  /** The starting mode: the animation when there is one, else orbit from outside the bounds and
      fly from inside. */
  function InitialMode(hasAnimation: bool, isObjectExperience: bool): CameraMode {
    if hasAnimation then Anim else if isObjectExperience then Orbit else Fly
  }

  /** The manager right after construction: every camera a copy of the reset camera, the timer at 1,
      and the starting controller entered. */
  function Initial(mode: CameraMode, isObjectExperience: bool, reset: Camera, paused: bool, animationTime: real,
                   animPose: Pose): Manager
  {
    var fromMode := if isObjectExperience then Orbit else Fly;
    var m := Manager(mode, paused, animationTime, reset, reset, reset, fromMode, 1.0, [], [], []);
    EnterController(m, mode, animPose).(hooks := [Enter(mode)])
  }

  /** What holds between events: the animation is shown or remembered only when there is one, the
      remembered mode is never the animation while the animation is shown, the timer never passes
      1, and every camera keeps the settings camera's field of view. */
  predicate Inv(m: Manager, hasAnimation: bool, fov: real) {
    && (m.mode == Anim ==> hasAnimation)
    && (m.fromMode == Anim ==> hasAnimation)
    && (m.mode == Anim ==> m.fromMode != Anim)
    && m.timer <= 1.0
    && m.camera.fov == fov && m.target.fov == fov && m.from.fov == fov
  }

  // ---------------------------------------------------------------------------------------------
  // Properties of the transitions

  /** The manager starts in the animation exactly when it has one; otherwise in orbit exactly when
      the scene is seen from outside its bounds. */
  lemma InitialModeCases(hasAnimation: bool, isObjectExperience: bool)
    ensures InitialMode(hasAnimation, isObjectExperience) == Anim <==> hasAnimation
    ensures !hasAnimation ==> (InitialMode(hasAnimation, isObjectExperience) == Orbit <==> isObjectExperience)
  {
  }

  /** There is an animation exactly when the settings start with one of their tracks or the scene is
      seen from outside its bounds. */
  lemma AnimationChoice(settings: SettingsV2, isObjectExperience: bool, rotateTrack: AnimTrack)
    ensures ChosenTrack(settings, isObjectExperience, rotateTrack).Some? <==>
      (|settings.animTracks| > 0 && settings.startMode == AnimTrackStart) || isObjectExperience
  {
  }

  /** A freshly built manager satisfies the invariant, with the timer at 1 and only the starting
      controller's `onEnter` run. */
  lemma InitialKeepsInv(hasAnimation: bool, isObjectExperience: bool, reset: Camera, paused: bool,
                        animationTime: real, animPose: Pose)
    ensures var m := Initial(InitialMode(hasAnimation, isObjectExperience), isObjectExperience, reset, paused,
                             animationTime, animPose);
      && Inv(m, hasAnimation, reset.fov) && m.timer == 1.0
      && m.hooks == [Enter(InitialMode(hasAnimation, isObjectExperience))]
  {
  }

  /** Every handled event keeps the invariant. */
  lemma InputKeepsInv(m: Manager, e: InputEvent, hasAnimation: bool, frameCamera: Camera, resetCamera: Camera,
                      animPose: Pose, fov: real)
    requires Inv(m, hasAnimation, fov)
    ensures Inv(OnInput(m, e, hasAnimation, frameCamera, resetCamera, animPose), hasAnimation, fov)
  {
  }

  lemma ModeKeepsInv(m: Manager, value: CameraMode, animPose: Pose, hasAnimation: bool, fov: real)
    requires Inv(m, hasAnimation, fov) && (value == Anim ==> hasAnimation)
    ensures Inv(WithMode(m, value, animPose), hasAnimation, fov)
  {
  }

  lemma PickKeepsInv(env: Env, m: Manager, position: Vec3, hasAnimation: bool, fov: real)
    requires Inv(m, hasAnimation, fov)
    ensures Inv(OnPick(env, m, position), hasAnimation, fov)
  {
  }

  lemma ScrubKeepsInv(m: Manager, animPose: Pose, fov: real)
    requires Inv(m, true, fov)
    ensures Inv(WithMode(m, Anim, animPose), true, fov)
  {
  }

  /** An update keeps the invariant, and in particular the field of view: the transition blends two
      cameras with the same field of view. */
  lemma TickKeepsInv(env: Env, m: Manager, deltaTime: real, input: Deltas, animPose: Pose, animTime: real,
                     hasAnimation: bool, fov: real)
    requires EnvValid(env) && Inv(m, hasAnimation, fov)
    ensures Inv(Tick(env, m, deltaTime, input, animPose, animTime), hasAnimation, fov)
  {
  }

  /** Assigning the current mode changes nothing: `reset` while orbiting only sends the orbit
      controller to the reset camera, with no hooks and no new transition. */
  lemma ResetWhileOrbiting(m: Manager, hasAnimation: bool, frameCamera: Camera, resetCamera: Camera, animPose: Pose)
    requires m.mode == Orbit
    ensures OnInput(m, Reset, hasAnimation, frameCamera, resetCamera, animPose)
      == m.(orbitLog := m.orbitLog + [Attach(resetCamera.pose, true)])
  {
  }

  /** `frame`, `reset`, `pick` and `annotation.activate` all end in orbit with the orbit controller
      sent, smoothly, to the requested pose. */
  lemma OrbitCommands(env: Env, m: Manager, hasAnimation: bool, frameCamera: Camera, resetCamera: Camera,
                      animPose: Pose, position: Vec3, c: CameraPose)
    requires |c.position| == 3 && |c.target| == 3
    ensures var r := OnInput(m, Frame, hasAnimation, frameCamera, resetCamera, animPose);
      r.mode == Orbit && r.orbitLog[|r.orbitLog| - 1] == Attach(frameCamera.pose, true)
    ensures var r := OnInput(m, Reset, hasAnimation, frameCamera, resetCamera, animPose);
      r.mode == Orbit && r.orbitLog[|r.orbitLog| - 1] == Attach(resetCamera.pose, true)
    ensures var r := OnPick(env, m, position);
      r.mode == Orbit && r.orbitLog[|r.orbitLog| - 1] == Attach(Look(env, m.camera.pose.position, position), true)
    ensures var r := OnActivate(env, m, c);
      r.mode == Orbit && r.orbitLog[|r.orbitLog| - 1] == Attach(SettingsCamera(env, c).pose, true)
  {
  }

  /** An annotation's field of view has no effect: activating it with any other field of view does
      exactly the same. */
  lemma AnnotationFovIgnored(env: Env, m: Manager, c: CameraPose, fov: real)
    requires |c.position| == 3 && |c.target| == 3
    ensures OnActivate(env, m, c) == OnActivate(env, m, c.(fov := fov))
    ensures OnActivate(env, m, c).camera.fov == m.camera.fov
  {
  }

  /** `playPause`: nothing without an animation; while it is shown, pause and resume; otherwise
      show it, unpaused. */
  lemma PlayPauseCases(m: Manager, hasAnimation: bool, frameCamera: Camera, resetCamera: Camera, animPose: Pose)
    ensures var r := OnInput(m, PlayPause, hasAnimation, frameCamera, resetCamera, animPose);
      && (!hasAnimation ==> r == m)
      && (hasAnimation && m.mode == Anim ==> r == m.(paused := !m.paused))
      && (hasAnimation && m.mode != Anim ==> r.mode == Anim && !r.paused && r.fromMode == m.mode && r.timer == 0.0)
  {
  }

  /** `cancel` and `interrupt` leave the animation for the mode it was entered from, and do
      nothing in any other mode. */
  lemma CancelCases(m: Manager, e: InputEvent, hasAnimation: bool, frameCamera: Camera, resetCamera: Camera,
                    animPose: Pose)
    requires e == Cancel || e == Interrupt
    requires Inv(m, hasAnimation, m.camera.fov)
    ensures var r := OnInput(m, e, hasAnimation, frameCamera, resetCamera, animPose);
      && (m.mode != Anim ==> r == m)
      && (m.mode == Anim ==> r.mode == m.fromMode && r.fromMode == Anim && r.mode != Anim)
  {
  }

  /** Starting the animation from orbit or fly and cancelling it returns to where it started. */
  lemma PlayThenCancel(m: Manager, frameCamera: Camera, resetCamera: Camera, animPose: Pose)
    requires m.mode != Anim
    ensures var played := OnInput(m, PlayPause, true, frameCamera, resetCamera, animPose);
      OnInput(played, Cancel, true, frameCamera, resetCamera, animPose).mode == m.mode
  {
  }

  /** The active controller gets no time exactly while a paused animation is shown, and the full
      frame time otherwise. */
  lemma PausedAnimationStandsStill(m: Manager, deltaTime: real)
    requires deltaTime != 0.0
    ensures ControllerDt(m, deltaTime) == 0.0 <==> m.mode == Anim && m.paused
    ensures !(m.mode == Anim && m.paused) ==> ControllerDt(m, deltaTime) == deltaTime
  {
  }

  /** What an update does besides moving `target`: the mode and the remembered camera stay, the
      timer advances by the unpaused time even while paused, the display is an exact copy of
      `target` once the timer reaches 1 and a blend from `from` before, and the animation time is
      published only while the animation is shown. */
  lemma TickFacts(env: Env, m: Manager, deltaTime: real, input: Deltas, animPose: Pose, animTime: real)
    requires EnvValid(env)
    ensures var r := Tick(env, m, deltaTime, input, animPose, animTime);
      && r.mode == m.mode && r.fromMode == m.fromMode && r.from == m.from && r.paused == m.paused
      && r.timer == NextTimer(m.timer, deltaTime)
      && (r.timer == 1.0 ==> r.camera == r.target)
      && (r.timer < 1.0 ==> r.camera == Lerp(env, m.from, r.target, EaseOut(env.pow2, r.timer)))
      && (m.mode == Anim ==> r.animationTime == animTime && r.target.pose == animPose)
      && (m.mode != Anim ==> r.animationTime == m.animationTime)
      && (m.mode == Orbit ==> r.orbitLog == m.orbitLog + [Step(input, ControllerDt(m, deltaTime))] && r.flyLog == m.flyLog)
      && (m.mode == Fly ==> r.flyLog == m.flyLog + [Step(input, ControllerDt(m, deltaTime))] && r.orbitLog == m.orbitLog)
  {
  }

  /** The timer after a run of frames. */
  function TimerAfter(timer: real, deltas: seq<real>): real
    decreases |deltas|
  {
    if |deltas| == 0 then timer else TimerAfter(NextTimer(timer, deltas[0]), deltas[1..])
  }

  lemma {:induction false} SumNonNegative(deltas: seq<real>)
    requires forall i :: 0 <= i < |deltas| ==> deltas[i] >= 0.0
    ensures Sum(deltas) >= 0.0
    decreases |deltas|
  {
    if |deltas| > 0 {
      SumNonNegative(deltas[1..]);
    }
  }

  /** Over a run of non-negative frame times the timer is `min(1, timer + 2 * elapsed)`: it never
      decreases, never passes 1, and a transition is over once half a second has passed. */
  lemma {:induction false} TimerSettles(timer: real, deltas: seq<real>)
    requires 0.0 <= timer <= 1.0
    requires forall i :: 0 <= i < |deltas| ==> deltas[i] >= 0.0
    ensures TimerAfter(timer, deltas) == Min(1.0, timer + 2.0 * Sum(deltas))
    ensures timer <= TimerAfter(timer, deltas) <= 1.0
    decreases |deltas|
  {
    SumNonNegative(deltas);
    if |deltas| > 0 {
      var next := NextTimer(timer, deltas[0]);
      TimerSettles(next, deltas[1..]);
      SumNonNegative(deltas[1..]);
    }
  }

  // ---------------------------------------------------------------------------------------------
  // The manager object

  /** An animation state as `new AnimController(track)` leaves it: built from the track, its cursor
      reset and advanced by no time, and the pose sampled there (the origin while the sample is not
      finite). */
  ghost predicate StartedAt(a: AnimState, t: AnimTrack)
    requires PlayableTrack(t)
    reads a, a.cursor, a.result
  {
    && a.Valid()
    && BuiltFrom(a.spline, t) && a.frameRate == t.frameRate
    && a.cursor.duration == t.duration && a.cursor.loopMode == t.loopMode
    && a.cursor.timer == 0.0 && a.cursor.cursor == Advance(t.loopMode, t.duration, 0.0, 0.0)
    && a.PosedAt(a.CurrentSample(), Zero, Zero)
  }

  /** `new AnimController(track)` when there is a track: the track's animation state, updated once
      by no time. */
  method StartAnimation(track: Option<AnimTrack>) returns (a: AnimState?)
    requires track.Some? ==> PlayableTrack(track.value)
    ensures (a != null) == track.Some?
    ensures a != null ==>
      && fresh(a) && fresh(a.cursor) && fresh(a.result) && StartedAt(a, track.value) && a.ShowsSample(Zero, Zero)
  {
    a := null;
    if track.Some? {
      a := FromTrack(track.value);
      a.Update(0.0);
    }
  }

  class CameraManager {
    const env: Env
    const frameCamera: Camera
    const resetCamera: Camera
    /** `controllers.anim`'s animation state, or null. */
    const anim: AnimState?
    ghost const animParts: set<object>
    /** `state.hasAnimation` and `state.animationDuration`, written once. */
    const hasAnimation: bool
    const animationDuration: real

    var mode: CameraMode
    var paused: bool
    var animationTime: real
    var camera: Camera
    var target: Camera
    var from: Camera
    var fromMode: CameraMode
    var timer: real
    var orbitLog: seq<Motion>
    var flyLog: seq<Motion>
    ghost var hooks: seq<Hook>

    ghost function Snapshot(): Manager
      reads this
    {
      Manager(mode, paused, animationTime, camera, target, from, fromMode, timer, orbitLog, flyLog, hooks)
    }

    /** The parts fixed at construction: the animation's objects and what they satisfy. The
        integrators and `2 ** x` are checked where they are used. */
    ghost predicate Wired()
      reads animParts
    {
      && this !in animParts
      && (anim == null ==> animParts == {})
      && (anim != null ==> animParts == {anim, anim.cursor, anim.result} && anim.Valid())
      && hasAnimation == (anim != null)
      && frameCamera.fov == resetCamera.fov
    }

    ghost predicate Valid()
      reads this, animParts
    {
      Wired() && Inv(Snapshot(), hasAnimation, resetCamera.fov)
    }

    /** Where the animation controller puts a camera: looking from the animation's position at its
        target. Without an animation the pose is never used. */
    function AnimPose(): Pose
      reads anim
    {
      if anim == null then Pose(Zero, Zero, 0.0) else Look(env, anim.position, anim.target)
    }

    /** `controllers.anim.animState.cursor.value`. */
    function AnimTime(): real
      requires Wired()
      reads this, animParts
    {
      if anim == null then animationTime else anim.cursor.Value()
    }

    constructor (env: Env, settings: SettingsV2, framePose: Pose, isObjectExperience: bool, rotateTrack: AnimTrack,
                 paused: bool, animationTime: real)
      requires EnvValid(env)
      requires |settings.cameras| >= 1
      requires |settings.cameras[0].position| == 3 && |settings.cameras[0].target| == 3
      requires var t := ChosenTrack(settings, isObjectExperience, rotateTrack); t.Some? ==> PlayableTrack(t.value)
      ensures Valid() && fresh(animParts)
      ensures this.env == env
      ensures resetCamera == SettingsCamera(env, settings.cameras[0])
      ensures frameCamera == Camera(framePose, settings.cameras[0].fov)
      ensures hasAnimation == ChosenTrack(settings, isObjectExperience, rotateTrack).Some?
      ensures anim != null ==> StartedAt(anim, ChosenTrack(settings, isObjectExperience, rotateTrack).value)
      ensures animationDuration == if anim == null then 0.0 else anim.cursor.duration
      ensures Snapshot() == Initial(InitialMode(hasAnimation, isObjectExperience), isObjectExperience,
                                    resetCamera, paused, animationTime, AnimPose())
    {
      this.env := env;
      var camera0 := settings.cameras[0];
      var reset := SettingsCamera(env, camera0);
      frameCamera := Camera(framePose, camera0.fov);
      resetCamera := reset;
      var track := ChosenTrack(settings, isObjectExperience, rotateTrack);
      var a := StartAnimation(track);
      anim := a;
      animParts := if a == null then {} else {a, a.cursor, a.result};
      hasAnimation := a != null;
      animationDuration := if a == null then 0.0 else a.cursor.duration;
      var startMode := InitialMode(a != null, isObjectExperience);
      mode := startMode;
      this.paused := paused;
      this.animationTime := animationTime;
      camera := reset;
      target := reset;
      from := reset;
      fromMode := if isObjectExperience then Orbit else Fly;
      timer := 1.0;
      orbitLog := [];
      flyLog := [];
      hooks := [];
      new;
      assert fresh(animParts) by {
        if a != null {
          assert animParts == {a, a.cursor, a.result};
        }
      }
      RunOnEnter(startMode);
      hooks := [Enter(startMode)];
    }

    /** The entered controller's `onEnter(camera)`. */
    method RunOnEnter(value: CameraMode)
      requires value == Anim ==> anim != null
      modifies this
      ensures Snapshot() == EnterController(old(Snapshot()), value, old(AnimPose()))
    {
      match value {
        case Orbit => orbitLog := orbitLog + [Attach(camera.pose, false)];
        case Fly => flyLog := flyLog + [Attach(camera.pose, false)];
        case Anim => camera := camera.(pose := Look(env, anim.position, anim.target));
      }
    }

    /** An assignment to `state.cameraMode`, through the `observe` guard and the
        `cameraMode:changed` handler. The handler touches only the manager's own fields, so the
        animation's parts, and with them `Wired()`, are left as they were. */
    method SetMode(value: CameraMode)
      requires value == Anim ==> anim != null
      modifies this
      ensures Snapshot() == WithMode(old(Snapshot()), value, old(AnimPose()))
    {
      if mode != value {
        ghost var m0, pose := Snapshot(), AnimPose();
        var prev := mode;
        mode := value;
        target := camera;
        from := camera;
        fromMode := prev;
        match value {
          case Orbit => orbitLog := orbitLog + [Attach(camera.pose, false)];
          case Fly => flyLog := flyLog + [Attach(camera.pose, false)];
          case Anim => camera := camera.(pose := Look(env, anim.position, anim.target));
        }
        hooks := hooks + [Exit(prev), Enter(value)];
        timer := 0.0;
        SwitchedMode(m0, value, pose);
      }
    }

    /** The `inputEvent` handler. */
    method HandleInput(e: InputEvent)
      requires Valid()
      modifies this
      ensures Valid()
      ensures Snapshot() == OnInput(old(Snapshot()), e, hasAnimation, frameCamera, resetCamera, old(AnimPose()))
    {
      match e {
        case Frame =>
          SetMode(Orbit);
          orbitLog := orbitLog + [Attach(frameCamera.pose, true)];
        case Reset =>
          SetMode(Orbit);
          orbitLog := orbitLog + [Attach(resetCamera.pose, true)];
        case PlayPause =>
          if hasAnimation {
            if mode == Anim {
              paused := !paused;
            } else {
              SetMode(Anim);
              paused := false;
            }
          }
        case Cancel =>
          if mode == Anim {
            SetMode(fromMode);
          }
        case Interrupt =>
          if mode == Anim {
            SetMode(fromMode);
          }
        case Interact =>
        case DoubleClick =>
      }
    }

    /** The `scrubAnim` handler: show the animation and move its cursor to `time`. It reads the
        animation controller without checking that there is one. */
    method ScrubAnim(time: real)
      requires Valid() && anim != null && anim.cursor.duration != 0.0
      modifies this, anim.cursor
      ensures Valid()
      ensures Snapshot() == WithMode(old(Snapshot()), Anim, old(AnimPose()))
      ensures anim.cursor.duration == old(anim.cursor.duration) && anim.cursor.loopMode == old(anim.cursor.loopMode)
      ensures anim.cursor.timer == old(anim.cursor.timer)
      ensures anim.cursor.cursor == Mod(time, anim.cursor.duration)
    {
      SetMode(Anim);
      anim.cursor.SetValue(time);
    }

    /** The `pick` handler. */
    method Pick(position: Vec3)
      requires Valid()
      modifies this
      ensures Valid()
      ensures Snapshot() == OnPick(env, old(Snapshot()), position)
    {
      SetMode(Orbit);
      var goal := Look(env, camera.pose.position, position);
      orbitLog := orbitLog + [Attach(goal, true)];
    }

    /** The `annotation.activate` handler. */
    method ActivateAnnotation(a: Annotation)
      requires Valid() && |a.camera.position| == 3 && |a.camera.target| == 3
      modifies this
      ensures Valid()
      ensures Snapshot() == OnActivate(env, old(Snapshot()), a.camera)
    {
      SetMode(Orbit);
      var goal := Look(env, FromArray(a.camera.position), FromArray(a.camera.target));
      orbitLog := orbitLog + [Attach(goal, true)];
    }

    /** `update(deltaTime, frame)`. The frame is always drained; the animation advances only while
        it is shown, by no time at all while paused. */
    method Update(deltaTime: real, frame: InputFrame)
      requires Valid() && EnvValid(env)
      modifies this, animParts, frame
      ensures Valid()
      ensures frame.move == [] && frame.rotate == []
      ensures Snapshot() == Tick(env, old(Snapshot()), deltaTime, Deltas(old(frame.move), old(frame.rotate)),
                                 AnimPose(), AnimTime())
      ensures old(mode) != Anim ==> unchanged(animParts)
      ensures old(mode) == Anim ==>
        && anim.cursor.duration == old(anim.cursor.duration) && anim.cursor.loopMode == old(anim.cursor.loopMode)
        && anim.cursor.cursor == Advance(anim.cursor.loopMode, anim.cursor.duration, old(anim.cursor.cursor),
                                         ControllerDt(old(Snapshot()), deltaTime))
        && anim.ShowsSample(old(anim.position), old(anim.target))
    {
      var dt := if mode == Anim && paused then 0.0 else deltaTime;
      timer := Min(1.0, timer + deltaTime * 2.0);
      DriveController(dt, frame);
      ShowCamera();
    }

    /** The active controller's update with time step `dt`, reading the frame. */
    method DriveController(dt: real, frame: InputFrame)
      requires Valid()
      modifies this, animParts, frame
      ensures Valid()
      ensures frame.move == [] && frame.rotate == []
      ensures Snapshot() == Drive(env, old(Snapshot()), dt, Deltas(old(frame.move), old(frame.rotate)), AnimPose())
      ensures mode != Anim ==> unchanged(animParts)
      ensures mode == Anim ==>
        && anim.cursor.duration == old(anim.cursor.duration) && anim.cursor.loopMode == old(anim.cursor.loopMode)
        && anim.cursor.cursor == Advance(anim.cursor.loopMode, anim.cursor.duration, old(anim.cursor.cursor), dt)
        && anim.ShowsSample(old(anim.position), old(anim.target))
    {
      match mode {
        case Orbit =>
          var input := frame.Read();
          orbitLog := orbitLog + [Step(input, dt)];
          target := target.(pose := env.integrate(Orbit, orbitLog));
        case Fly =>
          var input := frame.Read();
          flyLog := flyLog + [Step(input, dt)];
          target := target.(pose := env.integrate(Fly, flyLog));
        case Anim =>
          anim.Update(dt);
          target := target.(pose := Look(env, anim.position, anim.target));
          var ignored := frame.Read();
      }
    }

    /** The displayed camera after the controller has moved `target`, and the published time. */
    method ShowCamera()
      requires Valid() && EnvValid(env)
      modifies this
      ensures Valid()
      ensures Snapshot() == Settle(env, old(Snapshot()), if mode == Anim then AnimTime() else old(animationTime))
    {
      if timer < 1.0 {
        camera := Lerp(env, from, target, EaseOut(env.pow2, timer));
      } else {
        camera := target;
      }
      if mode == Anim {
        animationTime := anim.cursor.Value();
      }
    }
  }
}
