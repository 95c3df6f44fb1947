/** input-controller: turns the raw desktop, touch and gamepad readings into per-frame move and
    rotate deltas, switches to fly mode when a direction key is held, and derives the discrete
    events (commands, interrupts, double taps, joystick, input mode). The vector magnitudes come
    from engine functions given as parameters. */
module Input {
  import opened Types
  import opened Wrappers
  import opened Vectors
  import opened MathUtil
  import opened Frames
  import opened CameraModel

  // ---------------------------------------------------------------------------------------------
  // Touch joystick

  /** The touch joystick as the UI draws it: where the thumb went down, and the stick's offset
      from there; both null while no thumb is down. */
  datatype Joystick = Joystick(base: Option<(real, real)>, stick: Option<(real, real)>)

  const NoJoystick := Joystick(None, None)

  /** The `joystick:position:left` handler: a negative coordinate means the thumb was lifted. */
  function JoystickOf(baseX: real, baseY: real, thumbX: real, thumbY: real): Joystick {
    if baseX < 0.0 || baseY < 0.0 || thumbX < 0.0 || thumbY < 0.0 then NoJoystick
    else Joystick(Some((baseX, baseY)), Some((thumbX - baseX, thumbY - baseY)))
  }

  /** The base and the stick are present together, exactly when no coordinate is negative, and
      the base plus the stick's offset is the thumb's position. */
  lemma JoystickCases(baseX: real, baseY: real, thumbX: real, thumbY: real)
    ensures var j := JoystickOf(baseX, baseY, thumbX, thumbY);
      && (j.base.None? <==> baseX < 0.0 || baseY < 0.0 || thumbX < 0.0 || thumbY < 0.0)
      && (j.base.None? <==> j.stick.None?)
      && (j.base.Some? ==> j.base.value == (baseX, baseY)
                           && j.base.value.0 + j.stick.value.0 == thumbX && j.base.value.1 + j.stick.value.1 == thumbY)
  {
  }

  // ---------------------------------------------------------------------------------------------
  // Double taps

  /** The last recorded tap: its time in milliseconds and its client position. */
  datatype Tap = Tap(time: real, x: real, y: real)

  const NoTap := Tap(0.0, 0.0, 0.0)

  /** Two taps make a double tap when the second comes less than this many milliseconds later... */
  const DoubleTapDelay: real := 300.0

  /** ...and less than this many pixels away on each axis. */
  const DoubleTapDistance: real := 8.0

  /** A pointerdown at `now` and (x, y) is a double tap of `last`. A clock that went backwards
      counts as no delay at all. */
  predicate IsDoubleTap(last: Tap, now: real, x: real, y: real) {
    && Max(0.0, now - last.time) < DoubleTapDelay
    && Abs(x - last.x) < DoubleTapDistance
    && Abs(y - last.y) < DoubleTapDistance
  }

  /** The recorded tap after a pointerdown: a double tap forgets the time but keeps the position;
      any other tap is recorded. */
  function AfterTap(last: Tap, now: real, x: real, y: real): Tap {
    if IsDoubleTap(last, now, x, y) then last.(time := 0.0) else Tap(now, x, y)
  }

  /** A tap that is not itself a double tap, followed within 300 ms by a tap less than 8 pixels
      away, fires `dblclick` on the second. */
  lemma SecondTapFires(last: Tap, t1: real, x1: real, y1: real, t2: real, x2: real, y2: real)
    requires !IsDoubleTap(last, t1, x1, y1)
    requires t1 <= t2 < t1 + DoubleTapDelay
    requires Abs(x2 - x1) < DoubleTapDistance && Abs(y2 - y1) < DoubleTapDistance
    ensures IsDoubleTap(AfterTap(last, t1, x1, y1), t2, x2, y2)
  {
  }

  /** After a double tap the next tap fires again only within 300 ms of the clock's origin, so a
      third quick tap does not make a second double tap. */
  lemma NoTripleTap(last: Tap, t1: real, x1: real, y1: real, t2: real, x2: real, y2: real)
    requires IsDoubleTap(last, t1, x1, y1)
    ensures IsDoubleTap(AfterTap(last, t1, x1, y1), t2, x2, y2) <==>
      t2 < DoubleTapDelay && Abs(x2 - last.x) < DoubleTapDistance && Abs(y2 - last.y) < DoubleTapDistance
  {
  }

  /** A tap recorded later than `now`, by a clock that went backwards, is a double tap of any tap
      close enough to it. */
  lemma BackwardClockIsImmediate(last: Tap, now: real, x: real, y: real)
    requires now <= last.time
    ensures IsDoubleTap(last, now, x, y) <==>
      Abs(x - last.x) < DoubleTapDistance && Abs(y - last.y) < DoubleTapDistance
  {
  }

  // ---------------------------------------------------------------------------------------------
  // Commands and interrupts

  /** A `keydown` on the window: the key's name and the modifiers held. */
  datatype KeyPress = KeyPress(key: string, ctrlKey: bool, altKey: bool, metaKey: bool)

  predicate Unmodified(k: KeyPress) {
    !k.ctrlKey && !k.altKey && !k.metaKey
  }

  /** The command a window `keydown` fires: Escape cancels whatever modifiers are held; `f`, `r`
      and space frame, reset and play or pause only without ctrl, alt and meta. */
  function KeyCommand(k: KeyPress): Option<InputEvent> {
    if k.key == "Escape" then Some(Cancel)
    else if Unmodified(k) then
      if k.key == "f" then Some(Frame)
      else if k.key == "r" then Some(Reset)
      else if k.key == " " then Some(PlayPause)
      else None
    else None
  }

  lemma KeyCommandMeans(k: KeyPress)
    ensures KeyCommand(k) == Some(Cancel) <==> k.key == "Escape"
    ensures KeyCommand(k) == Some(Frame) <==> k.key == "f" && Unmodified(k)
    ensures KeyCommand(k) == Some(Reset) <==> k.key == "r" && Unmodified(k)
    ensures KeyCommand(k) == Some(PlayPause) <==> k.key == " " && Unmodified(k)
    ensures KeyCommand(k).None? <==> k.key !in {"Escape", "f", "r", " "} || (k.key != "Escape" && !Unmodified(k))
  {
  }

  /** The `inputEvent` a raw canvas event fires: anything that starts a gesture or presses a key
      interrupts, moving the pointer is an interaction. */
  function CanvasEvent(name: string): Option<InputEvent> {
    if name in {"wheel", "pointerdown", "contextmenu", "keydown"} then Some(Interrupt)
    else if name == "pointermove" then Some(Interact)
    else None
  }

  lemma CanvasEventMeans(name: string)
    ensures CanvasEvent(name) == Some(Interrupt) <==> name in {"wheel", "pointerdown", "contextmenu", "keydown"}
    ensures CanvasEvent(name) == Some(Interact) <==> name == "pointermove"
    ensures CanvasEvent(name).Some? ==> CanvasEvent(name).value in {Interrupt, Interact}
  {
  }

  /** `state.inputMode` after a pointerdown or pointermove. */
  function InputModeOf(pointerType: string): InputMode {
    if pointerType == "touch" then Touch else Desktop
  }

  lemma InputModeMeans(pointerType: string)
    ensures InputModeOf(pointerType) == Touch <==> pointerType == "touch"
    ensures InputModeOf(pointerType) == Desktop <==> pointerType != "touch"
  {
  }

  // ---------------------------------------------------------------------------------------------
  // Per-frame readings and what is held between frames

  /** The keys whose state changes the controller reads. */
  datatype KeyCode = A | D | E | Q | S | W | Left | Right | Up | Down | Shift | Ctrl

  /** One frame's readings of the four input sources. Keys and buttons report +1 when pressed and
      -1 when released during the frame, 0 otherwise; `count` is the change in the number of
      touching fingers. */
  datatype Readings = Readings(
    key: KeyCode -> int, button: seq<int>, mouse: (real, real), wheel: real,
    touch: (real, real), pinch: real, count: int,
    leftInput: (real, real), rightInput: (real, real),
    leftStick: (real, real), rightStick: (real, real))

  /** The change of the held direction: right, up and forward. */
  function KeyAxis(key: KeyCode -> int): Vec3 {
    Vec3(((key(D) - key(A)) + (key(Right) - key(Left))) as real,
         (key(E) - key(Q)) as real,
         ((key(W) - key(S)) + (key(Up) - key(Down))) as real)
  }

  /** What the controller accumulates across frames: the held direction, the held mouse buttons,
      shift, ctrl and the number of fingers down. */
  datatype Held = Held(axis: Vec3, mouse: seq<int>, shift: int, ctrl: int, touches: int)

  /** Adding the frame's button changes to the held buttons, one per reported button. */
  function AddButtons(mouse: seq<int>, button: seq<int>): (r: seq<int>)
    requires |button| <= |mouse|
    ensures |r| == |mouse|
    ensures forall i :: 0 <= i < |button| ==> r[i] == mouse[i] + button[i]
    ensures forall i :: |button| <= i < |mouse| ==> r[i] == mouse[i]
  {
    seq(|mouse|, i requires 0 <= i < |mouse| => if i < |button| then mouse[i] + button[i] else mouse[i])
  }

  function Accumulate(h: Held, r: Readings): Held
    requires |r.button| <= |h.mouse|
  {
    Held(Plus(h.axis, KeyAxis(r.key)), AddButtons(h.mouse, r.button),
         h.shift + r.key(Shift), h.ctrl + r.key(Ctrl), h.touches + r.count)
  }

  /** What is held after a run of frames. */
  function AccumulateAll(h: Held, rs: seq<Readings>): Held
    requires forall k :: 0 <= k < |rs| ==> |rs[k].button| <= |h.mouse|
    decreases |rs|
  {
    if |rs| == 0 then h else AccumulateAll(Accumulate(h, rs[0]), rs[1..])
  }

  function SumKey(rs: seq<Readings>, c: KeyCode): int
    decreases |rs|
  {
    if |rs| == 0 then 0 else rs[0].key(c) + SumKey(rs[1..], c)
  }

  function SumCount(rs: seq<Readings>): int
    decreases |rs|
  {
    if |rs| == 0 then 0 else rs[0].count + SumCount(rs[1..])
  }

  /** Held modifiers and fingers are running totals of the reported changes: a key pressed and
      released, or a finger put down and lifted, leaves them where they were. */
  lemma {:induction false} HeldIsRunningTotal(h: Held, rs: seq<Readings>)
    requires forall k :: 0 <= k < |rs| ==> |rs[k].button| <= |h.mouse|
    ensures |AccumulateAll(h, rs).mouse| == |h.mouse|
    ensures AccumulateAll(h, rs).shift == h.shift + SumKey(rs, Shift)
    ensures AccumulateAll(h, rs).ctrl == h.ctrl + SumKey(rs, Ctrl)
    ensures AccumulateAll(h, rs).touches == h.touches + SumCount(rs)
    decreases |rs|
  {
    if |rs| > 0 {
      HeldIsRunningTotal(Accumulate(h, rs[0]), rs[1..]);
    }
  }

  // ---------------------------------------------------------------------------------------------
  // Per-frame deltas

  /** The tunable speeds: keyboard and stick movement, rotation, pinch and wheel. */
  datatype Speeds = Speeds(move: real, orbit: real, pinch: real, wheel: real)

  /** The speeds before the viewer scales them to the scene. */
  const DefaultSpeeds := Speeds(4.0, 18.0, 0.4, 0.06)

  /** The engine's vector helpers: `screenToWorld(camera, dx, dy, distance)` and `normalize`. */
  datatype Engine = Engine(screenToWorld: (real, real, real) -> Vec3, normalize: Vec3 -> Vec3)

  /** `+(b)`: a boolean as a number. */
  function Bit(b: bool): real {
    if b then 1.0 else 0.0
  }

  /** The keyboard speed factor: 4 with shift held, else 0.25 with ctrl held, else 1. */
  function KeySpeed(h: Held): real {
    if h.shift != 0 then 4.0 else if h.ctrl != 0 then 0.25 else 1.0
  }

  /** `mouse[2] || +(button[2] === -1) || double`: the first non-zero of the held right button,
      a right-button release this frame, and two or more fingers down. */
  function Pan(h: Held, r: Readings): real
    requires |h.mouse| == 3
  {
    if h.mouse[2] != 0 then h.mouse[2] as real
    else if |r.button| > 2 && r.button[2] == -1 then 1.0
    else Bit(h.touches > 1)
  }

  /** Rotation is scaled by the field of view in fly mode. */
  function OrbitFactor(mode: CameraMode, fov: real): real {
    if mode == Fly then fov / 120.0 else 1.0
  }

  /** The keyboard's part of the desktop move: the held direction, only in fly mode. */
  function KeyboardMove(e: Engine, h: Held, mode: CameraMode, s: Speeds, dt: real): Vec3 {
    Scale(e.normalize(h.axis), Bit(mode == Fly) * s.move * KeySpeed(h) * dt)
  }

  /** The desktop move before the orbit flip: keys, mouse pan, wheel zoom. */
  function DesktopMove(e: Engine, h: Held, r: Readings, mode: CameraMode, s: Speeds, dt: real, distance: real): Vec3
    requires |h.mouse| == 3
  {
    var pan := e.screenToWorld(r.mouse.0, r.mouse.1, distance);
    Plus(Plus(KeyboardMove(e, h, mode, s, dt), Scale(pan, Pan(h, r))), Scale(Vec3(0.0, 0.0, -r.wheel), s.wheel * dt))
  }

  /** The desktop move as appended: its z flipped in orbit mode. */
  function AppendedDesktopMove(e: Engine, h: Held, r: Readings, mode: CameraMode, s: Speeds, dt: real,
                               distance: real): Vec3
    requires |h.mouse| == 3
  {
    var v := DesktopMove(e, h, r, mode, s, dt, distance);
    Vec3(v.x, v.y, if mode == Orbit then -v.z else v.z)
  }

  function DesktopRotate(h: Held, r: Readings, mode: CameraMode, fov: real, s: Speeds, dt: real): Vec3
    requires |h.mouse| == 3
  {
    Scale(Vec3(r.mouse.0, r.mouse.1, 0.0), (1.0 - Pan(h, r)) * s.orbit * OrbitFactor(mode, fov) * dt)
  }

  function MobileMove(e: Engine, h: Held, r: Readings, mode: CameraMode, s: Speeds, dt: real, distance: real): Vec3
    requires |h.mouse| == 3
  {
    var orbit := Bit(mode == Orbit);
    var drag := Scale(e.screenToWorld(r.touch.0, r.touch.1, distance), orbit * Pan(h, r));
    var walk := Scale(Vec3(r.leftInput.0, 0.0, -r.leftInput.1), Bit(mode == Fly) * s.move * dt);
    var pinch := Scale(Vec3(0.0, 0.0, r.pinch), orbit * Bit(h.touches > 1) * s.pinch * dt);
    Plus(Plus(drag, walk), pinch)
  }

  function MobileRotate(h: Held, r: Readings, mode: CameraMode, fov: real, s: Speeds, dt: real): Vec3
    requires |h.mouse| == 3
  {
    var turn := Scale(Vec3(r.touch.0, r.touch.1, 0.0), Bit(mode == Orbit) * (1.0 - Pan(h, r)) * s.orbit * dt);
    var look := Scale(Vec3(r.rightInput.0, r.rightInput.1, 0.0), Bit(mode == Fly) * s.orbit * OrbitFactor(mode, fov) * dt);
    Plus(turn, look)
  }

  function GamepadMove(r: Readings, s: Speeds, dt: real): Vec3 {
    Scale(Vec3(r.leftStick.0, 0.0, -r.leftStick.1), s.move * dt)
  }

  function GamepadRotate(r: Readings, mode: CameraMode, fov: real, s: Speeds, dt: real): Vec3 {
    Scale(Vec3(r.rightStick.0, r.rightStick.1, 0.0), s.orbit * OrbitFactor(mode, fov) * dt)
  }

  /** Everything one update appends to the frame, in order: desktop, mobile, gamepad. */
  function FrameDeltas(e: Engine, h: Held, r: Readings, mode: CameraMode, fov: real, s: Speeds, dt: real,
                       distance: real): Deltas
    requires |h.mouse| == 3
  {
    Deltas([AppendedDesktopMove(e, h, r, mode, s, dt, distance), MobileMove(e, h, r, mode, s, dt, distance),
            GamepadMove(r, s, dt)],
           [DesktopRotate(h, r, mode, fov, s, dt), MobileRotate(h, r, mode, fov, s, dt),
            GamepadRotate(r, mode, fov, s, dt)])
  }

  /** Exactly three moves and three rotates, desktop first and gamepad last. */
  lemma FrameDeltasShape(e: Engine, h: Held, r: Readings, mode: CameraMode, fov: real, s: Speeds, dt: real,
                         distance: real)
    requires |h.mouse| == 3
    ensures var d := FrameDeltas(e, h, r, mode, fov, s, dt, distance);
      && |d.move| == 3 && |d.rotate| == 3
      && d.move[0] == AppendedDesktopMove(e, h, r, mode, s, dt, distance)
      && d.rotate[0] == DesktopRotate(h, r, mode, fov, s, dt)
      && d.move[2] == GamepadMove(r, s, dt) && d.rotate[2] == GamepadRotate(r, mode, fov, s, dt)
  {
  }

  /** The desktop move's z is flipped exactly in orbit mode. */
  lemma DesktopMoveFlipsInOrbit(e: Engine, h: Held, r: Readings, mode: CameraMode, s: Speeds, dt: real, distance: real)
    requires |h.mouse| == 3
    ensures var v := DesktopMove(e, h, r, mode, s, dt, distance);
      var a := AppendedDesktopMove(e, h, r, mode, s, dt, distance);
      && a.x == v.x && a.y == v.y
      && (mode == Orbit ==> a.z == -v.z)
      && (mode != Orbit ==> a.z == v.z)
  {
  }

  /** The keys move the camera only in fly mode, scaled by 4 with shift, else by 0.25 with ctrl. */
  lemma KeyboardMovesOnlyInFly(e: Engine, h: Held, mode: CameraMode, s: Speeds, dt: real)
    ensures mode != Fly ==> KeyboardMove(e, h, mode, s, dt) == Zero
    ensures mode == Fly ==> KeyboardMove(e, h, mode, s, dt) == Scale(e.normalize(h.axis), s.move * KeySpeed(h) * dt)
    ensures h.shift != 0 ==> KeySpeed(h) == 4.0
    ensures h.shift == 0 && h.ctrl != 0 ==> KeySpeed(h) == 0.25
    ensures h.shift == 0 && h.ctrl == 0 ==> KeySpeed(h) == 1.0
  {
  }

  /** While the right button is held the mouse pans instead of rotating. */
  lemma RightButtonPans(h: Held, r: Readings, mode: CameraMode, fov: real, s: Speeds, dt: real)
    requires |h.mouse| == 3 && h.mouse[2] == 1
    ensures Pan(h, r) == 1.0
    ensures DesktopRotate(h, r, mode, fov, s, dt) == Zero
  {
  }

  /** The mode the manager is in after an update: fly once a direction is held, else as it was. */
  function AfterKeys(m: Manager, axis: Vec3): Manager {
    if m.mode != Fly && axis != Zero then WithMode(m, Fly, m.camera.pose) else m
  }

  lemma AfterKeysMeans(m: Manager, axis: Vec3)
    ensures AfterKeys(m, axis).mode == if axis != Zero then Fly else m.mode
    ensures m.mode == Fly || axis == Zero ==> AfterKeys(m, axis) == m
  {
  }

  // ---------------------------------------------------------------------------------------------
  // The controller object

  class InputController {
    var axis: Vec3
    /** The held mouse buttons: left, middle, right. */
    const mouse: array<int>
    var shift: int
    var ctrl: int
    var touches: int
    const frame: InputFrame
    var joystick: Joystick
    var lastTap: Tap
    /** `state.inputMode`. */
    var inputMode: InputMode
    /** Overridden by the viewer to suit the scene's size. */
    var speeds: Speeds

    ghost predicate Valid()
      reads this
    {
      mouse.Length == 3
    }

    /** What is held between frames. */
    function Current(): Held
      reads this, mouse
    {
      Held(axis, mouse[..], shift, ctrl, touches)
    }

    constructor (frame: InputFrame)
      ensures Valid() && fresh(mouse) && this.frame == frame
      ensures Current() == Held(Zero, [0, 0, 0], 0, 0, 0)
      ensures joystick == NoJoystick && lastTap == NoTap && inputMode == Desktop && speeds == DefaultSpeeds
    {
      axis := Zero;
      mouse := new int[3](_ => 0);
      shift, ctrl, touches := 0, 0, 0;
      this.frame := frame;
      joystick := NoJoystick;
      lastTap := NoTap;
      inputMode := Desktop;
      speeds := DefaultSpeeds;
      new;
      assert mouse[..] == [0, 0, 0];
    }

    /** The `joystick:position:left` handler. */
    method OnJoystick(baseX: real, baseY: real, thumbX: real, thumbY: real)
      modifies this
      ensures joystick == JoystickOf(baseX, baseY, thumbX, thumbY)
      ensures axis == old(axis) && shift == old(shift) && ctrl == old(ctrl) && touches == old(touches)
      ensures lastTap == old(lastTap) && inputMode == old(inputMode) && speeds == old(speeds)
    {
      if baseX < 0.0 || baseY < 0.0 || thumbX < 0.0 || thumbY < 0.0 {
        joystick := NoJoystick;
        return;
      }
      joystick := Joystick(Some((baseX, baseY)), Some((thumbX - baseX, thumbY - baseY)));
    }

    /** The canvas `pointerdown` double-tap detector, reading the clock as `now`. */
    method PointerDown(now: real, x: real, y: real) returns (doubleTap: bool)
      modifies this
      ensures doubleTap == IsDoubleTap(old(lastTap), now, x, y)
      ensures lastTap == AfterTap(old(lastTap), now, x, y)
      ensures axis == old(axis) && shift == old(shift) && ctrl == old(ctrl) && touches == old(touches)
      ensures joystick == old(joystick) && inputMode == old(inputMode) && speeds == old(speeds)
    {
      var delay := Max(0.0, now - lastTap.time);
      if delay < DoubleTapDelay && Abs(x - lastTap.x) < DoubleTapDistance && Abs(y - lastTap.y) < DoubleTapDistance {
        doubleTap := true;
        lastTap := lastTap.(time := 0.0);
      } else {
        doubleTap := false;
        lastTap := Tap(now, x, y);
      }
    }

    /** The window `pointerdown` / `pointermove` handler. */
    method OnPointer(pointerType: string)
      modifies this
      ensures inputMode == InputModeOf(pointerType)
      ensures axis == old(axis) && shift == old(shift) && ctrl == old(ctrl) && touches == old(touches)
      ensures joystick == old(joystick) && lastTap == old(lastTap) && speeds == old(speeds)
    {
      inputMode := if pointerType == "touch" then Touch else Desktop;
    }

    /** The held mouse buttons take the frame's button changes, one button at a time. */
    method AddButtonChanges(button: seq<int>)
      requires |button| <= mouse.Length
      modifies mouse
      ensures mouse[..] == AddButtons(old(mouse[..]), button)
    {
      for i := 0 to |button|
        invariant forall k :: 0 <= k < i ==> mouse[k] == old(mouse[k]) + button[k]
        invariant forall k :: i <= k < mouse.Length ==> mouse[k] == old(mouse[k])
      {
        mouse[i] := mouse[i] + button[i];
      }
    }

    /** The first part of `update`: fold the frame's readings into what is held. */
    method Gather(r: Readings)
      requires Valid() && |r.button| <= 3
      modifies this, mouse
      ensures Valid()
      ensures Current() == Accumulate(old(Current()), r)
      ensures joystick == old(joystick) && lastTap == old(lastTap) && inputMode == old(inputMode) && speeds == old(speeds)
    {
      axis := Plus(axis, KeyAxis(r.key));
      touches := touches + r.count;
      AddButtonChanges(r.button);
      shift := shift + r.key(Shift);
      ctrl := ctrl + r.key(Ctrl);
    }

    /** `update(dt, distance)`: gathers the readings, switches to fly mode while a direction is
        held, appends the frame's three moves and three rotates, and returns the joystick to draw,
        only in fly mode. `entityFov` is the camera entity's `camera.fov`, which fly mode's rotation
        scales by: the frame loop runs this before the manager's update and copies the manager's
        field of view onto the entity only after it, so this is the previous frame's field of view,
        and before the first frame the camera component's own default. */
    method Update(dt: real, distance: real, r: Readings, e: Engine, manager: CameraManager, entityFov: real)
      returns (joystickUpdate: Option<Joystick>)
      requires Valid() && manager.Valid() && |r.button| <= 3
      modifies this, mouse, frame, manager
      ensures Valid() && manager.Valid()
      ensures Current() == Accumulate(old(Current()), r)
      ensures manager.Snapshot() == AfterKeys(old(manager.Snapshot()), axis)
      ensures frame.move == old(frame.move) + FrameDeltas(e, Current(), r, manager.mode, entityFov, speeds,
                                                          dt, distance).move
      ensures frame.rotate == old(frame.rotate) + FrameDeltas(e, Current(), r, manager.mode, entityFov,
                                                              speeds, dt, distance).rotate
      ensures joystickUpdate == if manager.mode == Fly then Some(joystick) else None
      ensures joystick == old(joystick) && lastTap == old(lastTap) && inputMode == old(inputMode) && speeds == old(speeds)
    {
      Gather(r);
      FlyOnKeys(manager);
      Emit(dt, distance, r, e, manager.mode, entityFov);
      joystickUpdate := if manager.mode == Fly then Some(joystick) else None;
    }

    /** A held direction outside fly mode switches to fly mode. */
    method FlyOnKeys(manager: CameraManager)
      requires manager.Valid()
      modifies manager
      ensures manager.Valid()
      ensures manager.Snapshot() == AfterKeys(old(manager.Snapshot()), axis)
    {
      if manager.mode != Fly && axis != Zero {
        ghost var before := manager.Snapshot();
        manager.SetMode(Fly);
        ModeKeepsInv(before, Fly, manager.AnimPose(), manager.hasAnimation, manager.resetCamera.fov);
      }
    }

    /** The deltas part of `update`, for the mode and field of view after the switch. */
    method Emit(dt: real, distance: real, r: Readings, e: Engine, mode: CameraMode, fov: real)
      requires Valid()
      modifies frame
      ensures frame.move == old(frame.move) + FrameDeltas(e, Current(), r, mode, fov, speeds, dt, distance).move
      ensures frame.rotate == old(frame.rotate) + FrameDeltas(e, Current(), r, mode, fov, speeds, dt, distance).rotate
    {
      var h := Current();
      frame.AppendMove(AppendedDesktopMove(e, h, r, mode, speeds, dt, distance));
      frame.AppendRotate(DesktopRotate(h, r, mode, fov, speeds, dt));
      frame.AppendMove(MobileMove(e, h, r, mode, speeds, dt, distance));
      frame.AppendRotate(MobileRotate(h, r, mode, fov, speeds, dt));
      frame.AppendMove(GamepadMove(r, speeds, dt));
      frame.AppendRotate(GamepadRotate(r, mode, fov, speeds, dt));
    }
  }
}
