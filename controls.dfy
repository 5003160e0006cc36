/** Keyboard and mouse input (static/js/controls.js): the held-key flags, the mouse
    sensitivity, look angles and field-of-view settings as a value, and the per-frame
    update that turns the held keys into the local player's horizontal velocity.
    Pointer lock is browser state and comes in as a flag; the yaw rotation of the
    movement direction and the square root of `normalize` are parameters. */
module Input {
  import opened Common
  import opened Geometry
  import opened Weapons
  import opened Players
  import opened Games
  import opened Network

  const MouseSensitivity: real := 0.002
  const WalkSpeed: real := 5.0
  const SprintSpeed: real := 8.0
  /** The look smoothing moves the fraction `delta / SmoothFactor` toward the target. */
  const SmoothFactor: real := 0.15
  /** `Math.PI` to double precision. */
  const Pi: real := 3.141592653589793
  /** `(Math.PI / 2) * 0.99`: the look angle never quite reaches straight up or down. */
  const PitchLimit: real := Pi / 2.0 * 0.99
  const MinSensitivity: real := 0.5
  const MaxSensitivity: real := 2.0
  const SensitivityStep: real := 0.1
  /** One wheel unit changes a field of view by this many degrees. */
  const WheelFactor: real := 0.05
  const MinDefaultFov: real := 60.0
  const MaxDefaultFov: real := 90.0
  const MinZoomFov: real := 20.0
  const MaxZoomFov: real := 40.0

  /** The `keys` object. */
  datatype Keys = Keys(
    forward: bool, backward: bool, left: bool, right: bool,
    jump: bool, sprint: bool, reload: bool, zoom: bool)

  const NoKeys: Keys := Keys(false, false, false, false, false, false, false, false)

  /** The `event.code` values the handlers look at; every other code is `OtherKey`. */
  datatype KeyCode = Escape | KeyW | KeyS | KeyA | KeyD | Space | ShiftLeft | KeyR | KeyC | KeyV | KeyB | KeyZ | OtherKey

  /** Every field of `Controls` that the handlers change. */
  datatype ControlState = ControlState(
    keys: Keys, sensitivity: real, headBob: bool,
    yaw: real, pitch: real, targetYaw: real, targetPitch: real,
    defaultFov: real, zoomFov: real)

  /** The settings start at multiplier 1, 75 degrees and 30 degrees zoomed; the look
      angles are those of the camera. */
  function InitialControls(cameraYaw: real, cameraPitch: real): ControlState
  {
    ControlState(NoKeys, 1.0, true, cameraYaw, cameraPitch, cameraYaw, cameraPitch, 75.0, 30.0)
  }

  /** The ranges the clamps keep the settings in. */
  predicate InRange(s: ControlState)
  {
    && MinSensitivity <= s.sensitivity <= MaxSensitivity
    && MinDefaultFov <= s.defaultFov <= MaxDefaultFov
    && MinZoomFov <= s.zoomFov <= MaxZoomFov
  }

  // ---------------------------------------------------------------- keys

  /** `onKeyDown` on the control fields (a running game); jumping and reloading are
      calls on other objects, made by `Controls.OnKeyDown`. */
  function KeyDownStep(s: ControlState, code: KeyCode): ControlState
  {
    var k := s.keys;
    match code
    case Escape => s
    case KeyW => s.(keys := k.(forward := true))
    case KeyS => s.(keys := k.(backward := true))
    case KeyA => s.(keys := k.(left := true))
    case KeyD => s.(keys := k.(right := true))
    case Space => s.(keys := k.(jump := true))
    case ShiftLeft => s.(keys := k.(sprint := true))
    case KeyR => s.(keys := k.(reload := true))
    case KeyC => s.(headBob := !s.headBob)
    case KeyV => s.(sensitivity := if MinSensitivity > s.sensitivity - SensitivityStep then MinSensitivity else s.sensitivity - SensitivityStep)
    case KeyB => s.(sensitivity := if MaxSensitivity < s.sensitivity + SensitivityStep then MaxSensitivity else s.sensitivity + SensitivityStep)
    case KeyZ => s.(keys := k.(zoom := !k.zoom))
    case OtherKey => s
  }

  /** `onKeyUp` (a running game). */
  function KeyUpStep(s: ControlState, code: KeyCode): ControlState
  {
    var k := s.keys;
    match code
    case KeyW => s.(keys := k.(forward := false))
    case KeyS => s.(keys := k.(backward := false))
    case KeyA => s.(keys := k.(left := false))
    case KeyD => s.(keys := k.(right := false))
    case Space => s.(keys := k.(jump := false))
    case ShiftLeft => s.(keys := k.(sprint := false))
    case KeyR => s.(keys := k.(reload := false))
    case _ => s
  }

  /** The keys that set a flag on keydown and clear it on keyup. */
  predicate HoldKey(code: KeyCode)
  {
    code in {KeyW, KeyS, KeyA, KeyD, Space, ShiftLeft, KeyR}
  }

  /** The flag a held key drives. */
  function Flag(k: Keys, code: KeyCode): bool
    requires HoldKey(code)
  {
    match code
    case KeyW => k.forward
    case KeyS => k.backward
    case KeyA => k.left
    case KeyD => k.right
    case Space => k.jump
    case ShiftLeft => k.sprint
    case KeyR => k.reload
  }

  /** Keydown of a held key sets exactly its flag and keyup clears exactly it; nothing
      but the keys changes, and the other flags keep their values. */
  lemma HoldKeyFlags(s: ControlState, code: KeyCode, other: KeyCode)
    requires HoldKey(code) && HoldKey(other) && other != code
    ensures Flag(KeyDownStep(s, code).keys, code) && !Flag(KeyUpStep(s, code).keys, code)
    ensures Flag(KeyDownStep(s, code).keys, other) == Flag(s.keys, other)
    ensures Flag(KeyUpStep(s, code).keys, other) == Flag(s.keys, other)
    ensures KeyDownStep(s, code) == s.(keys := KeyDownStep(s, code).keys)
    ensures KeyUpStep(s, code) == s.(keys := KeyUpStep(s, code).keys)
  {
  }

  /** Releasing a key that was just pressed restores the state unless the flag was
      already held. */
  lemma PressThenRelease(s: ControlState, code: KeyCode)
    requires HoldKey(code) && !Flag(s.keys, code)
    ensures KeyUpStep(KeyDownStep(s, code), code) == s
  {
  }

  /** KeyZ toggles zooming, so pressing it twice is no change. */
  lemma ZoomToggleTwice(s: ControlState)
    ensures KeyDownStep(s, KeyZ).keys.zoom == !s.keys.zoom
    ensures KeyDownStep(KeyDownStep(s, KeyZ), KeyZ) == s
  {
  }

  /** KeyV lowers the sensitivity by 0.1 and KeyB raises it by 0.1, each stopping at its
      bound, and neither touches the held keys or the zoom. */
  lemma SensitivityKeysAdjust(s: ControlState)
    ensures s.sensitivity > MinSensitivity ==> KeyDownStep(s, KeyV).sensitivity < s.sensitivity
    ensures s.sensitivity < MaxSensitivity ==> KeyDownStep(s, KeyB).sensitivity > s.sensitivity
    ensures KeyDownStep(s, KeyV).sensitivity >= MinSensitivity && KeyDownStep(s, KeyB).sensitivity <= MaxSensitivity
    ensures s.sensitivity - 0.1 >= MinSensitivity ==> KeyDownStep(s, KeyV).sensitivity == s.sensitivity - 0.1
    ensures s.sensitivity - 0.1 < MinSensitivity ==> KeyDownStep(s, KeyV).sensitivity == MinSensitivity
    ensures s.sensitivity + 0.1 <= MaxSensitivity ==> KeyDownStep(s, KeyB).sensitivity == s.sensitivity + 0.1
    ensures s.sensitivity + 0.1 > MaxSensitivity ==> KeyDownStep(s, KeyB).sensitivity == MaxSensitivity
    ensures KeyDownStep(s, KeyV) == s.(sensitivity := KeyDownStep(s, KeyV).sensitivity)
    ensures KeyDownStep(s, KeyB) == s.(sensitivity := KeyDownStep(s, KeyB).sensitivity)
  {
  }

  // ---------------------------------------------------------------- mouse

  /** A look angle after a mouse movement at the given sensitivity. */
  function Turn(angle: real, movement: real, sensitivity: real): real
  {
    angle - movement * sensitivity
  }

  /** `onMouseMove` with the pointer locked: the look angles move by the scaled mouse
      movement (the targets when smoothing) and both pitches are clamped. */
  function MouseMoveStep(s: ControlState, smoothing: bool, movementX: real, movementY: real): ControlState
  {
    var sensitivity := MouseSensitivity * s.sensitivity;
    var s1 := if smoothing then s.(targetYaw := Turn(s.targetYaw, movementX, sensitivity),
                                   targetPitch := Turn(s.targetPitch, movementY, sensitivity))
              else s.(yaw := Turn(s.yaw, movementX, sensitivity), pitch := Turn(s.pitch, movementY, sensitivity));
    s1.(targetPitch := Clamp(s1.targetPitch, -PitchLimit, PitchLimit), pitch := Clamp(s1.pitch, -PitchLimit, PitchLimit))
  }

  /** `onMouseWheel`: each field of view moves against the wheel and is clamped. */
  function WheelStep(s: ControlState, deltaY: real): ControlState
  {
    s.(defaultFov := Clamp(s.defaultFov - deltaY * WheelFactor, MinDefaultFov, MaxDefaultFov),
       zoomFov := Clamp(s.zoomFov - deltaY * WheelFactor, MinZoomFov, MaxZoomFov))
  }

  /** After any mouse move both pitches are within the limit, whatever they were. */
  lemma PitchClampedAfterMouseMove(s: ControlState, smoothing: bool, movementX: real, movementY: real)
    ensures var t := MouseMoveStep(s, smoothing, movementX, movementY);
      -PitchLimit <= t.pitch <= PitchLimit && -PitchLimit <= t.targetPitch <= PitchLimit
    ensures var t := MouseMoveStep(s, smoothing, movementX, movementY);
      t.keys == s.keys && t.sensitivity == s.sensitivity && t.defaultFov == s.defaultFov && t.zoomFov == s.zoomFov
  {
  }

  /** A pitch already within the limit stays put when the mouse moves only sideways. */
  lemma SidewaysMoveKeepsPitch(s: ControlState, smoothing: bool, movementX: real)
    requires -PitchLimit <= s.pitch <= PitchLimit && -PitchLimit <= s.targetPitch <= PitchLimit
    ensures MouseMoveStep(s, smoothing, movementX, 0.0).pitch == s.pitch
    ensures MouseMoveStep(s, smoothing, movementX, 0.0).targetPitch == s.targetPitch
  {
  }

  // ---------------------------------------------------------------- per-frame update

  /** The look smoothing of `update`: yaw and pitch move `delta / 0.15` of the way to
      their targets. */
  function SmoothLook(s: ControlState, delta: real): ControlState
  {
    s.(yaw := LerpReal(s.yaw, s.targetYaw, delta / SmoothFactor),
       pitch := LerpReal(s.pitch, s.targetPitch, delta / SmoothFactor))
  }

  /** For frames of at most 0.15 s the smoothed pitch stays between the pitch and its
      target, so within the limit; a longer frame overshoots the target. */
  lemma {:induction false} ShortFrameKeepsPitch(s: ControlState, delta: real)
    requires 0.0 <= delta <= SmoothFactor
    requires -PitchLimit <= s.pitch <= PitchLimit && -PitchLimit <= s.targetPitch <= PitchLimit
    ensures -PitchLimit <= SmoothLook(s, delta).pitch <= PitchLimit
  {
    LerpRealBetween(s.pitch, s.targetPitch, delta / SmoothFactor);
  }

  /** A frame of 0.3 s with the pitch at 0 and its target at the limit doubles past it. */
  lemma LongFrameOvershoots()
    ensures SmoothLook(ControlState(NoKeys, 1.0, true, 0.0, 0.0, 0.0, PitchLimit, 75.0, 30.0), 0.3).pitch > PitchLimit
  {
  }

  /** The movement intent: z is -1 for forward, else +1 for backward; x is -1 for left,
      else +1 for right. */
  function Intent(k: Keys): Vec3
  {
    Vec3(if k.left then -1.0 else if k.right then 1.0 else 0.0,
         0.0,
         if k.forward then -1.0 else if k.backward then 1.0 else 0.0)
  }

  /** `direction.length() > 0`: the direction is not the zero vector. */
  predicate Moving(k: Keys)
  {
    Intent(k) != Zero
  }

  function Speed(k: Keys): real
  {
    if k.sprint then SprintSpeed else WalkSpeed
  }

  /** The player's velocity after the movement part of `update`: the normalised intent,
      rotated by the yaw and scaled by the speed, in x and z; zero there when idle. */
  function MoveVelocity(v: Vec3, k: Keys, yaw: real, sqrt: real -> real, rotateY: (Vec3, real) -> Vec3): Vec3
  {
    if Moving(k) then
      var d := rotateY(Normalize(Intent(k), sqrt), yaw);
      v.(x := d.x * Speed(k), z := d.z * Speed(k))
    else v.(x := 0.0, z := 0.0)
  }

  /** Forward wins over backward and left over right, instead of the two cancelling;
      the player moves iff some movement key is held, with a squared intent length of
      1 along an axis and 2 diagonally. */
  lemma IntentPrecedence(k: Keys)
    ensures Intent(k).y == 0.0
    ensures k.forward && k.backward ==> Intent(k).z == -1.0
    ensures k.left && k.right ==> Intent(k).x == -1.0
    ensures Moving(k) <==> (k.forward || k.backward || k.left || k.right)
    ensures Moving(k) <==> Dot(Intent(k), Intent(k)) > 0.0
    ensures Moving(k) ==> Dot(Intent(k), Intent(k)) == (if (k.forward || k.backward) && (k.left || k.right) then 2.0 else 1.0)
  {
  }

  /** With no movement key held the horizontal velocity is zero; the vertical part is
      never touched. */
  lemma IdleStops(v: Vec3, k: Keys, yaw: real, sqrt: real -> real, rotateY: (Vec3, real) -> Vec3)
    ensures MoveVelocity(v, k, yaw, sqrt, rotateY).y == v.y
    ensures !k.forward && !k.backward && !k.left && !k.right ==>
      MoveVelocity(v, k, yaw, sqrt, rotateY).x == 0.0 && MoveVelocity(v, k, yaw, sqrt, rotateY).z == 0.0
  {
    IntentPrecedence(k);
  }

  /** With a true square root and a yaw rotation that keeps lengths and the ground
      plane, a moving player's horizontal speed is 8 when sprinting and 5 otherwise. */
  lemma MovingSpeed(v: Vec3, k: Keys, yaw: real, sqrt: real -> real, rotateY: (Vec3, real) -> Vec3)
    requires Moving(k)
    requires sqrt(1.0) == 1.0 && sqrt(2.0) > 0.0 && sqrt(2.0) * sqrt(2.0) == 2.0
    requires var n := Normalize(Intent(k), sqrt);
      rotateY(n, yaw).y == 0.0 && Dot(rotateY(n, yaw), rotateY(n, yaw)) == Dot(n, n)
    ensures var w := MoveVelocity(v, k, yaw, sqrt, rotateY);
      w.x * w.x + w.z * w.z == Speed(k) * Speed(k)
    ensures Speed(k) == (if k.sprint then 8.0 else 5.0)
  {
    var n := Normalize(Intent(k), sqrt);
    UnitIntent(k, sqrt);
    var d := rotateY(n, yaw);
    assert d.x * d.x + d.z * d.z == 1.0 by { assert Dot(d, d) == 1.0; }
    ScaledUnit(d.x, d.z, Speed(k));
  }

  /** The normalised intent of a moving player has unit length. */
  lemma UnitIntent(k: Keys, sqrt: real -> real)
    requires Moving(k)
    requires sqrt(1.0) == 1.0 && sqrt(2.0) > 0.0 && sqrt(2.0) * sqrt(2.0) == 2.0
    ensures Dot(Normalize(Intent(k), sqrt), Normalize(Intent(k), sqrt)) == 1.0
  {
    IntentPrecedence(k);
    NormalizeIsUnit(Intent(k), sqrt);
  }

  lemma ScaledUnit(x: real, z: real, sp: real)
    requires x * x + z * z == 1.0
    ensures (x * sp) * (x * sp) + (z * sp) * (z * sp) == sp * sp
  {
    assert (x * sp) * (x * sp) == (x * x) * (sp * sp);
    assert (z * sp) * (z * sp) == (z * z) * (sp * sp);
    assert (x * x) * (sp * sp) + (z * z) * (sp * sp) == (x * x + z * z) * (sp * sp);
  }

  /** The clamps keep every setting in range through key presses and wheel turns. */
  lemma {:induction false} HandlersKeepRange(s: ControlState, code: KeyCode, deltaY: real, smoothing: bool, mx: real, my: real)
    requires InRange(s)
    ensures InRange(KeyDownStep(s, code)) && InRange(KeyUpStep(s, code))
    ensures InRange(WheelStep(s, deltaY)) && InRange(MouseMoveStep(s, smoothing, mx, my))
    ensures InRange(SmoothLook(s, mx))
  {
    match code {
      case KeyV => assert MinSensitivity <= KeyDownStep(s, code).sensitivity <= MaxSensitivity;
      case KeyB => assert MinSensitivity <= KeyDownStep(s, code).sensitivity <= MaxSensitivity;
      case _ =>
    }
  }

  lemma InitialInRange(cameraYaw: real, cameraPitch: real)
    ensures InRange(InitialControls(cameraYaw, cameraPitch))
  {
  }

  /** The movement part of `update`: the held keys give the direction, which is
      normalised, turned by the yaw and scaled by the speed into `p`'s velocity. */
  method Steer(p: Player, k: Keys, yaw: real, sqrt: real -> real, rotateY: (Vec3, real) -> Vec3)
    modifies p
    ensures p.velocity == MoveVelocity(old(p.velocity), k, yaw, sqrt, rotateY)
    ensures p.State() == old(p.State()).(body := old(p.Kinematics()).(velocity := p.velocity))
  {
    var direction := Intent(k);
    var isMoving := direction != Zero;
    var speed := if k.sprint then SprintSpeed else WalkSpeed;
    if isMoving {
      direction := rotateY(Normalize(direction, sqrt), yaw);
      p.velocity := p.velocity.(x := direction.x * speed, z := direction.z * speed);
    } else {
      p.velocity := p.velocity.(x := 0.0, z := 0.0);
    }
  }

  class Controls {
    var keys: Keys
    var sensitivity: real
    var headBob: bool
    /** `smoothing` is set once and never changed. */
    const smoothing: bool
    var yaw: real
    var pitch: real
    var targetYaw: real
    var targetPitch: real
    var defaultFov: real
    var zoomFov: real

    function State(): ControlState
      reads this
    {
      ControlState(keys, sensitivity, headBob, yaw, pitch, targetYaw, targetPitch, defaultFov, zoomFov)
    }

    ghost predicate Valid()
      reads this
    {
      InRange(State())
    }

    /** `new Controls(game)`, with the camera's initial rotation. */
    constructor (cameraYaw: real, cameraPitch: real)
      ensures Valid() && smoothing
      ensures State() == InitialControls(cameraYaw, cameraPitch)
    {
      keys := NoKeys;
      sensitivity := 1.0;
      headBob := true;
      smoothing := true;
      yaw, pitch := cameraYaw, cameraPitch;
      targetYaw, targetPitch := cameraYaw, cameraPitch;
      defaultFov, zoomFov := 75.0, 30.0;
      InitialInRange(cameraYaw, cameraPitch);
    }

    /** `onKeyDown(event)` at time `now`: ignored unless the game runs; Space also makes
        the local player jump and KeyR reloads the weapon. */
    method OnKeyDown(game: Game, code: KeyCode, now: real)
      requires Valid() && game.Valid()
      modifies this, game.player, game.weapon
      ensures Valid() && game.Valid()
      ensures !game.isRunning ==> State() == old(State())
      ensures game.isRunning ==> State() == KeyDownStep(old(State()), code)
      ensures old(game.player) != null ==>
        game.player.State() == old(game.player.State()).(body :=
          if game.isRunning && code == Space then JumpStep(old(game.player.Kinematics())) else old(game.player.Kinematics()))
      ensures old(game.weapon) != null ==>
        game.weapon.State() == (if game.isRunning && code == KeyR then StartReload(old(game.weapon.State()), now) else old(game.weapon.State()))
    {
      if !game.isRunning {
        return;
      }
      PressKey(code);
      if code == Space && game.player != null {
        game.player.Jump();
      }
      if code == KeyR && game.weapon != null {
        game.weapon.Reload(now);
      }
    }

    /** The flag and settings part of `onKeyDown`'s switch. */
    method PressKey(code: KeyCode)
      requires Valid()
      modifies this
      ensures Valid()
      ensures State() == KeyDownStep(old(State()), code)
    {
      HandlersKeepRange(State(), code, 0.0, smoothing, 0.0, 0.0);
      match code {
        case Escape =>
        case KeyW => keys := keys.(forward := true);
        case KeyS => keys := keys.(backward := true);
        case KeyA => keys := keys.(left := true);
        case KeyD => keys := keys.(right := true);
        case Space => keys := keys.(jump := true);
        case ShiftLeft => keys := keys.(sprint := true);
        case KeyR => keys := keys.(reload := true);
        case KeyC => headBob := !headBob;
        case KeyV =>
          sensitivity := if MinSensitivity > sensitivity - SensitivityStep then MinSensitivity else sensitivity - SensitivityStep;
        case KeyB =>
          sensitivity := if MaxSensitivity < sensitivity + SensitivityStep then MaxSensitivity else sensitivity + SensitivityStep;
        case KeyZ => keys := keys.(zoom := !keys.zoom);
        case OtherKey =>
      }
    }

    /** `onKeyUp(event)`: ignored unless the game runs. */
    method OnKeyUp(game: Game, code: KeyCode)
      requires Valid()
      modifies this
      ensures Valid()
      ensures State() == if game.isRunning then KeyUpStep(old(State()), code) else old(State())
    {
      if !game.isRunning {
        return;
      }
      match code {
        case KeyW => keys := keys.(forward := false);
        case KeyS => keys := keys.(backward := false);
        case KeyA => keys := keys.(left := false);
        case KeyD => keys := keys.(right := false);
        case Space => keys := keys.(jump := false);
        case ShiftLeft => keys := keys.(sprint := false);
        case KeyR => keys := keys.(reload := false);
        case _ =>
      }
    }

    /** `onMouseMove(event)`: ignored unless the game runs with the pointer locked. */
    method OnMouseMove(game: Game, pointerLocked: bool, movementX: real, movementY: real)
      requires Valid()
      modifies this
      ensures Valid()
      ensures game.isRunning && pointerLocked ==> State() == MouseMoveStep(old(State()), smoothing, movementX, movementY)
      ensures !(game.isRunning && pointerLocked) ==> State() == old(State())
    {
      if !game.isRunning || !pointerLocked {
        return;
      }
      var scaled := MouseSensitivity * sensitivity;
      if smoothing {
        targetYaw := Turn(targetYaw, movementX, scaled);
        targetPitch := Turn(targetPitch, movementY, scaled);
      } else {
        yaw := Turn(yaw, movementX, scaled);
        pitch := Turn(pitch, movementY, scaled);
      }
      targetPitch := Clamp(targetPitch, -PitchLimit, PitchLimit);
      pitch := Clamp(pitch, -PitchLimit, PitchLimit);
    }

    /** `onMouseDown(event)` at time `now`, with `hit` the nearest object under the
        crosshair: an unlocked pointer is only locked; the left button fires (and a
        reported hit is sent to the server), the right button zooms. */
    method OnMouseDown(game: Game, session: Session, button: int, pointerLocked: bool, now: real, hit: RayHit)
      requires Valid() && game.Valid()
      modifies this, game.weapon, session
      ensures Valid() && game.Valid()
      ensures State() == if game.isRunning && pointerLocked && button == 2 then old(State()).(keys := old(keys).(zoom := true)) else old(State())
      ensures old(game.weapon) != null && game.isRunning && pointerLocked && button == 0 ==>
        var (w, shotAt) := ShootStep(old(game.weapon.State()), now, hit, game.playerId);
        && game.weapon.State() == w
        && session.outbox == old(session.outbox) + (if shotAt.Some? && old(session.connected) then [Shoot(shotAt.value, now)] else [])
      ensures !(game.weapon != null && game.isRunning && pointerLocked && button == 0) ==>
        (game.weapon != null ==> unchanged(game.weapon)) && session.outbox == old(session.outbox)
      ensures session.connected == old(session.connected) && session.ThrottleState() == old(session.ThrottleState())
      ensures session.hasSocket == old(session.hasSocket) && session.reconnectAttempts == old(session.reconnectAttempts)
    {
      if !game.isRunning || !pointerLocked {
        return;
      }
      if button == 0 && game.weapon != null {
        var shotAt := game.weapon.Shoot(now, hit, game.playerId);
        if shotAt.Some? {
          session.SendShot(shotAt.value, now);
        }
      }
      if button == 2 {
        keys := keys.(zoom := true);
      }
    }

    /** `onMouseUp(event)`: releasing the right button ends zooming. */
    method OnMouseUp(game: Game, button: int)
      requires Valid()
      modifies this
      ensures Valid()
      ensures State() == if game.isRunning && button == 2 then old(State()).(keys := old(keys).(zoom := false)) else old(State())
    {
      if game.isRunning && button == 2 {
        keys := keys.(zoom := false);
      }
    }

    /** `onMouseWheel(event)`: ignored unless the game runs. */
    method OnMouseWheel(game: Game, deltaY: real)
      requires Valid()
      modifies this
      ensures Valid()
      ensures State() == if game.isRunning then WheelStep(old(State()), deltaY) else old(State())
    {
      if !game.isRunning {
        return;
      }
      HandlersKeepRange(State(), OtherKey, deltaY, smoothing, 0.0, 0.0);
      defaultFov := Clamp(defaultFov - deltaY * WheelFactor, MinDefaultFov, MaxDefaultFov);
      zoomFov := Clamp(zoomFov - deltaY * WheelFactor, MinZoomFov, MaxZoomFov);
    }

    /** `update(delta)`: nothing without a living local player; otherwise the look is
        smoothed and the held keys set the player's horizontal velocity. */
    method Update(game: Game, delta: real, sqrt: real -> real, rotateY: (Vec3, real) -> Vec3)
      requires Valid() && game.Valid()
      modifies this, game.player
      ensures Valid() && game.Valid()
      ensures old(game.player) == null || old(game.player.health) <= 0 ==> State() == old(State()) && (game.player != null ==> unchanged(game.player))
      ensures old(game.player) != null && old(game.player.health) > 0 ==>
        && State() == (if smoothing then SmoothLook(old(State()), delta) else old(State()))
        && game.player.State() == old(game.player.State()).(body := old(game.player.Kinematics()).(velocity :=
             MoveVelocity(old(game.player.velocity), keys, State().yaw, sqrt, rotateY)))
    {
      if game.player == null || game.player.health <= 0 {
        return;
      }
      if smoothing {
        SmoothRotation(delta);
      }
      Steer(game.player, keys, yaw, sqrt, rotateY);
    }

    /** The look smoothing at the start of `update`. */
    method SmoothRotation(delta: real)
      requires Valid()
      modifies this
      ensures Valid()
      ensures State() == SmoothLook(old(State()), delta)
    {
      HandlersKeepRange(State(), OtherKey, 0.0, smoothing, delta, 0.0);
      yaw := LerpReal(yaw, targetYaw, delta / SmoothFactor);
      pitch := LerpReal(pitch, targetPitch, delta / SmoothFactor);
    }
  }
}
