/** The per-tick forward-velocity controller of MovementController as pure
    functions: one function per step of Update, Step for a whole Update and Run
    for a sequence of them. Both copies of the controller share these
    definitions; their classes are proved to follow Step. */
module Kinematics {
  import opened Mathf

  datatype Vec3 = Vec3(x: real, y: real, z: real)

  const Zero: Vec3 := Vec3(0.0, 0.0, 0.0)

  function Scale(k: real, v: Vec3): Vec3 {
    Vec3(k * v.x, k * v.y, k * v.z)
  }

  function Add(a: Vec3, b: Vec3): Vec3 {
    Vec3(a.x + b.x, a.y + b.y, a.z + b.z)
  }

  /** The discrete movement state. Its enum declaration is not part of this
      model; these are the four values the controller assigns. */
  datatype MovementState = Standing | BasicMove | Accelerating | Decelerating

  /** The serialized tuning of the controller, and the gravity read once in Awake.
      The acceleration curve is Unity's AnimationCurve.Evaluate, left uninterpreted. */
  datatype Config = Config(
    acceleration: real,
    accelerationCurve: real -> real,
    stopDeceleration: real,
    basicMovementSpeed: real,
    forwardVelocityHardCap: real,
    forwardVelocitySoftCap: real,
    cameraAngleStandingRotation: real,
    cameraSpeedStandingRotation: real,
    cameraAngleSharpTurn: real,
    gravity: real)
  {
    /** Tuning the controller's arithmetic is meaningful for: the soft cap is a divisor. */
    predicate Valid() {
      basicMovementSpeed >= 0.0 && forwardVelocityHardCap >= 0.0 &&
      forwardVelocitySoftCap != 0.0 && stopDeceleration >= 0.0
    }

    /** How far the standing rotation may turn the heading in a frame of length dt. */
    function StandingRotationStep(dt: real): real {
      cameraSpeedStandingRotation * dt
    }

    /** The range ForwardVelocityClamp enforces on forward velocity. */
    predicate InForwardRange(vz: real) {
      -basicMovementSpeed <= vz <= forwardVelocityHardCap
    }
  }

  /** Unity's vector library as the controller uses it, left uninterpreted:
      Vector3.Angle and Vector3.MoveTowards (the latter as the heading the body
      ends up with once it is assigned to transform.forward). */
  datatype Geometry = Geometry(
    angle: (Vec3, Vec3) -> real,
    moveTowards: (Vec3, Vec3, real) -> Vec3)
  {
    /** Vector3.Angle: the angle in degrees between two directions. */
    function Angle(from: Vec3, to: Vec3): real {
      angle(from, to)
    }

    /** Vector3.MoveTowards, as the heading the body ends up with. */
    function MoveTowards(current: Vec3, target: Vec3, maxDistanceDelta: real): Vec3 {
      moveTowards(current, target, maxDistanceDelta)
    }
  }

  /** What the engine supplies during one Update: Time.deltaTime, the mover's
      grounded flag, the camera's forward and right vectors, and the body's
      right vector at the point the displacement is composed. */
  datatype Frame = Frame(
    deltaTime: real,
    grounded: bool,
    cameraForward: Vec3,
    cameraRight: Vec3,
    bodyRight: Vec3)

  /** The fields of the controller that Update reads or writes; heading is the
      body's transform.forward. */
  datatype ControllerState = ControllerState(
    velocity: Vec3,
    isGrounded: bool,
    movementState: MovementState,
    inputDirection: Vec3,
    isCameraLock: bool,
    heading: Vec3,
    cameraForwardLastFrame: Vec3)

  /** What one Update hands to the mover: the velocity to apply along a basis
      (a right and a forward vector) over the frame time. */
  datatype MoveRequest = MoveRequest(right: Vec3, forward: Vec3, velocity: Vec3, deltaTime: real)
  {
    /** The finalVector of Update scaled by the frame time, as HandleMovement
        passes it to the mover: lateral along right, forward along forward,
        vertical along world up. */
    function Displacement(): (r: Vec3)
      ensures deltaTime == 0.0 || velocity == Zero ==> r == Zero
      ensures right.y == 0.0 && forward.y == 0.0 ==> r.y == deltaTime * velocity.y
    {
      Scale(deltaTime, Add(Add(Scale(velocity.x, right), Scale(velocity.z, forward)), Vec3(0.0, velocity.y, 0.0)))
    }
  }

  /** The state after one Update and the request it made of the mover. */
  datatype Tick = Tick(next: ControllerState, move: MoveRequest)

  /** HandleMovementStates: the state named by the final forward velocity and
      the forward input, or the previous state when no rule applies. */
  function Classify(previous: MovementState, vz: real, inputZ: real, basicSpeed: real): (r: MovementState)
    ensures vz == 0.0 ==> r == Standing
    ensures 0.0 < vz < basicSpeed && inputZ > 0.0 ==> r == BasicMove
    ensures vz != 0.0 && vz >= basicSpeed ==> r == (if inputZ > 0.0 then Accelerating else Decelerating)
    ensures vz != 0.0 && vz < basicSpeed && !(vz > 0.0 && inputZ > 0.0) ==> r == previous
  {
    if vz == 0.0 then Standing
    else if vz > 0.0 && vz < basicSpeed && inputZ > 0.0 then BasicMove
    else if vz >= basicSpeed && inputZ > 0.0 then Accelerating
    else if vz >= basicSpeed && inputZ <= 0.0 then Decelerating
    else previous
  }

  /** The previous state matters only when no rule applies: two controllers
      that end a tick with the same forward velocity and input agree on the
      state unless that velocity is negative, or positive and below basic speed
      without forward input. */
  lemma ClassificationForgetsPreviousState(p1: MovementState, p2: MovementState, vz: real, inputZ: real, basicSpeed: real)
    requires vz == 0.0 || vz >= basicSpeed || (vz > 0.0 && inputZ > 0.0)
    ensures Classify(p1, vz, inputZ, basicSpeed) == Classify(p2, vz, inputZ, basicSpeed)
  {
  }

  /** AccelerationCurve: the curve sampled at forward velocity over the soft cap,
      scaled by the base acceleration. */
  function AccelerationCurve(cfg: Config, vz: real): (r: real)
    requires cfg.forwardVelocitySoftCap != 0.0
    ensures cfg.acceleration == 0.0 ==> r == 0.0
  {
    cfg.accelerationCurve(vz / cfg.forwardVelocitySoftCap) * cfg.acceleration
  }

  /** HandleAdvancedMovement: forward velocity integrated along the curve. */
  function HandleAdvancedMovement(cfg: Config, vz: real, inputZ: real, dt: real): (r: real)
    requires cfg.forwardVelocitySoftCap != 0.0
    ensures inputZ == 0.0 || dt == 0.0 ==> r == vz
  {
    vz + AccelerationCurve(cfg, vz) * inputZ * dt
  }

  /** _inputDirectionZ: the unclamped forward velocity HandleBasicMovement assigns. */
  function InputDirectionZ(cfg: Config, vz: real, inputZ: real, dt: real): (r: real)
    requires cfg.forwardVelocitySoftCap != 0.0
    ensures vz < cfg.basicMovementSpeed ==> r == inputZ * cfg.basicMovementSpeed
    ensures vz >= cfg.basicMovementSpeed && (inputZ == 0.0 || dt == 0.0) ==> r == vz
  {
    if vz >= cfg.basicMovementSpeed then HandleAdvancedMovement(cfg, vz, inputZ, dt)
    else inputZ * cfg.basicMovementSpeed
  }

  /** HandleBasicMovement: the velocity after the lateral and forward components
      are recomputed and forward velocity is clamped. */
  function BasicMovement(cfg: Config, v: Vec3, input: Vec3, dt: real): (r: Vec3)
    requires cfg.Valid()
    ensures r.x == input.x * cfg.basicMovementSpeed
    ensures r.y == v.y
    ensures cfg.InForwardRange(r.z)
  {
    Vec3(input.x * cfg.basicMovementSpeed, v.y,
         Clamp(InputDirectionZ(cfg, v.z, input.z, dt), -cfg.basicMovementSpeed, cfg.forwardVelocityHardCap))
  }

  /** Below basic speed the previous velocity is forgotten: forward velocity is
      the input times basic speed, clamped, and exactly that for an input in
      [-1, 1] when basic speed does not exceed the hard cap. */
  lemma SlowVelocityIsForgotten(cfg: Config, v: Vec3, input: Vec3, dt: real)
    requires cfg.Valid() && v.z < cfg.basicMovementSpeed
    ensures BasicMovement(cfg, v, input, dt).z
         == Clamp(input.z * cfg.basicMovementSpeed, -cfg.basicMovementSpeed, cfg.forwardVelocityHardCap)
    ensures -1.0 <= input.z <= 1.0 && cfg.basicMovementSpeed <= cfg.forwardVelocityHardCap ==>
              BasicMovement(cfg, v, input, dt).z == input.z * cfg.basicMovementSpeed
  {
    SlowBranchAssignsInput(cfg, v, input, dt);
    if -1.0 <= input.z <= 1.0 && cfg.basicMovementSpeed <= cfg.forwardVelocityHardCap {
      UnitInputIsNotClamped(input.z, cfg.basicMovementSpeed, cfg.forwardVelocityHardCap);
    }
  }

  /** Below basic speed the forward value is the clamped input times basic speed. */
  lemma SlowBranchAssignsInput(cfg: Config, v: Vec3, input: Vec3, dt: real)
    requires cfg.Valid() && v.z < cfg.basicMovementSpeed
    ensures BasicMovement(cfg, v, input, dt).z
         == Clamp(input.z * cfg.basicMovementSpeed, -cfg.basicMovementSpeed, cfg.forwardVelocityHardCap)
  {
  }

  /** An input in [-1, 1] times a speed b lies in [-b, b], so a clamp to
      [-b, cap] with b <= cap leaves it as it is. */
  lemma UnitInputIsNotClamped(x: real, b: real, cap: real)
    requires -1.0 <= x <= 1.0 && 0.0 <= b <= cap
    ensures Clamp(x * b, -b, cap) == x * b
  {
    if x >= 0.0 {
      assert 0.0 <= x * b <= b by {
        assert b - x * b == (1.0 - x) * b;
      }
    } else {
      assert -b <= x * b <= 0.0 by {
        assert x * b + b == (x + 1.0) * b;
      }
    }
  }

  /** At or above basic speed forward velocity integrates the curve sample times
      the forward input over the frame, before clamping; with no forward input
      it is kept (up to the hard cap). */
  lemma FastVelocityFollowsCurve(cfg: Config, v: Vec3, input: Vec3, dt: real)
    requires cfg.Valid() && v.z >= cfg.basicMovementSpeed
    ensures BasicMovement(cfg, v, input, dt).z
         == Clamp(v.z + cfg.accelerationCurve(v.z / cfg.forwardVelocitySoftCap) * cfg.acceleration * input.z * dt,
                  -cfg.basicMovementSpeed, cfg.forwardVelocityHardCap)
    ensures input.z == 0.0 ==> BasicMovement(cfg, v, input, dt).z == Clamp(v.z, -cfg.basicMovementSpeed, cfg.forwardVelocityHardCap)
    ensures input.z == 0.0 && v.z <= cfg.forwardVelocityHardCap ==> BasicMovement(cfg, v, input, dt).z == v.z
  {
  }

  /** A non-negative curve sample, forward input and frame time never lower
      forward velocity on the curve branch (short of the hard cap). */
  lemma CurveAccelerationNeverSlows(cfg: Config, v: Vec3, input: Vec3, dt: real)
    requires cfg.Valid() && v.z >= cfg.basicMovementSpeed
    requires AccelerationCurve(cfg, v.z) >= 0.0 && input.z >= 0.0 && dt >= 0.0
    ensures BasicMovement(cfg, v, input, dt).z >= if v.z <= cfg.forwardVelocityHardCap then v.z else cfg.forwardVelocityHardCap
  {
    var a := AccelerationCurve(cfg, v.z);
    assert a * input.z >= 0.0;
    assert a * input.z * dt >= 0.0;
  }

  /** The braking rate ForwardDeceleration returns, and whether asking for it
      raises the camera lock. */
  datatype Braking = Braking(rate: real, locksCamera: bool)

  /** ForwardDeceleration: no braking while forward input is held; otherwise the
      stop rate, and the camera lock is raised (for negative and zero input alike). */
  function ForwardBraking(cfg: Config, inputZ: real): (b: Braking)
    ensures b.locksCamera <==> inputZ <= 0.0
    ensures !b.locksCamera ==> b.rate == 0.0
    ensures b.locksCamera ==> b.rate == cfg.stopDeceleration
  {
    if inputZ > 0.0 then Braking(0.0, false)
    else if inputZ < 0.0 then Braking(cfg.stopDeceleration, true)
    else Braking(cfg.stopDeceleration, true)
  }

  /** The forward velocity HandleDeceleration leaves, and whether it raised the lock. */
  datatype Decelerated = Decelerated(forward: real, locksCamera: bool)

  /** HandleDeceleration: above basic speed, MoveTowards zero at the braking rate. */
  function Decelerate(cfg: Config, vz: real, inputZ: real, dt: real): (d: Decelerated)
    requires cfg.Valid() && dt >= 0.0
    ensures vz <= cfg.basicMovementSpeed ==> d == Decelerated(vz, false)
    ensures d.locksCamera <==> vz > cfg.basicMovementSpeed && inputZ <= 0.0
    ensures vz > cfg.basicMovementSpeed ==> 0.0 <= d.forward <= vz
    ensures vz - d.forward <= ForwardBraking(cfg, inputZ).rate * dt
    ensures inputZ > 0.0 ==> d.forward == vz
    ensures d.locksCamera ==>
              d.forward == if vz <= cfg.stopDeceleration * dt then 0.0 else vz - cfg.stopDeceleration * dt
  {
    if vz > cfg.basicMovementSpeed then
      var b := ForwardBraking(cfg, inputZ);
      assert b.rate * dt >= 0.0;
      Decelerated(MoveTowards(vz, 0.0, b.rate * dt), b.locksCamera)
    else
      Decelerated(vz, false)
  }

  /** HandleSharpTurn: a camera turn of at least the threshold angle cancels
      forward velocity; otherwise it is kept. */
  function SharpTurn(cfg: Config, vz: real, angle: real): (r: real)
    ensures r == 0.0 <==> angle >= cfg.cameraAngleSharpTurn || vz == 0.0
    ensures r != 0.0 ==> r == vz
  {
    if angle >= cfg.cameraAngleSharpTurn then 0.0 else vz
  }

  /** HandleRotation: unless the camera is locked, any input turns the body to
      face the camera. */
  function SnapRotation(heading: Vec3, cameraForward: Vec3, input: Vec3, locked: bool): (r: Vec3)
    ensures locked || input == Zero ==> r == heading
    ensures !locked && input != Zero ==> r == cameraForward
  {
    if locked then heading
    else if input != Zero then cameraForward
    else heading
  }

  /** HandleStandingRotation: unless the camera is locked, a camera at least the
      standing-rotation angle away turns the body towards it at a capped speed. */
  function StandingRotation(cfg: Config, geo: Geometry, heading: Vec3, cameraForward: Vec3, dt: real, locked: bool): (r: Vec3)
    ensures locked || geo.Angle(cameraForward, heading) < cfg.cameraAngleStandingRotation ==> r == heading
    ensures !locked && geo.Angle(cameraForward, heading) >= cfg.cameraAngleStandingRotation ==>
              r == geo.MoveTowards(heading, cameraForward, cfg.StandingRotationStep(dt))
  {
    if locked then heading
    else if geo.Angle(cameraForward, heading) >= cfg.cameraAngleStandingRotation
    then geo.MoveTowards(heading, cameraForward, cfg.StandingRotationStep(dt))
    else heading
  }

  /** Vertical velocity: reset on the ground, one gravity step per tick in the air. */
  function Gravity(vy: real, grounded: bool, gravity: real): (r: real)
    ensures grounded ==> r == 0.0
    ensures !grounded ==> r - vy == gravity
  {
    if !grounded then vy + gravity else 0.0
  }

  /** The velocity an Update leaves and whether it raised the camera lock. */
  datatype Motion = Motion(velocity: Vec3, locksCamera: bool)

  /** The velocity part of Update: gravity, basic movement, deceleration and
      the sharp-turn check, given the camera's turn angle since last frame. */
  function VelocityStep(cfg: Config, v: Vec3, input: Vec3, grounded: bool, dt: real, angle: real): (m: Motion)
    requires cfg.Valid() && dt >= 0.0
    ensures cfg.InForwardRange(m.velocity.z)
    ensures m.velocity.x == input.x * cfg.basicMovementSpeed
    ensures m.velocity.y == if grounded then 0.0 else v.y + cfg.gravity
    ensures m.locksCamera <==> input.z <= 0.0 && BasicMovement(cfg, v, input, dt).z > cfg.basicMovementSpeed
    ensures angle >= cfg.cameraAngleSharpTurn ==> m.velocity.z == 0.0
  {
    var fallen := v.(y := Gravity(v.y, grounded, cfg.gravity));
    var moved := BasicMovement(cfg, fallen, input, dt);
    assert moved.z == BasicMovement(cfg, v, input, dt).z;
    var braked := BrakeAndTurn(cfg, moved.z, input.z, dt, angle);
    Motion(moved.(z := braked.forward), braked.locksCamera)
  }

  /** HandleDeceleration followed by HandleSharpTurn on the forward velocity:
      the result stays in range, the lock is raised exactly when braking
      above basic speed without forward input, a sharp turn stops the body,
      and with forward input and no sharp turn the velocity is kept. */
  function BrakeAndTurn(cfg: Config, vz: real, inputZ: real, dt: real, angle: real): (d: Decelerated)
    requires cfg.Valid() && dt >= 0.0
    ensures cfg.InForwardRange(vz) ==> cfg.InForwardRange(d.forward)
    ensures d.locksCamera <==> vz > cfg.basicMovementSpeed && inputZ <= 0.0
    ensures angle >= cfg.cameraAngleSharpTurn ==> d.forward == 0.0
    ensures angle < cfg.cameraAngleSharpTurn && inputZ > 0.0 ==> d.forward == vz
  {
    var braked := Decelerate(cfg, vz, inputZ, dt);
    Decelerated(SharpTurn(cfg, braked.forward, angle), braked.locksCamera)
  }

  /** One Update: ground check, the two rotation steps, clearing the camera lock,
      the velocity step, the displacement (body basis when the state entering
      the tick is Decelerating), recording the camera forward and reclassifying
      the state. */
  function Step(cfg: Config, geo: Geometry, s: ControllerState, f: Frame): (t: Tick)
    requires cfg.Valid() && f.deltaTime >= 0.0
    ensures cfg.InForwardRange(t.next.velocity.z)
    ensures t.next.velocity.x == s.inputDirection.x * cfg.basicMovementSpeed
    ensures t.next.velocity.y == if f.grounded then 0.0 else s.velocity.y + cfg.gravity
    ensures t.next.inputDirection == s.inputDirection
    ensures t.next.isGrounded == f.grounded
    ensures t.next.cameraForwardLastFrame == f.cameraForward
    ensures s.isCameraLock ==> t.next.heading == s.heading
    ensures t.next.isCameraLock <==>
              s.inputDirection.z <= 0.0 &&
              BasicMovement(cfg, s.velocity, s.inputDirection, f.deltaTime).z > cfg.basicMovementSpeed
    ensures geo.Angle(f.cameraForward, s.cameraForwardLastFrame) >= cfg.cameraAngleSharpTurn ==>
              t.next.velocity.z == 0.0 && t.next.movementState == Standing
  {
    var dt := f.deltaTime;
    var snapped := SnapRotation(s.heading, f.cameraForward, s.inputDirection, s.isCameraLock);
    var heading := StandingRotation(cfg, geo, snapped, f.cameraForward, dt, s.isCameraLock);
    var angle := geo.Angle(f.cameraForward, s.cameraForwardLastFrame);
    var motion := VelocityStep(cfg, s.velocity, s.inputDirection, f.grounded, dt, angle);
    var velocity := motion.velocity;
    var move :=
      if s.movementState == Decelerating then MoveRequest(f.bodyRight, heading, velocity, dt)
      else MoveRequest(f.cameraRight, f.cameraForward, velocity, dt);
    var state := Classify(s.movementState, velocity.z, s.inputDirection.z, cfg.basicMovementSpeed);
    Tick(ControllerState(velocity, f.grounded, state, s.inputDirection, motion.locksCamera, heading, f.cameraForward), move)
  }

  /** Every frame's time is non-negative. */
  predicate NonNegativeTimes(frames: seq<Frame>) {
    forall i :: 0 <= i < |frames| ==> frames[i].deltaTime >= 0.0
  }

  /** Update run once per frame, in order. */
  function Run(cfg: Config, geo: Geometry, s: ControllerState, frames: seq<Frame>): (r: ControllerState)
    requires cfg.Valid() && NonNegativeTimes(frames)
    ensures r.inputDirection == s.inputDirection
    ensures |frames| > 0 ==> cfg.InForwardRange(r.velocity.z) && r.isGrounded == frames[|frames| - 1].grounded
    decreases |frames|
  {
    if frames == [] then s
    else Run(cfg, geo, Step(cfg, geo, s, frames[0]).next, frames[1..])
  }
}
