# Movement controller: forward-velocity model

This project models the per-frame logic of the player's `MovementController`
component, a Unity behaviour that:

- turns a 2D input axis and the camera's orientation into a velocity;
- hands the mover a displacement each frame;
- classifies the player into one of four movement states:
  Standing, BasicMove, Accelerating or Decelerating.

The repository has two copies of the component. Both are modelled:

- `Assets/Scripts/Controller/MovementController.cs` is the newer copy.
- `Assets/Scripts/MovementController.cs` is the older copy. It reads the main
  camera directly and keeps the unused soft-cap `Acceleration` function.

The modules are:

- `Mathf` holds Unity's `Mathf.Clamp` and `Mathf.MoveTowards` (with `Abs` and
  `Sign`) on reals.
- `Kinematics` holds the data model and one pure function per step of
  `Update`:
  - the tuning (`Config`);
  - the engine inputs of one frame (`Frame`);
  - the controller's fields (`ControllerState`);
  - the request to the mover (`MoveRequest`).

  `Step` is one whole `Update`. `Run` is a sequence of them.
- `TickLemmas` holds properties that span one or more `Update` calls:
  - rest is stable;
  - gravity accumulates per tick;
  - the camera lock lasts one tick;
  - the clamp range holds along a run;
  - braking happens at the stop rate;
  - exactly basic speed is kept while the input is released.
- `Controller.MovementController` and `LegacyController.MovementController`
  are classes with the component's fields. They have one method per private
  step of `Update`, each proved to change its fields as the matching
  `Kinematics` function says. Each `Update` method is proved equal to `Step`,
  and it keeps forward velocity inside `[-basicMovementSpeed,
  forwardVelocityHardCap]`.

Behaviours of the code worth knowing, each proved:

- **Full forward input from rest gives Accelerating.** Take a grounded
  Update from rest with no sharp turn, and tuning with
  `0 < basicMovementSpeed <= forwardVelocityHardCap`. Full forward input then
  sets forward velocity to exactly `basicMovementSpeed`.
  `HandleMovementStates` classifies that speed as Accelerating, not BasicMove,
  because BasicMove needs a speed strictly below basic speed
  (`TickLemmas.FullForwardInputFromRest`).
- **Basic speed is never braked.** Braking acts only strictly above basic
  speed, and direct assignment only strictly below it. Take tuning with
  `0 < basicMovementSpeed <= forwardVelocityHardCap` and the input released.
  A body at exactly basic speed keeps that speed on every Update until a sharp
  turn. After at least one such Update it is Decelerating with no camera lock
  (`TickLemmas.BasicSpeedIsNotBraked`, `TickLemmas.BasicSpeedPersistsWithoutInput`).
  A forward tap of one frame from rest therefore leaves the body moving.
- **Gravity is per frame.** It is added to vertical velocity once per frame,
  not multiplied by the frame time. Vertical velocity has no floor. A grounded
  frame sets it to zero (`TickLemmas.FreeFallAddsGravityPerTick`).
- **Only the movement states are assigned.** `_playerState` (of type
  `PlayerStates`) is declared but never assigned. The controller assigns only
  the four `MovementStates` values, and those are what the model has.

## Model

| member | source | states |
|---|---|---|
| Mathf.Clamp | Assets/Scripts/Controller/MovementController.cs:115-117 | the result lies in [min, max] when min <= max; a value already inside is unchanged; a value below min gives min; a value above max and not below min gives max |
| Mathf.MoveTowards | Assets/Scripts/Controller/MovementController.cs:97-101 | for a non-negative maxDelta the result moves at most maxDelta from current and stays between current and target; in every case it either reaches the target or moves exactly |maxDelta| |
| Kinematics.Classify | Assets/Scripts/Controller/MovementController.cs:59-72 | zero forward velocity gives Standing; below basic speed with forward input gives BasicMove; at or above basic speed gives Accelerating with forward input and Decelerating without; every other case keeps the previous state |
| Kinematics.ClassificationForgetsPreviousState | Assets/Scripts/Controller/MovementController.cs:59-72 | the previous state has no influence when velocity is zero, at least basic speed, or positive with forward input |
| Kinematics.InputDirectionZ | Assets/Scripts/Controller/MovementController.cs:78-84 | below basic speed the unclamped forward velocity is the forward input times basic speed, whatever the previous velocity; at or above basic speed, zero forward input or a zero frame time keeps the previous velocity |
| Kinematics.HandleAdvancedMovement | Assets/Scripts/Controller/MovementController.cs:92-95 | zero forward input or a zero frame time leaves forward velocity unchanged (FastVelocityFollowsCurve gives the full increment) |
| Kinematics.AccelerationCurve | Assets/Scripts/Controller/MovementController.cs:119-122 | the uninterpreted curve sampled at forward velocity over the soft cap, times the base acceleration; zero base acceleration gives zero (CurveAccelerationNeverSlows states what a non-negative sample implies) |
| Kinematics.BasicMovement | Assets/Scripts/Controller/MovementController.cs:86-90 | lateral velocity is the lateral input times basic speed; vertical velocity is untouched; forward velocity ends inside [-basicSpeed, hardCap] |
| Kinematics.SlowVelocityIsForgotten | Assets/Scripts/Controller/MovementController.cs:78-90 | below basic speed the previous forward velocity is ignored: the result is the clamped forward input times basic speed, and exactly that for input in [-1, 1] when basic speed does not exceed the hard cap |
| Kinematics.FastVelocityFollowsCurve | Assets/Scripts/Controller/MovementController.cs:78-95 | at or above basic speed forward velocity grows by curve(vz / softCap) * acceleration * input * dt, then is clamped; zero input keeps it when it does not exceed the hard cap, and cuts it to the hard cap otherwise |
| Kinematics.CurveAccelerationNeverSlows | Assets/Scripts/Controller/MovementController.cs:119-122 | a non-negative curve sample, input and frame time never reduce forward velocity on the curve branch, except down to the hard cap |
| Kinematics.ForwardBraking | Assets/Scripts/Controller/MovementController.cs:103-113 | the camera lock is raised exactly when forward input is not positive, and then the rate is the stop rate; otherwise the rate is zero |
| Kinematics.Decelerate | Assets/Scripts/Controller/MovementController.cs:97-113 | nothing changes at or below basic speed; above it forward velocity falls towards zero by at most rate * dt and never below zero; it is unchanged under forward input; the lock is raised exactly when above basic speed without forward input |
| Kinematics.SharpTurn | Assets/Scripts/Controller/MovementController.cs:154-158 | forward velocity becomes zero exactly when the camera turned at least the threshold angle since last frame (or it already was zero); otherwise it is kept |
| Kinematics.SnapRotation | Assets/Scripts/Controller/MovementController.cs:137-140 | a locked camera or no input keeps the heading; otherwise the body faces the camera forward |
| Kinematics.StandingRotation | Assets/Scripts/Controller/MovementController.cs:147-152 | a locked camera, or a camera less than the threshold angle away, keeps the heading; otherwise the heading becomes the uninterpreted Vector3.MoveTowards of it towards the camera with step speed * dt |
| Kinematics.Gravity | Assets/Scripts/Controller/MovementController.cs:170-171 | grounded, vertical velocity is zero; airborne, it grows by exactly gravity, with no frame-time factor |
| Kinematics.MoveRequest.Displacement | Assets/Scripts/Controller/MovementController.cs:177-184 | a zero frame time or zero velocity gives no displacement; with horizontal right and forward vectors the vertical displacement is the frame time times vertical velocity |
| Kinematics.BrakeAndTurn | Assets/Scripts/Controller/MovementController.cs:174-175 | deceleration followed by the sharp-turn check: an in-range forward velocity stays in range; the lock is raised exactly when above basic speed without forward input; a sharp turn gives zero; with forward input and no sharp turn the velocity is kept |
| Kinematics.VelocityStep | Assets/Scripts/Controller/MovementController.cs:170-175 | the velocity after gravity, basic movement, deceleration and the sharp-turn check: forward velocity in the clamp range; lateral velocity the input times basic speed; vertical velocity zero on the ground and one gravity step more in the air; the lock raised exactly when moving above basic speed without forward input; a sharp turn gives zero forward velocity |
| Kinematics.Step | Assets/Scripts/Controller/MovementController.cs:160-189 | after one Update: forward velocity is in the clamp range; lateral velocity is the input times basic speed; vertical velocity is zeroed on the ground and gains gravity in the air; grounded flag and last camera forward are recorded; a lock held on entry keeps the heading; the new lock is raised exactly when moving above basic speed without forward input; a sharp turn stops the player and gives Standing |
| Kinematics.Run | Assets/Scripts/Controller/MovementController.cs:160-189 | over any non-empty sequence of frames the input is unchanged, forward velocity ends in the clamp range, and the grounded flag is the last frame's |
| TickLemmas.RestIsStable | Assets/Scripts/Controller/MovementController.cs:160-189 | a grounded Update from rest with no input stays at rest: zero velocity, Standing, no lock |
| TickLemmas.RestStaysAtRest | Assets/Scripts/Controller/MovementController.cs:160-189 | any number of grounded Updates from rest with no input stay at rest |
| TickLemmas.FreeFallAccumulates | Assets/Scripts/Controller/MovementController.cs:170-171 | over any run of airborne Updates vertical velocity grows by gravity once per Update, whatever the frame times |
| TickLemmas.FreeFallAddsGravityPerTick | Assets/Scripts/Controller/MovementController.cs:170-171 | after n airborne Updates vertical velocity has grown by exactly n times gravity, whatever the frame times |
| TickLemmas.RunStaysInForwardRange | Assets/Scripts/Controller/MovementController.cs:115-117 | forward velocity is inside [-basicSpeed, hardCap] after every prefix of a run that starts inside it |
| TickLemmas.CameraLockSpansOneTick | Assets/Scripts/Controller/MovementController.cs:137-152 | a lock raised in one Update implies there was no forward input, keeps the heading through both rotations of the next Update, and is gone after it unless that Update decelerates again |
| TickLemmas.BasisFollowsEnteringState | Assets/Scripts/Controller/MovementController.cs:177-183 | the displacement uses the body's right and heading when the state entering the Update is Decelerating, and the camera's right and forward otherwise |
| TickLemmas.FullForwardInputFromRest | Assets/Scripts/Controller/MovementController.cs:59-90 | on a grounded Update from rest with no sharp turn and 0 < basic speed <= hard cap, full forward input reaches exactly basic speed and is classified Accelerating |
| TickLemmas.BasicSpeedIsNotBraked | Assets/Scripts/Controller/MovementController.cs:78-113 | with 0 < basic speed <= hard cap, at exactly basic speed with zero forward input and no sharp turn, one Update keeps the speed, gives Decelerating and raises no lock |
| TickLemmas.BasicSpeedPersistsWithoutInput | Assets/Scripts/Controller/MovementController.cs:160-189 | with 0 < basic speed <= hard cap, from exactly basic speed with zero forward input, any run without sharp turns ends at basic speed; a non-empty one also ends Decelerating and unlocked |
| TickLemmas.CoastingBrakesAtStopRate | Assets/Scripts/Controller/MovementController.cs:97-113 | with zero forward input and no sharp turn, speed above basic speed (up to the hard cap) falls by stop rate * dt per Update (to zero at most) and raises the lock |
| Controller.MovementController.constructor | Assets/Scripts/Controller/MovementController.cs:124-127 | a new controller has zero velocity and input, no lock, and the given tuning, state and heading |
| Controller.MovementController.SetInputValues | Assets/Scripts/Controller/MovementController.cs:191 | the input axis (x, y) is stored as (x, 0, y) |
| Controller.MovementController.GetForwardVelocity | Assets/Scripts/Controller/MovementController.cs:193 | returns forward velocity, which is always inside the clamp range |
| Controller.MovementController.HandleMovementStates | Assets/Scripts/Controller/MovementController.cs:59-72 | the state becomes Classify of the previous state, forward velocity and input |
| Controller.MovementController.HandleBasicMovement | Assets/Scripts/Controller/MovementController.cs:78-90 | velocity becomes BasicMovement of the old velocity |
| Controller.MovementController.HandleDeceleration | Assets/Scripts/Controller/MovementController.cs:97-101 | forward velocity becomes Decelerate's result and the lock is raised as Decelerate says; nothing else changes |
| Controller.MovementController.ForwardDeceleration | Assets/Scripts/Controller/MovementController.cs:103-113 | returns ForwardBraking's rate and raises the lock as ForwardBraking says |
| Controller.MovementController.ForwardVelocityClamp | Assets/Scripts/Controller/MovementController.cs:115-117 | only forward velocity changes, to its clamp into [-basicSpeed, hardCap] |
| Controller.MovementController.GroundCheck | Assets/Scripts/Controller/MovementController.cs:129-131 | the grounded flag is the mover's |
| Controller.MovementController.HandleRotation | Assets/Scripts/Controller/MovementController.cs:137-140 | with any input and no lock the body faces the camera; a lock keeps the heading |
| Controller.MovementController.HandleStandingRotation | Assets/Scripts/Controller/MovementController.cs:147-152 | a lock keeps the heading; with no lock, a camera less than the threshold angle away keeps it, and one at least that far away replaces it by the uninterpreted Vector3.MoveTowards of it towards the camera with step speed * dt |
| Controller.MovementController.HandleSharpTurn | Assets/Scripts/Controller/MovementController.cs:154-158 | only forward velocity changes, as SharpTurn says for the camera's turn since last frame |
| Controller.MovementController.Update | Assets/Scripts/Controller/MovementController.cs:160-189 | the fields become Step's next state, the displacement handed to the mover is Step's request scaled by dt, and forward velocity stays in the clamp range |
| LegacyController.Acceleration | Assets/Scripts/MovementController.cs:100-105 | zero at or above the soft cap, the base acceleration below it |
| LegacyController.SoftCapMovement | Assets/Scripts/MovementController.cs:73-76 | the disabled soft-cap alternative: at or above the soft cap forward velocity is kept; below it it grows by acceleration * input * dt, never shrinking for non-negative factors |
| LegacyController.MovementController.constructor | Assets/Scripts/MovementController.cs:112-116 | a new controller has zero velocity and input, no lock, and the given tuning, state and heading |
| LegacyController.MovementController.SetInputValues | Assets/Scripts/MovementController.cs:184 | the input axis (x, y) is stored as (x, 0, y) |
| LegacyController.MovementController.GetForwardVelocity | Assets/Scripts/MovementController.cs:186 | returns forward velocity, which is always inside the clamp range |
| LegacyController.MovementController.HandleMovementStates | Assets/Scripts/MovementController.cs:44-57 | the state becomes Classify of the previous state, forward velocity and input |
| LegacyController.MovementController.HandleBasicMovement | Assets/Scripts/MovementController.cs:59-71 | velocity becomes BasicMovement of the old velocity |
| LegacyController.MovementController.HandleDeceleration | Assets/Scripts/MovementController.cs:78-82 | forward velocity becomes Decelerate's result and the lock is raised as Decelerate says |
| LegacyController.MovementController.ForwardDeceleration | Assets/Scripts/MovementController.cs:84-94 | returns ForwardBraking's rate and raises the lock as ForwardBraking says |
| LegacyController.MovementController.ForwardVelocityClamp | Assets/Scripts/MovementController.cs:96-98 | only forward velocity changes, to its clamp into [-basicSpeed, hardCap] |
| LegacyController.MovementController.GroundCheck | Assets/Scripts/MovementController.cs:118-120 | the grounded flag is the mover's |
| LegacyController.MovementController.Rotate | Assets/Scripts/MovementController.cs:126-129 | with any input and no lock the body faces the main camera; a lock keeps the heading |
| LegacyController.MovementController.HandleStandingRotation | Assets/Scripts/MovementController.cs:136-141 | a lock keeps the heading; with no lock, a camera less than the threshold angle away keeps it, and one at least that far away replaces it by the uninterpreted Vector3.MoveTowards of it towards the camera with step speed * dt |
| LegacyController.MovementController.HandleSharpTurn | Assets/Scripts/MovementController.cs:143-147 | only forward velocity changes, as SharpTurn says for the camera's turn since last frame |
| LegacyController.MovementController.Update | Assets/Scripts/MovementController.cs:149-182 | the fields become Step's next state, the displacement handed to the mover is Step's request scaled by dt, and forward velocity stays in the clamp range |

## Left out

- Vector geometry: `Vector3.Angle` and `Vector3.MoveTowards` (with the
  assignment to `transform.forward`) are uninterpreted functions of a
  `Geometry` value. The model proves nothing about angles or normalisation.
- The body's `transform.right` when the displacement is composed is a frame
  input (`Frame.bodyRight`). It is not derived from the heading.
- The older copy reads the camera through two handles: `_mainCamera`, captured
  once in `Awake`, and `Camera.main`, read on each call (`Rotate` and
  `HandleStandingRotation`). The model feeds both from the one
  `Frame.cameraForward`, which assumes they are the same camera.
- `Vector3 != Vector3.zero` in the rotation step is modelled as exact
  inequality. Unity's approximate comparison is not modelled.
- Floating point: all arithmetic is on reals. Rounding and single-precision
  overflow are not modelled.
- `AnimationCurve.Evaluate` is an uninterpreted `real -> real` function in
  `Config`.
- The engine:
  - `CharacterController.Move` is represented by the displacement `Update`
    returns;
  - `CharacterController.isGrounded` and `Time.deltaTime` are frame inputs;
  - the camera's forward and right vectors are frame inputs.
- `Awake`: the mover lookup is engine wiring. The gravity it reads is a
  `Config` field.
- `_moveDirection`, `_wasMovingLastFrame`, `_forwardVelocity`,
  `MovingLastFrameCheck`, `HandlePlayerStates` and `_playerState`: no part of
  the forward-velocity logic reads them.
- `SetCameraTransform` and the camera, player, input and UI managers: these are
  outside the controller.
- Jump, crouch and slide: the controller does not implement them.
- Controller.MovementController.HandleStandingRotation: the turn itself is the
  uninterpreted `Vector3.MoveTowards`, so the model does not promise that the
  heading moves towards the camera or by at most speed * dt.
- LegacyController.MovementController.HandleStandingRotation: the same gap as
  in the newer copy.
- Kinematics.StandingRotation: the same gap; it is the function both methods
  follow.
- Controller.MovementController.constructor: the serialized control values
  (`_velocity`, `_isGrounded`) start at their defaults, zero and false. Values
  set in the inspector are not modelled. The same holds for
  LegacyController.MovementController.constructor.
- Kinematics.Run: a frame carries no input, so the input is held constant for
  the whole run. The component receives `SetInputValues` again each frame. A
  run with changing input is a sequence of runs with `SetInputValues` between
  them.
- Kinematics.Step: requires `Config.Valid()` (non-negative basic speed, hard
  cap and stop rate, non-zero soft cap) and a non-negative frame time. The
  component assumes these of its inspector tuning and of the engine but does
  not check them. A zero soft cap would divide by zero in the source.
- Kinematics.Decelerate: requires a non-negative frame time for the same
  reason. With a negative time, `MoveTowards` would step away from zero.
