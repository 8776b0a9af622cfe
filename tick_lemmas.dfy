/** Properties of the controller that relate one Update to the next, or to a
    whole sequence of them. */
module TickLemmas {
  import opened Mathf
  import opened Kinematics

  /** At rest: no velocity, Standing, camera unlocked. */
  predicate AtRest(s: ControllerState) {
    s.velocity == Zero && s.movementState == Standing && !s.isCameraLock
  }

  /** Every frame reports the body grounded. */
  predicate AllGrounded(frames: seq<Frame>) {
    forall i :: 0 <= i < |frames| ==> frames[i].grounded
  }

  /** Every frame reports the body airborne. */
  predicate AllAirborne(frames: seq<Frame>) {
    forall i :: 0 <= i < |frames| ==> !frames[i].grounded
  }

  /** A grounded tick from rest with no input stays at rest, whatever the
      camera does. */
  lemma RestIsStable(cfg: Config, geo: Geometry, s: ControllerState, f: Frame)
    requires cfg.Valid() && f.deltaTime >= 0.0
    requires AtRest(s) && s.inputDirection == Zero && f.grounded
    ensures AtRest(Step(cfg, geo, s, f).next)
  {
    var moved := BasicMovement(cfg, s.velocity, s.inputDirection, f.deltaTime);
    assert moved.z == 0.0 by {
      if s.velocity.z >= cfg.basicMovementSpeed {
        FastVelocityFollowsCurve(cfg, s.velocity, s.inputDirection, f.deltaTime);
      } else {
        SlowVelocityIsForgotten(cfg, s.velocity, s.inputDirection, f.deltaTime);
      }
    }
  }

  /** Any number of grounded ticks from rest with no input stay at rest. */
  lemma {:induction false} RestStaysAtRest(cfg: Config, geo: Geometry, s: ControllerState, frames: seq<Frame>)
    requires cfg.Valid() && NonNegativeTimes(frames)
    requires AtRest(s) && s.inputDirection == Zero && AllGrounded(frames)
    ensures AtRest(Run(cfg, geo, s, frames))
    decreases |frames|
  {
    if frames != [] {
      assert NonNegativeTimes(frames[1..]) && AllGrounded(frames[1..]);
      var next := Step(cfg, geo, s, frames[0]).next;
      RestIsStable(cfg, geo, s, frames[0]);
      RestStaysAtRest(cfg, geo, next, frames[1..]);
      assert Run(cfg, geo, s, frames) == Run(cfg, geo, next, frames[1..]);
    }
  }

  /** Gravity added once per tick over n ticks. */
  function GravityOver(n: nat, g: real): real {
    if n == 0 then 0.0 else GravityOver(n - 1, g) + g
  }

  /** Gravity added n times is n times gravity. */
  lemma {:induction false} GravityOverIsProduct(n: nat, g: real)
    ensures GravityOver(n, g) == (n as real) * g
  {
    if n > 0 {
      GravityOverIsProduct(n - 1, g);
      assert ((n - 1) as real) * g + g == (n as real) * g;
    }
  }

  /** Each airborne tick adds gravity to vertical velocity once. */
  lemma {:induction false} FreeFallAccumulates(cfg: Config, geo: Geometry, s: ControllerState, frames: seq<Frame>)
    requires cfg.Valid() && NonNegativeTimes(frames) && AllAirborne(frames)
    ensures Run(cfg, geo, s, frames).velocity.y == s.velocity.y + GravityOver(|frames|, cfg.gravity)
    decreases |frames|
  {
    if frames != [] {
      var rest := frames[1..];
      assert NonNegativeTimes(rest) && AllAirborne(rest);
      var next := Step(cfg, geo, s, frames[0]).next;
      FreeFallAccumulates(cfg, geo, next, rest);
      assert Run(cfg, geo, s, frames) == Run(cfg, geo, next, rest);
    }
  }

  /** In the air gravity is added once per tick, independently of the frame
      time: after n airborne ticks vertical velocity has grown by n times gravity. */
  lemma FreeFallAddsGravityPerTick(cfg: Config, geo: Geometry, s: ControllerState, frames: seq<Frame>)
    requires cfg.Valid() && NonNegativeTimes(frames) && AllAirborne(frames)
    ensures Run(cfg, geo, s, frames).velocity.y == s.velocity.y + (|frames| as real) * cfg.gravity
  {
    FreeFallAccumulates(cfg, geo, s, frames);
    GravityOverIsProduct(|frames|, cfg.gravity);
  }

  /** Forward velocity stays in [-basicSpeed, hardCap] on every tick of a run
      that starts inside it. */
  lemma {:induction false} RunStaysInForwardRange(cfg: Config, geo: Geometry, s: ControllerState, frames: seq<Frame>, k: nat)
    requires cfg.Valid() && NonNegativeTimes(frames) && cfg.InForwardRange(s.velocity.z)
    requires k <= |frames|
    ensures cfg.InForwardRange(Run(cfg, geo, s, frames[..k]).velocity.z)
  {
    if k > 0 {
      assert NonNegativeTimes(frames[..k]);
    }
  }

  /** The camera lock raised by deceleration in one tick holds the heading still
      through both rotation steps of the next tick, and what is left of the
      lock after that tick is only what that tick's own deceleration raised. */
  lemma CameraLockSpansOneTick(cfg: Config, geo: Geometry, s: ControllerState, f1: Frame, f2: Frame)
    requires cfg.Valid() && f1.deltaTime >= 0.0 && f2.deltaTime >= 0.0
    requires Step(cfg, geo, s, f1).next.isCameraLock
    ensures s.inputDirection.z <= 0.0
    ensures Step(cfg, geo, Step(cfg, geo, s, f1).next, f2).next.heading == Step(cfg, geo, s, f1).next.heading
    ensures var s1 := Step(cfg, geo, s, f1).next;
            Step(cfg, geo, s1, f2).next.isCameraLock <==>
              BasicMovement(cfg, s1.velocity, s1.inputDirection, f2.deltaTime).z > cfg.basicMovementSpeed
  {
  }

  /** The displacement uses the body's heading and right vector exactly when the
      state entering the tick is Decelerating, and the camera's otherwise. */
  lemma BasisFollowsEnteringState(cfg: Config, geo: Geometry, s: ControllerState, f: Frame)
    requires cfg.Valid() && f.deltaTime >= 0.0
    ensures var t := Step(cfg, geo, s, f);
            t.move == if s.movementState == Decelerating
                      then MoveRequest(f.bodyRight, t.next.heading, t.next.velocity, f.deltaTime)
                      else MoveRequest(f.cameraRight, f.cameraForward, t.next.velocity, f.deltaTime)
  {
  }

  /** From rest on the ground, full forward input reaches exactly basic speed in
      one tick, which the classifier already counts as Accelerating (BasicMove
      needs a speed strictly below basic speed); the next tick therefore
      integrates the curve instead of assigning the speed. */
  lemma FullForwardInputFromRest(cfg: Config, geo: Geometry, s: ControllerState, f: Frame)
    requires cfg.Valid() && f.deltaTime >= 0.0
    requires 0.0 < cfg.basicMovementSpeed <= cfg.forwardVelocityHardCap
    requires AtRest(s) && s.inputDirection == Vec3(0.0, 0.0, 1.0) && f.grounded
    requires geo.Angle(f.cameraForward, s.cameraForwardLastFrame) < cfg.cameraAngleSharpTurn
    ensures Step(cfg, geo, s, f).next.velocity == Vec3(0.0, 0.0, cfg.basicMovementSpeed)
    ensures Step(cfg, geo, s, f).next.movementState == Accelerating
  {
    SlowVelocityIsForgotten(cfg, s.velocity, s.inputDirection, f.deltaTime);
  }

  /** With no forward input, forward velocity above basic speed falls by the
      stop rate times the frame time each tick (never below zero), unless a
      sharp turn cancels it outright. */
  lemma CoastingBrakesAtStopRate(cfg: Config, geo: Geometry, s: ControllerState, f: Frame)
    requires cfg.Valid() && f.deltaTime >= 0.0
    requires s.inputDirection.z == 0.0
    requires cfg.basicMovementSpeed < s.velocity.z <= cfg.forwardVelocityHardCap
    requires geo.Angle(f.cameraForward, s.cameraForwardLastFrame) < cfg.cameraAngleSharpTurn
    ensures var vz := s.velocity.z;
            var step := cfg.stopDeceleration * f.deltaTime;
            Step(cfg, geo, s, f).next.velocity.z == if vz <= step then 0.0 else vz - step
    ensures Step(cfg, geo, s, f).next.isCameraLock
  {
    FastVelocityFollowsCurve(cfg, s.velocity, s.inputDirection, f.deltaTime);
  }

  /** No frame turns the camera by the sharp-turn angle or more, measured from
      the camera forward recorded by the tick before it (last, for the first). */
  predicate NoSharpTurns(cfg: Config, geo: Geometry, last: Vec3, frames: seq<Frame>)
    decreases |frames|
  {
    frames == [] ||
    (geo.Angle(frames[0].cameraForward, last) < cfg.cameraAngleSharpTurn &&
     NoSharpTurns(cfg, geo, frames[0].cameraForward, frames[1..]))
  }

  /** Exactly basic speed with no forward input is a fixed point: the curve term
      vanishes, braking needs a speed strictly above basic speed and direct
      assignment one strictly below it, so the speed is kept, the state is
      Decelerating and no lock is raised. */
  lemma BasicSpeedIsNotBraked(cfg: Config, geo: Geometry, s: ControllerState, f: Frame)
    requires cfg.Valid() && f.deltaTime >= 0.0
    requires 0.0 < cfg.basicMovementSpeed <= cfg.forwardVelocityHardCap
    requires s.velocity.z == cfg.basicMovementSpeed && s.inputDirection.z == 0.0
    requires geo.Angle(f.cameraForward, s.cameraForwardLastFrame) < cfg.cameraAngleSharpTurn
    ensures Step(cfg, geo, s, f).next.velocity.z == cfg.basicMovementSpeed
    ensures Step(cfg, geo, s, f).next.movementState == Decelerating
    ensures !Step(cfg, geo, s, f).next.isCameraLock
  {
    FastVelocityFollowsCurve(cfg, s.velocity, s.inputDirection, f.deltaTime);
  }

  /** A forward tap that leaves the body at exactly basic speed keeps it moving
      at that speed, Decelerating and unlocked, for as long as the input stays
      released and the camera makes no sharp turn. */
  lemma {:induction false} BasicSpeedPersistsWithoutInput(cfg: Config, geo: Geometry, s: ControllerState, frames: seq<Frame>)
    requires cfg.Valid() && NonNegativeTimes(frames)
    requires 0.0 < cfg.basicMovementSpeed <= cfg.forwardVelocityHardCap
    requires s.velocity.z == cfg.basicMovementSpeed && s.inputDirection.z == 0.0
    requires NoSharpTurns(cfg, geo, s.cameraForwardLastFrame, frames)
    ensures Run(cfg, geo, s, frames).velocity.z == cfg.basicMovementSpeed
    ensures |frames| > 0 ==> Run(cfg, geo, s, frames).movementState == Decelerating
                             && !Run(cfg, geo, s, frames).isCameraLock
    decreases |frames|
  {
    if frames != [] {
      assert NonNegativeTimes(frames[1..]);
      var next := Step(cfg, geo, s, frames[0]).next;
      BasicSpeedIsNotBraked(cfg, geo, s, frames[0]);
      BasicSpeedPersistsWithoutInput(cfg, geo, next, frames[1..]);
      assert Run(cfg, geo, s, frames) == Run(cfg, geo, next, frames[1..]);
    }
  }
}
