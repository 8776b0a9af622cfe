/** The MovementController component (the newer copy, under Controller/): the
    fields Update changes in place and one method per step of Update, each
    specified by the matching function of Kinematics. */
module Controller {
  import opened Mathf
  import opened Kinematics

  class MovementController {
    const cfg: Config
    const geo: Geometry

    var velocity: Vec3
    var isGrounded: bool
    var movementState: MovementState
    var inputDirection: Vec3
    var isCameraLock: bool
    /** The body's transform.forward. */
    var heading: Vec3
    var cameraForwardLastFrame: Vec3

    /** Valid tuning, and forward velocity inside the range the clamp keeps. */
    ghost predicate Valid()
      reads this
    {
      cfg.Valid() && cfg.InForwardRange(velocity.z)
    }

    /** The fields as a value of Kinematics. */
    function State(): ControllerState
      reads this
    {
      ControllerState(velocity, isGrounded, movementState, inputDirection, isCameraLock, heading, cameraForwardLastFrame)
    }

    /** A controller at rest: zero velocity and input, camera unlocked, in the
        inspector-given state and facing the body's initial direction. */
    constructor (cfg: Config, geo: Geometry, initialState: MovementState, initialHeading: Vec3)
      requires cfg.Valid()
      ensures Valid() && this.cfg == cfg && this.geo == geo
      ensures State() == ControllerState(Zero, false, initialState, Zero, false, initialHeading, Zero)
    {
      this.cfg := cfg;
      this.geo := geo;
      velocity := Zero;
      isGrounded := false;
      movementState := initialState;
      inputDirection := Zero;
      isCameraLock := false;
      heading := initialHeading;
      cameraForwardLastFrame := Zero;
    }

    /** SetInputValues: the 2D axis becomes (x, 0, y). */
    method SetInputValues(x: real, y: real)
      modifies this`inputDirection
      ensures inputDirection == Vec3(x, 0.0, y)
    {
      inputDirection := Vec3(x, 0.0, y);
    }

    /** GetForwardVelocity: the value shown by the UI, always inside the clamp range. */
    method GetForwardVelocity() returns (r: real)
      requires Valid()
      ensures r == velocity.z
      ensures -cfg.basicMovementSpeed <= r <= cfg.forwardVelocityHardCap
    {
      r := velocity.z;
    }

    method HandleMovementStates()
      modifies this`movementState
      ensures movementState == Classify(old(movementState), velocity.z, inputDirection.z, cfg.basicMovementSpeed)
    {
      if velocity.z == 0.0 {
        movementState := Standing;
      } else if velocity.z > 0.0 && velocity.z < cfg.basicMovementSpeed && inputDirection.z > 0.0 {
        movementState := BasicMove;
      } else if velocity.z >= cfg.basicMovementSpeed && inputDirection.z > 0.0 {
        movementState := Accelerating;
      } else if velocity.z >= cfg.basicMovementSpeed && inputDirection.z <= 0.0 {
        movementState := Decelerating;
      }
    }

    method HandleBasicMovement(dt: real)
      requires cfg.Valid()
      modifies this`velocity
      ensures velocity == BasicMovement(cfg, old(velocity), inputDirection, dt)
    {
      velocity := velocity.(x := inputDirection.x * cfg.basicMovementSpeed);
      velocity := velocity.(z := InputDirectionZ(cfg, velocity.z, inputDirection.z, dt));
      ForwardVelocityClamp();
    }

    method HandleDeceleration(dt: real)
      requires cfg.Valid() && dt >= 0.0
      modifies this`velocity, this`isCameraLock
      ensures velocity == old(velocity).(z := Decelerate(cfg, old(velocity.z), inputDirection.z, dt).forward)
      ensures isCameraLock == (old(isCameraLock) || Decelerate(cfg, old(velocity.z), inputDirection.z, dt).locksCamera)
    {
      if velocity.z > cfg.basicMovementSpeed {
        var rate := ForwardDeceleration();
        velocity := velocity.(z := MoveTowards(velocity.z, 0.0, rate * dt));
      }
    }

    /** Returns the braking rate and, as a side effect, raises the camera lock
        unless forward input is held. */
    method ForwardDeceleration() returns (rate: real)
      modifies this`isCameraLock
      ensures rate == ForwardBraking(cfg, inputDirection.z).rate
      ensures isCameraLock == (old(isCameraLock) || ForwardBraking(cfg, inputDirection.z).locksCamera)
    {
      if inputDirection.z > 0.0 {
        rate := 0.0;
      } else if inputDirection.z < 0.0 {
        isCameraLock := true;
        rate := cfg.stopDeceleration;
      } else {
        isCameraLock := true;
        rate := cfg.stopDeceleration;
      }
    }

    method ForwardVelocityClamp()
      modifies this`velocity
      ensures velocity == old(velocity).(z := Clamp(old(velocity.z), -cfg.basicMovementSpeed, cfg.forwardVelocityHardCap))
      ensures cfg.Valid() ==> cfg.InForwardRange(velocity.z)
    {
      velocity := velocity.(z := Clamp(velocity.z, -cfg.basicMovementSpeed, cfg.forwardVelocityHardCap));
    }

    /** Ground check: the mover's grounded flag for this frame. */
    method GroundCheck(grounded: bool)
      modifies this`isGrounded
      ensures isGrounded == grounded
    {
      isGrounded := grounded;
    }

    method HandleRotation(cameraForward: Vec3)
      modifies this`heading
      ensures heading == SnapRotation(old(heading), cameraForward, inputDirection, isCameraLock)
      ensures isCameraLock ==> heading == old(heading)
    {
      if isCameraLock {
        return;
      }
      if inputDirection != Zero {
        heading := cameraForward;
      }
    }

    method HandleStandingRotation(cameraForward: Vec3, dt: real)
      modifies this`heading
      ensures heading == StandingRotation(cfg, geo, old(heading), cameraForward, dt, isCameraLock)
      ensures isCameraLock ==> heading == old(heading)
      ensures !isCameraLock && geo.Angle(cameraForward, old(heading)) < cfg.cameraAngleStandingRotation ==>
                heading == old(heading)
      ensures !isCameraLock && geo.Angle(cameraForward, old(heading)) >= cfg.cameraAngleStandingRotation ==>
                heading == geo.MoveTowards(old(heading), cameraForward, cfg.StandingRotationStep(dt))
    {
      if isCameraLock {
        return;
      }
      var angle := geo.Angle(cameraForward, heading);
      if angle >= cfg.cameraAngleStandingRotation {
        heading := geo.MoveTowards(heading, cameraForward, cfg.StandingRotationStep(dt));
      }
    }

    method HandleSharpTurn(cameraForward: Vec3)
      modifies this`velocity
      ensures velocity == old(velocity).(z := SharpTurn(cfg, old(velocity.z), geo.Angle(cameraForward, cameraForwardLastFrame)))
    {
      var angle := geo.Angle(cameraForward, cameraForwardLastFrame);
      if angle >= cfg.cameraAngleSharpTurn {
        velocity := velocity.(z := 0.0);
      }
    }

    /** One frame: the fields move as Step says, the displacement handed to the
        mover is that of Step's request, and the clamp range is kept. */
    method Update(f: Frame) returns (move: Vec3)
      requires Valid() && f.deltaTime >= 0.0
      modifies this
      ensures Valid()
      ensures State() == Step(cfg, geo, old(State()), f).next
      ensures move == Step(cfg, geo, old(State()), f).move.Displacement()
    {
      ghost var s := State();
      ghost var t := Step(cfg, geo, s, f);
      GroundCheck(f.grounded);

      HandleRotation(f.cameraForward);
      HandleStandingRotation(f.cameraForward, f.deltaTime);
      assert heading == t.next.heading;

      isCameraLock := false;

      if !isGrounded {
        velocity := velocity.(y := velocity.y + cfg.gravity);
      } else {
        velocity := velocity.(y := 0.0);
      }

      HandleBasicMovement(f.deltaTime);
      HandleDeceleration(f.deltaTime);
      HandleSharpTurn(f.cameraForward);
      assert velocity == t.next.velocity && isCameraLock == t.next.isCameraLock;

      var finalVector: Vec3;
      if movementState == Decelerating {
        finalVector := Add(Add(Scale(velocity.x, f.bodyRight), Scale(velocity.z, heading)), Vec3(0.0, velocity.y, 0.0));
      } else {
        finalVector := Add(Add(Scale(velocity.x, f.cameraRight), Scale(velocity.z, f.cameraForward)), Vec3(0.0, velocity.y, 0.0));
      }
      move := Scale(f.deltaTime, finalVector);
      assert move == t.move.Displacement();

      cameraForwardLastFrame := f.cameraForward;
      HandleMovementStates();
    }
  }
}
