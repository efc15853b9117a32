/**
 * The kinematic locomotion and orientation of a moving object
 * (MovementController.cs): translation by the requested movement, the goal of
 * the velocity smoothing, the flying shortcut of the ground checks, and the
 * rotation toward a heading or a point.
 *
 * The transform is the object's `position` and `rotation`; Translate works in
 * the object's own axes, so a translation vector is turned by the rotation
 * before it is added. Smoothing, trigonometry and quaternions come from the
 * uninterpreted `Engine`.
 */
module Movement {
  import opened Vectors
  import opened Wrappers
  import Attributes

  /** The translation, in the object's own axes, that the kinematic Move hands to Translate. */
  function KinematicTranslation(movement: Vec3, t: real, speed: real, mass: real, useSimpleMove: bool): Vec3 {
    if !useSimpleMove then Scale(Scale(Scale(movement, t), speed), mass)
    else Scale(Scale(movement, t), speed)
  }

  /** The kinematic translation is movement * t * speed, times the mass unless the simple move is asked for. */
  lemma KinematicTranslationClosedForm(movement: Vec3, t: real, speed: real, mass: real, useSimpleMove: bool)
    ensures KinematicTranslation(movement, t, speed, mass, useSimpleMove)
         == Scale(movement, t * speed * (if useSimpleMove then 1.0 else mass))
  {
    var k := t * speed;
    assert Scale(Scale(movement, t), speed) == Scale(movement, k);
    if !useSimpleMove {
      assert Scale(Scale(movement, k), mass) == Scale(movement, k * mass);
    }
  }

  /** The mass only scales the full move, and the simple move does not depend on it. */
  lemma MassScalesOnlyTheFullMove(movement: Vec3, t: real, speed: real, mass: real, otherMass: real)
    ensures KinematicTranslation(movement, t, speed, mass, false)
         == Scale(KinematicTranslation(movement, t, speed, otherMass, true), mass)
    ensures KinematicTranslation(movement, t, speed, mass, true)
         == KinematicTranslation(movement, t, speed, otherMass, true)
  {
  }

  /** Transform.Translate in the object's own axes. */
  function Translated(position: Vec3, rotation: Quat, v: Vec3, env: Engine): Vec3 {
    Add(position, env.rotate(rotation, v))
  }

  /** No movement, no displacement: a zero input leaves the position as it was, whatever the step, speed or mass. */
  lemma ZeroMovementStaysPut(p: Vec3, q: Quat, t: real, speed: real, mass: real, useSimpleMove: bool, env: Engine)
    requires RotationFixesOrigin(env)
    ensures Translated(p, q, KinematicTranslation(Zero, t, speed, mass, useSimpleMove), env) == p
  {
    assert KinematicTranslation(Zero, t, speed, mass, useSimpleMove) == Zero;
  }

  /** What the velocity is smoothed toward, and how fast. */
  datatype DampGoal = DampGoal(target: Vec3, smoothTime: real)

  /**
   * A non-zero movement is smoothed toward movement * speed with the movement
   * smoothing, a zero one toward rest with the deceleration smoothing.
   */
  function VelocityGoal(movement: Vec3, speed: real, movementSmoothing: real, decelerationSmoothing: real): (g: DampGoal)
    ensures g.target == Zero <==> movement == Zero || speed == 0.0
    ensures g.smoothTime == (if movement == Zero then decelerationSmoothing else movementSmoothing)
  {
    if movement != Zero then DampGoal(Scale(movement, speed), movementSmoothing)
    else DampGoal(Zero, decelerationSmoothing)
  }

  /** The yaw a heading input asks for, in degrees, plus the yaw of the reference frame when there is one. */
  function TargetYaw(xAxis: real, zAxis: real, referenceYaw: Option<real>, env: Engine): real {
    var targetAngle := env.atan2(xAxis, zAxis) * Rad2Deg;
    if referenceYaw.Some? then targetAngle + referenceYaw.value else targetAngle
  }

  /**
   * The smoothed yaw of GetMovementDirection. The rate of change always starts
   * from 0, so the result does not depend on any rate left by an earlier call.
   */
  function Heading(currentYaw: real, xAxis: real, zAxis: real, referenceYaw: Option<real>, smoothing: real, env: Engine): Damped<real> {
    env.smoothDampAngle(currentYaw, TargetYaw(xAxis, zAxis, referenceYaw, env), 0.0, smoothing, env.frameDelta)
  }

  /** Euler angles for the new rotation and the shared rate of change afterwards. */
  datatype Attitude = Attitude(pitch: real, yaw: real, roll: real, rate: real)

  /**
   * The angles of the tilting RotateTowards. Yaw is always smoothed; pitch
   * only with `rotateOnX`, roll only with `rotateOnZ`, and all three share one
   * rate of change, threaded from yaw to pitch to roll. With `clampZ` the roll
   * is clamped afterwards, so a disabled roll becomes the clamp of 0.
   */
  function TiltedAngles(euler: Vec3, dirTo: Vec3, rate: real, smoothing: real,
                        rotateOnX: bool, rotateOnZ: bool, clampZ: bool, minZClamp: real, maxZClamp: real,
                        env: Engine): (r: Attitude)
    ensures !rotateOnX ==> r.pitch == 0.0
    ensures !rotateOnZ ==> r.roll == (if clampZ then Clamp(0.0, minZClamp, maxZClamp) else 0.0)
    ensures clampZ && minZClamp <= maxZClamp ==> minZClamp <= r.roll <= maxZClamp
  {
    var targetAngle := env.atan2(dirTo.x, dirTo.z) * Rad2Deg;
    var targetYAngle := euler.x + dirTo.y;
    var targetZAngle := euler.z + dirTo.x;
    var yaw := env.smoothDampAngle(euler.y, targetAngle, rate, smoothing, env.frameDelta);
    var pitch :=
      if rotateOnX then env.smoothDampAngle(euler.x, targetYAngle, yaw.velocity, smoothing, env.frameDelta)
      else Damped(0.0, yaw.velocity);
    var roll :=
      if rotateOnZ then env.smoothDampAngle(euler.z, targetZAngle, pitch.velocity, smoothing, env.frameDelta)
      else Damped(0.0, pitch.velocity);
    Attitude(pitch.value, yaw.value, if clampZ then Clamp(roll.value, minZClamp, maxZClamp) else roll.value, roll.velocity)
  }

  /** The smoothed yaw of the yaw-only RotateTowards overloads. */
  function YawTowards(currentYaw: real, dirTo: Vec3, rate: real, smoothing: real, env: Engine): Damped<real> {
    env.smoothDampAngle(currentYaw, env.atan2(dirTo.x, dirTo.z) * Rad2Deg, rate, smoothing, env.frameDelta)
  }

  /** With pitch, roll and clamping all off, the tilting overload turns exactly as the yaw-only one. */
  lemma AxesOffIsYawOnly(euler: Vec3, dirTo: Vec3, rate: real, smoothing: real, minZClamp: real, maxZClamp: real, env: Engine)
    ensures var y := YawTowards(euler.y, dirTo, rate, smoothing, env);
      TiltedAngles(euler, dirTo, rate, smoothing, false, false, false, minZClamp, maxZClamp, env)
        == Attitude(0.0, y.value, 0.0, y.velocity)
  {
  }

  /** Pitch smoothing starts from the rate the yaw smoothing left behind: the axes are coupled. */
  lemma PitchInheritsYawRate(euler: Vec3, dirTo: Vec3, rate: real, smoothing: real,
                             rotateOnZ: bool, clampZ: bool, minZClamp: real, maxZClamp: real, env: Engine)
    ensures var y := YawTowards(euler.y, dirTo, rate, smoothing, env);
      TiltedAngles(euler, dirTo, rate, smoothing, true, rotateOnZ, clampZ, minZClamp, maxZClamp, env).pitch
        == env.smoothDampAngle(euler.x, euler.x + dirTo.y, y.velocity, smoothing, env.frameDelta).value
  {
  }

  class MovementController {
    const attributes: Attributes.AttributeController
    var currentSpeed: real
    var movementSmoothing: real
    var decelerationSmoothing: real
    var rotationSmoothing: real
    var isFlyingObject: bool
    var position: Vec3
    var rotation: Quat
    var refVelocity: real
    var v3RefVelocity: Vec3

    /** A controller with the serialized defaults, bound to its attribute controller (Initialize). */
    constructor (attributes: Attributes.AttributeController, position: Vec3, rotation: Quat)
      ensures this.attributes == attributes && this.position == position && this.rotation == rotation
      ensures currentSpeed == 0.0 && movementSmoothing == 1.0 && decelerationSmoothing == 1.0
      ensures rotationSmoothing == 1.0 && !isFlyingObject
      ensures refVelocity == 0.0 && v3RefVelocity == Zero
    {
      this.attributes := attributes;
      this.position := position;
      this.rotation := rotation;
      currentSpeed := 0.0;
      movementSmoothing := 1.0;
      decelerationSmoothing := 1.0;
      rotationSmoothing := 1.0;
      isFlyingObject := false;
      refVelocity := 0.0;
      v3RefVelocity := Zero;
    }

    /**
     * The smoothed velocity toward the goal VelocityGoal picks. The current
     * value handed to the smoothing is the stored rate itself, which the
     * smoothing then overwrites. The step argument `t` is not used.
     */
    method GetVelocity(movement: Vec3, t: real, env: Engine) returns (velocity: Vec3)
      modifies this`v3RefVelocity
      ensures var g := VelocityGoal(movement, currentSpeed, movementSmoothing, decelerationSmoothing);
        var d := env.smoothDamp(old(v3RefVelocity), g.target, old(v3RefVelocity), g.smoothTime, env.frameDelta);
        velocity == d.value && v3RefVelocity == d.velocity
    {
      var goal := VelocityGoal(movement, currentSpeed, movementSmoothing, decelerationSmoothing);
      var damped := env.smoothDamp(v3RefVelocity, goal.target, v3RefVelocity, goal.smoothTime, env.frameDelta);
      v3RefVelocity := damped.velocity;
      velocity := damped.value;
    }

    /** The point the object looks at: the position smoothed toward position + stored rate. */
    method LookAtMovementPosition(env: Engine) returns (lookAt: Vec3)
      modifies this`v3RefVelocity
      ensures var d := env.smoothDamp(position, Add(position, old(v3RefVelocity)), old(v3RefVelocity),
                                      rotationSmoothing, env.frameDelta);
        lookAt == d.value && v3RefVelocity == d.velocity
    {
      var damped := env.smoothDamp(position, Add(position, v3RefVelocity), v3RefVelocity, rotationSmoothing, env.frameDelta);
      v3RefVelocity := damped.velocity;
      lookAt := damped.value;
    }

    /** The kinematic Move: translate by movement * t * speed, times the mass unless `useSimpleMove`. */
    method Move(movement: Vec3, t: real, useSimpleMove: bool, env: Engine)
      modifies this`position
      ensures position == Translated(old(position), rotation,
                                     KinematicTranslation(movement, t, currentSpeed, attributes.GetMass(), useSimpleMove), env)
    {
      if !useSimpleMove {
        position := Translated(position, rotation, Scale(Scale(Scale(movement, t), currentSpeed), attributes.GetMass()), env);
      } else {
        position := Translated(position, rotation, Scale(Scale(movement, t), currentSpeed), env);
      }
    }

    /**
     * The three GetMovementDirection overloads: the reference yaw is the
     * camera's or the target transform's, or absent. The shared rate is reset
     * to 0 before the yaw is smoothed, and left at the rate the smoothing returns.
     */
    method GetMovementDirection(xAxis: real, zAxis: real, localForward: Vec3, referenceYaw: Option<real>, env: Engine)
      returns (movementDirection: Vec3, newRotation: Quat)
      modifies this`refVelocity
      ensures var h := Heading(env.eulerAngles(rotation).y, xAxis, zAxis, referenceYaw, rotationSmoothing, env);
        && refVelocity == h.velocity
        && newRotation == env.euler(0.0, h.value, 0.0)
        && movementDirection == env.rotate(newRotation, localForward)
    {
      var targetAngle := env.atan2(xAxis, zAxis);
      targetAngle := targetAngle * Rad2Deg;
      if referenceYaw.Some? {
        targetAngle := targetAngle + referenceYaw.value;
      }
      refVelocity := 0.0;
      var damped := env.smoothDampAngle(env.eulerAngles(rotation).y, targetAngle, refVelocity, rotationSmoothing, env.frameDelta);
      refVelocity := damped.velocity;
      movementDirection := env.rotate(env.euler(0.0, damped.value, 0.0), localForward);
      newRotation := env.euler(0.0, damped.value, 0.0);
    }

    /**
     * The heading Move: translate along the smoothed heading by
     * direction * t * currentSpeed and return the heading rotation without
     * applying it. `useSimpleMove` is not used.
     */
    method MoveAlongHeading(movement: Vec3, localForward: Vec3, t: real, useSimpleMove: bool,
                            referenceYaw: Option<real>, env: Engine)
      returns (movementRotation: Quat)
      modifies this`position, this`refVelocity
      ensures var h := Heading(env.eulerAngles(rotation).y, movement.x, movement.z, referenceYaw, rotationSmoothing, env);
        && movementRotation == env.euler(0.0, h.value, 0.0)
        && refVelocity == h.velocity
        && position == Translated(old(position), rotation,
                                  Scale(Scale(env.rotate(movementRotation, localForward), t), currentSpeed), env)
    {
      var movementDirection;
      movementDirection, movementRotation := GetMovementDirection(movement.x, movement.z, localForward, referenceYaw, env);
      position := Translated(position, rotation, Scale(Scale(movementDirection, t), currentSpeed), env);
    }

    /** The heading Move at an explicit speed: the argument, not currentSpeed, scales the translation. */
    method MoveAlongHeadingAtSpeed(movement: Vec3, localForward: Vec3, t: real, useSimpleMove: bool, speed: real,
                                   referenceYaw: Option<real>, env: Engine)
      returns (movementRotation: Quat)
      modifies this`position, this`refVelocity
      ensures var h := Heading(env.eulerAngles(rotation).y, movement.x, movement.z, referenceYaw, rotationSmoothing, env);
        && movementRotation == env.euler(0.0, h.value, 0.0)
        && refVelocity == h.velocity
        && position == Translated(old(position), rotation,
                                  Scale(Scale(env.rotate(movementRotation, localForward), t), speed), env)
    {
      var movementDirection;
      movementDirection, movementRotation := GetMovementDirection(movement.x, movement.z, localForward, referenceYaw, env);
      position := Translated(position, rotation, Scale(Scale(movementDirection, t), speed), env);
    }

    /** The sphere ground check; `sphereHit` is what the physics sphere test reports. A flying object is always grounded. */
    function GroundCheckSphere(sphereHit: bool): (grounded: bool)
      reads this
      ensures isFlyingObject ==> grounded
      ensures !isFlyingObject ==> grounded == sphereHit
    {
      if !isFlyingObject then sphereHit else true
    }

    /** The ray ground check; `rayHit` is what the downward physics ray reports. A flying object is always grounded. */
    function GroundCheckRay(rayHit: bool): (grounded: bool)
      reads this
      ensures isFlyingObject ==> grounded
      ensures !isFlyingObject ==> grounded == rayHit
    {
      if !isFlyingObject then rayHit else true
    }

    /** The tilting RotateTowards: sets the rotation from TiltedAngles and keeps the shared rate it leaves. */
    method RotateTowards(positionToFace: Vec3, rotateOnX: bool, rotateOnZ: bool, clampZ: bool,
                         minZClamp: real, maxZClamp: real, env: Engine)
      modifies this`rotation, this`refVelocity
      ensures var a := TiltedAngles(env.eulerAngles(old(rotation)), env.directionFrom(positionToFace, position),
                                    old(refVelocity), rotationSmoothing, rotateOnX, rotateOnZ, clampZ,
                                    minZClamp, maxZClamp, env);
        rotation == env.euler(a.pitch, a.yaw, a.roll) && refVelocity == a.rate
    {
      var dirTo := env.directionFrom(positionToFace, position);
      var euler := env.eulerAngles(rotation);
      var targetAngle := env.atan2(dirTo.x, dirTo.z);
      targetAngle := targetAngle * Rad2Deg;
      var targetYAngle := euler.x + dirTo.y;
      var targetZAngle := euler.z + dirTo.x;
      var damped := env.smoothDampAngle(euler.y, targetAngle, refVelocity, rotationSmoothing, env.frameDelta);
      refVelocity := damped.velocity;
      var angleY := damped.value;
      var angleX := 0.0;
      if rotateOnX {
        damped := env.smoothDampAngle(euler.x, targetYAngle, refVelocity, rotationSmoothing, env.frameDelta);
        refVelocity := damped.velocity;
        angleX := damped.value;
      }
      var angleZ := 0.0;
      if rotateOnZ {
        damped := env.smoothDampAngle(euler.z, targetZAngle, refVelocity, rotationSmoothing, env.frameDelta);
        refVelocity := damped.velocity;
        angleZ := damped.value;
      }
      if clampZ {
        angleZ := Clamp(angleZ, minZClamp, maxZClamp);
      }
      rotation := env.euler(angleX, angleY, angleZ);
    }

    /**
     * The yaw-only rotation the non-tilting RotateTowards overloads compute,
     * with the given smoothing (the overloads without one pass rotationSmoothing).
     */
    method FacingRotation(positionToFace: Vec3, smoothingSpeed: real, env: Engine) returns (newRotation: Quat)
      modifies this`refVelocity
      ensures var y := YawTowards(env.eulerAngles(rotation).y, env.directionFrom(positionToFace, position),
                                  old(refVelocity), smoothingSpeed, env);
        newRotation == env.euler(0.0, y.value, 0.0) && refVelocity == y.velocity
    {
      var dirTo := env.directionFrom(positionToFace, position);
      var targetAngle := env.atan2(dirTo.x, dirTo.z);
      targetAngle := targetAngle * Rad2Deg;
      var damped := env.smoothDampAngle(env.eulerAngles(rotation).y, targetAngle, refVelocity, smoothingSpeed, env.frameDelta);
      refVelocity := damped.velocity;
      newRotation := env.euler(0.0, damped.value, 0.0);
    }

    /** The yaw-only RotateTowards overloads that apply the rotation they compute. */
    method RotateTowardsYaw(positionToFace: Vec3, smoothingSpeed: real, env: Engine)
      modifies this`rotation, this`refVelocity
      ensures var y := YawTowards(env.eulerAngles(old(rotation)).y, env.directionFrom(positionToFace, position),
                                  old(refVelocity), smoothingSpeed, env);
        rotation == env.euler(0.0, y.value, 0.0) && refVelocity == y.velocity
    {
      rotation := FacingRotation(positionToFace, smoothingSpeed, env);
    }
  }
}
