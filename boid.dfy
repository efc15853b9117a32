/**
 * A boid (Boid.cs): its per-tick steering loop over the neighbour list, the
 * containment step that may teleport it, the combination of the two into the
 * movement, and the fixed-step gate that decides whether to move.
 *
 * The boid moves through the rigid-body Move of its base class, which is not
 * part of this model: FixedUpdate returns the Move call it makes instead.
 */
module Flock {
  import opened Vectors
  import opened Wrappers
  import opened Containment
  import opened Steering
  import Attributes

  /** The arguments of the rigid-body Move call. */
  datatype MoveCall = MoveCall(movement: Vec3, t: real, useSimpleMove: bool)

  /** Whether the fixed step moves: always when the threshold is 0, else when the values changed by more than it. */
  predicate GateOpen(refMovementValues: Vec3, movementValues: Vec3, minMovementChange: real, env: Engine) {
    env.distance(refMovementValues, movementValues) > minMovementChange || minMovementChange == 0.0
  }

  /** The movement handed to Move: the vertical component dropped when `clampVertically`. */
  function GatedMovement(movementValues: Vec3, clampVertically: bool): (r: Vec3)
    ensures clampVertically ==> r.y == 0.0
    ensures r.x == movementValues.x && r.z == movementValues.z
    ensures !clampVertically ==> r == movementValues
  {
    if clampVertically then movementValues.(y := 0.0) else movementValues
  }

  /**
   * Once the gate has let a value through, the reference equals it; with a
   * positive threshold the same value does not open the gate again.
   */
  lemma GateSettles(movementValues: Vec3, minMovementChange: real, env: Engine)
    requires DistanceToSelfIsZero(env)
    requires minMovementChange > 0.0
    ensures !GateOpen(movementValues, movementValues, minMovementChange, env)
  {
    assert env.distance(movementValues, movementValues) == 0.0;
  }

  /** With a zero threshold the gate is always open. */
  lemma ZeroThresholdAlwaysMoves(refMovementValues: Vec3, movementValues: Vec3, env: Engine)
    ensures GateOpen(refMovementValues, movementValues, 0.0, env)
  {
  }

  /**
   * A boid inside its box whose neighbour query found no other boid, with the
   * bounds flags off: the steering plus the bounds force (the movement that
   * GetMovements computes when `isAlwaysMoving` is off) is zero, and the
   * containment step keeps the position.
   */
  lemma LoneBoidInsideBoxRests(ns: seq<Neighbor>, pos: Vec3, b: Bounds, sc: SteeringConfig,
                               cc: ContainmentConfig, useTotalNeighbors: bool, env: Engine)
    requires forall i :: 0 <= i < |ns| ==> !IsOther(ns[i])
    requires !sc.addBoundsCenterToCohesion && !sc.addBoundsExtermesToCohesion
    requires InBox(pos, b)
    ensures Add(SteeringForce(ns, pos, sc, b, useTotalNeighbors, env), BoundsForce(pos, b, cc, env).force) == Zero
    ensures BoundsForce(pos, b, cc, env).position == pos
  {
    TotalCountsOthers(ns, pos, sc, env);
    assert (set i | 0 <= i < |ns| && IsOther(ns[i])) == {};
    AloneIsStill(ns, pos, sc, b, useTotalNeighbors, env);
    InsideIsInert(pos, b, cc, env);
  }

  class Boid {
    const attributes: Attributes.AttributeController
    var position: Vec3
    var rotation: Quat
    var movementValues: Vec3
    var refMovementValues: Vec3
    var currentSpeed: real
    var isAlwaysMoving: bool
    var bounds: Bounds
    var steeringConfig: SteeringConfig
    var containmentConfig: ContainmentConfig
    var minMovementChange: real
    var useMovementAsAddForce: bool
    var useTotalNeighborCount: bool
    var clampVertically: bool

    /** A boid with the serialized defaults. */
    constructor (attributes: Attributes.AttributeController, position: Vec3, rotation: Quat, bounds: Bounds)
      ensures this.attributes == attributes && this.position == position && this.rotation == rotation
      ensures this.bounds == bounds
      ensures movementValues == Zero && refMovementValues == Zero && currentSpeed == 0.0 && !isAlwaysMoving
      ensures steeringConfig == DefaultSteering && containmentConfig == DefaultContainment
      ensures minMovementChange == 0.0 && useMovementAsAddForce && !useTotalNeighborCount && clampVertically
    {
      this.attributes := attributes;
      this.position := position;
      this.rotation := rotation;
      this.bounds := bounds;
      movementValues := Zero;
      refMovementValues := Zero;
      currentSpeed := 0.0;
      isAlwaysMoving := false;
      steeringConfig := DefaultSteering;
      containmentConfig := DefaultContainment;
      minMovementChange := 0.0;
      useMovementAsAddForce := true;
      useTotalNeighborCount := false;
      clampVertically := true;
    }

    /**
     * Start: the initial movement is (2u, 0, 2v) for the two draws `u` and `v`
     * of the random generator, and a boid whose bounds have zero extents gets
     * the box of size (5, 0.1, 5) at the origin.
     */
    method Start(u: real, v: real)
      modifies this`movementValues, this`bounds
      ensures movementValues == Vec3(2.0 * u, 0.0, 2.0 * v)
      ensures bounds == if old(bounds).extents == Zero then Bounds(Zero, Vec3(2.5, 0.05, 2.5)) else old(bounds)
    {
      movementValues := Vec3(u * 2.0, 0.0, v * 2.0);
      if bounds.extents == Zero {
        bounds := Bounds(Zero, Scale(Vec3(5.0, 0.1, 5.0), 0.5));
      }
    }

    /** The containment step: returns the bounds force and teleports the boid when BoundsForce says so. */
    method CalculateBoundsForce(env: Engine) returns (boundsForce: Vec3)
      modifies this`position
      ensures boundsForce == BoundsForce(old(position), bounds, containmentConfig, env).force
      ensures position == BoundsForce(old(position), bounds, containmentConfig, env).position
    {
      boundsForce := Zero;
      var cfg := containmentConfig;
      if cfg.constrainedAreaWeight != 0.0 {
        var clampedPosition := Vec3(
          Clamp(position.x, bounds.center.x - bounds.extents.x, bounds.center.x + bounds.extents.x),
          Clamp(position.y, bounds.center.y - bounds.extents.y, bounds.center.y + bounds.extents.y),
          Clamp(position.z, bounds.center.z - bounds.extents.z, bounds.center.z + bounds.extents.z));
        if clampedPosition != position {
          boundsForce := env.normalized(Sub(clampedPosition, position));
          if cfg.boundsForceModOnBoundsExit {
            if !env.contains(bounds, position) {
              if !cfg.teleportWhenOutOfBounds {
                boundsForce := Scale(boundsForce, cfg.constrainedAreaWeight);
              } else {
                var size := Size(bounds);
                var newPos := position;
                if position.x < bounds.center.x - size.x {
                  newPos := newPos.(x := bounds.center.x + size.x);
                } else if position.x > bounds.center.x + size.x {
                  newPos := newPos.(x := bounds.center.x - size.x);
                }
                if position.y < bounds.center.y - size.y {
                  newPos := newPos.(y := bounds.center.y + size.y);
                } else if position.y > bounds.center.y + size.y {
                  newPos := newPos.(y := bounds.center.y - size.y);
                }
                if position.z < bounds.center.z - size.z {
                  newPos := newPos.(z := bounds.center.z + size.z);
                } else if position.z > bounds.center.z + size.z {
                  newPos := newPos.(z := bounds.center.z - size.z);
                }
                position := newPos;
              }
            }
          } else {
            boundsForce := Scale(boundsForce, cfg.constrainedAreaWeight);
          }
        }
      }
    }

    /**
     * The steering loop over the query results, then the bounds as synthetic
     * cohesion neighbours, then the averaging: equal to SteeringForce of the
     * neighbour list at the boid's current position.
     */
    method GetBoidSteering(neighbors: seq<Neighbor>, useTotalNeighbors: bool, env: Engine) returns (steering: Vec3)
      ensures steering == SteeringForce(neighbors, position, steeringConfig, bounds, useTotalNeighbors, env)
    {
      var cfg := steeringConfig;
      var alignment, cohesion, separation := Zero, Zero, Zero;
      var averageVelocity, centerOfMass := Zero, Zero;
      var totalNeighbors, separationNeighborCount, alignmentNeighborCount, cohesionNeighborCount := 0, 0, 0, 0;

      var i := 0;
      while i < |neighbors|
        invariant 0 <= i <= |neighbors|
        invariant Tally(averageVelocity, centerOfMass, separation, totalNeighbors, separationNeighborCount,
                        alignmentNeighborCount, cohesionNeighborCount)
               == Gather(neighbors[..i], position, cfg, env)
      {
        var neighbor := neighbors[i];
        if !neighbor.isNull && !neighbor.isSelf {
          totalNeighbors := totalNeighbors + 1;
          var distance := env.distance(position, neighbor.position);
          if distance < cfg.alightmentDistance {
            averageVelocity := Add(averageVelocity, neighbor.velocity);
            alignmentNeighborCount := alignmentNeighborCount + 1;
          }
          if distance < cfg.separationDistance {
            var separationFactor := Clamp01(1.0 - distance / cfg.separationDistance);
            separation := Add(separation,
              Scale(Scale(env.directionTo(position, neighbor.position), separationFactor), cfg.seperationWeight));
            separationNeighborCount := separationNeighborCount + 1;
          } else if distance > cfg.cohesionDistance {
            centerOfMass := Add(centerOfMass, neighbor.position);
            cohesionNeighborCount := cohesionNeighborCount + 1;
          }
        }
        assert neighbors[..i + 1][..i] == neighbors[..i];
        i := i + 1;
      }
      assert neighbors[..i] == neighbors;

      if cfg.addBoundsCenterToCohesion {
        centerOfMass := Add(centerOfMass, bounds.center);
        cohesionNeighborCount := cohesionNeighborCount + 1;
      }
      if cfg.addBoundsExtermesToCohesion {
        centerOfMass := Add(centerOfMass, Add(Max(bounds), Min(bounds)));
        cohesionNeighborCount := cohesionNeighborCount + 2;
      }

      if useTotalNeighbors {
        if totalNeighbors > 0 {
          averageVelocity := Div(averageVelocity, totalNeighbors as real);
          alignment := Scale(env.normalized(averageVelocity), cfg.alignmentWeight);
          centerOfMass := Div(centerOfMass, totalNeighbors as real);
          cohesion := Scale(env.normalized(Sub(centerOfMass, position)), cfg.cohesionWeight);
          separation := Div(separation, totalNeighbors as real);
        }
      } else {
        if alignmentNeighborCount > 0 {
          averageVelocity := Div(averageVelocity, alignmentNeighborCount as real);
          alignment := Scale(env.normalized(averageVelocity), cfg.alignmentWeight);
        }
        if cohesionNeighborCount > 0 {
          centerOfMass := Div(centerOfMass, cohesionNeighborCount as real);
          cohesion := Scale(env.normalized(Sub(centerOfMass, position)), cfg.cohesionWeight);
        }
        if separationNeighborCount > 0 {
          separation := Div(separation, separationNeighborCount as real);
        }
      }

      steering := Add(Add(alignment, cohesion), separation);
    }

    /**
     * The per-frame movement: the speed is read from the attributes, the
     * steering (at the position before containment) and the bounds force are
     * added, and an always-moving boid adds forward * speed and normalises.
     */
    method GetMovements(neighbors: seq<Neighbor>, env: Engine)
      modifies this`currentSpeed, this`movementValues, this`position
      ensures currentSpeed == attributes.GetSpeed()
      ensures var steer := SteeringForce(neighbors, old(position), steeringConfig, bounds, useTotalNeighborCount, env);
        var contained := BoundsForce(old(position), bounds, containmentConfig, env);
        var combined := Add(steer, contained.force);
        && position == contained.position
        && movementValues == (if isAlwaysMoving then env.normalized(Add(combined, Scale(env.rotate(rotation, Forward), currentSpeed)))
                              else combined)
    {
      currentSpeed := attributes.GetSpeed();
      var steer := GetBoidSteering(neighbors, useTotalNeighborCount, env);
      var boundsForce := CalculateBoundsForce(env);
      movementValues := Add(steer, boundsForce);
      if isAlwaysMoving {
        movementValues := Add(movementValues, Scale(env.rotate(rotation, Forward), currentSpeed));
        movementValues := env.normalized(movementValues);
      }
    }

    /**
     * The fixed step: when the gate is open, drop the vertical component if
     * asked, make the Move call (returned) and remember the value moved by;
     * otherwise nothing changes and no call is made.
     */
    method FixedUpdate(fixedDeltaTime: real, env: Engine) returns (moved: Option<MoveCall>)
      modifies this`movementValues, this`refMovementValues
      ensures GateOpen(old(refMovementValues), old(movementValues), minMovementChange, env) ==>
        && movementValues == GatedMovement(old(movementValues), clampVertically)
        && refMovementValues == movementValues
        && moved == Some(MoveCall(movementValues, fixedDeltaTime, useMovementAsAddForce))
      ensures !GateOpen(old(refMovementValues), old(movementValues), minMovementChange, env) ==>
        && movementValues == old(movementValues)
        && refMovementValues == old(refMovementValues)
        && moved == None
    {
      moved := None;
      if env.distance(refMovementValues, movementValues) > minMovementChange || minMovementChange == 0.0 {
        if clampVertically {
          movementValues := movementValues.(y := 0.0);
        }
        moved := Some(MoveCall(movementValues, fixedDeltaTime, useMovementAsAddForce));
        refMovementValues := movementValues;
      }
    }
  }
}
