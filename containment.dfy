/**
 * The boundary-containment policy of a boid (Boid.cs, CalculateBoundsForce):
 * the force that pulls a boid back into its bounds, or the position it is
 * teleported to, as a function of its position, the bounds and the settings.
 * The boid class in module Flock updates its position by this function.
 */
module Containment {
  import opened Vectors

  /** The serialized containment settings of a boid. */
  datatype ContainmentConfig = ContainmentConfig(
    constrainedAreaWeight: real,
    boundsForceModOnBoundsExit: bool,
    teleportWhenOutOfBounds: bool)

  /** The default settings of a boid. */
  const DefaultContainment: ContainmentConfig := ContainmentConfig(520.0, true, true)

  /** What one containment step yields: the returned force and the boid's new position. */
  datatype BoundsOutcome = BoundsOutcome(force: Vec3, position: Vec3)

  /** The closed box [center - extents, center + extents] on every axis. */
  predicate InBox(p: Vec3, b: Bounds) {
    && Min(b).x <= p.x <= Max(b).x
    && Min(b).y <= p.y <= Max(b).y
    && Min(b).z <= p.z <= Max(b).z
  }

  /** The position clamped into the box, each axis on its own. */
  function ClampIntoBox(p: Vec3, b: Bounds): Vec3 {
    Vec3(
      Clamp(p.x, b.center.x - b.extents.x, b.center.x + b.extents.x),
      Clamp(p.y, b.center.y - b.extents.y, b.center.y + b.extents.y),
      Clamp(p.z, b.center.z - b.extents.z, b.center.z + b.extents.z))
  }

  /**
   * One axis of the teleport: the range is center -/+ size (twice the extents);
   * below it the coordinate jumps to the upper end, above it to the lower end.
   */
  function TeleportAxis(v: real, center: real, size: real): real {
    if v < center - size then center + size
    else if v > center + size then center - size
    else v
  }

  function TeleportTarget(p: Vec3, b: Bounds): Vec3 {
    Vec3(
      TeleportAxis(p.x, b.center.x, Size(b).x),
      TeleportAxis(p.y, b.center.y, Size(b).y),
      TeleportAxis(p.z, b.center.z, Size(b).z))
  }

  /** The force CalculateBoundsForce returns and the position it leaves the boid at. */
  function BoundsForce(p: Vec3, b: Bounds, cfg: ContainmentConfig, env: Engine): BoundsOutcome {
    if cfg.constrainedAreaWeight == 0.0 then BoundsOutcome(Zero, p)
    else
      var clamped := ClampIntoBox(p, b);
      if clamped == p then BoundsOutcome(Zero, p)
      else
        var direction := env.normalized(Sub(clamped, p));
        if cfg.boundsForceModOnBoundsExit then
          if !env.contains(b, p) then
            if !cfg.teleportWhenOutOfBounds then BoundsOutcome(Scale(direction, cfg.constrainedAreaWeight), p)
            else BoundsOutcome(direction, TeleportTarget(p, b))
          else BoundsOutcome(direction, p)
        else BoundsOutcome(Scale(direction, cfg.constrainedAreaWeight), p)
  }

  /** The per-axis clamp leaves a position alone exactly when it lies in the closed box. */
  lemma ClampFixesExactlyTheBox(p: Vec3, b: Bounds)
    ensures ClampIntoBox(p, b) == p <==> InBox(p, b)
  {
    var c := ClampIntoBox(p, b);
    if c == p {
      assert c.x == p.x && c.y == p.y && c.z == p.z;
    }
  }

  /** A zero weight switches the policy off: no force, and the position is kept. */
  lemma ZeroWeightIsInert(p: Vec3, b: Bounds, cfg: ContainmentConfig, env: Engine)
    requires cfg.constrainedAreaWeight == 0.0
    ensures BoundsForce(p, b, cfg, env) == BoundsOutcome(Zero, p)
  {
  }

  /** A boid in the closed box gets no force and is not moved, whatever the settings. */
  lemma InsideIsInert(p: Vec3, b: Bounds, cfg: ContainmentConfig, env: Engine)
    requires InBox(p, b)
    ensures BoundsForce(p, b, cfg, env) == BoundsOutcome(Zero, p)
  {
    ClampFixesExactlyTheBox(p, b);
  }

  /** With the on-exit branch disabled, a boid outside the box is pulled with the full weight and not moved. */
  lemma PullWhenExitBranchDisabled(p: Vec3, b: Bounds, cfg: ContainmentConfig, env: Engine)
    requires cfg.constrainedAreaWeight != 0.0 && !cfg.boundsForceModOnBoundsExit
    requires !InBox(p, b)
    ensures BoundsForce(p, b, cfg, env)
         == BoundsOutcome(Scale(env.normalized(Sub(ClampIntoBox(p, b), p)), cfg.constrainedAreaWeight), p)
  {
    ClampFixesExactlyTheBox(p, b);
  }

  /** With the on-exit branch enabled and teleporting off, a boid found outside is pulled with the full weight. */
  lemma PullOnExit(p: Vec3, b: Bounds, cfg: ContainmentConfig, env: Engine)
    requires cfg.constrainedAreaWeight != 0.0 && cfg.boundsForceModOnBoundsExit && !cfg.teleportWhenOutOfBounds
    requires !InBox(p, b) && !env.contains(b, p)
    ensures BoundsForce(p, b, cfg, env)
         == BoundsOutcome(Scale(env.normalized(Sub(ClampIntoBox(p, b), p)), cfg.constrainedAreaWeight), p)
  {
    ClampFixesExactlyTheBox(p, b);
  }

  /**
   * Teleport mode: each axis is handled on its own against the range
   * center -/+ 2*extents (the lower test is made first, so it wins when the
   * extents are negative), and the force returned is the unweighted direction.
   */
  lemma TeleportOnExit(p: Vec3, b: Bounds, cfg: ContainmentConfig, env: Engine)
    requires cfg.constrainedAreaWeight != 0.0 && cfg.boundsForceModOnBoundsExit && cfg.teleportWhenOutOfBounds
    requires !InBox(p, b) && !env.contains(b, p)
    ensures var r := BoundsForce(p, b, cfg, env);
      && r.force == env.normalized(Sub(ClampIntoBox(p, b), p))
      && (p.x < b.center.x - 2.0 * b.extents.x ==> r.position.x == b.center.x + 2.0 * b.extents.x)
      && (b.center.x - 2.0 * b.extents.x <= p.x && p.x > b.center.x + 2.0 * b.extents.x ==> r.position.x == b.center.x - 2.0 * b.extents.x)
      && (b.center.x - 2.0 * b.extents.x <= p.x <= b.center.x + 2.0 * b.extents.x ==> r.position.x == p.x)
      && (p.y < b.center.y - 2.0 * b.extents.y ==> r.position.y == b.center.y + 2.0 * b.extents.y)
      && (b.center.y - 2.0 * b.extents.y <= p.y && p.y > b.center.y + 2.0 * b.extents.y ==> r.position.y == b.center.y - 2.0 * b.extents.y)
      && (b.center.y - 2.0 * b.extents.y <= p.y <= b.center.y + 2.0 * b.extents.y ==> r.position.y == p.y)
      && (p.z < b.center.z - 2.0 * b.extents.z ==> r.position.z == b.center.z + 2.0 * b.extents.z)
      && (b.center.z - 2.0 * b.extents.z <= p.z && p.z > b.center.z + 2.0 * b.extents.z ==> r.position.z == b.center.z - 2.0 * b.extents.z)
      && (b.center.z - 2.0 * b.extents.z <= p.z <= b.center.z + 2.0 * b.extents.z ==> r.position.z == p.z)
  {
    ClampFixesExactlyTheBox(p, b);
  }

  /**
   * With the on-exit branch enabled, a boid that the clamp moves but that the
   * engine's containment test still counts as inside gets the unweighted
   * direction as its force and keeps its position.
   */
  lemma ContainedButClamped(p: Vec3, b: Bounds, cfg: ContainmentConfig, env: Engine)
    requires cfg.constrainedAreaWeight != 0.0 && cfg.boundsForceModOnBoundsExit
    requires !InBox(p, b) && env.contains(b, p)
    ensures BoundsForce(p, b, cfg, env) == BoundsOutcome(env.normalized(Sub(ClampIntoBox(p, b), p)), p)
  {
    ClampFixesExactlyTheBox(p, b);
  }

  /** Only a teleport moves the boid, and a teleport needs every one of its conditions. */
  lemma OnlyTeleportMoves(p: Vec3, b: Bounds, cfg: ContainmentConfig, env: Engine)
    ensures BoundsForce(p, b, cfg, env).position != p ==>
      && cfg.constrainedAreaWeight != 0.0 && cfg.boundsForceModOnBoundsExit && cfg.teleportWhenOutOfBounds
      && !InBox(p, b) && !env.contains(b, p)
  {
    ClampFixesExactlyTheBox(p, b);
  }

  /**
   * When the engine's containment test is the closed box, the on-exit branch
   * without teleporting behaves exactly as the always-pull branch.
   */
  lemma ExactContainmentMakesExitModeAlwaysPull(p: Vec3, b: Bounds, cfg: ContainmentConfig, env: Engine)
    requires env.contains(b, p) == InBox(p, b)
    requires !cfg.teleportWhenOutOfBounds
    ensures BoundsForce(p, b, cfg, env) == BoundsForce(p, b, cfg.(boundsForceModOnBoundsExit := false), env)
  {
    ClampFixesExactlyTheBox(p, b);
  }

  /** One axis of a teleport from outside the size range lands one extent beyond the box on the other side. */
  predicate LandsBeyondOnAxis(v: real, center: real, extent: real, landed: real) {
    && (extent > 0.0 && v < center - 2.0 * extent ==> landed - (center + extent) == extent)
    && (extent > 0.0 && v > center + 2.0 * extent ==> (center - extent) - landed == extent)
  }

  /** Whether some axis of `p` lies outside the teleport range center -/+ size on an axis of positive extent. */
  predicate BeyondTeleportRange(p: Vec3, b: Bounds) {
    || (b.extents.x > 0.0 && (p.x < b.center.x - Size(b).x || p.x > b.center.x + Size(b).x))
    || (b.extents.y > 0.0 && (p.y < b.center.y - Size(b).y || p.y > b.center.y + Size(b).y))
    || (b.extents.z > 0.0 && (p.z < b.center.z - Size(b).z || p.z > b.center.z + Size(b).z))
  }

  /**
   * Because the teleport range uses the size rather than the extents, a boid
   * teleported on an axis whose extent is positive lands outside the box
   * again: from below it lands one extent beyond the maximum, from above one
   * extent beyond the minimum, on each of the three axes.
   */
  lemma TeleportLandsOutsideBox(p: Vec3, b: Bounds, cfg: ContainmentConfig, env: Engine)
    requires cfg.constrainedAreaWeight != 0.0 && cfg.boundsForceModOnBoundsExit && cfg.teleportWhenOutOfBounds
    requires !env.contains(b, p)
    ensures var q := BoundsForce(p, b, cfg, env).position;
      && LandsBeyondOnAxis(p.x, b.center.x, b.extents.x, q.x)
      && LandsBeyondOnAxis(p.y, b.center.y, b.extents.y, q.y)
      && LandsBeyondOnAxis(p.z, b.center.z, b.extents.z, q.z)
    ensures BeyondTeleportRange(p, b) ==> !InBox(BoundsForce(p, b, cfg, env).position, b)
  {
    ClampFixesExactlyTheBox(p, b);
  }
}
