/**
 * The neighbour-steering rule of a boid (Boid.cs, GetBoidSteering) as
 * functions over the list of neighbours the physics query returned.
 *
 * `Gather` folds the neighbour list into three accumulators and four counters
 * the way the loop does, one entry at a time; `Members` and the `Sum...`
 * functions are an independent description of the same numbers (filter the
 * list by role, then sum), and `GatherIsFilteredSums` proves the two agree.
 * The boid class in module Flock computes its steering by a loop proved equal
 * to `SteeringForce`.
 */
module Steering {
  import opened Vectors

  /** The serialized steering settings of a boid (field names as in the source, spelling included). */
  datatype SteeringConfig = SteeringConfig(
    separationDistance: real,
    seperationWeight: real,
    alightmentDistance: real,
    alignmentWeight: real,
    cohesionDistance: real,
    cohesionWeight: real,
    addBoundsCenterToCohesion: bool,
    addBoundsExtermesToCohesion: bool)

  /** The default settings of a boid. */
  const DefaultSteering: SteeringConfig := SteeringConfig(2.0, -25.0, 4.0, 2.0, 1.0, 3.0, false, false)

  /**
   * One result of the neighbour query: `isNull` when the collider is missing or
   * carries no boid (neither on itself nor on a parent), `isSelf` when it is
   * this boid's own collider or this boid; otherwise the neighbour's position
   * and rigid-body velocity.
   */
  datatype Neighbor = Neighbor(isNull: bool, isSelf: bool, position: Vec3, velocity: Vec3)

  predicate IsOther(n: Neighbor) {
    !n.isNull && !n.isSelf
  }

  /** The loop's accumulators and counters. */
  datatype Tally = Tally(
    averageVelocity: Vec3,
    centerOfMass: Vec3,
    separation: Vec3,
    totalNeighbors: nat,
    separationNeighborCount: nat,
    alignmentNeighborCount: nat,
    cohesionNeighborCount: nat)

  const NoNeighbors: Tally := Tally(Zero, Zero, Zero, 0, 0, 0, 0)

  /** Linear fall-off of the push: 1 at distance 0, 0 at the separation distance. */
  function SeparationFactor(d: real, separationDistance: real): real
    requires separationDistance != 0.0
  {
    Clamp01(1.0 - d / separationDistance)
  }

  /** The push a neighbour inside the separation distance adds to the separation sum. */
  function Repulsion(pos: Vec3, n: Neighbor, cfg: SteeringConfig, env: Engine): Vec3
    requires env.distance(pos, n.position) < cfg.separationDistance
  {
    var d := env.distance(pos, n.position);
    Scale(Scale(env.directionTo(pos, n.position), SeparationFactor(d, cfg.separationDistance)), cfg.seperationWeight)
  }

  /** One pass of the loop body over neighbour `n`. */
  function Visit(t: Tally, n: Neighbor, pos: Vec3, cfg: SteeringConfig, env: Engine): Tally {
    if !IsOther(n) then t
    else
      var d := env.distance(pos, n.position);
      var counted := t.(totalNeighbors := t.totalNeighbors + 1);
      var aligned :=
        if d < cfg.alightmentDistance then
          counted.(averageVelocity := Add(counted.averageVelocity, n.velocity),
                   alignmentNeighborCount := counted.alignmentNeighborCount + 1)
        else counted;
      if d < cfg.separationDistance then
        aligned.(separation := Add(aligned.separation, Repulsion(pos, n, cfg, env)),
                 separationNeighborCount := aligned.separationNeighborCount + 1)
      else if d > cfg.cohesionDistance then
        aligned.(centerOfMass := Add(aligned.centerOfMass, n.position),
                 cohesionNeighborCount := aligned.cohesionNeighborCount + 1)
      else aligned
  }

  /** The accumulators and counters after the loop has visited every entry of `ns`, in order. */
  function Gather(ns: seq<Neighbor>, pos: Vec3, cfg: SteeringConfig, env: Engine): Tally
    decreases |ns|
  {
    if |ns| == 0 then NoNeighbors
    else Visit(Gather(ns[..|ns| - 1], pos, cfg, env), ns[|ns| - 1], pos, cfg, env)
  }

  // ---------------------------------------------------------------------------
  // The same numbers by filtering and summing.

  /** What a neighbour takes part in. */
  datatype Role = Counted | Aligning | Separating | Cohering

  predicate Plays(n: Neighbor, role: Role, pos: Vec3, cfg: SteeringConfig, env: Engine) {
    IsOther(n) &&
    var d := env.distance(pos, n.position);
    match role
    case Counted => true
    case Aligning => d < cfg.alightmentDistance
    case Separating => d < cfg.separationDistance
    case Cohering => !(d < cfg.separationDistance) && d > cfg.cohesionDistance
  }

  /** The entries of `ns` that play `role`, in their order. */
  function Members(ns: seq<Neighbor>, role: Role, pos: Vec3, cfg: SteeringConfig, env: Engine): (r: seq<Neighbor>)
    ensures |r| <= |ns|
    ensures forall i :: 0 <= i < |r| ==> Plays(r[i], role, pos, cfg, env)
    decreases |ns|
  {
    if |ns| == 0 then []
    else
      var rest := Members(ns[..|ns| - 1], role, pos, cfg, env);
      if Plays(ns[|ns| - 1], role, pos, cfg, env) then rest + [ns[|ns| - 1]] else rest
  }

  function SumVelocities(ns: seq<Neighbor>): Vec3
    decreases |ns|
  {
    if |ns| == 0 then Zero else Add(SumVelocities(ns[..|ns| - 1]), ns[|ns| - 1].velocity)
  }

  function SumPositions(ns: seq<Neighbor>): Vec3
    decreases |ns|
  {
    if |ns| == 0 then Zero else Add(SumPositions(ns[..|ns| - 1]), ns[|ns| - 1].position)
  }

  function SumRepulsions(ns: seq<Neighbor>, pos: Vec3, cfg: SteeringConfig, env: Engine): Vec3
    requires forall i :: 0 <= i < |ns| ==> Plays(ns[i], Separating, pos, cfg, env)
    decreases |ns|
  {
    if |ns| == 0 then Zero
    else
      assert Plays(ns[|ns| - 1], Separating, pos, cfg, env);
      Add(SumRepulsions(ns[..|ns| - 1], pos, cfg, env), Repulsion(pos, ns[|ns| - 1], cfg, env))
  }

  /**
   * The loop computes, for every role, the sum over exactly the neighbours that
   * play it and their number: velocities of the aligning ones, positions of the
   * cohering ones, pushes of the separating ones, and the count of all others.
   */
  lemma {:induction false} GatherIsFilteredSums(ns: seq<Neighbor>, pos: Vec3, cfg: SteeringConfig, env: Engine)
    ensures Gather(ns, pos, cfg, env) == Tally(
      SumVelocities(Members(ns, Aligning, pos, cfg, env)),
      SumPositions(Members(ns, Cohering, pos, cfg, env)),
      SumRepulsions(Members(ns, Separating, pos, cfg, env), pos, cfg, env),
      |Members(ns, Counted, pos, cfg, env)|,
      |Members(ns, Separating, pos, cfg, env)|,
      |Members(ns, Aligning, pos, cfg, env)|,
      |Members(ns, Cohering, pos, cfg, env)|)
    decreases |ns|
  {
    if |ns| > 0 {
      var init, n := ns[..|ns| - 1], ns[|ns| - 1];
      GatherIsFilteredSums(init, pos, cfg, env);
      var a, c, s := Members(init, Aligning, pos, cfg, env), Members(init, Cohering, pos, cfg, env),
                     Members(init, Separating, pos, cfg, env);
      assert (a + [n])[..|a|] == a;
      assert (c + [n])[..|c|] == c;
      assert (s + [n])[..|s|] == s;
    }
  }

  /** Alignment is counted among all others, and separation and cohesion together are too: no neighbour is in both. */
  lemma {:induction false} CountsAreBounded(ns: seq<Neighbor>, pos: Vec3, cfg: SteeringConfig, env: Engine)
    ensures var t := Gather(ns, pos, cfg, env);
      && t.alignmentNeighborCount <= t.totalNeighbors
      && t.separationNeighborCount + t.cohesionNeighborCount <= t.totalNeighbors
    decreases |ns|
  {
    if |ns| > 0 {
      CountsAreBounded(ns[..|ns| - 1], pos, cfg, env);
    }
  }

  /** Null and self entries are skipped; every other entry is counted exactly once. */
  lemma {:induction false} TotalCountsOthers(ns: seq<Neighbor>, pos: Vec3, cfg: SteeringConfig, env: Engine)
    ensures Gather(ns, pos, cfg, env).totalNeighbors == |set i | 0 <= i < |ns| && IsOther(ns[i])|
    decreases |ns|
  {
    if |ns| > 0 {
      var k := |ns| - 1;
      TotalCountsOthers(ns[..k], pos, cfg, env);
      var before := set i | 0 <= i < k && IsOther(ns[..k][i]);
      var after := set i | 0 <= i < |ns| && IsOther(ns[i]);
      assert before == set i | 0 <= i < k && IsOther(ns[i]);
      if IsOther(ns[k]) {
        assert after == before + {k};
      } else {
        assert after == before;
      }
    }
  }

  /** A role no neighbour played leaves its accumulator at zero; with no neighbour at all every accumulator is zero. */
  lemma {:induction false} EmptyRolesAccumulateNothing(ns: seq<Neighbor>, pos: Vec3, cfg: SteeringConfig, env: Engine)
    ensures var t := Gather(ns, pos, cfg, env);
      && (t.alignmentNeighborCount == 0 ==> t.averageVelocity == Zero)
      && (t.separationNeighborCount == 0 ==> t.separation == Zero)
      && (t.cohesionNeighborCount == 0 ==> t.centerOfMass == Zero)
      && (t.totalNeighbors == 0 ==> t == NoNeighbors)
    decreases |ns|
  {
    if |ns| > 0 {
      EmptyRolesAccumulateNothing(ns[..|ns| - 1], pos, cfg, env);
    }
  }

  /** A neighbour inside the separation distance never reaches the cohesion sum or count. */
  lemma CohesionSkipsSeparatingNeighbours(ns: seq<Neighbor>, pos: Vec3, cfg: SteeringConfig, env: Engine, i: nat)
    requires i < |Members(ns, Cohering, pos, cfg, env)|
    ensures var n := Members(ns, Cohering, pos, cfg, env)[i];
      && env.distance(pos, n.position) >= cfg.separationDistance
      && env.distance(pos, n.position) > cfg.cohesionDistance
  {
  }

  /** Inside the separation distance the fall-off is 1 - d/separationDistance, which lies in (0, 1]; it is 1 at distance 0. */
  lemma SeparationFactorInRange(d: real, separationDistance: real)
    requires 0.0 <= d < separationDistance
    ensures SeparationFactor(d, separationDistance) == 1.0 - d / separationDistance
    ensures 0.0 < SeparationFactor(d, separationDistance) <= 1.0
    ensures d == 0.0 ==> SeparationFactor(d, separationDistance) == 1.0
  {
    var q := d / separationDistance;
    assert q * separationDistance == d;
    if q >= 1.0 {
      assert q * separationDistance >= 1.0 * separationDistance;
    }
  }

  /**
   * Cohesion takes neighbours FARTHER than the cohesion distance: a lone
   * neighbour beyond every radius is a cohesion neighbour and nothing else.
   */
  lemma FarNeighbourJoinsCohesion(n: Neighbor, pos: Vec3, cfg: SteeringConfig, env: Engine)
    requires IsOther(n)
    requires var d := env.distance(pos, n.position);
      d >= cfg.alightmentDistance && d >= cfg.separationDistance && d > cfg.cohesionDistance
    ensures Gather([n], pos, cfg, env) == Tally(Zero, n.position, Zero, 1, 0, 0, 1)
  {
    assert [n][..0] == [];
  }

  // ---------------------------------------------------------------------------
  // After the loop: the bounds as synthetic neighbours, then averaging.

  /** The bounds centre adds one cohesion neighbour, the two extreme corners together add two. */
  function WithBoundsNeighbours(t: Tally, cfg: SteeringConfig, b: Bounds): Tally {
    var t1 :=
      if cfg.addBoundsCenterToCohesion then
        t.(centerOfMass := Add(t.centerOfMass, b.center), cohesionNeighborCount := t.cohesionNeighborCount + 1)
      else t;
    if cfg.addBoundsExtermesToCohesion then
      t1.(centerOfMass := Add(t1.centerOfMass, Add(Max(b), Min(b))), cohesionNeighborCount := t1.cohesionNeighborCount + 2)
    else t1
  }

  /** The three behaviours before they are added up. */
  datatype Behaviours = Behaviours(alignment: Vec3, cohesion: Vec3, separation: Vec3)

  /** The averaging step, by the total count or by each behaviour's own count. */
  function Averaged(t: Tally, pos: Vec3, cfg: SteeringConfig, useTotalNeighbors: bool, env: Engine): Behaviours {
    if useTotalNeighbors then
      if t.totalNeighbors > 0 then
        var n := t.totalNeighbors as real;
        Behaviours(
          Scale(env.normalized(Div(t.averageVelocity, n)), cfg.alignmentWeight),
          Scale(env.normalized(Sub(Div(t.centerOfMass, n), pos)), cfg.cohesionWeight),
          Div(t.separation, n))
      else Behaviours(Zero, Zero, t.separation)
    else
      Behaviours(
        if t.alignmentNeighborCount > 0 then
          Scale(env.normalized(Div(t.averageVelocity, t.alignmentNeighborCount as real)), cfg.alignmentWeight)
        else Zero,
        if t.cohesionNeighborCount > 0 then
          Scale(env.normalized(Sub(Div(t.centerOfMass, t.cohesionNeighborCount as real), pos)), cfg.cohesionWeight)
        else Zero,
        if t.separationNeighborCount > 0 then Div(t.separation, t.separationNeighborCount as real)
        else t.separation)
  }

  function Parts(ns: seq<Neighbor>, pos: Vec3, cfg: SteeringConfig, b: Bounds, useTotalNeighbors: bool, env: Engine): Behaviours {
    Averaged(WithBoundsNeighbours(Gather(ns, pos, cfg, env), cfg, b), pos, cfg, useTotalNeighbors, env)
  }

  /** The steering GetBoidSteering returns: alignment + cohesion + separation. */
  function SteeringForce(ns: seq<Neighbor>, pos: Vec3, cfg: SteeringConfig, b: Bounds, useTotalNeighbors: bool, env: Engine): Vec3 {
    var p := Parts(ns, pos, cfg, b, useTotalNeighbors, env);
    Add(Add(p.alignment, p.cohesion), p.separation)
  }

  /**
   * The bounds flags touch only the cohesion sum and count: the centre adds
   * the centre and one, the extremes add max + min and two.
   */
  lemma BoundsNeighboursOnlyTouchCohesion(t: Tally, cfg: SteeringConfig, b: Bounds)
    ensures var r := WithBoundsNeighbours(t, cfg, b);
      && r.cohesionNeighborCount == t.cohesionNeighborCount
           + (if cfg.addBoundsCenterToCohesion then 1 else 0) + (if cfg.addBoundsExtermesToCohesion then 2 else 0)
      && r.centerOfMass == Add(Add(t.centerOfMass, if cfg.addBoundsCenterToCohesion then b.center else Zero),
                               if cfg.addBoundsExtermesToCohesion then Scale(b.center, 2.0) else Zero)
      && r.(centerOfMass := t.centerOfMass, cohesionNeighborCount := t.cohesionNeighborCount) == t
  {
  }

  /** In total-count mode a boid with no other boid around has no steering at all, whatever the bounds flags. */
  lemma TotalModeAloneIsStill(ns: seq<Neighbor>, pos: Vec3, cfg: SteeringConfig, b: Bounds, env: Engine)
    requires Gather(ns, pos, cfg, env).totalNeighbors == 0
    ensures SteeringForce(ns, pos, cfg, b, true, env) == Zero
  {
    EmptyRolesAccumulateNothing(ns, pos, cfg, env);
  }

  /** In per-behaviour mode a behaviour without neighbours contributes the zero vector. */
  lemma PerBehaviourEmptyRolesContributeZero(ns: seq<Neighbor>, pos: Vec3, cfg: SteeringConfig, b: Bounds, env: Engine)
    ensures var t := Gather(ns, pos, cfg, env);
      var p := Parts(ns, pos, cfg, b, false, env);
      && (t.alignmentNeighborCount == 0 ==> p.alignment == Zero)
      && (t.separationNeighborCount == 0 ==> p.separation == Zero)
      && (WithBoundsNeighbours(t, cfg, b).cohesionNeighborCount == 0 ==> p.cohesion == Zero)
  {
    EmptyRolesAccumulateNothing(ns, pos, cfg, env);
  }

  /** Without the bounds flags a boid with no other boid around has no steering in either mode. */
  lemma AloneIsStill(ns: seq<Neighbor>, pos: Vec3, cfg: SteeringConfig, b: Bounds, useTotalNeighbors: bool, env: Engine)
    requires Gather(ns, pos, cfg, env).totalNeighbors == 0
    requires !cfg.addBoundsCenterToCohesion && !cfg.addBoundsExtermesToCohesion
    ensures SteeringForce(ns, pos, cfg, b, useTotalNeighbors, env) == Zero
  {
    EmptyRolesAccumulateNothing(ns, pos, cfg, env);
  }

  /**
   * In total-count mode, when every neighbour is a separation (or no-role)
   * neighbour and the bounds flags are off, the cohesion term still pulls
   * toward the world origin: the empty centre of mass is divided by the total
   * count and the boid's position subtracted from it.
   */
  lemma TotalModeCohesionWithoutCohesionNeighbours(ns: seq<Neighbor>, pos: Vec3, cfg: SteeringConfig, b: Bounds, env: Engine)
    requires Gather(ns, pos, cfg, env).totalNeighbors > 0
    requires Gather(ns, pos, cfg, env).cohesionNeighborCount == 0
    requires !cfg.addBoundsCenterToCohesion && !cfg.addBoundsExtermesToCohesion
    ensures Parts(ns, pos, cfg, b, true, env).cohesion
         == Scale(env.normalized(Sub(Zero, pos)), cfg.cohesionWeight)
  {
    EmptyRolesAccumulateNothing(ns, pos, cfg, env);
  }

  /**
   * A single other boid at distance 0 inside the separation distance gives
   * the full push: its direction scaled by the separation weight.
   */
  lemma TouchingNeighbourFullPush(n: Neighbor, pos: Vec3, cfg: SteeringConfig, b: Bounds, env: Engine)
    requires IsOther(n) && env.distance(pos, n.position) == 0.0 < cfg.separationDistance
    ensures Parts([n], pos, cfg, b, false, env).separation
         == Scale(env.directionTo(pos, n.position), cfg.seperationWeight)
  {
    assert [n][..0] == [];
    SeparationFactorInRange(0.0, cfg.separationDistance);
    var v := env.directionTo(pos, n.position);
    assert Gather([n], pos, cfg, env).separation == Add(Zero, Scale(Scale(v, 1.0), cfg.seperationWeight));
    assert Scale(Scale(v, 1.0), cfg.seperationWeight) == Scale(v, cfg.seperationWeight);
  }

  /** Adding the two extremes is the same as adding the centre twice. */
  lemma ExtremesCountAsTwoCentres(t: Tally, cfg: SteeringConfig, b: Bounds)
    requires !cfg.addBoundsCenterToCohesion && cfg.addBoundsExtermesToCohesion
    ensures var once := cfg.(addBoundsCenterToCohesion := true, addBoundsExtermesToCohesion := false);
      WithBoundsNeighbours(t, cfg, b) == WithBoundsNeighbours(WithBoundsNeighbours(t, once, b), once, b)
  {
  }
}
