# Boids: a verified model of the flocking core

This project models the core of a Unity boids simulation in Dafny and proves
properties of the model. Four components are covered:

- **Containment** (`containment.dfy`, used by the `Boid` class in `boid.dfy`).
  A boid's position is clamped into its bounds on each axis. A boid outside
  the bounds is either pulled back with a weighted force or teleported to
  the far side, axis by axis.
- **Steering** (`steering.dfy`, used by `boid.dfy`). One loop over the
  neighbour list accumulates:
  - the velocities of nearby boids (alignment);
  - a clamped repulsion from boids that are too close (separation);
  - the positions of the others (cohesion).

  The bounds may be added as synthetic cohesion neighbours. Two averaging
  modes follow, and the steering is the sum of the three behaviours. The
  fixed-step gate decides whether the boid moves this step; it drops the
  vertical component first when asked.
- **Attributes** (`attributes.dfy`). A state machine over health, lives and
  the dead flag, plus the physical attributes with their setters. The
  malady bookkeeping appends maladies, starts the sweep, and runs one pass
  of the sweep loop over a shrinking list with a wrapping cursor.
- **Movement** (`movement.dfy`). The kinematic locomotion of a moving
  object: translations, the velocity-smoothing goal, the flying shortcut of
  the ground checks, and the axis gating and roll clamp of `RotateTowards`.

Modelling choices:

- **Numbers.**
  - Floats are `real`.
  - Unity's approximate `Vector3 ==`/`!=` is exact equality.
  - The C# `int` lives counter is a 32-bit newtype with a wrapping decrement.
  - The steering counters are `nat`.
- **Engine primitives are parameters.** The Unity primitives are fields of
  an `Engine` value passed to every operation: `normalized`,
  `Vector3.Distance`, `DirectionTo`/`DirectionFrom`, `Bounds.Contains`,
  `SmoothDamp`, `SmoothDampAngle`, `Atan2`, `Quaternion.Euler`,
  `eulerAngles`, quaternion-times-vector and `Time.deltaTime`. The proofs
  hold for every choice of them. A lemma that needs a property of one states
  it as a precondition, for example that a distance from a point to itself
  is 0.
- **Translate.** `transform.Translate` works in the object's own axes. The
  model adds the translation vector to the position after turning it by the
  rotation.
- **Inputs.**
  - The neighbour query's result is a sequence of records
    `{isNull, isSelf, position, velocity}`.
  - The ground-check physics tests are boolean inputs.
  - The reference yaw of the camera or target overloads of
    `GetMovementDirection` is an optional input.
  - The random draws of `Start` are arguments.
- **Move calls.** The boid's fixed step calls the rigid-body `Move` of its
  base class, which is not modelled. `FixedUpdate` returns the call it
  makes instead.

Three behaviours of the code that its names and comments do not suggest:

- **Contained but clamped.** With the on-exit branch enabled, a boid that
  the clamp moves but that `Bounds.Contains` still reports as inside gets
  the *unweighted* normalised direction as its force
  (`Containment.ContainedButClamped`).
- **Cohesion takes far neighbours.** Only neighbours *farther* than
  `cohesionDistance` join cohesion, so a neighbour beyond every radius is a
  cohesion neighbour and does steer the boid
  (`Steering.FarNeighbourJoinsCohesion`).
- **Teleport uses the size.** The teleport ranges use the size (twice the
  extents), so a teleported boid lands outside the box again
  (`Containment.TeleportLandsOutsideBox`).

## Model

| member | source | states |
|---|---|---|
| Vectors.Clamp | Boid.cs:156-158 | With lo ≤ hi the clamp lies in [lo, hi], and it returns its input exactly when the input is already in [lo, hi]. |
| Vectors.Clamp01 | Boid.cs:302 | The result lies in [0, 1], and it equals the input exactly when the input is in [0, 1]. |
| Containment.ClampFixesExactlyTheBox | Boid.cs:156-163 | The per-axis clamp leaves a position unchanged if and only if the position lies in the closed box [center − extents, center + extents] on every axis. |
| Containment.ZeroWeightIsInert | Boid.cs:151-153 | A zero constrained-area weight returns the zero force and never changes the position. |
| Containment.InsideIsInert | Boid.cs:153-163 | A boid inside the closed box gets the zero force and keeps its position, whatever the settings. |
| Containment.PullWhenExitBranchDisabled | Boid.cs:163-225 | With the on-exit branch off, a boid outside the box gets exactly weight · normalized(clamped − position) and is not moved. |
| Containment.PullOnExit | Boid.cs:170-179 | With the on-exit branch on and teleporting off, a boid the engine reports as outside gets exactly the weighted pull and is not moved. |
| Containment.TeleportOnExit | Boid.cs:180-215 | Teleport mode works per axis. Below center − size the coordinate goes to center + size. Above center + size, when the lower test failed, it goes to center − size. Otherwise it is kept. The force is the unweighted normalised direction. |
| Containment.ContainedButClamped | Boid.cs:163-172 | On-exit branch on and the clamp moved the point, but Contains is true: the force is the unweighted direction and the position is kept. |
| Containment.OnlyTeleportMoves | Boid.cs:149-231 | The position changes only when the weight is non-zero, both the on-exit and the teleport flags are on, and the boid is outside both the box and Contains. |
| Containment.ExactContainmentMakesExitModeAlwaysPull | Boid.cs:170-225 | Take Contains to be exactly the closed box and teleporting off. Then the on-exit branch gives the same result as the always-pull branch. |
| Containment.TeleportLandsOutsideBox | Boid.cs:184-215 | On each of the three axes with positive extent, a boid teleported from below center − size lands one extent beyond the box's maximum, and one teleported from above center + size lands one extent beyond its minimum. A boid teleported on any such axis ends up outside the box. |
| Steering.GatherIsFilteredSums | Boid.cs:264-320 | The loop's tallies equal filter-then-sum over the list. totalNeighbors counts the others. Alignment takes the others within the alignment distance. Separation takes the others within the separation distance, with their repulsions summed. Cohesion takes the rest of the others beyond the cohesion distance, with their positions summed. |
| Steering.CountsAreBounded | Boid.cs:282-317 | The alignment count is at most the total. The separation and cohesion counts together are at most the total. |
| Steering.TotalCountsOthers | Boid.cs:264-282 | Null and self entries are skipped. totalNeighbors is the number of indices holding another boid, each counted once. |
| Steering.EmptyRolesAccumulateNothing | Boid.cs:286-317 | A behaviour with count 0 leaves its accumulator at zero. With no other boid, every tally is zero. |
| Steering.CohesionSkipsSeparatingNeighbours | Boid.cs:298-317 | A neighbour closer than the separation distance is never a cohesion member. Every cohesion member is at least the separation distance away and beyond the cohesion distance. |
| Steering.SeparationFactorInRange | Boid.cs:298-302 | For 0 ≤ d < separationDistance the separation factor is exactly 1 − d/separationDistance, and it lies in (0, 1]. |
| Steering.FarNeighbourJoinsCohesion | Boid.cs:312-317 | Another boid beyond both the separation and the cohesion distance is added to the centre of mass and the cohesion count. |
| Steering.BoundsNeighboursOnlyTouchCohesion | Boid.cs:324-334 | The bounds flags change only the centre of mass and the cohesion count. The centre adds the bounds center and 1; the extremes add max + min and 2. |
| Steering.ExtremesCountAsTwoCentres | Boid.cs:330-334 | max + min of the bounds is twice the center, so the extremes flag adds two copies of the center to cohesion. |
| Steering.TotalModeAloneIsStill | Boid.cs:337-358 | In total-count mode with no other boid the steering is zero, whatever the bounds flags. |
| Steering.PerBehaviourEmptyRolesContributeZero | Boid.cs:362-392 | In per-behaviour mode, a behaviour whose count is 0 contributes the zero vector. For cohesion, the count includes the bounds neighbours. |
| Steering.AloneIsStill | Boid.cs:337-397 | With the bounds flags off and no other boid, the steering is zero in both averaging modes. |
| Steering.TotalModeCohesionWithoutCohesionNeighbours | Boid.cs:340-356 | Total-count mode with others present but no cohesion neighbour still pulls toward the origin: cohesion = weight · normalized(0 − position). |
| Steering.TouchingNeighbourFullPush | Boid.cs:298-308 | A single other boid at distance 0 is pushed with the full factor: the separation is weight · DirectionTo. |
| Flock.GatedMovement | Boid.cs:107-110 | With clampVertically the movement's y is 0 and x and z are kept. Without it the movement is unchanged. |
| Flock.GateSettles | Boid.cs:105-113 | A distance from a point to itself is 0, so after a move with a positive threshold the same value does not open the gate again. |
| Flock.ZeroThresholdAlwaysMoves | Boid.cs:105 | A zero threshold always opens the gate. |
| Flock.LoneBoidInsideBoxRests | Boid.cs:121-128 | A boid inside its box with no other boid around and the bounds flags off gets zero steering plus zero bounds force, and is not moved. |
| Flock.Boid.constructor | Boid.cs:10-72 | The serialized defaults: weights, distances and flags as declared, zero movement and reference values. |
| Flock.Boid.Start | Boid.cs:82-94 | The initial movement is (2u, 0, 2v) from the two draws. Bounds with zero extents are replaced by the box of size (5, 0.1, 5) at the origin. |
| Flock.Boid.CalculateBoundsForce | Boid.cs:149-231 | Returns BoundsForce's force and leaves the boid at BoundsForce's position. The lemmas above state what these are. |
| Flock.Boid.GetBoidSteering | Boid.cs:240-400 | The loop's result equals SteeringForce of the neighbour list at the current position. Its loop invariant is that the locals equal Gather of the prefix visited. |
| Flock.Boid.GetMovements | Boid.cs:121-133 | The speed is read from the attributes. The steering, taken at the position before containment, plus the bounds force gives the movement. With isAlwaysMoving, forward · speed is added and the sum normalised. The position is the containment's. |
| Flock.Boid.FixedUpdate | Boid.cs:102-114 | When the gate is open: y is dropped if asked, Move is called with the movement, fixedDeltaTime and useMovementAsAddForce, and the reference becomes the moved value. When it is closed: no call, and nothing changes. |
| Attributes.WrappingDecrement | AttributeController.cs:184 | Subtracting 1 from a 32-bit int is x − 1 except at the least value, and is always congruent to x − 1 modulo 2^32. |
| Attributes.SweepStep | AttributeController.cs:231-234 | After one pass the cursor is 0 or cursor + 1, and it is in range whenever the list is non-empty. |
| Attributes.SweepStepRemovesOnlyAnInactiveOne | AttributeController.cs:231-234 | A pass removes only the malady under the cursor, and only if it is inactive. Every active malady survives, and the rest keep their relative order. |
| Attributes.AttributeController.constructor | AttributeController.cs:13-56 | The serialized defaults: lives 3, health, strength, speed and mass 1, gravity −9.8 and 9.8, scales −2 and 2, no maladies, alive, sweep not started. |
| Attributes.AttributeController.LoadFromData | AttributeController.cs:71-82 | Copies exactly the nine numeric fields. The malady list and the flags are untouched. |
| Attributes.AttributeController.SetGravity | AttributeController.cs:108-111 | The gravity reads back what was set. Nothing else changes. |
| Attributes.AttributeController.SetFallingGravity | AttributeController.cs:119-122 | The falling gravity reads back what was set. Nothing else changes. |
| Attributes.AttributeController.SetGravityScale | AttributeController.cs:129-132 | The gravity scale reads back what was set. Nothing else changes. |
| Attributes.AttributeController.SetFallingGravityScale | AttributeController.cs:140-143 | As written: the gravity scale is overwritten, and the falling gravity scale keeps its value. |
| Attributes.AttributeController.SetFallingGravityScaleCorrected | AttributeController.cs:135-143 | Corrected: the falling gravity scale reads back what was set. Nothing else changes. |
| Attributes.AttributeController.Initialize | AttributeController.cs:145-155 | Health, strength and speed take the arguments. Mass becomes 1, both flags false, and the malady list empty. Lives and the gravity fields are kept. |
| Attributes.AttributeController.AffectStrength | AttributeController.cs:157-160 | Strength increases by the argument. Nothing else changes. |
| Attributes.AttributeController.AffectSpeed | AttributeController.cs:162-165 | Speed increases by the argument. Nothing else changes. |
| Attributes.AttributeController.SetSpeed | AttributeController.cs:167-170 | Speed reads back what was set. |
| Attributes.AttributeController.SetStrength | AttributeController.cs:172-175 | Strength reads back what was set. |
| Attributes.AttributeController.Damage | AttributeController.cs:177-195 | Health drops by the amount. Left above 0, nothing else changes. At or below 0, health becomes exactly 0 and lives are decremented (wrapping at 32 bits); a decremented value ≤ 0 pins lives to 0 and sets the dead flag, otherwise the flag is kept. Health is never negative afterwards, and the dead flag only ever changes to true, with lives at 0. |
| Attributes.AttributeController.Heal | AttributeController.cs:197-201 | Health increases by the amount. The dead flag is cleared if and only if the new health is positive. Lives never change. |
| Attributes.AttributeController.SetHealth | AttributeController.cs:203-206 | Health reads back what was set. |
| Attributes.AttributeController.DamagingMalady | AttributeController.cs:208-224 | A null malady changes nothing. Otherwise it is appended, and the sweep is started exactly when none was running; the running flag is then set. |
| Attributes.AttributeController.MaladyCheckStep | AttributeController.cs:227-240 | As written, for any cursor. On an empty list the sweep ends and the running flag is cleared. A cursor past the end of a non-empty list faults at the element lookup and nothing changes. Otherwise one SweepStep is taken and the next cursor is in range. |
| Attributes.AttributeController.MaladyCheckStepCorrected | AttributeController.cs:227-240 | Corrected: never faults. A cursor past the end of the list restarts at 0; otherwise it behaves as MaladyCheckStep, and the next cursor is in range. |
| Attributes.InterruptedSweepRunsOffTheList | AttributeController.cs:145-240 | Three attachments and passes leave the first sweep's cursor at 2. Then Initialize and one more attachment start a second sweep, and the first sweep faults when it resumes. |
| Attributes.InterruptedSweepCorrectedCarriesOn | AttributeController.cs:145-240 | The same interleaving with the corrected resumption carries on with cursor 0. |
| Attributes.FallingGravityScaleSetterIgnoresItsArgument | AttributeController.cs:135-143 | A fresh controller asked to set its falling gravity scale to 5 still reports 2. |
| Attributes.FallingGravityScaleCorrectedRoundTrip | AttributeController.cs:135-143 | With the corrected setter, a fresh controller reports the 5 it was given. |
| Movement.KinematicTranslationClosedForm | MovementController.cs:147-159 | The kinematic Move translates by movement · t · speed · mass. With useSimpleMove the mass factor is dropped. |
| Movement.MassScalesOnlyTheFullMove | MovementController.cs:147-159 | The full move is the simple move scaled by the mass, and the simple move does not depend on the mass. |
| Movement.ZeroMovementStaysPut | MovementController.cs:147-159 | A zero movement leaves the position unchanged in both modes, taking the rotation of the zero vector to be zero. |
| Movement.VelocityGoal | MovementController.cs:90-105 | Movement ≠ 0: smooth toward movement · speed with the movement smoothing. Movement = 0: smooth toward 0 with the deceleration smoothing. The target is zero if and only if the movement or the speed is zero. |
| Movement.TiltedAngles | MovementController.cs:337-365 | Pitch is 0 unless rotateOnX. Roll is 0 unless rotateOnZ (clamped when clampZ). With clampZ and min ≤ max, the roll lies in [min, max]. |
| Movement.AxesOffIsYawOnly | MovementController.cs:337-399 | With every axis flag off, the tilting overload turns exactly as the yaw-only overload does. |
| Movement.PitchInheritsYawRate | MovementController.cs:352-353 | The pitch smoothing starts from the rate the yaw smoothing left in refVelocity. |
| Movement.MovementController.constructor | MovementController.cs:19-71 | The serialized defaults: smoothing 1, current speed 0, not flying, rates zero. Bound to its attribute controller. |
| Movement.MovementController.GetVelocity | MovementController.cs:90-105 | The velocity is SmoothDamp from the stored rate toward VelocityGoal's target with its smoothing time. The rate is overwritten by the damping. |
| Movement.MovementController.LookAtMovementPosition | MovementController.cs:108-111 | The look-at point is the position smoothed toward position + rate with the rotation smoothing. |
| Movement.MovementController.Move | MovementController.cs:147-159 | The position moves by the kinematic translation, in the object's own axes. |
| Movement.MovementController.GetMovementDirection | MovementController.cs:192-284 | refVelocity is reset to 0 before the yaw smoothing, so the result does not depend on an earlier rate. The rotation is Euler(0, yaw, 0) and the direction is that rotation applied to localForward. |
| Movement.MovementController.MoveAlongHeading | MovementController.cs:125-143 | Translates along the smoothed heading by direction · t · currentSpeed, and returns the heading rotation. |
| Movement.MovementController.MoveAlongHeadingAtSpeed | MovementController.cs:163-181 | The same as MoveAlongHeading, but with the speed argument in place of currentSpeed. |
| Movement.MovementController.GroundCheckSphere | MovementController.cs:293-306 | A flying object is always grounded. Otherwise the result is the physics test. |
| Movement.MovementController.GroundCheckRay | MovementController.cs:316-330 | A flying object is always grounded. Otherwise the result is the ray test. |
| Movement.MovementController.RotateTowards | MovementController.cs:337-370 | The rotation becomes Euler of TiltedAngles, and refVelocity keeps the rate the last smoothing left. |
| Movement.MovementController.FacingRotation | MovementController.cs:463-483 | Returns Euler(0, yaw, 0) of the yaw smoothed toward the point, with the given smoothing; the rotation is not applied. The overload at 407-427 passes the rotation smoothing. |
| Movement.MovementController.RotateTowardsYaw | MovementController.cs:435-455 | Sets the rotation to the yaw-only rotation toward the point. The overload at 377-399 does the same with the rotation smoothing. |

## Left out

- The rigid-body base class (MovingObjectsRB3D.cs) is not part of this model. This covers its `Move` override, `RigidBodySetup` and the rigid-body velocity writes. `FixedUpdate` returns the call instead of making it.
- BoidManager.cs (spawning, random positions, destroying children) is not part of this model. It is engine plumbing.
- `Physics.OverlapSphere` and the `GetComponent`/`GetComponentInParent` probing are not modelled. The neighbour list is an input, so the query radius `distanceToBeNeighborBoid` does not appear.
- The call to `RotateTowards` at the end of `GetMovements`, with the boid's clamp of −55/55 on roll, is not modelled. The tilting overload itself is `Movement.MovementController.RotateTowards`; its default clamp arguments are −80/80.
- `CalculateJump` and `CalculateFalling` are square roots of float products and are not modelled.
- The bodies of `normalized`, `Distance`, `DirectionTo`/`DirectionFrom`, `Bounds.Contains`, `SmoothDamp`, `SmoothDampAngle`, `Atan2`, `Quaternion.Euler`, `eulerAngles` and quaternion-times-vector are unconstrained parameters.
- IEEE float rounding, NaN and infinity are not modelled; floats are reals and vector equality is exact. The steering counters are unbounded naturals, as a C# `int` count of colliders never overflows in practice.
- Coroutine scheduling is not modelled, nor are the `WaitForSeconds` delay and the damage coroutine of a malady. `DamagingMalady` returns whether it starts the sweep, and `MaladyCheckStep` is one resumption of the sweep loop. The caller chooses how resumptions interleave with other calls; two sweeps can run at once, as in `Attributes.InterruptedSweepRunsOffTheList`.
- A malady's behaviour is not modelled: only its identity and its active flag are kept.
- The getters of `AttributeController` are plain field reads (functions without contracts).
- The Unity lifecycle hooks `Awake` and `Update`, and the calls `Start` makes to `Initialize` and `RigidBodySetup`, are not modelled. Gizmo drawing is not modelled either.
- Playing the random generator in `Start` is not modelled. Its two draws are arguments.
- Physics queries in the ground checks (`Physics.CheckSphere`, `Physics.Raycast`) are not modelled. Their results are arguments.

## Findings

| source | as written | input that shows it | evidently intended | confidence | as-written member | corrected member |
|---|---|---|---|---|---|---|
| AttributeController.cs:140-143 | `SetFallingGravityScale` assigns the gravity scale field, so the falling gravity scale can never be set. | A default controller, `SetFallingGravityScale(5)`, then `GetFallingGravityScale()` returns 2, and the gravity scale becomes 5. | Assign the falling gravity scale, as the setter's name and its getter suggest. | high, not executed | Attributes.FallingGravityScaleSetterIgnoresItsArgument | Attributes.AttributeController.SetFallingGravityScaleCorrected |
| AttributeController.cs:231-234 | The sweep's cursor is kept across suspensions, but `Initialize` (lines 145-155) can replace the list and clear the running flag meanwhile, so the cursor can point past the end and `ElementAt` throws. | Attach three active maladies, letting the sweep pass after each. `Initialize`, then attach one more, which starts a second sweep. The first sweep resumes at cursor 2 on a one-element list. | The sweep never indexes past the end of the list. | medium, not executed | Attributes.InterruptedSweepRunsOffTheList | Attributes.AttributeController.MaladyCheckStepCorrected |
