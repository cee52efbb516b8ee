# Gravity Cubes: a verified model of the simulation core

Gravity Cubes is a small 2-D physics sandbox. Its game state and the rules
of one simulation step exist in several versions, and their rules differ, so
each is its own module here:

- **GameState / GameStatePhysics** (`game_state.py`). A list of body records
  (cubes, fixed platforms, coins, moving platforms), a score and a one-way
  game-over flag.
  - The class `GameState.GameState` changes its list in place.
  - The per-body and per-pair rules are functions in `GameStatePhysics`:
    - the arena step with gravity, friction and a bouncing clamp;
    - oscillating platforms that carry their riders (`OnPlatform` is
      `is_cube_on_platform`);
    - static pushes, and impulses with size-cubed masses;
    - coin pickup worth 10 points.
- **CubeManager** (`cube_manager.py`). Two parts:
  - `CubeTable` is the five-slot struct-of-arrays cube table, with Dafny
    arrays for the Taichi fields. It has an add with a capacity check, a
    delete with shift-down, and a rule that at least one cube always exists.
  - `CubeManager` is the list-based class with selection, forces and a floor.
- **MainGame** (`main.py`). The pygame version, with y pointing down:
  - heap objects `Particle`, `GameObject` and `Game`;
  - screen clamping, static reflection, impulses with size-squared masses
    and coin deactivation;
  - particle bursts, and the while/pop loop that filters the particle list.
- **Rendering** (`rendering.py`). The `ParticleSystem` buffer: a FIFO of at
  most 100 records, and an expiry pass that also moves the records.
- **Collision** (`collision.py`). The pure wall test `check_collision`.
- **Config, Geometry, Wrappers**. The configured constants, vectors with
  real-number helpers, and `Option`.

The model makes these choices:

- Every random draw is a parameter: impulse noise, the normal used when two
  centres coincide, particle and cube attributes, and rotations. So is the
  clock reading (`time.time()`).
  Where a property depends on a draw's range, the draw is required to lie
  in the range its `randint` or `uniform` call gives, as `SpawnInRange`
  and `BurstChannels` say.
- Square roots appear in two ways:
  - Distance tests are squared comparisons. The `Geometry` lemmas show these
    agree with the root test for the true root.
  - Where the root's value is used (normals and overlaps), it comes from a
    `sqrt` function parameter. The properties proved hold for any such
    function.
- Numbers are Dafny `real`.
- Sound calls do nothing.

## Model

| member | source | states |
|---|---|---|
| Collision.CubeBox | collision.py:13-16 | the cube's box is `size` wide and high and centred on `pos` |
| Collision.FieldMinX | collision.py:7 | the left bound is (1 - width) / 2 = 0.1, which centres the field in the unit square |
| Collision.FieldMaxX | collision.py:8 | the right bound is the left bound plus the width, 0.9 |
| Collision.FieldMinY | collision.py:9 | the bottom bound is (1 - height) / 2 = 0.1 |
| Collision.FieldMaxY | collision.py:10 | the top bound is the bottom bound plus the height, 0.9 |
| Collision.OuterBoundsByCentre | collision.py:19-21 | `HitsOuterBounds`, the outer-bounds test, read on the centre: a cube is clear of all four bounds exactly when its centre is more than half its size inside each bound; a cube at least as wide as the field (0.8) always touches one |
| Collision.EdgeOnWallTriggers | collision.py:24-42 | `WallTriggers` with its `VerticalTriggers` and `HorizontalTriggers` tests: a box that meets a wall's span triggers when a vertical edge lies on a vertical wall's line, or a horizontal edge on a horizontal wall's line |
| Collision.HitsInnerWallsIffSomeWallTriggers | collision.py:24-42 | `HitsInnerWalls`, the wall loop, reports a hit exactly when some inner wall is examined (x overlap, and y overlap widened by half the thickness) and its vertical or horizontal edge test fires |
| Collision.CheckCollision | collision.py:5-44 | true exactly when the box touches or crosses an outer bound (non-strict) or some inner wall triggers; touching a bound alone forces true |
| Collision.TouchingLeftBoundCollides | collision.py:19-21 | a box that reaches exactly to the left bound collides |
| Collision.ClearCubeDoesNotCollide | collision.py:19-44 | a box inside the field that no inner wall triggers on gives false |
| Collision.StraddlingSpawnCubeIsNotReported | collision.py:29-42 | the default cube at spawn point (0.5, 0.5) straddles the horizontal wall at y = 0.5, yet no collision is reported, because only box edges near a wall count |
| Geometry.WithinStrictIsDistanceTest | main.py:155-158 | the squared comparison holds exactly when the true distance is below the bound |
| Geometry.WithinOrOnIsDistanceTest | cube_manager.py:243-246 | the squared comparison holds exactly when the true distance is at most the bound |
| CubeManager.FirstActive | cube_manager.py:55-60 | -1 exactly when no flag is 1; otherwise the smallest index whose flag is 1 |
| CubeManager.CubeTable.GetActiveCubeIndex | cube_manager.py:55-60 | the scan returns the first live slot whose flag is 1, or -1 when there is none (both directions) |
| CubeManager.CubeTable.constructor | cube_manager.py:28-38 | six fresh columns of capacity 5, every slot inactive, and no cubes |
| CubeManager.CubeTable.InitFirstCube | cube_manager.py:42-52 | slot 0 becomes the default cube at (0.5, 0.5), active, with 0 steps, and the count is 1; no other slot changes |
| CubeManager.ActivateOnly | cube_manager.py:67-68 | after an add, the new slot is the only active live slot, and it is the first active one |
| CubeManager.SpawnPoint | cube_manager.py:86-88 | the point chosen is always one of the spawn points; an in-range index picks its own point |
| CubeManager.CubeTable.AddNewCube | cube_manager.py:63-106 | below capacity, returns true and writes the new cube into slot `count` (at the chosen spawn point; colour and size given or defaulted), makes it the only active cube and adds 1 to the count; at capacity, returns false and changes nothing |
| CubeManager.CubeTable.ClearActive | cube_manager.py:67-68 | every live slot below the count is set inactive; every other slot keeps its flag |
| CubeManager.CubeTable.WriteSlot | cube_manager.py:91-96 | slot `count` alone takes the spawn point as position and last position, the colour, the size, active flag 1 and step 0; every other slot of all six columns is unchanged |
| CubeManager.ShiftDownRemovesIndex | cube_manager.py:113-120 | after shifting, the first n - 1 slots hold the old entries without the one at `index`, in their old order; the later slots are unchanged |
| CubeManager.ShiftDown | cube_manager.py:114-120 | the shifted column keeps its length; its contents are stated by `ShiftDownRemovesIndex` |
| CubeManager.CubeTable.ShiftEntriesDown | cube_manager.py:114-120 | the copy loop shifts all six columns down over the live range |
| CubeManager.CubeTable.DeleteCube | cube_manager.py:109-133 | an out-of-range index returns false and changes nothing; otherwise the entry is removed by shift-down and the count drops by 1; an emptied table gets its default cube back; when the index equals the first active slot after the shift, the last live slot is set active as well; the count is at least 1 afterwards |
| CubeManager.ClampSize | cube_manager.py:140-143 | the result lies in [0.03, 0.15], equals the input when it is in range, and is the nearer bound otherwise |
| CubeManager.CubeTable.ResizeActiveCube | cube_manager.py:136-147 | when a cube is active, stores the clamped size in the active slot only and returns true; otherwise returns false with the sizes unchanged |
| CubeManager.CubeTable.ChangeActiveCubeColor | cube_manager.py:150-155 | when a cube is active, the active slot alone takes the new colour; otherwise returns false with nothing changed |
| CubeManager.CubeTable.ResetActiveCubePosition | cube_manager.py:158-169 | the active cube returns to the current spawn point with its step counter at 0; with no active cube, nothing changes |
| CubeManager.CubeTable.IsCubeInTargetZone | cube_manager.py:231-249 | false for an index outside the live range; otherwise true exactly when the centre lies within or on some target zone |
| CubeManager.FallStep | cube_manager.py:300-321 | after a step the cube is never below y = -5; x and z move by velocity times dt; each rotation axis turns by its draw times the rotation speed times dt; scale, colour, and the x and z velocity are kept |
| CubeManager.FloorBounce | cube_manager.py:308-310 | a cube that falls below the floor is put on it, and its new vertical velocity is reversed and scaled by 0.8 |
| CubeManager.FreeFall | cube_manager.py:302-311 | a cube that stays above the floor takes plain gravity: vy drops by 9.8 * dt, and y moves by the new vy times dt |
| CubeManager.CubeManager.constructor | cube_manager.py:252-255 | no cubes and no selection |
| CubeManager.CubeManager.CreateCube | cube_manager.py:260-295 | appends a cube (given or drawn position, unit scale, zero velocity) and returns its index, the new last index |
| CubeManager.CubeManager.Update | cube_manager.py:297-316 | every cube takes one FallStep; afterwards every cube has y >= -5 |
| CubeManager.CubeManager.SelectCube | cube_manager.py:353-358 | accepts exactly the indices 0 <= index < number of cubes; otherwise returns false with the selection unchanged |
| CubeManager.CubeManager.ApplyForceToSelected | cube_manager.py:360-364 | the force is added to the selected cube's velocity only; with no selection, nothing changes |
| GameState.InitialLayoutShape | game_state.py:29-50 | `InitialLayout` has 12 active entries: 3 fixed platforms, 6 movable cubes, 2 movable coins and 1 fixed moving platform; all sizes are positive and exactly 6 cubes count towards game over |
| GameState.NewRecordRoles | game_state.py:65-133 | the records `CubeRecord`, `CoinRecord` and `MovingPlatformRecord` build: a cube record keeps the game going exactly when it is not fixed; a coin never does, and a cube picks it exactly when their centres are closer than the mean size; a moving platform is fixed, moves forward at speed 2 and, for a non-negative offset, starts on its track |
| GameState.GameState.constructor | game_state.py:10-26 | a new game holds the initial layout, with score 0 and not over |
| GameState.GameState.AddInitialCubes | game_state.py:29-50 | appends the twelve initial entries in order |
| GameState.GameState.AddInitialPlatforms | game_state.py:31-35 | appends the floor (blue, size 20) and the two walls (size 1, wall colour) as fixed entries at rest |
| GameState.GameState.AddInitialMovables | game_state.py:38-43 | appends the six movable red cubes, the last of size 0.5 |
| GameState.GameState.AddInitialExtras | game_state.py:46-50 | appends the two coins and the moving platform from (0, 2) with end-point offset (3, 0) |
| GameState.GameState.Reset | game_state.py:53-57 | score 0, not over, and the list rebuilt to exactly the initial layout |
| GameState.GameState.UpdateScore | game_state.py:60-62 | adds the points and returns the new score |
| GameState.GameState.CreateCube | game_state.py:65-91 | appends one active cube record made from the first two coordinates, with zero velocity and red colour unless given |
| GameState.GameState.AddPlatform | game_state.py:94-97 | appends a fixed cube at rest, blue unless a colour is given |
| GameState.GameState.CreateCollectible | game_state.py:100-113 | appends a movable gold coin of size 0.3 |
| GameState.GameState.CreateMovingPlatform | game_state.py:116-133 | appends a fixed platform that starts forward at speed 2, from `position` to `position + endpoints` |
| GameState.GameState.Update | game_state.py:136-184 | once the game is over, nothing changes; otherwise the list and score are those of one Frame, and afterwards the flag is set exactly when no live cube remains |
| GameState.GameState.StepEntry | game_state.py:145-181 | the list and score become exactly one StepBody turn for entry `i` (arena step, partner scan, coin pass); the flag is kept |
| GameState.GameState.UpdateMovingPlatforms | game_state.py:187-218 | the list becomes exactly MovePlatformsUpTo over all entries: each active moving platform in turn steps and carries its riders; score and flag are kept |
| GameState.GameState.MovePlatform | game_state.py:188-218 | one turn of the platform loop: the list becomes exactly `MovePlatformAt` for entry `p`; score and flag are kept |
| GameState.GameState.CarryRidersOf | game_state.py:213-218 | the rider loop: the list becomes exactly `CarryRiders` of the old list, so carried entries ride by the delta and all others are unchanged; score and flag are kept |
| GameState.GameState.CheckCubeCollisions | game_state.py:251-361 | the list becomes exactly the partner scan CollideAll computes for `current` (partners in list order; fixed partners are never moved, and the scan stops at the first separating dynamic pair); score and flag are kept |
| GameState.GameState.CheckCollectibleCollision | game_state.py:233-248 | exactly the coins the cube touches are deactivated, and the score rises by 10 for each |
| GameState.GameState.CheckGameOver | game_state.py:364-368 | the flag becomes set when no active, movable cube is left, and is never cleared |
| GameStatePhysics.ClampToArena | game_state.py:162-174 | the floor at -10 and walls at +-15 clamp the position (half the size inward) and reverse the clamped axis's velocity, scaled by 0.7; an unclamped axis is untouched, and every field other than position and velocity is kept |
| GameStatePhysics.Integrated | game_state.py:147-160 | gravity lowers vy by 9.8 * dt, then friction scales both velocity components by 0.98; the position moves by the new velocity times dt; the rotation advances by its speed times dt; nothing else changes |
| GameStatePhysics.ArenaStep | game_state.py:147-174 | a body's integration followed by the arena clamp changes only position, velocity and rotation, and the rotation advances by rotation_speed * dt |
| GameStatePhysics.ArenaStepStaysInArena | game_state.py:147-174 | for size <= 30, after a step the body is above the floor and between the walls |
| GameStatePhysics.PlatformStep | game_state.py:194-210 | a platform step changes only x and the direction: the whole body, including y, velocity, end points and speed, is otherwise kept |
| GameStatePhysics.PlatformDelta | game_state.py:194-197 | the step's displacement is speed times dt moving forward (direction 1) and its negation moving backward (direction -1) |
| GameStatePhysics.PlatformForward | game_state.py:200-203 | moving forward, reaching or passing the end x clamps to it and sets the direction to -1; otherwise x moves by the delta |
| GameStatePhysics.PlatformBackward | game_state.py:204-207 | moving backward, reaching or passing the start x clamps to it and sets the direction to 1 |
| GameStatePhysics.PlatformStaysOnTrack | game_state.py:194-210 | a platform between its end points, with direction +-1, stays between them |
| GameStatePhysics.RestingCubeIsOnPlatform | game_state.py:221-230 | `OnPlatform` (`is_cube_on_platform`): a cube centred over the platform and resting on its top face is on it; a cube at or below the platform's centre never is |
| GameStatePhysics.Ride | game_state.py:218 | a rider's x moves by the delta and nothing else changes |
| GameStatePhysics.CarryRiders | game_state.py:213-218 | exactly the carried entries (active, movable, not the platform, on it) ride, by the unclamped delta |
| GameStatePhysics.RiderKeepsOffset | game_state.py:194-218 | when the platform reaches no end point, a rider keeps its horizontal offset from the platform, and its y and velocity |
| GameStatePhysics.PlatformPassLeavesOthers | game_state.py:213-218 | fixed or inactive entries are never carried |
| GameStatePhysics.MovePlatformAt | game_state.py:188-218 | one turn of the platform loop keeps the list's length and every entry's size, fixed flag and kind |
| GameStatePhysics.MovePlatformsUpTo | game_state.py:188-218 | the platform loop over the first `n` entries keeps the list's length and every entry's size, fixed flag and kind |
| GameStatePhysics.TouchingIffOverlapPositive | game_state.py:262-283 | `Touching` and `Overlap`: with the true root, the squared test `distance < combined_size` holds exactly when the overlap is positive |
| GameStatePhysics.NormalIsUnit | game_state.py:273-280 | `Normal`: with the true root and a unit drawn normal, the normal has unit length, and when the centres are apart it points from the partner towards the mover |
| GameStatePhysics.StaticPush | game_state.py:271-294 | against a fixed body the mover is pushed out by the overlap along the normal; its velocity is kept unless it moves into the body |
| GameStatePhysics.StaticReflection | game_state.py:289-294 | with a unit normal, an approaching body's normal speed becomes -0.4 times the old value, which is positive, and its tangential speed is kept |
| GameStatePhysics.UnitKickDots | game_state.py:292-294 | subtracting k times a unit normal from a velocity lowers its normal component by exactly k and keeps its tangential component |
| GameStatePhysics.Mass | game_state.py:338-339 | size cubed is a positive mass |
| GameStatePhysics.DynamicResolve | game_state.py:298-358 | a separating pair keeps its velocities and stops the scan; otherwise both bodies take the restitution impulse (with opposite signs) plus their noise |
| GameStatePhysics.KickMomentum | game_state.py:349-352 | without noise, a kick adds exactly the impulse to the momentum |
| GameStatePhysics.DynamicMomentumConserved | game_state.py:325-352 | with zero noise, momentum with size-cubed masses is conserved |
| GameStatePhysics.ApproachingPairKeepsMomentum | game_state.py:333-352 | with zero noise, the impulse an approaching pair takes keeps total momentum with size-cubed masses |
| GameStatePhysics.OpposedKicksKeepMomentum | game_state.py:349-352 | two noiseless kicks by opposite impulses keep the total momentum |
| GameStatePhysics.DynamicSeparatingPair | game_state.py:311-331 | a separating pair is already pushed apart by exactly the overlap along the normal when the function returns |
| GameStatePhysics.Resolve | game_state.py:257-361 | a pair that does not touch is unchanged; a fixed partner is never changed and never stops the scan, and the mover takes its `StaticPush`; a touching movable partner gives exactly `DynamicResolve` with the pair's normal and overlap; only positions and velocities change |
| GameStatePhysics.CollideFrom | game_state.py:255-361 | the scan keeps every entry's size, fixed flag, kind and active flag |
| GameStatePhysics.CollideAll | game_state.py:251-253 | the whole scan keeps the list's shape and positive sizes |
| GameStatePhysics.CollideFromKeepsFixed | game_state.py:271-297 | a fixed body other than the mover is never moved by the scan |
| GameStatePhysics.CollideFromUntouchedPartner | game_state.py:255-269 | entries before the scan's starting partner index are never changed by the rest of the scan |
| GameStatePhysics.CollideFromStopsOnSeparatingPair | game_state.py:255-331 | when the mover touches an active dynamic partner `j` and the two are already moving apart, the scan returns right there: only the two are changed, pushed apart with their velocities kept, and every other body keeps its state |
| GameStatePhysics.CountPickedZeroIffNone | game_state.py:234-242 | nothing scores exactly when the cube touches no active coin |
| GameStatePhysics.PicksIsDistanceTest | game_state.py:235-242 | `Picks`: with the true root, a coin is picked exactly when it is an active collectible whose centre is closer than the mean of the two sizes |
| GameStatePhysics.CountPicked | game_state.py:234-246 | a pass never picks more coins than the list has entries |
| GameStatePhysics.PickupPass | game_state.py:233-248 | exactly the touched active coins are deactivated; nothing else changes |
| GameStatePhysics.PickupIsOneShot | game_state.py:235-244 | after a pass the same cube picks nothing more, so a second pass changes nothing and scores nothing |
| GameStatePhysics.PickupScoresPerCoin | game_state.py:242-246 | the number of coins scored equals the number of entries the pass deactivates |
| GameStatePhysics.NoLiveCubesIffCountZero | game_state.py:366-368 | the live-cube count is 0 exactly when no entry is an active, movable cube |
| GameStatePhysics.CountLiveCubes | game_state.py:364-368 | there are never more live cubes than entries |
| GameStatePhysics.StepBody | game_state.py:145-181 | one turn of the body loop keeps the list's shape and never lowers the score |
| GameStatePhysics.StepUpTo | game_state.py:144-181 | the body loop keeps the list's shape and never lowers the score |
| GameStatePhysics.Frame | game_state.py:141-181 | a frame keeps the list's shape and never lowers the score |
| GameStatePhysics.PlatformsKeepStatic | game_state.py:187-218 | the platform pass never changes a fixed entry that is not a moving platform |
| GameStatePhysics.StepBodyKeepsStatic | game_state.py:145-181 | one body turn never changes a fixed entry that is not a coin |
| GameStatePhysics.StepsKeepStatic | game_state.py:144-181 | the body loop never changes a fixed entry that is not a coin |
| GameStatePhysics.FrameKeepsStaticPlatforms | game_state.py:141-181 | a static platform is exactly the same after a frame |
| MainGame.TruncToInt | main.py:43 | Python's `int()` truncates toward zero |
| MainGame.NormalizeColor | main.py:42-45 | a colour with at least three components keeps the first three, truncated; a shorter one falls back |
| MainGame.ClampDt | main.py:552 | the frame time is at most 0.1, and unchanged when it is already at most 0.1 |
| MainGame.Fly | main.py:113-126 | gravity (+y), then friction on both axes, then one Euler step with the new velocity; the rotation advances by rotation_speed * dt; nothing else changes |
| MainGame.Spun | main.py:108-110 | a collectible's turn: only the rotation changes, by rotation_speed * dt |
| MainGame.ScreenClamp | main.py:131-148 | the collision flag is set exactly when some screen edge is crossed; only position and velocity change |
| MainGame.ScreenClampBounds | main.py:131-148 | for 2 * size within the screen, the object ends inside the screen; a clamped axis has its velocity negated and scaled by 0.7; an unclamped axis is untouched |
| MainGame.OverlappingIffPenetrationPositive | main.py:153-169 | `Overlapping` and `Penetration`: with the true root, the squared test `distance < min_dist` holds exactly when the penetration is positive |
| MainGame.PairNormalIsUnit | main.py:159-166 | `PairNormal`: with the true root and a unit drawn normal, the normal has unit length, and when the centres are apart it points from the partner towards the mover |
| MainGame.StaticBounce | main.py:172-183 | pushed out by the penetration along the normal; the velocity is kept unless moving into the obstacle |
| MainGame.StaticBounceReflects | main.py:178-181 | with a unit normal, an approaching object's normal speed becomes -0.4 times the old value, and its tangential speed is kept |
| MainGame.AreaMass | main.py:216-217 | size squared is a positive mass |
| MainGame.KickMomentum | main.py:226-229 | without noise, a kick adds exactly the impulse to the momentum |
| MainGame.DynamicExchange | main.py:191-237 | a separating pair keeps its velocities and is not a collision; otherwise both take the impulse with opposite signs plus noise, and it is a collision |
| MainGame.DynamicExchangeMomentum | main.py:207-229 | with zero noise, momentum with size-squared masses is conserved |
| MainGame.ApproachingExchangeKeepsMomentum | main.py:207-229 | with zero noise, the impulse an approaching pair takes keeps total momentum with size-squared masses |
| MainGame.OpposedKicksKeepMomentum | main.py:226-229 | two noiseless kicks by opposite impulses keep the total momentum |
| MainGame.SeparatingPairIsStillSplit | main.py:192-213 | when the impulse is skipped, the pair has already been moved apart by the penetration |
| MainGame.Interact | main.py:152-237 | a pair that does not overlap is unchanged; a static partner is never changed, always counts as a collision, and the mover takes its `StaticBounce`; a cube meeting a movable coin deactivates it and moves neither; any other movable partner gives exactly `DynamicExchange` when the mover moves, and no change and no collision when the mover is static |
| MainGame.PassFrom | main.py:151-237 | the partner loop keeps every object's size, static flag, type and rotation, and the mover's active flag |
| MainGame.PassKeepsStatic | main.py:172-183 | a static partner leaves the loop exactly as it entered |
| MainGame.PassDeactivatesOnlyCoins | main.py:185-188 | only collectibles are ever deactivated |
| MainGame.ShrunkSize | main.py:60 | the new size is never negative, never grows while life remains, and is 0 once life is spent |
| MainGame.Particle.constructor | main.py:37-53 | the position is given, the colour is normalised (white fallback), size and life are the draws, and max life equals life |
| MainGame.Particle.Update | main.py:55-61 | moves by its velocity, falls by 0.05, loses one life, shrinks in proportion to the life left, and reports life > 0 |
| MainGame.Survivors | main.py:415-420 | the survivors are particles of the list whose life is positive |
| MainGame.SurvivorsKeepsLiving | main.py:415-420 | every living particle of the list is a survivor |
| MainGame.GameObject.constructor | main.py:83-102 | an active object at rest and unrotated, with the colour normalised (grey fallback); a cube spins at the drawn speed, anything else at 90 |
| MainGame.GameObject.Update | main.py:104-239 | inactive or static: nothing changes and false is returned; a collectible only spins by rotation_speed * dt and returns false; otherwise fly (which spins it by rotation_speed * dt), clamp, then the partner loop, whose result is its new view and every partner's; no other object's rotation changes, static partners are never moved and only coins are deactivated |
| MainGame.GameObject.Travel | main.py:113-239 | the moving case: the object flies, spins by rotation_speed * dt, is clamped and meets its partners exactly as `PassFrom` computes; partners keep their rotation, static partners do not move, and non-collectibles keep their active flag |
| MainGame.GameObject.Launch | main.py:113-148 | the object's view becomes the screen clamp of its flight, spin included, and the clamp's flag is returned |
| MainGame.GameObject.MeetObjects | main.py:150-238 | every other active object in list order meets this one, as PassFrom computes; no object's rotation changes |
| MainGame.GameObject.MeetStep | main.py:151-237 | one turn of the partner loop: continuing `PassFrom` from the next partner after it gives the same result as from this partner before it |
| MainGame.GameObject.Meet | main.py:152-237 | both objects take the outcome of one Interact |
| MainGame.ObjectTurn | main.py:104-239 | `obj.update` on the views of the whole list: every object keeps its size, static flag and type; only the object taking its turn turns, by rotation_speed * dt, and only when active and not static; an inactive or static object changes nothing, and an active collectible only spins; neither reports a collision, and a collision is reported only by an active, non-static, non-collectible object |
| MainGame.MoverTurn | main.py:113-239 | a moving object's turn is the fly, the clamp and the partner loop, with the mover's own result put back in its place |
| MainGame.ObjectTurnKeepsStatic | main.py:172-188 | one object's update never moves a static object and deactivates nothing but collectibles |
| MainGame.ObjectsPass | main.py:407-412 | the object loop over the first `n` objects keeps every object's size, static flag and type, and counts at most one burst per object; it also records where each burst particle is made |
| MainGame.NextPass | main.py:408-412 | one turn of the object loop: object `n` takes its turn, the burst count rises by at most one, and that turn's births are appended |
| MainGame.ObjectsPassStep | main.py:408-412 | one more turn of the object loop is object `n`'s turn on the views the earlier turns left, with one more burst exactly when it collided and is not static |
| MainGame.PassTraceOf | main.py:407-412 | the running results of the object loop after 0, 1, ..., n turns start at the initial views and end at the whole loop's result, each the turn of its index applied to the one before |
| MainGame.PassesFormTrace | main.py:407-412 | the results of the object loop after each number of turns form such a trace |
| MainGame.TraceKeepsStatic | main.py:407-412 | along the object loop, a static object never moves and only collectibles change their active flag |
| MainGame.NextPassKeepsStatic | main.py:408-412 | one turn of the object loop never moves a static object and deactivates nothing but collectibles |
| MainGame.ObjectsPassKeepsStatic | main.py:407-412 | the whole object loop never moves a static object and deactivates nothing but collectibles |
| MainGame.StaticViewsKept | main.py:407-412 | objects that show the object loop's result have their static members unmoved and only collectibles deactivated |
| MainGame.PassRotations | main.py:104-126 | after the first `n` turns of the object loop, object j has turned once, by rotation_speed * dt, if its own turn has come and it was then active and not static; otherwise it has not turned |
| MainGame.TraceUpTo | main.py:407-412 | the loop's results after 0, ..., n turns form a trace from `vs`, whose entries n and j are the loop's results after n and j turns |
| MainGame.TraceRotationAt | main.py:104-126 | on a trace of `n` turns from `vs`, the rotation at entry `n` is as `PassRotations` states |
| MainGame.RotationOfTrace | main.py:407-412 | a rotation read off a trace of the loop's own results is the loop's rotation |
| MainGame.TraceRotations | main.py:104-126 | along a trace of the object loop, an object turns only in its own turn, and then only when active and not static |
| MainGame.NextPassRotation | main.py:104-126 | one turn of the object loop turns the object taking it alone, and only when it is active and not static |
| MainGame.LoopRotations | main.py:407-412 | objects showing the whole loop's views are turned as `PassRotations` says (`LoopRotated`) |
| MainGame.TurnBirths | main.py:410-412 | one turn's births: ten when the turn hits and the object is not static, none otherwise; birth k is at the object's position after the turn |
| MainGame.BornAtAppend | main.py:408-412 | particles made at one list of births, followed by particles made at another, are made at the two lists joined |
| MainGame.BurstColor | main.py:348-354 | the burst colour is the random one, each channel from 100 to 255, when none is given; white when the given one is too short; the given one otherwise |
| MainGame.InitialObjectsCounts | main.py:314-346 | the initial objects are exactly 3 static platforms, 5 movable cubes and 3 movable collectibles |
| MainGame.Game.constructor | main.py:298-312 | a game holds the eleven initial objects and no particles |
| MainGame.Game.AddInitialObjects | main.py:314-346 | appends the floor, the two walls, the five drawn cubes and the three drawn gold collectibles of size 15, in that order |
| MainGame.Game.AddPlatformObjects | main.py:314-326 | appends the floor and the two walls, static blue platforms at rest |
| MainGame.Game.AddCubes | main.py:329-339 | one cube per draw, appended in order |
| MainGame.Game.AddCoins | main.py:342-346 | one gold collectible of size 15 per draw, appended in order |
| MainGame.Game.AddObject | main.py:338-339 | a new object at rest goes to the end of the list |
| MainGame.Game.CreateParticles | main.py:348-359 | appends max(0, count) new particles of one burst colour, each offset from the centre by its draw |
| MainGame.Game.Update | main.py:406-420 | the objects show exactly the views `ObjectsPass` computes (each object takes `obj.update` in list order), and each object has turned by rotation_speed * dt exactly when it was active and not static at its own turn (`LoopRotated`); there are exactly ten new particles per non-static object that collided, and each has taken one step from its birth: particle k of object i's burst starts at i's position after its turn, offset by `bursts[i][k]`, in i's colour, with that draw's lifetime (`SteppedBirths`); the particle list becomes the survivors of old plus new, in order; old particles take one step; static objects never move and only coins are deactivated |
| MainGame.Game.UpdateObjects | main.py:407-412 | the objects show exactly `ObjectsPass` over the whole list; the particle list gains exactly ten fresh particles per burst it counts, each made as the loop's births say: particle k of object i's burst at i's position after its turn, in i's colour, from `bursts[i][k]`; old particles are untouched; static objects never move and only coins are deactivated |
| MainGame.Game.ObjectLoop | main.py:407-412 | the loop over all objects in list order: the objects and particles end as the trace's last entry says, each new particle made as that entry's births say, and every particle is old or fresh |
| MainGame.Game.ObjectLoopTurn | main.py:408-412 | turn `i`: the objects move from the trace's entry `i` to entry `i + 1`, and the particles gain exactly that turn's burst, made as the births entry `i + 1` adds say |
| MainGame.Game.TakeTurn | main.py:408-412 | `objects[i]` takes exactly `ObjectTurn`; exactly ten particles are added when it reports a collision and is not static, none otherwise, and they are made as `TurnBirths` says: particle k at its new position, in its colour, from `bursts[i][k]` |
| MainGame.Game.BurstOnCollision | main.py:410-412 | after an update, ten particles are added exactly when it collided and the object is not static, made as `TurnBirths` of that update says; no object changes |
| MainGame.Game.Burst | main.py:412 | `create_particles([obj.x, obj.y], obj.color, 10)`: ten fresh particles at the object's position in its colour, one per draw; no object changes |
| MainGame.Game.MoveObject | main.py:409 | `obj.update(dt, self.objects)`: the objects show exactly `ObjectTurn` for `i`, rotations included, and its collision flag is returned |
| MainGame.Game.MoveValid | main.py:409 | the same move on a valid game, which leaves the particle list alone: views and collision flag are exactly `ObjectTurn`'s |
| MainGame.Game.KeepObject | main.py:104-111 | an inactive or static object changes no view; an active collectible only spins by rotation_speed * dt; no collision is reported, and the views are exactly `ObjectTurn`'s |
| MainGame.Game.FlyObject | main.py:113-239 | a moving object's update gives exactly the views, its own spin included, and the collision flag of `ObjectTurn` |
| MainGame.Game.UpdateParticles | main.py:415-420 | every particle takes one update, and exactly those still alive stay, in their old order |
| MainGame.Game.FilterParticles | main.py:415-420 | the while/pop loop keeps exactly the particles whose old life exceeded 1, in order, each updated once |
| MainGame.Game.FilterLoop | main.py:416-420 | the while/pop loop from its start keeps exactly the particles whose old life exceeded 1, in order, each updated once |
| MainGame.Game.FilterTurn | main.py:416-420 | one turn updates the particle at `i`, then keeps it and advances, or pops it |
| MainGame.KeptLiveIsSurvivors | main.py:415-420 | after all updates, the entries kept by their old lives are exactly the survivors |
| MainGame.SurvivorsDistinct | main.py:415-420 | filtering keeps the particle list free of repeats |
| Rendering.Sparks | rendering.py:27-43 | one record per draw, the i-th record built from the i-th draw, in draw order |
| Rendering.NewSparkInRange | rendering.py:27-43 | `NewSpark`: an emitted particle starts at the given point on the plane, opaque, each colour channel within 0.1 of the given one, moving upward, with size and lifetime in their draw ranges, and not yet expired |
| Rendering.PushKeepsNewest | rendering.py:22-44 | `Push`: one push into at most a full buffer keeps the newest min(n + 1, 100) records of the old ones followed by the new one |
| Rendering.PushAllKeepsNewest | rendering.py:21-44 | `PushAll`: from at most 100 records, emitting leaves the newest min(n + count, 100) records of old followed by new, in order; the oldest are dropped |
| Rendering.Advance | rendering.py:62-74 | a surviving particle moves by its old velocity times dt (z is kept), then vy drops by 5 * dt and vx, vz are kept; its size is scaled by 1 - 0.5 * dt; its colour keeps r, g, b and its alpha becomes 1 - age / lifetime, which lies in (0, 1] when 0 <= age < lifetime |
| Rendering.Aged | rendering.py:51-76 | the pass never lengthens the buffer and keeps every lifetime positive |
| Rendering.ExpiryFollowsClock | rendering.py:56-57 | `Expired`: a particle with a positive lifetime is not expired at its creation time, and once expired it stays expired |
| Rendering.UnexpiredExactly | rendering.py:56-60 | a record stays exactly when it was in the buffer and its age is below its lifetime |
| Rendering.AgedIsAdvancedUnexpired | rendering.py:51-76 | the pass drops exactly the expired records, as many as expired, and advances the others in order |
| Rendering.ParticleSystem.constructor | rendering.py:14-18 | an empty buffer |
| Rendering.ParticleSystem.EmitParticles | rendering.py:20-44 | the buffer becomes PushAll of the old records and the new ones; it stays within 100 records with positive lifetimes |
| Rendering.PushAllLive | rendering.py:20-44 | emitting records with positive lifetimes into a valid buffer keeps it within 100 records, all with positive lifetimes |
| Rendering.ParticleSystem.PushParticle | rendering.py:22-44 | one loop turn: a full buffer first loses its oldest record, then the new record joins at the end |
| Rendering.ParticleSystem.Update | rendering.py:46-76 | the while/pop loop leaves exactly Aged of the old buffer, so it stays valid |
| Rendering.ParticleSystem.AdvanceAt | rendering.py:62-74 | the in-place field updates turn the record at `i` into its Advance, and nothing else changes |

## Left out

- Rendering and input are not part of this model. That covers:
  - rendering.py's `Renderer` and `ParticleSystem.render`;
  - `CubeManager.render` and `get_cube_manager`;
  - main.py's `draw`, `render` and `handle_events`, including the R-key
    reset and objects created by mouse clicks;
  - the camera and zoom keys in `Game.update`;
  - ui.py.
- sound.py is not part of this model; every `sound.play_*` call is a no-op.
- File I/O is not part of this model: `save_state`, `load_state`,
  `save_game`, `load_game` and `load_level`.
- `update_active_cube_position` polls window keys and calls
  `game_state.increment_step` and `update_cube_speed`, which game_state.py
  does not define.
- Taichi field allocation is left out, with one exception: `CubeTable.constructor`
  stands for `init()`.
- `init_taichi` and the rest of config.py are not modelled beyond the
  constants the core reads.
- Floating-point rounding is not modelled: every number is an exact real.
  Particle and object sizes drawn by `randint` are integers turned into reals.
- Python lists shared between records (aliasing of position lists) are
  not modelled: every record holds its own values.
- Trigonometry is not modelled:
  - The random angle's normal and a particle's velocity `cos`/`sin` are
    parameters.
  - The normal's unit length is a lemma hypothesis where a property needs it.
- `GameState.GameState.CreateCube`: requires at least two coordinates.
  Python would keep a shorter list and fail later, on first use.
- `GameState.GameState.AddPlatform`: requires at least two coordinates for the
  same reason, since `add_platform` hands its position to `create_cube`
  unchecked.
- `GameState.GameState.UpdateMovingPlatforms`: also skips a moving platform
  without track keys. The source never builds one.
- `GameState.GameState.Update`, `MainGame.GameObject.Update` and
  `MainGame.Game.Update`: require positive sizes.
  - The source divides by size only for masses and weights, and every size
    it creates is positive.
  - The GameObject versions also require that no object appears twice in the
    list, which holds for lists the game builds.
- `MainGame.Game.CreateParticles`: a colour that is not a sequence, Python's
  `isinstance` fallback, is not modelled. A colour is either absent or a
  sequence of numbers.
- `MainGame.Game.CreateParticles`: the default `count=20` is not modelled.
  Every caller passes the count, and the object loop passes 10.
- `GameState.GameState.UpdateScore`: the default `points=1` is not modelled.
  Its only caller, the coin pickup at game_state.py:246, passes 10.
- `Rendering.ParticleSystem.EmitParticles`: requires at least two position
  and three colour components when count > 0, where Python would raise
  `IndexError`.
- `Rendering.ParticleSystem.Update`: requires positive lifetimes (the
  buffer's `Valid`). Emission draws every lifetime from [0.5, 1.0].
- `GameStatePhysics.CollideFrom`, `GameStatePhysics.StepBody`,
  `GameStatePhysics.StepUpTo` and `GameStatePhysics.Frame`: their own
  ensures state only shape and score monotonicity. What they do to bodies is
  stated by the lemmas about them and by the `GameState` methods proved
  equal to them.
- `GameStatePhysics.ArenaStep`: its own ensures state the frame and the
  rotation only. The motion is stated by `Integrated`, the clamp by `ClampToArena`,
  and the bounds by `ArenaStepStaysInArena`.
- `GameStatePhysics.MovePlatformAt` and `GameStatePhysics.MovePlatformsUpTo`:
  their own ensures state only the list's shape. The platform's motion is
  stated by `PlatformForward`, `PlatformBackward` and `PlatformStaysOnTrack`,
  and the riders by `RiderKeepsOffset` and `PlatformPassLeavesOthers`.
- `GameStatePhysics.CountPicked` and `GameStatePhysics.CountLiveCubes`: their
  own ensures give only an upper bound. What they count is stated by
  `CountPickedZeroIffNone`, `PickupScoresPerCoin` and `NoLiveCubesIffCountZero`.
- `CubeManager.ShiftDown`: its own ensures give only the length. The contents
  are stated by `ShiftDownRemovesIndex`.
- `MainGame.ObjectsPass` and `MainGame.NextPass`: their own ensures state only
  what the loop keeps and a bound on bursts. Each turn is stated by
  `ObjectsPassStep` and `TakeTurn`, static objects by `ObjectsPassKeepsStatic`,
  rotations by `PassRotations`, and births by `UpdateObjects` and `Game.Update`.
