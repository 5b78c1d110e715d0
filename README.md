# Flight simulator core, modelled in Dafny

This project models the rule-based core of a browser flight simulator written
in JavaScript, and proves properties of that model. The simulator has a
per-frame physics engine, a collision/game-over detector, an input manager
for keyboard and touch controls, a seeded random generator with a few math
helpers, and a simulator object holding the shared flight state.

Modules, one per source file:

- `Wrappers` (`wrappers.dfy`): `Option`.
- `HostMath` (`host_math.dfy`): the vector operations of `THREE.Vector3` that the core uses. It also holds the host's `Math.sqrt`, `Math.cos`, `Math.sin` and `Math.exp` as fields of a `RealMath` value. Only one law is assumed, and only where a statement needs it: `sqrt` returns a non-negative root of a non-negative argument (`Lawful`).
- `MathUtils` (`math_utils.dfy`): `utils/MathUtils.js`. This covers the linear-congruential generator as a class, JavaScript's truncating `%`, `clamp`, `lerp`, `normalizeAngle`, the angle conversions, `distance` and `calculateGForce`.
- `Controls` (`controls_manager.dfy`): `modules/ControlsManager.js`.
  - The value mappings of the throttle lever and the flight stick, and the touch-slot bookkeeping, as functions over a `Pad` value.
  - The `ControlsManager` class, whose listeners and handlers update its fields in place.
- `Game` (`flight_simulator.dfy`): the `FlightSimulator` object of `game.js`, with its initial state, configuration constants and seeded generator.
- `FlightRules` (`physics_rules.dfy`): the pure rules the physics engine applies, written as functions with their properties as lemmas. These are the mode classifier, throttle stepping and auto-trim, the yaw-rate formulas, elevator and pitch, roll, the banking turn, the trim system, the speed limiter and ground contact.
- `Physics` (`physics_engine.dfy`): the `PhysicsEngine` class. Its methods change the attitude fields and the simulator's fields step by step, as the source does, and each is proved against the `FlightRules` functions.
  - `ProcessElevatorInput` is the first block of `processPrecisionControls` (the elevator update), split off as its own method.
- `Collision` (`collision.dfy`): the `CollisionDetection` class.
  - Obstacle generation by rejection sampling from the simulator's generator.
  - The ground rule and the first-match box search.
  - The latched game-over state. The game-over screen is modelled by the list `shownReasons` of reasons shown.
  - `Draw`, `DrawWindmillSpot`, `DrawBuildingSize` and `DrawBuildingSpot` are the generator calls inside `collectBuildingData`, split off as methods.

The touch controls are wired as the physics engine reads them. The right joystick is the flight stick of the controls manager, and it drives the throttle, the afterburner, pure yaw and the yaw-damping gate. The left joystick is the throttle lever, and it drives the elevator, roll, ground steering and the pitch-trim gate (modules/PhysicsEngine.js:78-89). The engine and the controls manager disagree on the roles. The engine's comments call the right joystick the thrust control (modules/PhysicsEngine.js:115), and describe the left joystick with the flight stick's convention, up is negative (modules/PhysicsEngine.js:285). The controls manager, however, feeds the throttle lever into the left joystick and the flight stick into the right one (modules/ControlsManager.js:212-218). The model follows the code as written, and `FlightRules.LeverDrivesElevator` and `FlightRules.StickDrivesThrottle` state what that wiring does.

Numbers are Dafny `real`s, so arithmetic is exact. Integer arithmetic of the generator is `int`, with JavaScript's `%` written out.

## Model

| member | source | states |
|---|---|---|
| MathUtils.JsRem | utils/MathUtils.js:11 | JavaScript's `%` on integers: the dividend minus a multiple of the divisor, smaller than the divisor in magnitude, with the sign of the dividend (which fixes the value) |
| MathUtils.JsRem360 | utils/MathUtils.js:87 | `a % 360` on numbers: `a` minus a whole number of turns, inside (-360, 360), with the sign of `a` |
| MathUtils.SeedStaysInRange | utils/MathUtils.js:11-12 | from a non-negative seed one step gives a seed in [0, 233280) and an output in [0, 1) |
| MathUtils.StepIsExactInDoubles | utils/MathUtils.js:11 | for a seed in range, `seed*9301 + 49297` stays below 2^53, so the double arithmetic is exact |
| MathUtils.DrawsInUnitInterval | utils/MathUtils.js:8-14 | every value drawn from a non-negative seed lies in [0, 1) |
| MathUtils.SeededRandom.constructor | utils/MathUtils.js:8-9 | the generator starts at the initial seed and has drawn nothing |
| MathUtils.SeededRandom.Next | utils/MathUtils.js:10-13 | one call advances the seed by the recurrence, returns `seed / 233280`, and appends the value to the ghost history `drawn` of values returned so far |
| MathUtils.SameSeedSameSequence | utils/MathUtils.js:8-14 | two generators with the same initial seed return the same sequence; the one called less often has returned a prefix of the other's |
| MathUtils.GeneratorInUnitInterval | utils/MathUtils.js:8-14 | a generator started from a non-negative seed has only returned values in [0, 1) |
| MathUtils.CalculateGForceLaws | utils/MathUtils.js:22-29 | the estimate is 0 without a previous velocity, never negative, and 0 exactly when the velocity did not change |
| MathUtils.DistanceLaws | utils/MathUtils.js:77-79 | distance is non-negative and symmetric, and it is zero exactly between equal points |
| MathUtils.DegreesRadiansRoundTrip | utils/MathUtils.js:36-47 | the two conversions are inverse to each other, both ways round |
| MathUtils.Clamp | utils/MathUtils.js:56-58 | with min ≤ max the result lies in [min, max] and equals a value already in range; above max it is max; with min > max it is max |
| MathUtils.Limit | modules/PhysicsEngine.js:262 | the inline `Math.max(lo, Math.min(hi, v))` lies in [lo, hi], keeps values in range, pins at the ends, and agrees with `clamp` when lo ≤ hi |
| MathUtils.Lerp | utils/MathUtils.js:67-69 | interpolation returns `a` at t = 0 and `b` at t = 1 |
| MathUtils.LerpBetween | utils/MathUtils.js:67-69 | for t in [0, 1] the result lies between `a` and `b` |
| MathUtils.NormalizeAngleSpec | utils/MathUtils.js:86-88 | the result lies in [0, 360) and is the floored remainder `angle - 360·floor(angle/360)` |
| MathUtils.NormalizeAngleIdempotent | utils/MathUtils.js:86-88 | normalising twice equals normalising once, and angles in [0, 360) are kept |
| Controls.SetSlot | modules/ControlsManager.js:108 | assigning a controller's slot changes that slot only |
| Controls.LeverPosition | modules/ControlsManager.js:227-231 | the knob height lies in [15, 165] pixels |
| Controls.LeverValueRange | modules/ControlsManager.js:237-244 | the throttle value lies in [-1, 1]: -1 at the bottom stop, 0 at the 40 px knee, 1 at the top; it is negative exactly below the knee |
| Controls.LeverValueMonotone | modules/ControlsManager.js:237-244 | the mapping never decreases, and heights d pixels apart give values at most d/25 apart |
| Controls.ThrottleLever | modules/ControlsManager.js:221-255 | a touch on the lever makes it active with x = 0 and y in [-1, 1] |
| Controls.ApplyDeadZone | modules/ControlsManager.js:291-294 | a component of magnitude ≤ 0.2 becomes 0; larger ones are kept |
| Controls.StickOffsetWithinRadius | modules/ControlsManager.js:271-282 | after the radius clamp each offset component lies within 30 pixels |
| Controls.FlightStick | modules/ControlsManager.js:258-301 | each output is 0 or beyond the 0.2 dead zone; the stick is active exactly when one output is nonzero; a positive y means the touch is below the centre and a negative y above it |
| Controls.FlightStickSpec | modules/ControlsManager.js:258-301 | both outputs lie in [-1, 1] and are 0 or beyond the dead zone; `active` holds exactly when one is nonzero; y has the sign of the downward offset |
| Controls.SameSignAfterClamp | modules/ControlsManager.js:278-282 | the radius clamp keeps the sign of the vertical offset |
| Controls.UpdateControllerFromTouch | modules/ControlsManager.js:212-218 | a touch updates only its own controller, and the lever then reads active |
| Controls.ResetJoystick | modules/ControlsManager.js:308-332 | the named controller is centred and inactive; the other is untouched |
| Controls.AtMostOneTouch | modules/ControlsManager.js:104-115 | under the slot invariant, no two tracked touches share a controller |
| Controls.TouchStartPreserves | modules/ControlsManager.js:96-120 | a new touch keeps the one-touch-per-controller invariant; it binds a free controller it lies over and otherwise changes nothing |
| Controls.TouchStartAllPreserves | modules/ControlsManager.js:91-126 | the whole touchstart loop keeps the invariant for new, distinct touch ids, and tracks no other ids |
| Controls.TouchEndPreserves | modules/ControlsManager.js:163-178 | an ending touch keeps the invariant and is no longer tracked; if it was tracked, its controller is freed and centred; otherwise nothing changes |
| Controls.TouchEndAllPreserves | modules/ControlsManager.js:158-184 | the whole touchend loop keeps the invariant, and none of the ended touches stays tracked |
| Controls.ReleaseThenRebind | modules/ControlsManager.js:104-115 | once its touch has ended, a controller is bound by the next touch over it |
| Controls.SlotTestsAgreeOffZero | modules/ControlsManager.js:104 | the falsy-slot test as written and the `null` test differ only on a slot held by touch 0 |
| Controls.TouchZeroIsTakenOver | modules/ControlsManager.js:104 | as written, a second touch takes over the lever held by touch 0, breaking the invariant, while the `null` test leaves the pad unchanged |
| Controls.ControlsManager.constructor | modules/ControlsManager.js:4-28 | no key pressed, both controllers centred, no touch tracked; the slot invariant holds |
| Controls.ControlsManager.KeyDown | modules/ControlsManager.js:31-33 | the key reads pressed and every other key reads as before |
| Controls.ControlsManager.KeyUp | modules/ControlsManager.js:35-37 | the key reads released and every other key reads as before |
| Controls.ControlsManager.HandleTouchStart | modules/ControlsManager.js:91-126 | the loop leaves the pad state of the touchstart fold, and reports whether some touch was bound |
| Controls.ControlsManager.HandleTouchEnd | modules/ControlsManager.js:158-184 | the loop leaves the pad state of the touchend fold, and reports whether some touch was tracked |
| Controls.ControlsManager.ResetController | modules/ControlsManager.js:308-332 | the named controller returns to rest and the other is kept |
| Controls.ControlsManager.HasInput | modules/ControlsManager.js:444-453 | true exactly when some key reads pressed or either controller is active |
| Controls.ControlsManager.GetControlState | modules/ControlsManager.js:456-461 | the snapshot reads the same key states and controller values as the manager |
| Controls.ControlsManager.ResetControls | modules/ControlsManager.js:464-470 | all keys cleared, both controllers at rest, and so no input remains |
| Game.FlightSimulator.constructor | game.js:22-53 | the initial state is at rest on the runway start, throttle 0, ground mode, smoothing 1, no take-off clearance, with a fresh generator seeded 12345 |
| Game.FlightSimulator.CreateSeededRandom | game.js:59-65 | a fresh generator that starts at the given seed |
| FlightRules.NextCanTakeoff | modules/PhysicsEngine.js:62-74 | in the air the gate is open; on the ground it is open exactly when speed ≥ take-off speed and ArrowDown is held |
| FlightRules.NextFlightMode | modules/PhysicsEngine.js:41-51 | the mode is air exactly when altitude ≥ 3 or (speed ≥ 40 and the gate is open); below 40 km/h and 3 m it is ground |
| FlightRules.FlightModeIgnoresCurrent | modules/PhysicsEngine.js:41-51 | the classifier's branches are exhaustive, so the new mode does not depend on the current one |
| FlightRules.LeavingTheGround | modules/PhysicsEngine.js:36-74 | with the gate computed from the old ground mode, the aircraft becomes airborne exactly when altitude ≥ 3, or speed ≥ 40 and ≥ take-off speed with ArrowDown held |
| FlightRules.StayingAirborne | modules/PhysicsEngine.js:36-74 | once airborne, the aircraft returns to ground mode exactly when it is below 40 km/h and below 3 m |
| FlightRules.NextSmoothing | modules/PhysicsEngine.js:54-58 | a mode change restarts the smoothing at 0; otherwise it never falls and is capped at 1; it stays non-negative |
| FlightRules.ThrottleStepRange | modules/PhysicsEngine.js:96-135 | from [-0.8, 1] with a trim factor in [0, 1] the throttle stays in [-0.8, 1]; in the air S, or a non-negative start, keeps it ≥ 0; the right joystick (the flight stick), active and beyond 0.1, sets it to its y clamped to the mode's range |
| FlightRules.DefaultThrottleStepRange | modules/PhysicsEngine.js:130-135 | with the default trim and the cruise target, a frame of up to 1 s keeps the throttle in [-0.8, 1], and ≥ 0 in the air from a non-negative start |
| FlightRules.TargetThrottle | modules/PhysicsEngine.js:563-573 | the auto-trim target is 0 on the ground and lies in [0, 1] |
| FlightRules.TargetThrottleAtCruise | modules/PhysicsEngine.js:571-572 | at the target speed the target throttle is one half |
| FlightRules.TargetThrottleMonotone | modules/PhysicsEngine.js:571-572 | flying faster never raises the target; it is 1 at standstill and 0 from twice the target speed |
| FlightRules.TrimStrength | modules/PhysicsEngine.js:577-587 | simulation gives 0.6, expert 0.2, and arcade or any other setting 1; the strength lies in (0, 1] |
| FlightRules.GetTrimStrength | modules/PhysicsEngine.js:576-588 | `speed` reads the speed setting and every other kind the attitude setting; the result is in (0, 1] |
| FlightRules.DefaultTrimStrength | game.js:36-43 | with the simulator's arcade settings both strengths are 1 |
| FlightRules.GroundYawGain | modules/PhysicsEngine.js:183-192 | the ground yaw gain lies in [1.5, 4] and is 4 from 80 km/h |
| FlightRules.GroundYawGainMonotone | modules/PhysicsEngine.js:185-192 | the ground yaw gain never falls as speed rises |
| FlightRules.GroundYawRate | modules/PhysicsEngine.js:175-195 | below 2 km/h the ground yaw rate is 0 |
| FlightRules.AirSpeedFactor | modules/PhysicsEngine.js:206-219 | the air speed factor is at most 1, positive when moving, at least 0.5 from 40 km/h, and 1 between 150 and 400 km/h |
| FlightRules.DensityFactor | modules/PhysicsEngine.js:203 | the density factor is at least 0.3 |
| FlightRules.RollEffect | modules/PhysicsEngine.js:222 | the roll effect is at least 0.7 |
| FlightRules.PitchEffect | modules/PhysicsEngine.js:223 | the pitch effect is at least 0.8 |
| FlightRules.AirYawRateFactors | modules/PhysicsEngine.js:198-229 | the air yaw rate is the input times a gain, and the gain is positive when time passes and the aircraft moves |
| FlightRules.YawRateSign | modules/PhysicsEngine.js:175-229 | in both modes the yaw rate is odd in the input and, once fast enough to steer, has the input's sign |
| FlightRules.PureYawKeys | modules/PhysicsEngine.js:139-172 | A and D together cancel exactly; A alone yaws left and D alone right |
| FlightRules.ElevatorStepBounded | modules/PhysicsEngine.js:269-288 | for a frame of at most 2/3 s and a left-joystick y in [-1, 1], the deflection stays within ±π/6 |
| FlightRules.ElevatorDecayOvershoots | modules/PhysicsEngine.js:280 | a 1 s frame with no input flips a full deflection to -2·π/6, so the bound needs short frames |
| FlightRules.ElevatorPitch | modules/PhysicsEngine.js:232-264 | pitch ceilings: ground above 20 km/h [-π/6, π/12], or [-π/6, π/6] with clearance; ground slower unchanged; air [-π/4, π/4] |
| FlightRules.ElevatorPitchDirection | modules/PhysicsEngine.js:254-263 | in the air, negative deflection never lowers the nose and positive deflection never raises it |
| FlightRules.RollInput | modules/PhysicsEngine.js:323-340 | for a left-joystick x in [-1, 1] the roll input lies in [-1, 1] |
| FlightRules.LeverDrivesElevator | modules/PhysicsEngine.js:77-89 | the throttle lever, beyond 0.1 from idle, sets the elevator to -y·π/6; while held it switches the pitch trim off; it never rolls or steers, since its x is 0 |
| FlightRules.StickDrivesThrottle | modules/PhysicsEngine.js:77-83 | the flight stick, active and beyond 0.1, sets the throttle to its clamped y; pulling it below its centre opens the throttle and pushing it above closes it |
| FlightRules.ApproachRoll | modules/PhysicsEngine.js:350-362 | the bank moves toward the target by at most the rate, never past it, and lands on it when within one step |
| FlightRules.ClampRoll | modules/PhysicsEngine.js:377-378 | the bank is clamped to ±60° and kept when already within |
| FlightRules.RollStepTracksTarget | modules/PhysicsEngine.js:344-362 | with input the bank gets no farther from input·45°, moves by at most 120°/s·dt, and lands on the target when within one step |
| FlightRules.RollStepDecays | modules/PhysicsEngine.js:367-374 | without input the bank decays toward level without crossing it |
| FlightRules.RollStepBounded | modules/PhysicsEngine.js:343-374 | from within ±60° the roll step stays within ±60° |
| FlightRules.YawAssistNonNegative | modules/PhysicsEngine.js:398-409 | the yaw assist magnitude is never negative |
| FlightRules.BankingYawSpec | modules/PhysicsEngine.js:391-413 | the banking turn changes heading by at most 15°/s·dt, toward the lowered wing |
| FlightRules.BankingPitch | modules/PhysicsEngine.js:415-431 | after the banking turn the pitch lies in [-π/4, π/4] |
| FlightRules.BankingPitchSpec | modules/PhysicsEngine.js:415-431 | from within ±π/4 the compensation only raises the nose, by at most 6°·1.8·dt |
| FlightRules.PitchCompensationRange | modules/PhysicsEngine.js:416-423 | the adjusted compensation lies in [0, 6°] |
| FlightRules.TrimTargetPitch | modules/PhysicsEngine.js:522-537 | the trim target is level on the ground, stays in ±π/4 from within, is at most π/12 when slow and at least -π/20 when fast |
| FlightRules.PitchTrimBounded | modules/PhysicsEngine.js:539-546 | the pitch trim lerp keeps the pitch within ±π/4 |
| FlightRules.GroundPitchTrimLevels | modules/PhysicsEngine.js:522-546 | on the ground the pitch trim levels the nose without overshooting |
| FlightRules.DampedYawSpec | modules/PhysicsEngine.js:549-559 | yaw damping moves the heading toward 0 without crossing it |
| FlightRules.NormalizedUnit | modules/PhysicsEngine.js:948 | a nonzero velocity normalises to unit length |
| FlightRules.SpeedLimitRescales | modules/PhysicsEngine.js:941-950 | above the limit the velocity is rescaled by a factor in [0, 1] to exactly the top speed |
| FlightRules.SpeedLimitReachesMax | modules/PhysicsEngine.js:946-948 | above the limit the new speed is exactly the top speed |
| FlightRules.SpeedLimitScales | modules/PhysicsEngine.js:946-948 | above the limit the new velocity is the old one scaled by a factor in [0, 1], so its direction is kept |
| FlightRules.SpeedLimitSpec | modules/PhysicsEngine.js:941-950 | the limited speed never exceeds the top speed; a velocity within the limit is untouched; the direction is kept |
| FlightRules.GroundContact | modules/PhysicsEngine.js:702-710 | contact keeps the aircraft at height ≥ 2 and its x and z; above the ground nothing changes; below it, it is lifted to 2 with no downward speed and no nose-down pitch |
| FlightRules.GroundContactAttitude | modules/PhysicsEngine.js:706-707 | touching down never enlarges the bank or the pitch |
| FlightRules.GroundContactShrinks | modules/PhysicsEngine.js:702-710 | touching down never speeds the aircraft up |
| Physics.PhysicsEngine.constructor | modules/PhysicsEngine.js:6-13 | all attitude angles and the elevator start at 0 |
| Physics.PhysicsEngine.UpdatePhysics | modules/PhysicsEngine.js:15-27 | one frame: the gate and mode follow the rules on the old speed and altitude; a ground→air change needs altitude ≥ 3 or take-off speed with ArrowDown; the throttle follows `ThrottleStep` and the afterburner `Afterburner`, both from the right joystick; the elevator follows `ElevatorStep` from the left joystick; ground mode has level wings; altitude ≥ 2; speed ≤ top speed; the ranges of bank, pitch, elevator, throttle and smoothing are kept |
| Physics.PhysicsEngine.UpdateFlightMode | modules/PhysicsEngine.js:30-59 | gate from the old mode, previous mode recorded, new mode from the classifier, smoothing per the rule |
| Physics.PhysicsEngine.CheckTakeoffConditions | modules/PhysicsEngine.js:62-74 | the gate follows `NextCanTakeoff` on the current mode |
| Physics.PhysicsEngine.ProcessControlInputs | modules/PhysicsEngine.js:77-93 | the new throttle and afterburner come from the right joystick, and the elevator and bank from the left one. Pitch and yaw compose the elevator effect, the pure-yaw delta, ground steering or the banking turn, and the gated trims, in the source's order. The bank is within ±60°, and the bounded ranges are kept for short frames and sticks in range |
| Physics.PhysicsEngine.ProcessThrottleControl | modules/PhysicsEngine.js:96-136 | the throttle follows `ThrottleStep` with the auto-trim target, the afterburner follows Shift or a right-joystick y beyond 0.9, and the throttle range is kept for frames up to 1 s |
| Physics.PhysicsEngine.ProcessPureYawControls | modules/PhysicsEngine.js:139-172 | the heading changes by `PureYawDelta` |
| Physics.PhysicsEngine.ProcessPrecisionControls | modules/PhysicsEngine.js:267-320 | elevator step, pitch per mode; ground: wings level and ground steering; air: clamped roll step and the banking turn when fast enough; bank, pitch and elevator ranges kept |
| Physics.PhysicsEngine.ProcessElevatorInput | modules/PhysicsEngine.js:269-288 | the deflection follows `ElevatorStep`, and stays within ±π/6 for short frames |
| Physics.PhysicsEngine.ApplyElevatorEffect | modules/PhysicsEngine.js:232-264 | the pitch follows `ElevatorPitch` |
| Physics.PhysicsEngine.ProcessRollControl | modules/PhysicsEngine.js:343-379 | the bank follows the clamped roll step; with input and enough speed the heading and pitch follow the banking turn, else they are kept |
| Physics.PhysicsEngine.ExecuteBankingTurn | modules/PhysicsEngine.js:382-432 | below 20 km/h nothing changes; otherwise the heading and pitch follow `BankingYaw` and `BankingPitch` |
| Physics.PhysicsEngine.ApplyTrimSystem | modules/PhysicsEngine.js:506-560 | the pitch lerps toward the trim target only when the pitch controls are idle; the yaw is damped only when the yaw controls are idle; the pitch band is kept |
| Physics.PhysicsEngine.ApplyPhysicsAndTrim | modules/PhysicsEngine.js:694-710 | force, speed limit, move and ground contact in that order; altitude ≥ 2, speed ≤ top speed, bank and pitch do not grow |
| Physics.PhysicsEngine.ApplySpeedLimit | modules/PhysicsEngine.js:941-950 | the velocity becomes `SpeedLimited` of the old one |
| Physics.PhysicsEngine.CalculateGForce | modules/PhysicsEngine.js:927-929 | the previous velocity is never recorded, so the estimate is always 0 |
| Collision.FirstHitMeaning | modules/CollisionDetection.js:158-175 | the search finds nothing exactly when the point is in no box; otherwise it finds a box the point is in, preceded only by boxes it is not in |
| Collision.NoObstaclesNoHit | modules/CollisionDetection.js:158-175 | an empty obstacle list is never hit |
| Collision.WindmillMissesStrip | modules/CollisionDetection.js:19-36 | no windmill box reaches a point with \|x\| ≤ 590 and \|z\| ≤ 50 |
| Collision.RandomBuildingMissesStrip | modules/CollisionDetection.js:89-111 | no random building of the generated size reaches that strip |
| Collision.RunwayStripIsClear | modules/CollisionDetection.js:15-111 | a layout drawn from [0, 1) leaves the runway strip \|x\| ≤ 590, \|z\| ≤ 50 free of obstacles |
| Collision.StartPositionIsClear | modules/AirplaneModel.js:47 | the aeroplane's start position (-350, 2, 0) hits no obstacle |
| Collision.GroundRuleCases | modules/CollisionDetection.js:140-155 | the if-chain of the ground test is the disjunction of its two cases: air at or below ground level, or ground above 50 km/h more than 1 m below it |
| Collision.GroundRuleAfterPhysics | modules/CollisionDetection.js:140-155 | at or above the physics floor of 2 m, a taxiing aeroplane never hits the ground and a flying one hits it only when resting at 2 m |
| Collision.GetBuildingName | modules/CollisionDetection.js:178-189 | a listed type gets its name, which is never the fallback; any other type gets the fallback |
| Collision.GeneratedKindsAreNamed | modules/CollisionDetection.js:178-189 | every generated obstacle has a listed type, so its name is never the fallback |
| Collision.HitReason | modules/CollisionDetection.js:132 | an obstacle hit is reported as "撞击" plus its name, which differs from the ground reason |
| Collision.CollisionDetection.CheckGroundCollision | modules/CollisionDetection.js:140-155 | a hit in the air at or below ground level, or on the ground above 50 km/h more than 1 m below it, and no other; at or above the 2 m physics floor, only a flying aeroplane resting at 2 m hits |
| Collision.CollisionReason | modules/CollisionDetection.js:117-137 | the ground test takes priority; otherwise the reason names the first box hit, and there is none exactly when no box is hit |
| Collision.CollisionDetection.constructor | modules/CollisionDetection.js:4-12 | the game is not over, nothing shown, and the obstacle list follows the generation plan |
| Collision.CollisionDetection.Draw | modules/CollisionDetection.js:24 | a draw from a non-negatively seeded generator lies in [0, 1) |
| Collision.CollisionDetection.DrawWindmillSpot | modules/CollisionDetection.js:24-25 | a windmill candidate lies in [-750, 750) on both axes |
| Collision.CollisionDetection.DrawBuildingSize | modules/CollisionDetection.js:90-92 | the size draws lie in [20, 60), [50, 200) and [20, 60) |
| Collision.CollisionDetection.CollectBuildingData | modules/CollisionDetection.js:15-114 | it appends to the list, in order, 8 windmills outside their rectangle, the 5 landmarks, and 60 buildings outside theirs with margins added; `ok` holds exactly when all 73 were added |
| Collision.CollisionDetection.CheckBuildingCollisions | modules/CollisionDetection.js:158-175 | the loop returns the first box, in list order, that the point is in, and nothing when there is none |
| Collision.CollisionDetection.TriggerGameOver | modules/CollisionDetection.js:192-204 | the first call latches game over, shows the reason, zeroes the velocity and closes the throttle; later calls change nothing |
| Collision.CollisionDetection.CheckCollisions | modules/CollisionDetection.js:117-137 | once over, nothing happens; otherwise a hit latches game over with the collision reason and stops the aeroplane, and no hit changes nothing |
| Collision.CollisionDetection.Reset | modules/CollisionDetection.js:207-210 | the game-over flag is cleared and nothing else changes |

## Left out

- The force integration of `applyPhysicsAndTrim`, `applyGroundCarPhysics` and `applyAirPhysics` (modules/PhysicsEngine.js:591-690, 714-876) is not modelled. It covers thrust, lift, gravity, drag, the realignment of velocity with `Vector3.applyEuler`, and lerps on vectors. `ApplyPhysicsAndTrim` takes the velocity that part leaves and its net force as parameters, then models the rest of the method.
- `updateControlSurfaces`, the afterburner glow driven by the generator, and the propeller spin are left out. They are visual only.
- `executeCoordinatedTurn`, `calculateOptimalRollAngle`, `calculateYawCorrection` and `calculatePitchCompensation` (modules/PhysicsEngine.js:435-503) are not modelled. Nothing calls them.
- `previousVelocity` is never assigned, so G-force limiting never engages. The field is a constant `None`.
- The scene-graph rotation of the aeroplane from the three angles is not modelled, because it is rendering.
- The engine does not read `controlsManager` directly. It reads a `ControlState` snapshot, the value `getControlState` returns, passed as a parameter.
- Key presses are `map<string, bool>`. An absent key (`undefined`) and a released key (`false`) both read as not pressed, as they do in the conditions.
- The touch-move handler, mouse support, gesture and scroll prevention, and `setupDirectionalControls` are left out. So are DOM lookups, element styles, and the direction and precision indicators. They are DOM-only, or they only restate the lever and stick mappings already modelled. `elementFromPoint` and `getControllerType` become the touch's `target`, and `getBoundingClientRect` becomes a `Layout` parameter.
- `console.log` calls are left out.
- The UI's game-over screen is only recorded as the list of reasons shown.
- `CollisionDetection` is not wired into the frame loop, because `game.js` never constructs it. `restartGame`, called from modules/UIController.js:293, has no definition in game.js, so no restart flow is modelled.
- The obstacle layout is not tied to the meshes the environment builds. Environment.js draws from the generator in a different order. It is not part of this model.
- Collision.CollisionDetection.CollectBuildingData: each do-while rejection loop may redraw at most `attempts` times. Running out stands for the source's unbounded loop. The boxes added up to that point are then the start of the same plan.
- Collision.CollisionDetection.constructor: it cannot report whether generation ran out of attempts. It promises only that the list follows the plan, and at most 73 boxes.
- Collision.CollisionDetection.DrawBuildingSpot: nothing is stated about the candidate building centre, because `Math.cos` and `Math.sin` are arbitrary here.
- Collision.CollisionDetection.Reset: it clears only the flag, as the source does. The aeroplane's stopped state is not restored.
- FlightRules.TrimStrength: `strengthMap` is a plain object too. A setting that names a prototype key such as `constructor` would find a function, and the trim rate would be NaN. The model gives any unlisted setting 1.
- Physics.PhysicsEngine.UpdatePhysics: the pitch, yaw and bank at the end of the frame are given only through bounds and the ground rule. Their exact values are in the contracts of `ProcessControlInputs` and `ApplyPhysicsAndTrim`, which the frame runs in that order.
- `getBuildingName` looks a type up in a plain object. Prototype keys such as `constructor` would find an inherited value. The model's table has only the seven listed types.
- Physics.PhysicsEngine.UpdatePhysics: the bounded ranges are promised only for frames of at most 2/3 s (`ShortFrame`). On longer frames the elevator's centring decay overshoots, as `FlightRules.ElevatorDecayOvershoots` shows.
- FlightRules.ThrottleStepRange: in the air, W pressed from a negative throttle can leave it negative, as the code allows. So air throttle ≥ 0 is promised only from a non-negative start, or when S is pressed.
- FlightRules.TargetThrottle: it requires a nonzero target speed in air mode, where the source divides by it. The simulator's target speed is 120.
- Floating point is not modelled. All quantities are reals, and no claim about IEEE-754 rounding is made. The generator's integer step is exact, as `StepIsExactInDoubles` shows.
- `Math.sqrt` is assumed to give the non-negative square root only where a statement says `Lawful`. `Math.cos`, `Math.sin` and `Math.exp` are arbitrary, and every bound on them comes from the code's `Math.max` floors.
- `Physics.PhysicsEngine.GetAttitude` and `Collision.CollisionDetection.IsGameOverState` only read fields, and they carry no contract beyond their definition.

## Findings

| source | as written | input that shows it | evidently intended | confidence | as-written member | corrected member |
|---|---|---|---|---|---|---|
| modules/ControlsManager.js:104 | `!this.activeTouches[controllerType]` treats a slot held by touch id 0 as free, since 0 is falsy | touch 0 holds the throttle lever; touch 1 then starts over the lever and takes it over; both touches are tracked on the lever | a slot is free only when it holds `null`, so a controller keeps its first touch | not executed | Controls.TouchStartStepAsWritten, Controls.TouchZeroIsTakenOver | Controls.TouchStartStep, Controls.TouchStartAllPreserves |
