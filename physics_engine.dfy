/**
 * The physics engine object: it owns the aeroplane's attitude (pitch, yaw,
 * roll) and elevator deflection and, once a frame, updates them and the
 * simulator's flight state from the current controls.
 *
 * The engine reads its controls from the controls manager; here they are a
 * `ControlState` snapshot, which is what `getControlState` returns. The force
 * integration between the attitude updates and the speed limiter (thrust,
 * lift, gravity, drag and the velocity realignment of the ground and air
 * physics) is not part of this model: `ApplyPhysicsAndTrim` is given the
 * velocity those steps leave and the net force they sum.
 */
module Physics {
  import opened Wrappers
  import opened HostMath
  import opened MathUtils
  import opened Controls
  import opened Game
  import opened FlightRules

  /** What `getAttitude` returns. */
  datatype Attitude = Attitude(pitch: real, yaw: real, roll: real)

  /** Both joysticks report components in [-1, 1], as the controls manager guarantees. */
  predicate SticksInRange(mobile: MobileControls) {
    -1.0 <= mobile.leftJoystick.x <= 1.0 && -1.0 <= mobile.leftJoystick.y <= 1.0
    && -1.0 <= mobile.rightJoystick.x <= 1.0 && -1.0 <= mobile.rightJoystick.y <= 1.0
  }

  /** A frame no longer than two thirds of a second (the elevator decay overshoots beyond that). */
  predicate ShortFrame(dt: real) {
    0.0 <= dt && 3.0 * dt <= 2.0
  }

  class PhysicsEngine {
    const simulator: FlightSimulator
    var pitchAngle: real
    var yawAngle: real
    var rollAngle: real
    var elevatorDeflection: real
    /** Initialised to `null` and never assigned afterwards. */
    const previousVelocity: Option<Vec3> := None

    constructor (simulator: FlightSimulator)
      ensures this.simulator == simulator
      ensures pitchAngle == 0.0 && yawAngle == 0.0 && rollAngle == 0.0 && elevatorDeflection == 0.0
    {
      this.simulator := simulator;
      pitchAngle := 0.0;
      yawAngle := 0.0;
      rollAngle := 0.0;
      elevatorDeflection := 0.0;
    }

    /** `velocity.length() * 3.6`, the speed in km/h. */
    function Speed(): real
      reads simulator`velocity
    {
      Length(simulator.math, simulator.velocity) * 3.6
    }

    function Altitude(): real
      reads simulator`position
    {
      simulator.position.y
    }

    /** The ranges a frame keeps: bank, pitch, elevator, throttle and the transition smoothing. */
    predicate Bounded()
      reads this`rollAngle, this`pitchAngle, this`elevatorDeflection
      reads simulator`throttle, simulator`modeTransitionSmoothing
    {
      -MaxAbsoluteRoll <= rollAngle <= MaxAbsoluteRoll
      && -PI / 4.0 <= pitchAngle <= PI / 4.0
      && -MaxElevator <= elevatorDeflection <= MaxElevator
      && ReverseThrottle <= simulator.throttle <= 1.0
      && 0.0 <= simulator.modeTransitionSmoothing <= 1.0
    }

    /**
     * One frame: flight mode, control inputs, then the motion tail.
     * `adjustedVelocity` and `force` stand for what the force integration
     * leaves (see the module comment).
     */
    method UpdatePhysics(dt: real, controls: ControlState, adjustedVelocity: Vec3, force: Vec3)
      modifies this`pitchAngle, this`yawAngle, this`rollAngle, this`elevatorDeflection
      modifies simulator`canTakeoff, simulator`previousMode, simulator`flightMode
      modifies simulator`modeTransitionSmoothing, simulator`throttle, simulator`afterburnerActive
      modifies simulator`velocity, simulator`position
      ensures simulator.canTakeoff
        == NextCanTakeoff(old(simulator.flightMode), old(Speed()), simulator.takeoffSpeed, Pressed(controls.keyboard, "ArrowDown"))
      ensures simulator.flightMode
        == NextFlightMode(old(simulator.flightMode), old(Speed()), old(Altitude()), simulator.canTakeoff)
      ensures simulator.previousMode == Some(old(simulator.flightMode))
      ensures old(simulator.flightMode) == Ground && simulator.flightMode == Air ==>
        old(Altitude()) >= GroundAltitude
        || (old(Speed()) >= simulator.takeoffSpeed && Pressed(controls.keyboard, "ArrowDown"))
      ensures simulator.throttle
        == ThrottleStep(old(simulator.throttle), dt, simulator.flightMode, controls.keyboard, controls.mobile.rightJoystick,
                        TargetThrottle(simulator.flightMode, old(Speed()), simulator.trimSystem.targetSpeed),
                        GetTrimStrength("speed", simulator.trimSystem) * dt)
      ensures simulator.afterburnerActive == Afterburner(controls.keyboard, controls.mobile.rightJoystick)
      ensures elevatorDeflection == ElevatorStep(old(elevatorDeflection), dt, controls.keyboard, controls.mobile.leftJoystick)
      ensures simulator.flightMode == Ground ==> rollAngle == 0.0
      ensures Altitude() >= GroundHeight
      ensures Lawful(simulator.math) ==> Speed() <= simulator.maxSpeed
      ensures old(Bounded()) && ShortFrame(dt) && SticksInRange(controls.mobile) ==> Bounded()
    {
      ghost var startMode, startSpeed, startAltitude := simulator.flightMode, Speed(), Altitude();
      ghost var wasBounded := Bounded();
      UpdateFlightMode(dt, controls);
      LeavingTheGround(startSpeed, startAltitude, simulator.takeoffSpeed, Pressed(controls.keyboard, "ArrowDown"));
      ProcessControlInputs(dt, controls);
      ApplyPhysicsAndTrim(dt, adjustedVelocity, force);
    }

    /** `updateFlightMode`: the take-off gate (with the old mode), the classifier, the smoothing. */
    method UpdateFlightMode(dt: real, controls: ControlState)
      modifies simulator`canTakeoff, simulator`previousMode, simulator`flightMode, simulator`modeTransitionSmoothing
      ensures simulator.canTakeoff
        == NextCanTakeoff(old(simulator.flightMode), Speed(), simulator.takeoffSpeed, Pressed(controls.keyboard, "ArrowDown"))
      ensures simulator.previousMode == Some(old(simulator.flightMode))
      ensures simulator.flightMode == NextFlightMode(old(simulator.flightMode), Speed(), Altitude(), simulator.canTakeoff)
      ensures simulator.modeTransitionSmoothing
        == NextSmoothing(old(simulator.flightMode), simulator.flightMode, old(simulator.modeTransitionSmoothing), dt)
    {
      var currentSpeed := Speed();
      var currentAltitude := Altitude();
      CheckTakeoffConditions(currentSpeed, controls);
      simulator.previousMode := Some(simulator.flightMode);
      if currentSpeed < GroundSpeed && currentAltitude < GroundAltitude {
        simulator.flightMode := Ground;
      } else if currentSpeed >= GroundSpeed || currentAltitude >= GroundAltitude {
        if simulator.canTakeoff || currentAltitude >= GroundAltitude {
          simulator.flightMode := Air;
        } else {
          simulator.flightMode := Ground;
        }
      }
      if simulator.previousMode != Some(simulator.flightMode) {
        simulator.modeTransitionSmoothing := 0.0;
      } else {
        simulator.modeTransitionSmoothing := Min(simulator.modeTransitionSmoothing + dt * 2.0, 1.0);
      }
    }

    /** `checkTakeoffConditions` */
    method CheckTakeoffConditions(currentSpeed: real, controls: ControlState)
      modifies simulator`canTakeoff
      ensures simulator.canTakeoff
        == NextCanTakeoff(simulator.flightMode, currentSpeed, simulator.takeoffSpeed, Pressed(controls.keyboard, "ArrowDown"))
    {
      var speedCondition := currentSpeed >= simulator.takeoffSpeed;
      var controlCondition := Pressed(controls.keyboard, "ArrowDown");
      if simulator.flightMode == Ground {
        simulator.canTakeoff := speedCondition && controlCondition;
      } else {
        simulator.canTakeoff := true;
      }
    }

    /** `processControlInputs`: throttle, pure yaw, precision controls, then the trim system. */
    method ProcessControlInputs(dt: real, controls: ControlState)
      modifies this`pitchAngle, this`yawAngle, this`rollAngle, this`elevatorDeflection
      modifies simulator`throttle, simulator`afterburnerActive
      ensures simulator.throttle
        == ThrottleStep(old(simulator.throttle), dt, simulator.flightMode, controls.keyboard, controls.mobile.rightJoystick,
                        TargetThrottle(simulator.flightMode, Speed(), simulator.trimSystem.targetSpeed),
                        GetTrimStrength("speed", simulator.trimSystem) * dt)
      ensures simulator.afterburnerActive == Afterburner(controls.keyboard, controls.mobile.rightJoystick)
      ensures elevatorDeflection == ElevatorStep(old(elevatorDeflection), dt, controls.keyboard, controls.mobile.leftJoystick)
      ensures rollAngle
        == if simulator.flightMode == Ground then 0.0
           else ClampRoll(RollStep(old(rollAngle), RollInput(controls.keyboard, controls.mobile.leftJoystick), dt))
      ensures var keyboard, leftJoy, rightJoy := controls.keyboard, controls.mobile.leftJoystick, controls.mobile.rightJoystick;
        var mode, trim, speed := simulator.flightMode, simulator.trimSystem, Speed();
        var pitched := ElevatorPitch(old(pitchAngle), elevatorDeflection, dt, speed, mode, simulator.canTakeoff);
        var yawed := old(yawAngle)
          + PureYawDelta(mode, simulator.math, keyboard, rightJoy, dt, speed, Altitude(), old(rollAngle), old(pitchAngle));
        var rolled := RollStep(old(rollAngle), RollInput(keyboard, leftJoy), dt);
        var banking := mode == Air && Abs(RollInput(keyboard, leftJoy)) > 0.1 && 20.0 <= speed;
        var steered := if mode == Ground then yawed + GroundSteering(keyboard, leftJoy, dt, speed)
                       else if banking then BankingYaw(simulator.math, yawed, rolled, pitched, speed, dt)
                       else yawed;
        var banked := if banking then BankingPitch(pitched, rolled, dt) else pitched;
        pitchAngle
          == (if PitchTrimEngaged(keyboard, leftJoy) then
                ThreeLerp(banked, TrimTargetPitch(mode, banked, speed, trim.targetSpeed),
                          dt * PitchTrimRate(trim, GetTrimStrength("attitude", trim), mode))
              else banked)
        && yawAngle
          == (if YawDampingEngaged(keyboard, rightJoy) then DampedYaw(steered, dt, YawDampingRate(trim, mode)) else steered)
      ensures -MaxAbsoluteRoll <= rollAngle <= MaxAbsoluteRoll
      ensures old(Bounded()) && ShortFrame(dt) && SticksInRange(controls.mobile) ==> Bounded()
    {
      var leftJoy := controls.mobile.leftJoystick;
      var rightJoy := controls.mobile.rightJoystick;
      ProcessThrottleControl(dt, controls.keyboard, rightJoy);
      ProcessPureYawControls(dt, controls.keyboard, rightJoy);
      ProcessPrecisionControls(dt, controls.keyboard, leftJoy);
      ApplyTrimSystem(dt, controls.keyboard, controls.mobile);
    }

    /** `processThrottleControl`: W and S, the right joystick, afterburner, then the auto-trim toward `calculateTargetThrottle`. */
    method ProcessThrottleControl(dt: real, keyboard: map<string, bool>, rightJoy: Joystick)
      modifies simulator`throttle, simulator`afterburnerActive
      ensures simulator.throttle
        == ThrottleStep(old(simulator.throttle), dt, simulator.flightMode, keyboard, rightJoy,
                        TargetThrottle(simulator.flightMode, Speed(), simulator.trimSystem.targetSpeed),
                        GetTrimStrength("speed", simulator.trimSystem) * dt)
      ensures simulator.afterburnerActive == Afterburner(keyboard, rightJoy)
      ensures ReverseThrottle <= old(simulator.throttle) <= 1.0 && 0.0 <= dt <= 1.0 ==>
        ReverseThrottle <= simulator.throttle <= 1.0
    {
      var mode := simulator.flightMode;
      var throttle := simulator.throttle;
      var afterburner := Pressed(keyboard, "ShiftLeft") || Pressed(keyboard, "ShiftRight");
      if Pressed(keyboard, "KeyW") {
        var accelerationRate := if mode == Ground then 0.6 else 1.0;
        throttle := Min(throttle + dt * accelerationRate, 1.0);
      }
      if Pressed(keyboard, "KeyS") {
        if mode == Ground {
          throttle := Max(throttle - dt * 1.5, ReverseThrottle);
        } else {
          throttle := Max(throttle - dt * 1.0, 0.0);
        }
      }
      ghost var keyed := ThrottleAfterKeys(simulator.throttle, dt, mode, Pressed(keyboard, "KeyW"), Pressed(keyboard, "KeyS"));
      assert throttle == keyed;
      if rightJoy.active && Abs(rightJoy.y) > 0.1 {
        var targetThrottle := rightJoy.y;
        if mode == Ground {
          throttle := Max(ReverseThrottle, Min(1.0, targetThrottle));
        } else {
          throttle := Max(0.0, Min(1.0, targetThrottle));
        }
      }
      assert throttle == ThrottleFromJoystick(keyed, mode, rightJoy);
      if rightJoy.active && rightJoy.y > 0.9 {
        afterburner := true;
      }
      var targetThrottle := TargetThrottle(mode, Speed(), simulator.trimSystem.targetSpeed);
      var trimRate := GetTrimStrength("speed", simulator.trimSystem) * dt;
      if !Pressed(keyboard, "KeyW") && !Pressed(keyboard, "KeyS") && !rightJoy.active {
        throttle := ThreeLerp(throttle, targetThrottle, trimRate);
      }
      ghost var start := simulator.throttle;
      assert throttle == ThrottleStep(start, dt, mode, keyboard, rightJoy, targetThrottle, trimRate);
      simulator.throttle, simulator.afterburnerActive := throttle, afterburner;
      if ReverseThrottle <= start <= 1.0 && 0.0 <= dt <= 1.0 {
        DefaultTrimStrength("speed");
        assert trimRate == dt;
        ThrottleStepRange(start, dt, mode, keyboard, rightJoy, targetThrottle, trimRate);
      }
    }

    /** `processPureYawControls`: A, D and the right joystick's x each add the mode's yaw rate. */
    method ProcessPureYawControls(dt: real, keyboard: map<string, bool>, rightJoy: Joystick)
      modifies this`yawAngle
      ensures yawAngle == old(yawAngle)
        + PureYawDelta(simulator.flightMode, simulator.math, keyboard, rightJoy, dt, Speed(), Altitude(), rollAngle, pitchAngle)
    {
      var mode, m := simulator.flightMode, simulator.math;
      if Pressed(keyboard, "KeyA") {
        yawAngle := yawAngle + YawRate(mode, m, 1.0, dt, Speed(), Altitude(), rollAngle, pitchAngle);
      }
      if Pressed(keyboard, "KeyD") {
        yawAngle := yawAngle + YawRate(mode, m, -1.0, dt, Speed(), Altitude(), rollAngle, pitchAngle);
      }
      if rightJoy.active && Abs(rightJoy.x) > 0.1 {
        yawAngle := yawAngle + YawRate(mode, m, -rightJoy.x, dt, Speed(), Altitude(), rollAngle, pitchAngle);
      }
    }

    /**
     * `processPrecisionControls`: the elevator and its pitch effect, then
     * roll control in the air, or ground steering with the wings held level.
     */
    method ProcessPrecisionControls(dt: real, keyboard: map<string, bool>, leftJoy: Joystick)
      modifies this`elevatorDeflection, this`pitchAngle, this`rollAngle, this`yawAngle
      ensures elevatorDeflection == ElevatorStep(old(elevatorDeflection), dt, keyboard, leftJoy)
      ensures simulator.flightMode == Ground ==>
        pitchAngle == ElevatorPitch(old(pitchAngle), elevatorDeflection, dt, Speed(), Ground, simulator.canTakeoff)
        && rollAngle == 0.0 && yawAngle == old(yawAngle) + GroundSteering(keyboard, leftJoy, dt, Speed())
      ensures simulator.flightMode == Air ==>
        rollAngle == ClampRoll(RollStep(old(rollAngle), RollInput(keyboard, leftJoy), dt))
      ensures simulator.flightMode == Air ==>
        var pitched := ElevatorPitch(old(pitchAngle), elevatorDeflection, dt, Speed(), Air, simulator.canTakeoff);
        var rolled := RollStep(old(rollAngle), RollInput(keyboard, leftJoy), dt);
        if Abs(RollInput(keyboard, leftJoy)) > 0.1 && 20.0 <= Speed() then
          pitchAngle == BankingPitch(pitched, rolled, dt)
          && yawAngle == BankingYaw(simulator.math, old(yawAngle), rolled, pitched, Speed(), dt)
        else pitchAngle == pitched && yawAngle == old(yawAngle)
      ensures -MaxAbsoluteRoll <= rollAngle <= MaxAbsoluteRoll
      ensures -PI / 4.0 <= old(pitchAngle) <= PI / 4.0 ==> -PI / 4.0 <= pitchAngle <= PI / 4.0
      ensures -MaxElevator <= old(elevatorDeflection) <= MaxElevator && ShortFrame(dt) && -1.0 <= leftJoy.y <= 1.0 ==>
        -MaxElevator <= elevatorDeflection <= MaxElevator
    {
      ProcessElevatorInput(dt, keyboard, leftJoy);
      ApplyElevatorEffect(dt);
      ghost var yaw0 := yawAngle;
      if simulator.flightMode == Air {
        var rollInput := RollInput(keyboard, leftJoy);
        ProcessRollControl(rollInput, dt);
      } else {
        var groundTurnInput := 0.0;
        if Pressed(keyboard, "ArrowLeft") {
          groundTurnInput := 1.0;
        }
        if Pressed(keyboard, "ArrowRight") {
          groundTurnInput := -1.0;
        }
        if leftJoy.active && Abs(leftJoy.x) > 0.1 {
          groundTurnInput := -leftJoy.x;
        }
        assert groundTurnInput == GroundTurnInput(keyboard, leftJoy);
        if Abs(groundTurnInput) > 0.1 {
          yawAngle := yawAngle + GroundYawRate(groundTurnInput, dt, Speed());
        }
        assert yawAngle == yaw0 + GroundSteering(keyboard, leftJoy, dt, Speed());
        rollAngle := 0.0;
      }
    }

    /** The first block of `processPrecisionControls`: arrow keys, centring decay, then the left joystick's y. */
    method ProcessElevatorInput(dt: real, keyboard: map<string, bool>, leftJoy: Joystick)
      modifies this`elevatorDeflection
      ensures elevatorDeflection == ElevatorStep(old(elevatorDeflection), dt, keyboard, leftJoy)
      ensures -MaxElevator <= old(elevatorDeflection) <= MaxElevator && ShortFrame(dt) && -1.0 <= leftJoy.y <= 1.0 ==>
        -MaxElevator <= elevatorDeflection <= MaxElevator
    {
      var controlSpeed := 1.8;
      var elevator := elevatorDeflection;
      if Pressed(keyboard, "ArrowUp") {
        elevator := Min(elevator + dt * controlSpeed, MaxElevator);
      } else if Pressed(keyboard, "ArrowDown") {
        elevator := Max(elevator - dt * controlSpeed, -MaxElevator);
      } else {
        elevator := elevator * (1.0 - dt * 3.0);
      }
      if leftJoy.active && Abs(leftJoy.y) > 0.1 {
        elevator := -leftJoy.y * PI / 6.0;
      }
      assert elevator == ElevatorStep(elevatorDeflection, dt, keyboard, leftJoy);
      if -MaxElevator <= elevatorDeflection <= MaxElevator && ShortFrame(dt) && -1.0 <= leftJoy.y <= 1.0 {
        ElevatorStepBounded(elevatorDeflection, dt, keyboard, leftJoy);
      }
      elevatorDeflection := elevator;
    }

    /** `applyElevatorEffect` */
    method ApplyElevatorEffect(dt: real)
      modifies this`pitchAngle
      ensures pitchAngle
        == ElevatorPitch(old(pitchAngle), elevatorDeflection, dt, Speed(), simulator.flightMode, simulator.canTakeoff)
    {
      var currentSpeed := Speed();
      if simulator.flightMode == Ground {
        if currentSpeed > 20.0 {
          var speedFactor := Min(currentSpeed / 80.0, 1.0);
          var pitchMoment := PitchMoment(elevatorDeflection, speedFactor, dt, 2.0);
          pitchAngle := pitchAngle + pitchMoment;
          if !simulator.canTakeoff {
            pitchAngle := Max(-PI / 6.0, Min(PI / 12.0, pitchAngle));
          } else {
            pitchAngle := Max(-PI / 6.0, Min(PI / 6.0, pitchAngle));
          }
        }
      } else {
        var airspeedFactor := Min(currentSpeed / 100.0, 1.5);
        var pitchMoment := PitchMoment(elevatorDeflection, airspeedFactor, dt, 3.0);
        pitchAngle := pitchAngle + pitchMoment;
        pitchAngle := Max(-PI / 4.0, Min(PI / 4.0, pitchAngle));
      }
    }

    /** `processRollControl`: approach input·45° (then bank-turn), or decay; then the ±60° clamp. */
    method ProcessRollControl(rollInput: real, dt: real)
      modifies this`rollAngle, this`yawAngle, this`pitchAngle
      ensures rollAngle == ClampRoll(RollStep(old(rollAngle), rollInput, dt))
      ensures var rolled := RollStep(old(rollAngle), rollInput, dt);
        if Abs(rollInput) > 0.1 && 20.0 <= Speed() then
          yawAngle == BankingYaw(simulator.math, old(yawAngle), rolled, old(pitchAngle), Speed(), dt)
          && pitchAngle == BankingPitch(old(pitchAngle), rolled, dt)
        else
          yawAngle == old(yawAngle) && pitchAngle == old(pitchAngle)
    {
      if Abs(rollInput) > 0.1 {
        var targetRollAngle := rollInput * MaxRollAngle;
        var rollRate := RollSpeed * dt;
        var roll := rollAngle;
        if Abs(roll - targetRollAngle) > rollRate {
          var direction := if targetRollAngle > roll then 1.0 else -1.0;
          roll := roll + direction * rollRate;
        } else {
          roll := targetRollAngle;
        }
        assert roll == RollStep(rollAngle, rollInput, dt);
        rollAngle := roll;
        ExecuteBankingTurn(rollInput, dt);
      } else {
        var decay := 1.0 - RollDamping * dt;
        rollAngle := rollAngle * decay;
        assert rollAngle == RollStep(old(rollAngle), rollInput, dt);
      }
      ghost var rolled := rollAngle;
      rollAngle := Max(-MaxAbsoluteRoll, Min(MaxAbsoluteRoll, rollAngle));
      assert rollAngle == Limit(rolled, -MaxAbsoluteRoll, MaxAbsoluteRoll);
    }

    /** `executeBankingTurn`: nothing below 20 km/h, else coordinated yaw, nose-up compensation and the ±π/4 limit. */
    method ExecuteBankingTurn(rollInput: real, dt: real)
      modifies this`yawAngle, this`pitchAngle
      ensures Speed() < 20.0 ==> yawAngle == old(yawAngle) && pitchAngle == old(pitchAngle)
      ensures 20.0 <= Speed() ==>
        yawAngle == BankingYaw(simulator.math, old(yawAngle), rollAngle, old(pitchAngle), Speed(), dt)
        && pitchAngle == BankingPitch(old(pitchAngle), rollAngle, dt)
    {
      var currentSpeed := Speed();
      if currentSpeed < 20.0 {
        return;
      }
      var yaw, pitch := yawAngle, pitchAngle;
      var rollAngleAbs := Abs(rollAngle);
      var rollDirection := Sign(rollAngle);
      if rollAngleAbs > 2.0 * PI / 180.0 {
        var yawAssist := YawAssist(simulator.math, rollAngle, pitch, currentSpeed);
        var effectiveYawAssist := Min(yawAssist, MaxYawAssist);
        yaw := yaw + YawAssistStep(rollDirection, effectiveYawAssist, dt);
      }
      if rollAngleAbs > 5.0 * PI / 180.0 {
        var adjustedCompensation := PitchCompensation(rollAngle, pitch);
        pitch := pitch + CompensationStep(adjustedCompensation, dt);
      }
      pitch := Max(-PI / 4.0, Min(PI / 4.0, pitch));
      assert yaw == BankingYaw(simulator.math, yawAngle, rollAngle, pitchAngle, currentSpeed, dt);
      assert pitch == BankingPitch(pitchAngle, rollAngle, dt);
      yawAngle, pitchAngle := yaw, pitch;
    }

    /** `applyTrimSystem`: pitch trim toward the target pitch, then yaw damping, each only when its controls are idle. */
    method ApplyTrimSystem(dt: real, keyboard: map<string, bool>, mobile: MobileControls)
      modifies this`pitchAngle, this`yawAngle
      ensures var trim, mode := simulator.trimSystem, simulator.flightMode;
        pitchAngle
          == if PitchTrimEngaged(keyboard, mobile.leftJoystick) then
               ThreeLerp(old(pitchAngle), TrimTargetPitch(mode, old(pitchAngle), Speed(), trim.targetSpeed),
                         dt * PitchTrimRate(trim, GetTrimStrength("attitude", trim), mode))
             else old(pitchAngle)
      ensures var trim, mode := simulator.trimSystem, simulator.flightMode;
        yawAngle
          == if YawDampingEngaged(keyboard, mobile.rightJoystick) then DampedYaw(old(yawAngle), dt, YawDampingRate(trim, mode))
             else old(yawAngle)
      ensures -PI / 4.0 <= old(pitchAngle) <= PI / 4.0 && ShortFrame(dt) ==> -PI / 4.0 <= pitchAngle <= PI / 4.0
    {
      var trimStrength := GetTrimStrength("attitude", simulator.trimSystem);
      var isRolling := Pressed(keyboard, "ArrowLeft") || Pressed(keyboard, "ArrowRight")
        || (mobile.leftJoystick.active && Abs(mobile.leftJoystick.x) > 0.1);
      if !Pressed(keyboard, "ArrowUp") && !Pressed(keyboard, "ArrowDown") && !mobile.leftJoystick.active && !isRolling {
        var targetPitch := TrimTargetPitch(simulator.flightMode, pitchAngle, Speed(), simulator.trimSystem.targetSpeed);
        var pitchTrimRate := PitchTrimRate(simulator.trimSystem, trimStrength, simulator.flightMode);
        DefaultTrimStrength("attitude");
        assert pitchTrimRate == 0.75 || pitchTrimRate == 0.15;
        if -PI / 4.0 <= pitchAngle <= PI / 4.0 && ShortFrame(dt) {
          PitchTrimBounded(simulator.flightMode, pitchAngle, Speed(), simulator.trimSystem.targetSpeed, dt * pitchTrimRate);
        }
        pitchAngle := ThreeLerp(pitchAngle, targetPitch, dt * pitchTrimRate);
      }
      if !Pressed(keyboard, "KeyA") && !Pressed(keyboard, "KeyD") && !mobile.rightJoystick.active {
        var yawDampingRate := YawDampingRate(simulator.trimSystem, simulator.flightMode);
        yawAngle := yawAngle * (1.0 - dt * yawDampingRate);
      }
    }

    /**
     * The motion tail of `applyPhysicsAndTrim`: apply the force, limit the
     * speed, move, and resolve ground contact.
     */
    method ApplyPhysicsAndTrim(dt: real, adjustedVelocity: Vec3, force: Vec3)
      modifies simulator`velocity, simulator`position, this`rollAngle, this`pitchAngle
      ensures var limited := SpeedLimited(simulator.math, Add(adjustedVelocity, Scale(force, dt)), simulator.maxSpeed);
        var contact := GroundContact(Add(old(simulator.position), Scale(limited, dt)), limited, old(rollAngle), old(pitchAngle));
        simulator.position == contact.position && simulator.velocity == contact.velocity
        && rollAngle == contact.roll && pitchAngle == contact.pitch
      ensures Altitude() >= GroundHeight
      ensures Lawful(simulator.math) ==> Speed() <= simulator.maxSpeed
      ensures Abs(rollAngle) <= Abs(old(rollAngle)) && Abs(pitchAngle) <= Abs(old(pitchAngle))
    {
      simulator.velocity := Add(adjustedVelocity, Scale(force, dt));
      ApplySpeedLimit();
      ghost var limited := simulator.velocity;
      simulator.position := Add(simulator.position, Scale(simulator.velocity, dt));
      ghost var moved := simulator.position;
      ghost var startRoll, startPitch := rollAngle, pitchAngle;
      if simulator.position.y < GroundHeight {
        simulator.position := simulator.position.(y := GroundHeight);
        simulator.velocity := simulator.velocity.(y := Max(0.0, simulator.velocity.y));
        rollAngle := rollAngle * 0.8;
        pitchAngle := Max(pitchAngle * 0.8, 0.0);
        simulator.velocity := simulator.velocity.(x := simulator.velocity.x * 0.98);
        simulator.velocity := simulator.velocity.(z := simulator.velocity.z * 0.85);
      }
      assert simulator.velocity == GroundContact(moved, limited, startRoll, startPitch).velocity;
      if Lawful(simulator.math) {
        SpeedLimitSpec(simulator.math, Add(adjustedVelocity, Scale(force, dt)), simulator.maxSpeed);
        GroundContactShrinks(simulator.math, moved, limited, startRoll, startPitch);
      }
      GroundContactAttitude(moved, limited, startRoll, startPitch);
    }

    /** `applySpeedLimit` */
    method ApplySpeedLimit()
      modifies simulator`velocity
      ensures simulator.velocity == SpeedLimited(simulator.math, old(simulator.velocity), simulator.maxSpeed)
    {
      var currentSpeed := Speed();
      var maxSpeedMs := simulator.maxSpeed / 3.6;
      if currentSpeed > simulator.maxSpeed {
        simulator.velocity := Scale(Normalized(simulator.math, simulator.velocity), maxSpeedMs);
      }
    }

    /** `calculateGForce`: with no previous velocity ever recorded it is always 0. */
    function CalculateGForce(): (g: real)
      reads simulator`velocity
      ensures g == 0.0
    {
      MathUtils.CalculateGForce(simulator.math, simulator.velocity, previousVelocity)
    }

    function GetAttitude(): Attitude
      reads this
    {
      Attitude(pitchAngle, yawAngle, rollAngle)
    }
  }
}
