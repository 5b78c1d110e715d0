/**
 * The rules the physics engine applies once per frame, as functions of the
 * state they read: the ground/air classifier and its take-off gate, throttle
 * stepping and auto-trim, the yaw-rate formulas, the elevator and its effect
 * on pitch, roll control and the banking turn, attitude trim, the speed
 * limiter and the ground-contact clamp. The `PhysicsEngine` class applies
 * them to its fields; the lemmas here say what each rule guarantees.
 *
 * Speeds are in km/h (`velocity.length() * 3.6`), angles in radians, times in
 * seconds.
 *
 * Joystick wiring follows the engine's own: `rightJoy` is the controls
 * manager's right joystick (the flight stick) and drives throttle,
 * afterburner, pure yaw and the yaw-damping gate; `leftJoy` is its left
 * joystick (the throttle lever) and drives elevator, roll, ground steering
 * and the pitch-trim gate.
 */
module FlightRules {
  import opened HostMath
  import opened MathUtils
  import opened Controls
  import opened Game

  // ------------------------------------------------------------------
  // Arithmetic facts
  // ------------------------------------------------------------------

  lemma MulNonNegative(a: real, b: real)
    requires 0.0 <= a && 0.0 <= b
    ensures 0.0 <= a * b
  {
  }

  lemma MulPositive(a: real, b: real)
    requires 0.0 < a && 0.0 < b
    ensures 0.0 < a * b
  {
  }

  lemma MulNegative(a: real, b: real)
    requires a < 0.0 < b
    ensures a * b < 0.0
  {
    MulPositive(-a, b);
    assert a * b == -((-a) * b);
  }

  /** Multiplying by a non-negative factor keeps an inequality. */
  lemma MulMonotone(a: real, b: real, c: real)
    requires a <= b && 0.0 <= c
    ensures a * c <= b * c
  {
    assert 0.0 <= (b - a) * c;
    assert (b - a) * c == b * c - a * c;
  }

  /** A factor in [0, 1] does not enlarge a magnitude. */
  lemma WithinFractionFactor(x: real, f: real, bound: real)
    requires -bound <= x <= bound && 0.0 <= f <= 1.0
    ensures -bound <= x * f <= bound
  {
    MulMonotone(x, bound, f);
    MulMonotone(f, 1.0, bound);
    assert f * bound <= 1.0 * bound;
    assert bound * f <= bound;
    assert x * f <= bound;
    MulMonotone(-bound, x, f);
    assert (-bound) * f == -(bound * f);
    assert -bound <= (-bound) * f;
    assert -bound <= x * f;
  }

  /** A factor in [-1, 1] does not enlarge a magnitude. */
  lemma WithinUnitFactor(x: real, f: real, bound: real)
    requires -bound <= x <= bound && -1.0 <= f <= 1.0
    ensures -bound <= x * f <= bound
  {
    if 0.0 <= f {
      WithinFractionFactor(x, f, bound);
    } else {
      WithinFractionFactor(-x, -f, bound);
      assert x * f == (-x) * (-f);
    }
  }

  /** A factor in [0, 1] moves a number toward zero without crossing it. */
  lemma TowardZero(x: real, f: real)
    requires 0.0 <= f <= 1.0
    ensures 0.0 <= x ==> 0.0 <= x * f <= x
    ensures x <= 0.0 ==> x <= x * f <= 0.0
  {
    if 0.0 <= x {
      MulMonotone(f, 1.0, x);
      assert f * x <= 1.0 * x;
    } else {
      MulMonotone(f, 1.0, -x);
      assert f * (-x) <= 1.0 * (-x);
      assert x * f == -(f * (-x));
    }
  }

  lemma AddBoth(a: real, b: real, c: real, d: real)
    requires a <= b && c <= d
    ensures a + c <= b + d
  {
  }

  lemma SplitByFraction(h: real, t: real)
    ensures h * (1.0 - t) + h * t == h
  {
  }

  lemma LerpUpper(x: real, y: real, t: real, hi: real)
    requires x <= hi && y <= hi && 0.0 <= t <= 1.0
    ensures (1.0 - t) * x + t * y <= hi
  {
    MulMonotone(x, hi, 1.0 - t);
    MulMonotone(y, hi, t);
    AddBoth(x * (1.0 - t), hi * (1.0 - t), y * t, hi * t);
    SplitByFraction(hi, t);
    assert x * (1.0 - t) + y * t <= hi;
    assert (1.0 - t) * x + t * y == x * (1.0 - t) + y * t;
  }

  lemma LerpLower(x: real, y: real, t: real, lo: real)
    requires lo <= x && lo <= y && 0.0 <= t <= 1.0
    ensures lo <= (1.0 - t) * x + t * y
  {
    MulMonotone(lo, x, 1.0 - t);
    MulMonotone(lo, y, t);
    AddBoth(lo * (1.0 - t), x * (1.0 - t), lo * t, y * t);
    SplitByFraction(lo, t);
    assert lo <= x * (1.0 - t) + y * t;
    assert (1.0 - t) * x + t * y == x * (1.0 - t) + y * t;
  }

  /** `THREE.MathUtils.lerp` with a factor in [0, 1] stays between common bounds of its ends. */
  lemma LerpWithin(x: real, y: real, t: real, lo: real, hi: real)
    requires lo <= x <= hi && lo <= y <= hi && 0.0 <= t <= 1.0
    ensures lo <= ThreeLerp(x, y, t) <= hi
  {
    LerpUpper(x, y, t, hi);
    LerpLower(x, y, t, lo);
  }

  /** A step of `s * e` per second, `s` a sign and `e` at most `bound`, over `dt` seconds. */
  lemma SignedStep(start: real, s: real, e: real, dt: real, bound: real)
    requires (s == 1.0 || s == -1.0) && 0.0 <= e <= bound && 0.0 <= dt
    ensures start - bound * dt <= start + s * e * dt <= start + bound * dt
    ensures s == 1.0 ==> start <= start + s * e * dt
    ensures s == -1.0 ==> start + s * e * dt <= start
  {
    MulNonNegative(e, dt);
    MulMonotone(e, bound, dt);
    if s == 1.0 {
      assert s * e * dt == e * dt;
    } else {
      assert s * e * dt == -(e * dt);
    }
  }

  /** A non-negative rise of at most `bound * dt * k`. */
  lemma BoundedRise(start: real, c: real, dt: real, k: real, bound: real)
    requires 0.0 <= c <= bound && 0.0 <= dt && 0.0 <= k
    ensures start <= start + c * dt * k <= start + bound * dt * k
  {
    MulNonNegative(c, dt);
    MulMonotone(c, bound, dt);
    MulNonNegative(c * dt, k);
    MulMonotone(c * dt, bound * dt, k);
  }

  // ------------------------------------------------------------------
  // Flight mode and the take-off gate
  // ------------------------------------------------------------------

  /** Below this speed (km/h) and below `GroundAltitude` the aircraft counts as on the ground. */
  const GroundSpeed: real := 40.0
  const GroundAltitude: real := 3.0

  /**
   * `checkTakeoffConditions`: on the ground the clearance is recomputed from
   * speed and the pull-up key; once airborne it stays granted.
   */
  function NextCanTakeoff(mode: FlightMode, speed: real, takeoffSpeed: real, pullUp: bool): (r: bool)
    ensures mode == Air ==> r
    ensures mode == Ground ==> (r <==> speed >= takeoffSpeed && pullUp)
  {
    if mode == Ground then speed >= takeoffSpeed && pullUp else true
  }

  /**
   * `updateFlightMode`'s classifier. Its last branch, which would keep the
   * current mode, is unreachable: the first two conditions cover every input.
   */
  function NextFlightMode(current: FlightMode, speed: real, altitude: real, canTakeoff: bool): (mode: FlightMode)
    ensures mode == Air <==> altitude >= GroundAltitude || (speed >= GroundSpeed && canTakeoff)
    ensures speed < GroundSpeed && altitude < GroundAltitude ==> mode == Ground
  {
    if speed < GroundSpeed && altitude < GroundAltitude then Ground
    else if speed >= GroundSpeed || altitude >= GroundAltitude then
      (if canTakeoff || altitude >= GroundAltitude then Air else Ground)
    else current
  }

  /** The classifier does not depend on the mode it starts from. */
  lemma FlightModeIgnoresCurrent(a: FlightMode, b: FlightMode, speed: real, altitude: real, canTakeoff: bool)
    ensures NextFlightMode(a, speed, altitude, canTakeoff) == NextFlightMode(b, speed, altitude, canTakeoff)
  {
  }

  /**
   * The gate is evaluated with the old mode before the classifier runs: an
   * aircraft on the ground becomes airborne exactly when it is above the
   * ground altitude, or fast enough both for the classifier and for take-off
   * while the pull-up key is held.
   */
  lemma LeavingTheGround(speed: real, altitude: real, takeoffSpeed: real, pullUp: bool)
    ensures var gate := NextCanTakeoff(Ground, speed, takeoffSpeed, pullUp);
      NextFlightMode(Ground, speed, altitude, gate) == Air
      <==> altitude >= GroundAltitude || (speed >= GroundSpeed && speed >= takeoffSpeed && pullUp)
  {
  }

  /** Once airborne the gate is open, so only speed and altitude together bring the aircraft down. */
  lemma StayingAirborne(speed: real, altitude: real, takeoffSpeed: real, pullUp: bool)
    ensures var gate := NextCanTakeoff(Air, speed, takeoffSpeed, pullUp);
      NextFlightMode(Air, speed, altitude, gate) == Ground <==> speed < GroundSpeed && altitude < GroundAltitude
  {
  }

  /** `modeTransitionSmoothing`: restarts at 0 on a mode change, otherwise climbs at 2 per second up to 1. */
  function NextSmoothing(previous: FlightMode, current: FlightMode, smoothing: real, dt: real): (r: real)
    ensures previous != current ==> r == 0.0
    ensures r <= 1.0
    ensures previous == current && 0.0 <= dt ==> Min(smoothing, 1.0) <= r
    ensures 0.0 <= smoothing && 0.0 <= dt ==> 0.0 <= r
  {
    if previous != current then 0.0 else Min(smoothing + dt * 2.0, 1.0)
  }

  // ------------------------------------------------------------------
  // Throttle
  // ------------------------------------------------------------------

  const ReverseThrottle: real := -0.8

  /** The W (open) and S (close) keys, W first. */
  function ThrottleAfterKeys(throttle: real, dt: real, mode: FlightMode, opening: bool, closing: bool): real {
    var raised := if opening then Min(throttle + dt * (if mode == Ground then 0.6 else 1.0), 1.0) else throttle;
    if !closing then raised
    else if mode == Ground then Max(raised - dt * 1.5, ReverseThrottle)
    else Max(raised - dt * 1.0, 0.0)
  }

  /** The right joystick (`rightJoy`, the flight stick), held away from its centre band, sets the throttle outright from its y. */
  function ThrottleFromJoystick(throttle: real, mode: FlightMode, rightJoy: Joystick): real {
    if rightJoy.active && Abs(rightJoy.y) > 0.1 then
      (if mode == Ground then Max(ReverseThrottle, Min(1.0, rightJoy.y)) else Max(0.0, Min(1.0, rightJoy.y)))
    else throttle
  }

  /** Auto-trim of the throttle runs only when neither W, S nor the right joystick is in use. */
  predicate ThrottleTrimEngaged(keyboard: map<string, bool>, rightJoy: Joystick) {
    !Pressed(keyboard, "KeyW") && !Pressed(keyboard, "KeyS") && !rightJoy.active
  }

  /**
   * One frame of `processThrottleControl`'s throttle updates; `target` is the
   * auto-trim target and `rate` the lerp factor `strength * dt`.
   */
  function ThrottleStep(throttle: real, dt: real, mode: FlightMode, keyboard: map<string, bool>,
                        rightJoy: Joystick, target: real, rate: real): real
  {
    var keyed := ThrottleAfterKeys(throttle, dt, mode, Pressed(keyboard, "KeyW"), Pressed(keyboard, "KeyS"));
    var overridden := ThrottleFromJoystick(keyed, mode, rightJoy);
    if ThrottleTrimEngaged(keyboard, rightJoy) then ThreeLerp(overridden, target, rate) else overridden
  }

  /**
   * The throttle stays in [-0.8, 1]; in the air the S key and the right joystick never
   * take it below 0, and an airborne throttle that is not negative stays so;
   * the right joystick, when used, overrides the keys.
   */
  lemma ThrottleStepRange(throttle: real, dt: real, mode: FlightMode, keyboard: map<string, bool>,
                          rightJoy: Joystick, target: real, rate: real)
    requires ReverseThrottle <= throttle <= 1.0 && 0.0 <= dt
    requires 0.0 <= target <= 1.0 && 0.0 <= rate <= 1.0
    ensures var r := ThrottleStep(throttle, dt, mode, keyboard, rightJoy, target, rate);
      ReverseThrottle <= r <= 1.0
      && (mode == Air && Pressed(keyboard, "KeyS") ==> 0.0 <= r)
      && (mode == Air && 0.0 <= throttle ==> 0.0 <= r)
      && (rightJoy.active && Abs(rightJoy.y) > 0.1 ==>
            r == if mode == Ground then Limit(rightJoy.y, ReverseThrottle, 1.0) else Limit(rightJoy.y, 0.0, 1.0))
  {
    var keyed := ThrottleAfterKeys(throttle, dt, mode, Pressed(keyboard, "KeyW"), Pressed(keyboard, "KeyS"));
    var overridden := ThrottleFromJoystick(keyed, mode, rightJoy);
    assert ReverseThrottle <= overridden <= 1.0;
    if ThrottleTrimEngaged(keyboard, rightJoy) {
      LerpWithin(overridden, target, rate, ReverseThrottle, 1.0);
      if mode == Air && 0.0 <= throttle {
        LerpWithin(overridden, target, rate, 0.0, 1.0);
      }
    }
  }

  /** With the default trim configuration and the cruise target, a frame of up to a second keeps the throttle in range. */
  lemma DefaultThrottleStepRange(throttle: real, dt: real, mode: FlightMode, keyboard: map<string, bool>,
                                 rightJoy: Joystick, speed: real)
    requires ReverseThrottle <= throttle <= 1.0 && 0.0 <= dt <= 1.0
    ensures var r := ThrottleStep(throttle, dt, mode, keyboard, rightJoy, TargetThrottle(mode, speed, DefaultTrim.targetSpeed),
                                  GetTrimStrength("speed", DefaultTrim) * dt);
      ReverseThrottle <= r <= 1.0 && (mode == Air && 0.0 <= throttle ==> 0.0 <= r)
  {
    DefaultTrimStrength("speed");
    ThrottleStepRange(throttle, dt, mode, keyboard, rightJoy, TargetThrottle(mode, speed, DefaultTrim.targetSpeed),
                      GetTrimStrength("speed", DefaultTrim) * dt);
  }

  /** The right joystick counts as pushed to afterburner when its y exceeds 0.9. */
  function Afterburner(keyboard: map<string, bool>, rightJoy: Joystick): bool {
    Pressed(keyboard, "ShiftLeft") || Pressed(keyboard, "ShiftRight") || (rightJoy.active && rightJoy.y > 0.9)
  }

  /**
   * `calculateTargetThrottle`: none on the ground; in the air half throttle
   * at the cruise speed, more below it and less above it.
   */
  function TargetThrottle(mode: FlightMode, speed: real, targetSpeed: real): (r: real)
    requires mode == Air ==> targetSpeed != 0.0
    ensures mode == Ground ==> r == 0.0
    ensures 0.0 <= r <= 1.0
  {
    if mode == Ground then 0.0
    else
      var speedError := (targetSpeed - speed) / targetSpeed;
      Max(0.0, Min(1.0, 0.5 + speedError * 0.5))
  }

  lemma TargetThrottleAtCruise(targetSpeed: real)
    requires targetSpeed != 0.0
    ensures TargetThrottle(Air, targetSpeed, targetSpeed) == 0.5
  {
  }

  lemma DivideMonotone(a: real, b: real, c: real)
    requires a <= b && 0.0 < c
    ensures a / c <= b / c
  {
    MulMonotone(a, b, 1.0 / c);
    assert a / c == a * (1.0 / c);
    assert b / c == b * (1.0 / c);
  }

  /** Flying faster never asks for more throttle; standing still asks for full throttle. */
  lemma TargetThrottleMonotone(slower: real, faster: real, targetSpeed: real)
    requires slower <= faster && 0.0 < targetSpeed
    ensures TargetThrottle(Air, faster, targetSpeed) <= TargetThrottle(Air, slower, targetSpeed)
    ensures slower <= 0.0 ==> TargetThrottle(Air, slower, targetSpeed) == 1.0
    ensures 2.0 * targetSpeed <= faster ==> TargetThrottle(Air, faster, targetSpeed) == 0.0
  {
    DivideMonotone(targetSpeed - faster, targetSpeed - slower, targetSpeed);
    if slower <= 0.0 {
      DivideMonotone(targetSpeed, targetSpeed - slower, targetSpeed);
    }
    if 2.0 * targetSpeed <= faster {
      DivideMonotone(targetSpeed - faster, -targetSpeed, targetSpeed);
    }
  }

  /**
   * The `strengthMap` lookup with its `|| 1.0` fallback: full strength for
   * arcade and for any unlisted setting, 0.6 for simulation, 0.2 for expert.
   */
  function TrimStrength(setting: string): (r: real)
    ensures 0.0 < r <= 1.0
    ensures setting == "simulation" ==> r == 0.6
    ensures setting == "expert" ==> r == 0.2
    ensures setting != "simulation" && setting != "expert" ==> r == 1.0
  {
    if setting == "arcade" then 1.0
    else if setting == "simulation" then 0.6
    else if setting == "expert" then 0.2
    else 1.0
  }

  /** `getTrimStrength(type)`: the speed setting for `'speed'`, the attitude setting otherwise. */
  function GetTrimStrength(kind: string, trim: TrimSystem): (r: real)
    ensures 0.0 < r <= 1.0
    ensures kind == "speed" ==> r == TrimStrength(trim.speedTrimStrength)
    ensures kind != "speed" ==> r == TrimStrength(trim.attitudeTrimStrength)
  {
    TrimStrength(if kind == "speed" then trim.speedTrimStrength else trim.attitudeTrimStrength)
  }

  /** With the default (arcade) configuration both trims run at full strength. */
  lemma DefaultTrimStrength(kind: string)
    ensures GetTrimStrength(kind, DefaultTrim) == 1.0
  {
  }

  // ------------------------------------------------------------------
  // Yaw rates
  // ------------------------------------------------------------------

  /** `calculateGroundYawRate`'s effective rate: from 1.5 at low speed growing to 4 at 80 km/h. */
  function GroundYawGain(speed: real): (r: real)
    ensures 1.5 <= r <= 4.0
    ensures 80.0 <= speed ==> r == 4.0
  {
    Max(4.0 * Min((speed - 2.0) / 78.0, 1.0), 1.5)
  }

  lemma GroundYawGainMonotone(slower: real, faster: real)
    requires slower <= faster
    ensures GroundYawGain(slower) <= GroundYawGain(faster)
  {
  }

  /** `calculateGroundYawRate`: no steering below 2 km/h. */
  function GroundYawRate(turnInput: real, dt: real, speed: real): (r: real)
    ensures speed < 2.0 ==> r == 0.0
  {
    if speed < 2.0 then 0.0 else turnInput * dt * GroundYawGain(speed)
  }

  /** `calculateAirYawRate`'s speed factor, piecewise in the speed (km/h). */
  function AirSpeedFactor(speed: real): (r: real)
    ensures r <= 1.0
    ensures 0.0 <= speed ==> 0.0 <= r
    ensures 0.0 < speed ==> 0.0 < r
    ensures GroundSpeed <= speed ==> 0.5 <= r
    ensures 150.0 <= speed <= 400.0 ==> r == 1.0
  {
    if speed < 40.0 then speed / 40.0 * 0.5
    else if speed <= 150.0 then 0.5 + (speed - 40.0) / 110.0 * 0.5
    else if speed <= 400.0 then 1.0
    else Max(0.8, 1.0 - (speed - 400.0) / 200.0 * 0.2)
  }

  /** Thinner air higher up, floored at 30 %. */
  function DensityFactor(m: RealMath, altitude: real): (r: real)
    ensures 0.3 <= r
  {
    Max(0.3, m.exp(-altitude / 1000.0))
  }

  function RollEffect(m: RealMath, roll: real): (r: real)
    ensures 0.7 <= r
  {
    Max(0.7, m.cos(roll))
  }

  function PitchEffect(m: RealMath, pitch: real): (r: real)
    ensures 0.8 <= r
  {
    Max(0.8, m.cos(pitch))
  }

  /** `calculateAirYawRate`, multiplied out left to right as the code does. */
  function AirYawRate(m: RealMath, turnInput: real, dt: real, speed: real, altitude: real, roll: real, pitch: real): real {
    turnInput * dt * 2.5 * AirSpeedFactor(speed) * DensityFactor(m, altitude) * RollEffect(m, roll) * PitchEffect(m, pitch)
  }

  /** Everything in the air yaw rate but the turn input. */
  function AirYawGain(m: RealMath, dt: real, speed: real, altitude: real, roll: real, pitch: real): real {
    dt * 2.5 * AirSpeedFactor(speed) * DensityFactor(m, altitude) * RollEffect(m, roll) * PitchEffect(m, pitch)
  }

  lemma AirYawRateFactors(m: RealMath, turnInput: real, dt: real, speed: real, altitude: real, roll: real, pitch: real)
    ensures AirYawRate(m, turnInput, dt, speed, altitude, roll, pitch)
         == turnInput * AirYawGain(m, dt, speed, altitude, roll, pitch)
    ensures 0.0 < dt && 0.0 < speed ==> 0.0 < AirYawGain(m, dt, speed, altitude, roll, pitch)
  {
    var s, d, r, p := AirSpeedFactor(speed), DensityFactor(m, altitude), RollEffect(m, roll), PitchEffect(m, pitch);
    assert turnInput * dt * 2.5 * s * d * r * p == turnInput * (dt * 2.5 * s * d * r * p);
    if 0.0 < dt && 0.0 < speed {
      MulPositive(dt * 2.5, s);
      MulPositive(dt * 2.5 * s, d);
      MulPositive(dt * 2.5 * s * d, r);
      MulPositive(dt * 2.5 * s * d * r, p);
    }
  }

  /** The rate of `processPureYawControls` and the ground steering: ground or air formula by mode. */
  function YawRate(mode: FlightMode, m: RealMath, turnInput: real, dt: real, speed: real,
                   altitude: real, roll: real, pitch: real): real
  {
    if mode == Ground then GroundYawRate(turnInput, dt, speed)
    else AirYawRate(m, turnInput, dt, speed, altitude, roll, pitch)
  }

  /**
   * The yaw rate is odd in the turn input and has its sign: with time passing
   * and the aeroplane moving fast enough to steer, a positive input yaws
   * left (positive), a negative one right.
   */
  lemma YawRateSign(mode: FlightMode, m: RealMath, turnInput: real, dt: real, speed: real,
                    altitude: real, roll: real, pitch: real)
    ensures YawRate(mode, m, -turnInput, dt, speed, altitude, roll, pitch)
         == -YawRate(mode, m, turnInput, dt, speed, altitude, roll, pitch)
    ensures 0.0 < dt && (if mode == Ground then 2.0 <= speed else 0.0 < speed) ==>
      var r := YawRate(mode, m, turnInput, dt, speed, altitude, roll, pitch);
      (0.0 < turnInput ==> 0.0 < r) && (turnInput < 0.0 ==> r < 0.0) && (turnInput == 0.0 ==> r == 0.0)
  {
    if mode == Ground {
      var g := GroundYawGain(speed);
      if 2.0 <= speed {
        assert GroundYawRate(turnInput, dt, speed) == turnInput * (dt * g);
        assert GroundYawRate(-turnInput, dt, speed) == (-turnInput) * (dt * g);
        if 0.0 < dt {
          MulPositive(dt, g);
          if 0.0 < turnInput {
            MulPositive(turnInput, dt * g);
          } else if turnInput < 0.0 {
            MulNegative(turnInput, dt * g);
          }
        }
      }
    } else {
      AirYawRateFactors(m, turnInput, dt, speed, altitude, roll, pitch);
      AirYawRateFactors(m, -turnInput, dt, speed, altitude, roll, pitch);
      var g := AirYawGain(m, dt, speed, altitude, roll, pitch);
      if 0.0 < dt && 0.0 < speed {
        if 0.0 < turnInput {
          MulPositive(turnInput, g);
        } else if turnInput < 0.0 {
          MulNegative(turnInput, g);
        }
      }
    }
  }

  /** The yaw `processPureYawControls` adds in one frame: A yaws left, D right, the right joystick's x likewise. */
  function PureYawDelta(mode: FlightMode, m: RealMath, keyboard: map<string, bool>, rightJoy: Joystick,
                        dt: real, speed: real, altitude: real, roll: real, pitch: real): real
  {
    (if Pressed(keyboard, "KeyA") then YawRate(mode, m, 1.0, dt, speed, altitude, roll, pitch) else 0.0)
    + (if Pressed(keyboard, "KeyD") then YawRate(mode, m, -1.0, dt, speed, altitude, roll, pitch) else 0.0)
    + (if rightJoy.active && Abs(rightJoy.x) > 0.1 then YawRate(mode, m, -rightJoy.x, dt, speed, altitude, roll, pitch) else 0.0)
  }

  /** A and D held together cancel exactly; either one alone turns its own way. */
  lemma PureYawKeys(mode: FlightMode, m: RealMath, keyboard: map<string, bool>, rightJoy: Joystick,
                    dt: real, speed: real, altitude: real, roll: real, pitch: real)
    requires !(rightJoy.active && Abs(rightJoy.x) > 0.1)
    ensures var d := PureYawDelta(mode, m, keyboard, rightJoy, dt, speed, altitude, roll, pitch);
      (Pressed(keyboard, "KeyA") && Pressed(keyboard, "KeyD") ==> d == 0.0)
      && (0.0 < dt && (if mode == Ground then 2.0 <= speed else 0.0 < speed) ==>
            (Pressed(keyboard, "KeyA") && !Pressed(keyboard, "KeyD") ==> 0.0 < d)
            && (Pressed(keyboard, "KeyD") && !Pressed(keyboard, "KeyA") ==> d < 0.0))
  {
    YawRateSign(mode, m, 1.0, dt, speed, altitude, roll, pitch);
    YawRateSign(mode, m, -1.0, dt, speed, altitude, roll, pitch);
  }

  // ------------------------------------------------------------------
  // Elevator and pitch
  // ------------------------------------------------------------------

  /** The elevator's travel, a sixth of half a turn each way. */
  const MaxElevator: real := PI / 6.0

  /** Arrow up pushes the elevator up, arrow down pulls it down, neither lets it decay. */
  function ElevatorAfterKeys(elevator: real, dt: real, up: bool, down: bool): real {
    if up then Min(elevator + dt * 1.8, MaxElevator)
    else if down then Max(elevator - dt * 1.8, -MaxElevator)
    else elevator * (1.0 - dt * 3.0)
  }

  /** The left joystick (`leftJoy`, the throttle lever), outside its centre band, sets the elevator from its y. */
  function ElevatorFromJoystick(elevator: real, leftJoy: Joystick): real {
    if leftJoy.active && Abs(leftJoy.y) > 0.1 then -leftJoy.y * PI / 6.0 else elevator
  }

  function ElevatorStep(elevator: real, dt: real, keyboard: map<string, bool>, leftJoy: Joystick): real {
    ElevatorFromJoystick(ElevatorAfterKeys(elevator, dt, Pressed(keyboard, "ArrowUp"), Pressed(keyboard, "ArrowDown")), leftJoy)
  }

  /** The elevator stays within its travel, provided a frame is at most two thirds of a second. */
  lemma ElevatorStepBounded(elevator: real, dt: real, keyboard: map<string, bool>, leftJoy: Joystick)
    requires -MaxElevator <= elevator <= MaxElevator
    requires 0.0 <= dt && 3.0 * dt <= 2.0 && -1.0 <= leftJoy.y <= 1.0
    ensures -MaxElevator <= ElevatorStep(elevator, dt, keyboard, leftJoy) <= MaxElevator
  {
    WithinUnitFactor(elevator, 1.0 - dt * 3.0, MaxElevator);
  }

  /** Without the frame-length bound the decay overshoots: one second flips a full deflection to twice its size. */
  lemma ElevatorDecayOvershoots()
    ensures ElevatorAfterKeys(MaxElevator, 1.0, false, false) == -2.0 * MaxElevator
  {
  }

  /**
   * `applyElevatorEffect`: on the ground the elevator acts only above 20 km/h
   * and pitch is held to [-π/6, π/12], or [-π/6, π/6] once take-off is
   * cleared; in the air it always acts and pitch is held to ±π/4.
   */
  function ElevatorPitch(pitch: real, elevator: real, dt: real, speed: real, mode: FlightMode, canTakeoff: bool): (r: real)
    ensures mode == Ground && speed > 20.0 ==> -PI / 6.0 <= r <= (if canTakeoff then PI / 6.0 else PI / 12.0)
    ensures mode == Ground && speed <= 20.0 ==> r == pitch
    ensures mode == Air ==> -PI / 4.0 <= r <= PI / 4.0
  {
    if mode == Ground then
      if speed > 20.0 then
        Limit(pitch + PitchMoment(elevator, Min(speed / 80.0, 1.0), dt, 2.0), -PI / 6.0, if canTakeoff then PI / 6.0 else PI / 12.0)
      else pitch
    else
      Limit(pitch + PitchMoment(elevator, Min(speed / 100.0, 1.5), dt, 3.0), -PI / 4.0, PI / 4.0)
  }

  /** The pitch change one frame of elevator gives: a down (negative) elevator raises the nose. */
  function PitchMoment(elevator: real, speedFactor: real, dt: real, gain: real): real {
    -elevator * speedFactor * dt * gain
  }

  /** In the air a down (negative) elevator never lowers the nose and an up one never raises it. */
  lemma ElevatorPitchDirection(pitch: real, elevator: real, dt: real, speed: real, canTakeoff: bool)
    requires -PI / 4.0 <= pitch <= PI / 4.0 && 0.0 <= dt && 0.0 <= speed
    ensures elevator <= 0.0 ==> pitch <= ElevatorPitch(pitch, elevator, dt, speed, Air, canTakeoff)
    ensures 0.0 <= elevator ==> ElevatorPitch(pitch, elevator, dt, speed, Air, canTakeoff) <= pitch
  {
    var f := Min(speed / 100.0, 1.5);
    var moment := -elevator * f * dt * 3.0;
    MulNonNegative(f, dt);
    if elevator <= 0.0 {
      MulNonNegative(-elevator, f);
      MulNonNegative(-elevator * f, dt);
    } else {
      MulNonNegative(elevator, f);
      MulNonNegative(elevator * f, dt);
      assert moment == -(elevator * f * dt * 3.0);
    }
  }

  // ------------------------------------------------------------------
  // Roll
  // ------------------------------------------------------------------

  const MaxRollAngle: real := 45.0 * PI / 180.0
  const RollSpeed: real := 120.0 * PI / 180.0
  const MaxAbsoluteRoll: real := 60.0 * PI / 180.0
  const RollDamping: real := 0.15

  /** `getRollInput`: left arrow -1, right arrow 1 (right wins), the left joystick's x overriding both. */
  function RollInput(keyboard: map<string, bool>, leftJoy: Joystick): (r: real)
    ensures -1.0 <= leftJoy.x <= 1.0 ==> -1.0 <= r <= 1.0
  {
    var keys := if Pressed(keyboard, "ArrowRight") then 1.0 else if Pressed(keyboard, "ArrowLeft") then -1.0 else 0.0;
    if leftJoy.active && Abs(leftJoy.x) > 0.1 then leftJoy.x else keys
  }

  /** The ground steering input: left arrow 1, right arrow -1 (right wins), the left joystick's -x overriding both. */
  function GroundTurnInput(keyboard: map<string, bool>, leftJoy: Joystick): real {
    var keys := if Pressed(keyboard, "ArrowRight") then -1.0 else if Pressed(keyboard, "ArrowLeft") then 1.0 else 0.0;
    if leftJoy.active && Abs(leftJoy.x) > 0.1 then -leftJoy.x else keys
  }

  /** The yaw the ground steering adds: the steering input, when beyond 0.1, through the ground yaw rate. */
  function GroundSteering(keyboard: map<string, bool>, leftJoy: Joystick, dt: real, speed: real): real {
    var turnInput := GroundTurnInput(keyboard, leftJoy);
    if Abs(turnInput) > 0.1 then GroundYawRate(turnInput, dt, speed) else 0.0
  }

  /** Moves `roll` toward `target` at constant `rate`, landing on it when within one step. */
  function ApproachRoll(roll: real, target: real, rate: real): (r: real)
    ensures 0.0 <= rate ==>
      (roll <= target ==> roll <= r <= target)
      && (target <= roll ==> target <= r <= roll)
      && -rate <= r - roll <= rate
      && (Abs(roll - target) <= rate ==> r == target)
  {
    if Abs(roll - target) > rate then roll + (if target > roll then 1.0 else -1.0) * rate else target
  }

  /** `processRollControl` before its final clamp: approach the commanded bank, or decay without input. */
  function RollStep(roll: real, rollInput: real, dt: real): real {
    if Abs(rollInput) > 0.1 then ApproachRoll(roll, rollInput * MaxRollAngle, RollSpeed * dt)
    else roll * (1.0 - RollDamping * dt)
  }

  /** The hard ±60° bank limit. */
  function ClampRoll(roll: real): (r: real)
    ensures -MaxAbsoluteRoll <= r <= MaxAbsoluteRoll
    ensures -MaxAbsoluteRoll <= roll <= MaxAbsoluteRoll ==> r == roll
  {
    Limit(roll, -MaxAbsoluteRoll, MaxAbsoluteRoll)
  }

  /**
   * With input the bank closes on input·45° by at most 120°/s·dt, landing on
   * it within one step.
   */
  lemma RollStepTracksTarget(roll: real, rollInput: real, dt: real)
    requires 0.0 <= dt && Abs(rollInput) > 0.1
    ensures var target := rollInput * MaxRollAngle;
      var r := RollStep(roll, rollInput, dt);
      Abs(r - target) <= Abs(roll - target) && Abs(r - roll) <= RollSpeed * dt
      && (Abs(roll - target) <= RollSpeed * dt ==> r == target)
  {
    MulNonNegative(RollSpeed, dt);
  }

  /** Without input the bank decays toward level, never past it. */
  lemma RollStepDecays(roll: real, rollInput: real, dt: real)
    requires 0.0 <= dt && RollDamping * dt <= 1.0 && Abs(rollInput) <= 0.1
    ensures var r := RollStep(roll, rollInput, dt);
      (0.0 <= roll ==> 0.0 <= r <= roll) && (roll <= 0.0 ==> roll <= r <= 0.0)
  {
    var f := 1.0 - RollDamping * dt;
    TowardZero(roll, f);
    assert RollStep(roll, rollInput, dt) == roll * f;
  }

  /** From a bank within ±60° the step stays within ±60°, so the final clamp never cuts it. */
  lemma RollStepBounded(roll: real, rollInput: real, dt: real)
    requires 0.0 <= dt && RollDamping * dt <= 2.0
    requires -MaxAbsoluteRoll <= roll <= MaxAbsoluteRoll && -1.0 <= rollInput <= 1.0
    ensures -MaxAbsoluteRoll <= RollStep(roll, rollInput, dt) <= MaxAbsoluteRoll
  {
    if Abs(rollInput) > 0.1 {
      MulNonNegative(RollSpeed, dt);
      WithinUnitFactor(MaxRollAngle, rollInput, MaxRollAngle);
      assert MaxRollAngle * rollInput == rollInput * MaxRollAngle;
    } else {
      var f := 1.0 - RollDamping * dt;
      WithinUnitFactor(roll, f, MaxAbsoluteRoll);
      assert RollStep(roll, rollInput, dt) == roll * f;
    }
  }

  // ------------------------------------------------------------------
  // What the two touch controls drive
  // ------------------------------------------------------------------

  /**
   * The throttle lever is the left joystick, which the engine reads as the
   * elevator input: a lever outside the centre band sets the deflection from
   * its y, and the pitch trim stays off while the lever is held; its x is
   * always 0, so it never rolls or steers.
   */
  lemma LeverDrivesElevator(layout: Layout, clientY: real, elevator: real, dt: real, keyboard: map<string, bool>)
    ensures var lever := ThrottleLever(layout, clientY);
      (Abs(lever.y) > 0.1 ==> ElevatorStep(elevator, dt, keyboard, lever) == -lever.y * PI / 6.0)
      && RollInput(keyboard, lever) == RollInput(keyboard, Centred)
      && GroundTurnInput(keyboard, lever) == GroundTurnInput(keyboard, Centred)
      && !PitchTrimEngaged(keyboard, lever)
  {
  }

  /**
   * The flight stick is the right joystick, which the engine reads as the
   * throttle input: a stick outside the centre band sets the throttle from its
   * y, so pulling the stick below its centre opens the throttle and pushing it
   * above closes it.
   */
  lemma StickDrivesThrottle(m: RealMath, layout: Layout, clientX: real, clientY: real, throttle: real, dt: real,
                            mode: FlightMode, keyboard: map<string, bool>, target: real, rate: real)
    requires Lawful(m)
    ensures var stick := FlightStick(m, layout, clientX, clientY);
      stick.active && Abs(stick.y) > 0.1 ==>
        ThrottleStep(throttle, dt, mode, keyboard, stick, target, rate)
          == (if mode == Ground then Limit(stick.y, ReverseThrottle, 1.0) else Limit(stick.y, 0.0, 1.0))
        && (0.0 < stick.y <==> clientY > layout.stickTop + layout.stickHeight / 2.0)
  {
    FlightStickSpec(m, layout, clientX, clientY);
  }

  // ------------------------------------------------------------------
  // Banking turn
  // ------------------------------------------------------------------

  /** `Math.sign` */
  function Sign(x: real): real {
    if x > 0.0 then 1.0 else if x < 0.0 then -1.0 else 0.0
  }

  const MaxYawAssist: real := 15.0 * PI / 180.0
  const MaxPitchCompensation: real := 6.0 * PI / 180.0

  /** The coordinated yaw a bank asks for, before its 15°/s cap. */
  function YawAssist(m: RealMath, roll: real, pitch: real, speed: real): real {
    var factor := 1.2 * Min(speed / 150.0, 1.2) * Max(0.2, m.cos(pitch));
    Abs(roll) * factor * (speed / 60.0)
  }

  /** `executeBankingTurn`'s yaw: a bank beyond 2° yaws toward the low wing. */
  function BankingYaw(m: RealMath, yaw: real, roll: real, pitch: real, speed: real, dt: real): real {
    if Abs(roll) > 2.0 * PI / 180.0 then
      yaw + YawAssistStep(Sign(roll), Min(YawAssist(m, roll, pitch, speed), MaxYawAssist), dt)
    else yaw
  }

  /** One frame of the capped yaw assist, against the roll direction. */
  function YawAssistStep(rollDirection: real, assist: real, dt: real): real {
    -rollDirection * assist * dt
  }

  lemma YawAssistNonNegative(m: RealMath, roll: real, pitch: real, speed: real)
    requires 0.0 <= speed
    ensures 0.0 <= YawAssist(m, roll, pitch, speed)
  {
    var factor := 1.2 * Min(speed / 150.0, 1.2) * Max(0.2, m.cos(pitch));
    MulNonNegative(1.2 * Min(speed / 150.0, 1.2), Max(0.2, m.cos(pitch)));
    MulNonNegative(Abs(roll), factor);
    MulNonNegative(Abs(roll) * factor, speed / 60.0);
  }

  /** The banking yaw changes heading by at most 15°/s, toward the lowered wing (a right bank yaws right). */
  lemma BankingYawSpec(m: RealMath, yaw: real, roll: real, pitch: real, speed: real, dt: real)
    requires 0.0 <= speed && 0.0 <= dt
    ensures var r := BankingYaw(m, yaw, roll, pitch, speed, dt);
      yaw - MaxYawAssist * dt <= r <= yaw + MaxYawAssist * dt
      && (0.0 < roll ==> r <= yaw) && (roll < 0.0 ==> yaw <= r)
  {
    YawAssistNonNegative(m, roll, pitch, speed);
    var effective := Min(YawAssist(m, roll, pitch, speed), MaxYawAssist);
    MulNonNegative(MaxYawAssist, dt);
    if Abs(roll) > 2.0 * PI / 180.0 {
      var s := -Sign(roll);
      assert YawAssistStep(Sign(roll), effective, dt) == s * effective * dt;
      assert BankingYaw(m, yaw, roll, pitch, speed, dt) == yaw + s * effective * dt;
      SignedStep(yaw, s, effective, dt, MaxYawAssist);
    }
  }

  /** The nose-up compensation a bank beyond 5° asks for, smaller the further the nose is from level. */
  function PitchCompensation(roll: real, pitch: real): real {
    Min(Abs(roll) * 0.25, MaxPitchCompensation) * Max(0.3, 1.0 - Abs(pitch) / (PI / 6.0))
  }

  /** `executeBankingTurn`'s pitch: the compensation, then the ±π/4 limit. */
  function BankingPitch(pitch: real, roll: real, dt: real): (r: real)
    ensures -PI / 4.0 <= r <= PI / 4.0
  {
    var raised := if Abs(roll) > 5.0 * PI / 180.0 then pitch + CompensationStep(PitchCompensation(roll, pitch), dt) else pitch;
    Limit(raised, -PI / 4.0, PI / 4.0)
  }

  /** One frame of the nose-up compensation. */
  function CompensationStep(compensation: real, dt: real): real {
    compensation * dt * 1.8
  }

  /** The compensation never pushes the nose down, and raises it by at most 6°·1.8 per second. */
  lemma BankingPitchSpec(pitch: real, roll: real, dt: real)
    requires -PI / 4.0 <= pitch <= PI / 4.0 && 0.0 <= dt
    ensures pitch <= BankingPitch(pitch, roll, dt) <= pitch + MaxPitchCompensation * dt * 1.8
  {
    var c := PitchCompensation(roll, pitch);
    var bound := MaxPitchCompensation * dt * 1.8;
    PitchCompensationRange(roll, pitch);
    RiseWithin(c, dt, MaxPitchCompensation);
    var raised := if Abs(roll) > 5.0 * PI / 180.0 then pitch + CompensationStep(c, dt) else pitch;
    assert pitch <= raised <= pitch + bound;
    LimitKeepsBetween(raised, pitch, pitch + bound, -PI / 4.0, PI / 4.0);
  }

  /** One frame's compensation lies in [0, bound·dt·1.8]. */
  lemma RiseWithin(c: real, dt: real, bound: real)
    requires 0.0 <= c <= bound && 0.0 <= dt
    ensures 0.0 <= CompensationStep(c, dt) <= bound * dt * 1.8
  {
    BoundedRise(0.0, c, dt, 1.8, bound);
  }

  /** Clamping to [lo, hi] a value between `p` (itself in range) and `u` keeps it between them. */
  lemma LimitKeepsBetween(x: real, p: real, u: real, lo: real, hi: real)
    requires lo <= p <= hi && p <= x <= u
    ensures p <= Limit(x, lo, hi) <= u
  {
  }

  lemma PitchCompensationRange(roll: real, pitch: real)
    ensures 0.0 <= PitchCompensation(roll, pitch) <= MaxPitchCompensation
  {
    var effective := Min(Abs(roll) * 0.25, MaxPitchCompensation);
    var attenuation := Max(0.3, 1.0 - Abs(pitch) / (PI / 6.0));
    WithinFractionFactor(effective, attenuation, MaxPitchCompensation);
    MulNonNegative(effective, attenuation);
  }

  // ------------------------------------------------------------------
  // Attitude trim
  // ------------------------------------------------------------------

  /** A turn is in progress: a side arrow held or the left joystick pushed sideways. */
  predicate IsRolling(keyboard: map<string, bool>, leftJoy: Joystick) {
    Pressed(keyboard, "ArrowLeft") || Pressed(keyboard, "ArrowRight") || (leftJoy.active && Abs(leftJoy.x) > 0.1)
  }

  /** Pitch trim runs only with the pitch controls and the left joystick untouched and no turn in progress. */
  predicate PitchTrimEngaged(keyboard: map<string, bool>, leftJoy: Joystick) {
    !Pressed(keyboard, "ArrowUp") && !Pressed(keyboard, "ArrowDown") && !leftJoy.active && !IsRolling(keyboard, leftJoy)
  }

  /** Yaw damping runs only with A, D and the right joystick untouched. */
  predicate YawDampingEngaged(keyboard: map<string, bool>, rightJoy: Joystick) {
    !Pressed(keyboard, "KeyA") && !Pressed(keyboard, "KeyD") && !rightJoy.active
  }

  /**
   * The pitch the trim pulls toward: level on the ground; in the air a little
   * nose-up when slow, a little nose-down when fast, and nearly the current
   * pitch at cruise.
   */
  function TrimTargetPitch(mode: FlightMode, pitch: real, speed: real, cruiseSpeed: real): (r: real)
    ensures mode == Ground ==> r == 0.0
    ensures -PI / 4.0 <= pitch <= PI / 4.0 ==> -PI / 4.0 <= r <= PI / 4.0
    ensures mode == Air && speed < cruiseSpeed * 0.8 ==> r <= PI / 12.0
    ensures mode == Air && cruiseSpeed * 0.8 <= speed && speed > cruiseSpeed * 1.2 ==> -PI / 20.0 <= r
  {
    if mode == Ground then 0.0
    else if speed < cruiseSpeed * 0.8 then Min(pitch * 0.9 + 0.05, PI / 12.0)
    else if speed > cruiseSpeed * 1.2 then Max(pitch * 0.9 - 0.02, -PI / 20.0)
    else pitch * 0.98
  }

  function PitchTrimRate(trim: TrimSystem, strength: real, mode: FlightMode): real {
    trim.pitchStability * strength * (if mode == Ground then 0.5 else 0.1)
  }

  /** With a lerp factor in [0, 1] the pitch trim keeps pitch within ±π/4. */
  lemma PitchTrimBounded(mode: FlightMode, pitch: real, speed: real, cruiseSpeed: real, t: real)
    requires -PI / 4.0 <= pitch <= PI / 4.0 && 0.0 <= t <= 1.0
    ensures -PI / 4.0 <= ThreeLerp(pitch, TrimTargetPitch(mode, pitch, speed, cruiseSpeed), t) <= PI / 4.0
  {
    LerpWithin(pitch, TrimTargetPitch(mode, pitch, speed, cruiseSpeed), t, -PI / 4.0, PI / 4.0);
  }

  /** On the ground the pitch trim levels the nose without overshooting. */
  lemma GroundPitchTrimLevels(pitch: real, speed: real, cruiseSpeed: real, t: real)
    requires 0.0 <= t <= 1.0
    ensures var r := ThreeLerp(pitch, TrimTargetPitch(Ground, pitch, speed, cruiseSpeed), t);
      (0.0 <= pitch ==> 0.0 <= r <= pitch) && (pitch <= 0.0 ==> pitch <= r <= 0.0)
  {
    TowardZero(pitch, 1.0 - t);
  }

  function YawDampingRate(trim: TrimSystem, mode: FlightMode): real {
    if mode == Ground then trim.yawDamping * 0.3 else trim.yawDamping * 0.05
  }

  /** `yawAngle *= (1 - dt * rate)`: with `dt * rate` in [0, 1] the heading moves toward 0 without crossing it. */
  function DampedYaw(yaw: real, dt: real, rate: real): real {
    yaw * (1.0 - dt * rate)
  }

  lemma DampedYawSpec(yaw: real, dt: real, rate: real)
    requires 0.0 <= dt * rate <= 1.0
    ensures var r := DampedYaw(yaw, dt, rate);
      (0.0 <= yaw ==> 0.0 <= r <= yaw) && (yaw <= 0.0 ==> yaw <= r <= 0.0)
  {
    var k := dt * rate;
    DampedByFraction(yaw, k);
    assert DampedYaw(yaw, dt, rate) == yaw * (1.0 - k);
  }

  /** Scaling by `1 - k`, `k` in [0, 1], moves a number toward zero without crossing it. */
  lemma DampedByFraction(yaw: real, k: real)
    requires 0.0 <= k <= 1.0
    ensures 0.0 <= yaw ==> 0.0 <= yaw * (1.0 - k) <= yaw
    ensures yaw <= 0.0 ==> yaw <= yaw * (1.0 - k) <= 0.0
  {
    TowardZero(yaw, 1.0 - k);
  }

  // ------------------------------------------------------------------
  // Speed limit and ground contact
  // ------------------------------------------------------------------

  /** `v.normalize()`: division by `length() || 1`, so the zero vector stays zero. */
  function Normalized(m: RealMath, v: Vec3): Vec3 {
    var l := Length(m, v);
    Scale(v, 1.0 / (if l == 0.0 then 1.0 else l))
  }

  /** `applySpeedLimit`: above `maxSpeed` (km/h) the velocity is rescaled to exactly that speed. */
  function SpeedLimited(m: RealMath, v: Vec3, maxSpeed: real): Vec3 {
    if Length(m, v) * 3.6 > maxSpeed then Scale(Normalized(m, v), maxSpeed / 3.6) else v
  }

  /** The factor by which the limiter scales the velocity. */
  function SpeedLimitFactor(m: RealMath, v: Vec3, maxSpeed: real): real {
    var l := Length(m, v);
    if l * 3.6 > maxSpeed then (maxSpeed / 3.6) / (if l == 0.0 then 1.0 else l) else 1.0
  }

  lemma ScaleTwice(v: Vec3, a: real, b: real)
    ensures Scale(Scale(v, a), b) == Scale(v, a * b)
  {
    assert v.x * a * b == v.x * (a * b);
    assert v.y * a * b == v.y * (a * b);
    assert v.z * a * b == v.z * (a * b);
  }

  /** A non-zero vector normalises to unit length. */
  lemma NormalizedUnit(m: RealMath, v: Vec3)
    requires Lawful(m) && Length(m, v) != 0.0
    ensures Length(m, Normalized(m, v)) == 1.0
  {
    var l := Length(m, v);
    LengthNonNegative(m, v);
    LengthScale(m, v, 1.0 / l);
    assert 1.0 / l * l == 1.0;
  }

  lemma RatioWithinOne(k: real, l: real)
    requires 0.0 <= k <= l && 0.0 < l
    ensures 0.0 <= k / l <= 1.0
  {
    DivideMonotone(0.0, k, l);
    DivideMonotone(k, l, l);
    assert 0.0 / l == 0.0;
    assert l / l == 1.0;
  }

  /** Above the limit the limiter returns the velocity scaled by `SpeedLimitFactor`, at exactly `maxSpeed`. */
  lemma SpeedLimitRescales(m: RealMath, v: Vec3, maxSpeed: real)
    requires Lawful(m) && 0.0 <= maxSpeed && Length(m, v) * 3.6 > maxSpeed
    ensures var r := SpeedLimited(m, v, maxSpeed);
      Length(m, r) * 3.6 == maxSpeed
      && r == Scale(v, SpeedLimitFactor(m, v, maxSpeed))
      && 0.0 <= SpeedLimitFactor(m, v, maxSpeed) <= 1.0
  {
    SpeedLimitReachesMax(m, v, maxSpeed);
    SpeedLimitScales(m, v, maxSpeed);
  }

  /** Above the limit the limiter's output has exactly `maxSpeed`. */
  lemma SpeedLimitReachesMax(m: RealMath, v: Vec3, maxSpeed: real)
    requires Lawful(m) && 0.0 <= maxSpeed && Length(m, v) * 3.6 > maxSpeed
    ensures Length(m, SpeedLimited(m, v, maxSpeed)) * 3.6 == maxSpeed
  {
    var k := maxSpeed / 3.6;
    LengthNonNegative(m, v);
    NormalizedUnit(m, v);
    LengthScale(m, Normalized(m, v), k);
    assert Length(m, SpeedLimited(m, v, maxSpeed)) == k;
  }

  /** Above the limit the limiter's output is the velocity scaled by a factor in [0, 1]. */
  lemma SpeedLimitScales(m: RealMath, v: Vec3, maxSpeed: real)
    requires Lawful(m) && 0.0 <= maxSpeed && Length(m, v) * 3.6 > maxSpeed
    ensures SpeedLimited(m, v, maxSpeed) == Scale(v, SpeedLimitFactor(m, v, maxSpeed))
    ensures 0.0 <= SpeedLimitFactor(m, v, maxSpeed) <= 1.0
  {
    var l := Length(m, v);
    var k := maxSpeed / 3.6;
    LengthNonNegative(m, v);
    assert 0.0 < l;
    ScaleTwice(v, 1.0 / l, k);
    assert 1.0 / l * k == k / l;
    RatioWithinOne(k, l);
  }

  /**
   * After the limiter the speed is at most `maxSpeed`; a velocity within the
   * limit is untouched, and one above it keeps its direction (a non-negative
   * multiple no longer than the original) and is brought to exactly `maxSpeed`.
   */
  lemma SpeedLimitSpec(m: RealMath, v: Vec3, maxSpeed: real)
    requires Lawful(m) && 0.0 <= maxSpeed
    ensures var r := SpeedLimited(m, v, maxSpeed);
      Length(m, r) * 3.6 <= maxSpeed
      && (Length(m, v) * 3.6 <= maxSpeed ==> r == v)
      && (Length(m, v) * 3.6 > maxSpeed ==> Length(m, r) * 3.6 == maxSpeed)
      && r == Scale(v, SpeedLimitFactor(m, v, maxSpeed))
      && 0.0 <= SpeedLimitFactor(m, v, maxSpeed) <= 1.0
  {
    if Length(m, v) * 3.6 > maxSpeed {
      SpeedLimitRescales(m, v, maxSpeed);
    } else {
      assert v == Scale(v, 1.0) by {
        assert v.x * 1.0 == v.x && v.y * 1.0 == v.y && v.z * 1.0 == v.z;
      }
    }
  }

  /** The state the ground-contact block touches. */
  datatype Contact = Contact(position: Vec3, velocity: Vec3, roll: real, pitch: real)

  const GroundHeight: real := 2.0

  /**
   * The ground-contact block of `applyPhysicsAndTrim`: below 2 m the aircraft
   * is put back on the ground, its sink rate removed, its bank and nose-down
   * pitch reduced and its horizontal speed rubbed off.
   */
  function GroundContact(position: Vec3, velocity: Vec3, roll: real, pitch: real): (c: Contact)
    ensures c.position.y >= GroundHeight && c.position.x == position.x && c.position.z == position.z
    ensures position.y >= GroundHeight ==> c == Contact(position, velocity, roll, pitch)
    ensures position.y < GroundHeight ==> c.position.y == GroundHeight && c.velocity.y >= 0.0 && c.pitch >= 0.0
  {
    if position.y < GroundHeight then
      Contact(Vec3(position.x, GroundHeight, position.z),
              Vec3(velocity.x * 0.98, Max(0.0, velocity.y), velocity.z * 0.85),
              roll * 0.8, Max(pitch * 0.8, 0.0))
    else Contact(position, velocity, roll, pitch)
  }

  /** Touching down never enlarges the bank or the pitch. */
  lemma GroundContactAttitude(position: Vec3, velocity: Vec3, roll: real, pitch: real)
    ensures var c := GroundContact(position, velocity, roll, pitch);
      Abs(c.roll) <= Abs(roll) && Abs(c.pitch) <= Abs(pitch)
  {
    TowardZero(roll, 0.8);
    TowardZero(pitch, 0.8);
  }

  /** Touching down never speeds the aircraft up and never enlarges its bank or pitch. */
  lemma GroundContactShrinks(m: RealMath, position: Vec3, velocity: Vec3, roll: real, pitch: real)
    requires Lawful(m)
    ensures var c := GroundContact(position, velocity, roll, pitch);
      Length(m, c.velocity) <= Length(m, velocity)
      && Abs(c.roll) <= Abs(roll) && Abs(c.pitch) <= Abs(pitch)
  {
    var c := GroundContact(position, velocity, roll, pitch);
    if position.y < GroundHeight {
      ScaledSquareShrinks(velocity.x, 0.98);
      ScaledSquareShrinks(velocity.z, 0.85);
      if velocity.y < 0.0 {
        SquareNonNegative(velocity.y);
        assert c.velocity.y * c.velocity.y == 0.0;
      }
      LengthMonotone(m, c.velocity, velocity);
    }
    GroundContactAttitude(position, velocity, roll, pitch);
  }

  lemma ScaledSquareShrinks(x: real, k: real)
    requires 0.0 <= k <= 1.0
    ensures (x * k) * (x * k) <= x * x
  {
    SquareNonNegative(x);
    MulMonotone(k, 1.0, k);
    assert k * k <= 1.0 * k;
    MulMonotone(k * k, 1.0, x * x);
    assert (k * k) * (x * x) <= 1.0 * (x * x);
    calc {
      (x * k) * (x * k);
    ==
      (k * k) * (x * x);
    <=
      x * x;
    }
  }
}
