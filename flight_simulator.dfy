/**
 * The simulator object of `game.js`: the flight state the physics engine
 * reads and writes, its configuration constants and its seeded generator.
 *
 * Rendering, the scene graph, networking and the animation loop are not part
 * of this model; the aircraft's scene-graph position is kept as the field
 * `position` (the `airplane.position` the physics engine moves).
 */
module Game {
  import opened Wrappers
  import opened HostMath
  import opened MathUtils

  /** The two values of `flightMode`, `'ground'` and `'air'`. */
  datatype FlightMode = Ground | Air

  /** The `trimSystem` configuration record. */
  datatype TrimSystem = TrimSystem(
    targetSpeed: real,
    rollDamping: real,
    pitchStability: real,
    yawDamping: real,
    speedTrimStrength: string,
    attitudeTrimStrength: string)

  const DefaultTrim: TrimSystem := TrimSystem(120.0, 2.0, 1.5, 1.0, "arcade", "arcade")

  /** The seed the simulator's generator starts from. */
  const SimulatorSeed: int := 12345

  /** Where the aircraft model places the aeroplane when it is built. */
  const StartPosition: Vec3 := Vec3(-350.0, 2.0, 0.0)

  class FlightSimulator {
    var velocity: Vec3
    var position: Vec3
    var throttle: real
    var flightMode: FlightMode
    /** `undefined` until the first frame's mode update. */
    var previousMode: Option<FlightMode>
    var modeTransitionSmoothing: real
    var coordinatedTurnActive: bool
    var targetRollAngle: real
    var afterburnerActive: bool
    var canTakeoff: bool
    /** Take-off speed in km/h. */
    const takeoffSpeed: real := 300.0
    /** Top speed in km/h. */
    const maxSpeed: real := 1000.0
    const trimSystem: TrimSystem := DefaultTrim
    const rng: SeededRandom
    /** The host's `Math` functions. */
    const math: RealMath

    /** The initial flight state: at rest on the runway, throttle closed, no take-off clearance. */
    constructor (math: RealMath)
      ensures velocity == Zero && position == StartPosition
      ensures throttle == 0.0 && flightMode == Ground && previousMode == None
      ensures modeTransitionSmoothing == 1.0 && !coordinatedTurnActive
      ensures targetRollAngle == 0.0 && !afterburnerActive && !canTakeoff
      ensures this.math == math
      ensures fresh(rng) && rng.Valid() && rng.initial == SimulatorSeed && rng.drawn == []
    {
      velocity := Zero;
      position := StartPosition;
      throttle := 0.0;
      flightMode := Ground;
      previousMode := None;
      modeTransitionSmoothing := 1.0;
      coordinatedTurnActive := false;
      targetRollAngle := 0.0;
      afterburnerActive := false;
      canTakeoff := false;
      this.math := math;
      var generator := FlightSimulator.CreateSeededRandom(SimulatorSeed);
      rng := generator;
    }

    /**
     * A generator whose state is the closure's captured `seed`; it follows the
     * same recurrence as the one in MathUtils, so it is the same class.
     */
    static method CreateSeededRandom(initialSeed: int) returns (g: SeededRandom)
      ensures fresh(g) && g.Valid()
      ensures g.initial == initialSeed && g.seed == initialSeed && g.drawn == []
    {
      g := new SeededRandom(initialSeed);
    }
  }
}
