/**
 * modules/CollisionDetection.js: the obstacle boxes generated from the
 * simulator's seeded generator, the ground and obstacle tests, and the
 * latched game-over state.
 *
 * The page's game-over screen (`uiController.showGameOver`) is modelled by the
 * list `shownReasons` of the reasons it has been given.
 */
module Collision {
  import opened Wrappers
  import opened HostMath
  import opened MathUtils
  import opened Game
  import opened FlightRules

  /** One collision box: its type name, centre on the ground plane and size. */
  datatype Building = Building(kind: string, x: real, z: real, width: real, height: real, depth: real)

  /** The margin added around every box by the obstacle test. */
  const SafetyMargin: real := 5.0

  /** The height the ground test measures against. */
  const GroundLevel: real := 2.0

  /** The number of windmills and of random buildings generated. */
  const WindmillCount: nat := 8
  const RandomBuildingCount: nat := 60

  /** The five fixed landmarks, in the order they are added. */
  const Landmarks: seq<Building> := [
    Building("ferriswheel", 200.0, 200.0, 90.0, 85.0, 90.0),
    Building("lighthouse", -300.0, 300.0, 20.0, 85.0, 20.0),
    Building("stadium", -400.0, -400.0, 140.0, 30.0, 140.0),
    Building("bridge", 0.0, 150.0, 200.0, 15.0, 20.0),
    Building("rocket", 400.0, -300.0, 25.0, 65.0, 25.0)
  ]

  /** The number of boxes one generation pass adds. */
  const ObstacleCount: nat := WindmillCount + |Landmarks| + RandomBuildingCount

  // ---------------------------------------------------------------------
  // Generation

  /** The rectangle around the runway no windmill may be placed in. */
  predicate InWindmillExclusion(x: real, z: real) {
    x > -600.0 && x < 600.0 && z > -60.0 && z < 60.0
  }

  /** The rectangle no random building may be placed in. */
  predicate InBuildingExclusion(x: real, z: real) {
    x > -800.0 && x < 800.0 && z > -200.0 && z < 200.0
  }

  /**
   * A windmill box as the first loop adds it. When the generator draws from
   * [0, 1) (`drawsInUnit`) its centre also lies in [-750, 750) on both axes.
   */
  predicate WindmillBox(b: Building, drawsInUnit: bool) {
    && b.kind == "windmill"
    && b.width == 10.0 && b.height == 60.0 && b.depth == 10.0
    && !InWindmillExclusion(b.x, b.z)
    && (drawsInUnit ==> -750.0 <= b.x < 750.0 && -750.0 <= b.z < 750.0)
  }

  /**
   * A random building box: outside its exclusion rectangle and, when the
   * generator draws from [0, 1), of size base + 10 with width and depth bases
   * in [20, 60) and height base in [50, 200).
   */
  predicate RandomBuildingBox(b: Building, drawsInUnit: bool) {
    && b.kind == "building"
    && !InBuildingExclusion(b.x, b.z)
    && (drawsInUnit ==>
          30.0 <= b.width < 70.0 && 60.0 <= b.height < 210.0 && 30.0 <= b.depth < 70.0)
  }

  /** What the `i`-th box of one generation pass is. */
  predicate PlannedBox(i: nat, b: Building, drawsInUnit: bool) {
    if i < WindmillCount then WindmillBox(b, drawsInUnit)
    else if i < WindmillCount + |Landmarks| then b == Landmarks[i - WindmillCount]
    else RandomBuildingBox(b, drawsInUnit)
  }

  /** The boxes added by a generation pass, or by the part of one that ran. */
  predicate Layout(added: seq<Building>, drawsInUnit: bool) {
    |added| <= ObstacleCount &&
    forall i :: 0 <= i < |added| ==> PlannedBox(i, added[i], drawsInUnit)
  }

  /** A box that fits the plan at the next index extends a layout. */
  lemma LayoutGrows(added: seq<Building>, b: Building, drawsInUnit: bool)
    requires Layout(added, drawsInUnit) && |added| < ObstacleCount
    requires PlannedBox(|added|, b, drawsInUnit)
    ensures Layout(added + [b], drawsInUnit)
  {
    forall i | 0 <= i < |added| + 1
      ensures PlannedBox(i, (added + [b])[i], drawsInUnit)
    {
      if i < |added| {
        assert (added + [b])[i] == added[i];
      }
    }
  }

  // ---------------------------------------------------------------------
  // The obstacle test

  /** The axis-aligned box test of `checkBuildingCollisions`, margin included. */
  predicate Hits(b: Building, p: Vec3) {
    && Abs(p.x - b.x) < b.width / 2.0 + SafetyMargin
    && Abs(p.y - b.height / 2.0) < b.height / 2.0 + SafetyMargin
    && Abs(p.z - b.z) < b.depth / 2.0 + SafetyMargin
  }

  /** The first box, in list order, the point `p` lies in. */
  function FirstHit(bs: seq<Building>, p: Vec3): Option<Building>
    decreases |bs|
  {
    if |bs| == 0 then None
    else if Hits(bs[0], p) then Some(bs[0])
    else FirstHit(bs[1..], p)
  }

  /**
   * `FirstHit` finds no box exactly when `p` lies in none, and otherwise a box
   * `p` lies in that is preceded only by boxes it does not lie in.
   */
  lemma {:induction false} FirstHitMeaning(bs: seq<Building>, p: Vec3)
    ensures FirstHit(bs, p) == None <==> forall i :: 0 <= i < |bs| ==> !Hits(bs[i], p)
    ensures FirstHit(bs, p).Some? ==>
      exists i :: 0 <= i < |bs| && bs[i] == FirstHit(bs, p).value && Hits(bs[i], p) &&
        forall j :: 0 <= j < i ==> !Hits(bs[j], p)
    decreases |bs|
  {
    if |bs| > 0 && !Hits(bs[0], p) {
      FirstHitMeaning(bs[1..], p);
      if FirstHit(bs, p).Some? {
        var k :| 0 <= k < |bs| - 1 && bs[1..][k] == FirstHit(bs, p).value && Hits(bs[1..][k], p) &&
          forall j :: 0 <= j < k ==> !Hits(bs[1..][j], p);
        assert bs[k + 1] == bs[1..][k];
        forall j | 0 <= j < k + 1
          ensures !Hits(bs[j], p)
        {
          if j > 0 {
            assert bs[j] == bs[1..][j - 1];
          }
        }
      } else {
        forall i | 0 <= i < |bs|
          ensures !Hits(bs[i], p)
        {
          if i > 0 {
            assert bs[i] == bs[1..][i - 1];
          }
        }
      }
    }
  }

  /** The search skips a box the point does not lie in. */
  lemma FirstHitSkips(bs: seq<Building>, i: nat, p: Vec3)
    requires i < |bs| && !Hits(bs[i], p)
    ensures FirstHit(bs[i..], p) == FirstHit(bs[i + 1..], p)
  {
    assert bs[i..][1..] == bs[i + 1..];
  }

  /** With an empty obstacle list nothing is ever hit. */
  lemma NoObstaclesNoHit(p: Vec3)
    ensures FirstHit([], p) == None
  {
  }

  /** A windmill does not reach a point of the strip |x| <= 590, |z| <= 50. */
  lemma WindmillMissesStrip(b: Building, p: Vec3, drawsInUnit: bool)
    requires WindmillBox(b, drawsInUnit)
    requires Abs(p.x) <= 590.0 && Abs(p.z) <= 50.0
    ensures !Hits(b, p)
  {
  }

  /** A random building of the generated size does not reach the strip either. */
  lemma RandomBuildingMissesStrip(b: Building, p: Vec3)
    requires RandomBuildingBox(b, true)
    requires Abs(p.x) <= 590.0 && Abs(p.z) <= 50.0
    ensures !Hits(b, p)
  {
  }

  /**
   * A completed layout drawn from [0, 1) leaves the middle of the runway free:
   * no box is hit anywhere with |x| <= 590 and |z| <= 50, which holds the start
   * position (-350, 2, 0).
   */
  lemma {:induction false} RunwayStripIsClear(bs: seq<Building>, p: Vec3)
    requires Layout(bs, true)
    requires Abs(p.x) <= 590.0 && Abs(p.z) <= 50.0
    ensures FirstHit(bs, p) == None
  {
    forall i | 0 <= i < |bs|
      ensures !Hits(bs[i], p)
    {
      assert PlannedBox(i, bs[i], true);
      if i < WindmillCount {
        WindmillMissesStrip(bs[i], p, true);
      } else if i >= WindmillCount + |Landmarks| {
        RandomBuildingMissesStrip(bs[i], p);
      }
    }
    FirstHitMeaning(bs, p);
  }

  /** The start position lies in that strip. */
  lemma StartPositionIsClear(bs: seq<Building>)
    requires Layout(bs, true)
    ensures FirstHit(bs, StartPosition) == None
  {
    RunwayStripIsClear(bs, StartPosition);
  }

  // ---------------------------------------------------------------------
  // The ground test and the names

  /** `checkGroundCollision`, on the flight mode, the speed in km/h and the height. */
  predicate GroundRule(mode: FlightMode, speed: real, y: real, groundLevel: real) {
    if mode == Air && y <= groundLevel then true
    else if mode == Ground then speed > 50.0 && y < groundLevel - 1.0
    else false
  }

  /** The two cases in which the ground test reports a hit, and no other. */
  lemma GroundRuleCases(mode: FlightMode, speed: real, y: real, groundLevel: real)
    ensures GroundRule(mode, speed, y, groundLevel) <==>
      (mode == Air && y <= groundLevel) || (mode == Ground && speed > 50.0 && y < groundLevel - 1.0)
  {
  }

  /**
   * After a physics step the aeroplane is never below `GroundHeight`, which is
   * the ground level of this test: a taxiing aeroplane then never hits the
   * ground, and a flying one hits it exactly when it rests on it.
   */
  lemma GroundRuleAfterPhysics(mode: FlightMode, speed: real, y: real)
    requires y >= GroundHeight
    ensures GroundRule(mode, speed, y, GroundLevel) <==> mode == Air && y == GroundLevel
  {
  }

  /** What the lookup table of `getBuildingName` holds. */
  const BuildingNames: map<string, string> := map[
    "windmill" := "风车",
    "ferriswheel" := "摩天轮",
    "lighthouse" := "灯塔",
    "stadium" := "体育场",
    "bridge" := "桥梁",
    "rocket" := "火箭发射台",
    "building" := "建筑物"
  ]

  const UnknownBuilding: string := "未知建筑"

  /** `getBuildingName`: the table entry, or the fallback for a missing type. */
  function GetBuildingName(kind: string): (name: string)
    ensures kind in BuildingNames ==> name == BuildingNames[kind] && name != UnknownBuilding
    ensures kind !in BuildingNames ==> name == UnknownBuilding
    ensures |name| > 0
  {
    if kind in BuildingNames then BuildingNames[kind] else UnknownBuilding
  }

  /** Every box a generation pass adds has a name in the table. */
  lemma GeneratedKindsAreNamed(added: seq<Building>, drawsInUnit: bool, i: nat)
    requires Layout(added, drawsInUnit) && i < |added|
    ensures added[i].kind in BuildingNames
    ensures GetBuildingName(added[i].kind) != UnknownBuilding
  {
    assert PlannedBox(i, added[i], drawsInUnit);
  }

  const GroundReason: string := "地面碰撞"

  /** The reason given for hitting a box. */
  function HitReason(b: Building): (r: string)
    ensures r == "撞击" + GetBuildingName(b.kind)
    ensures r != GroundReason
  {
    var r := "撞击" + GetBuildingName(b.kind);
    assert r[0] != GroundReason[0];
    r
  }

  /**
   * What `checkCollisions` reports for a state that is not over yet: the ground
   * reason when the ground test fires, else the reason for the first box hit,
   * else nothing.
   */
  function CollisionReason(groundHit: bool, bs: seq<Building>, p: Vec3): (r: Option<string>)
    ensures groundHit ==> r == Some(GroundReason)
    ensures !groundHit ==> (r == None <==> forall i :: 0 <= i < |bs| ==> !Hits(bs[i], p))
    ensures !groundHit && r.Some? ==>
      exists i :: 0 <= i < |bs| && r.value == HitReason(bs[i]) && Hits(bs[i], p) &&
        forall j :: 0 <= j < i ==> !Hits(bs[j], p)
  {
    FirstHitMeaning(bs, p);
    if groundHit then Some(GroundReason)
    else match FirstHit(bs, p)
      case Some(b) => Some(HitReason(b))
      case None => None
  }

  // ---------------------------------------------------------------------
  // The detector object

  class CollisionDetection {
    const simulator: FlightSimulator
    var buildings: seq<Building>
    const groundLevel: real := GroundLevel
    var isGameOver: bool
    /** The reasons handed to the game-over screen, oldest first. */
    var shownReasons: seq<string>

    /**
     * `new CollisionDetection(simulator)`: an empty list filled by one
     * generation pass, whose rejection loops may each redraw `attempts` times.
     */
    constructor (simulator: FlightSimulator, attempts: nat)
      requires simulator.rng.Valid()
      modifies simulator.rng
      ensures this.simulator == simulator
      ensures !isGameOver && shownReasons == []
      ensures simulator.rng.Valid()
      ensures Layout(buildings, 0 <= simulator.rng.initial)
    {
      this.simulator := simulator;
      buildings := [];
      isGameOver := false;
      shownReasons := [];
      new;
      var _ := CollectBuildingData(attempts);
    }

    /** One call of `simulator.rng()`. */
    method Draw() returns (r: real)
      requires simulator.rng.Valid()
      modifies simulator.rng
      ensures simulator.rng.Valid()
      ensures 0 <= simulator.rng.initial ==> 0.0 <= r < 1.0
    {
      r := simulator.rng.Next();
      if 0 <= simulator.rng.initial {
        GeneratorInUnitInterval(simulator.rng);
        assert r == simulator.rng.drawn[|simulator.rng.drawn| - 1];
      }
    }

    /** One candidate windmill centre: two draws scaled to [-750, 750). */
    method DrawWindmillSpot() returns (x: real, z: real)
      requires simulator.rng.Valid()
      modifies simulator.rng
      ensures simulator.rng.Valid()
      ensures 0 <= simulator.rng.initial ==> -750.0 <= x < 750.0 && -750.0 <= z < 750.0
    {
      var rx := Draw();
      x := rx * 1500.0 - 750.0;
      var rz := Draw();
      z := rz * 1500.0 - 750.0;
    }

    /** The three size draws of a random building, before the margin is added. */
    method DrawBuildingSize() returns (w: real, h: real, d: real)
      requires simulator.rng.Valid()
      modifies simulator.rng
      ensures simulator.rng.Valid()
      ensures 0 <= simulator.rng.initial ==>
        20.0 <= w < 60.0 && 50.0 <= h < 200.0 && 20.0 <= d < 60.0
    {
      var rw := Draw();
      w := rw * 40.0 + 20.0;
      var rh := Draw();
      h := rh * 150.0 + 50.0;
      var rd := Draw();
      d := rd * 40.0 + 20.0;
    }

    /** One candidate building centre: an angle and a distance in polar form. */
    method DrawBuildingSpot() returns (x: real, z: real)
      requires simulator.rng.Valid()
      modifies simulator.rng
      ensures simulator.rng.Valid()
    {
      var ra := Draw();
      var angle := ra * PI * 2.0;
      var rd := Draw();
      var distance := rd * 1500.0 + 800.0;
      x := simulator.math.cos(angle) * distance;
      z := simulator.math.sin(angle) * distance;
    }

    /**
     * `collectBuildingData`: appends 8 windmills, the 5 landmarks and 60
     * random buildings. Each do-while rejection loop may redraw `attempts`
     * times; `ok` is false when one of them runs out, and then the boxes added
     * so far are the start of the same plan.
     */
    method CollectBuildingData(attempts: nat) returns (ok: bool)
      requires simulator.rng.Valid()
      modifies this`buildings, simulator.rng
      ensures simulator.rng.Valid()
      ensures |old(buildings)| <= |buildings|
      ensures buildings[..|old(buildings)|] == old(buildings)
      ensures Layout(buildings[|old(buildings)|..], 0 <= simulator.rng.initial)
      ensures ok <==> |buildings| == |old(buildings)| + ObstacleCount
    {
      ghost var start := buildings;
      ghost var added: seq<Building> := [];
      ghost var unit := 0 <= simulator.rng.initial;
      ok := false;
      var i := 0;
      while i < WindmillCount
        invariant simulator.rng.Valid()
        invariant i <= WindmillCount && |added| == i
        invariant buildings == start + added
        invariant Layout(added, unit)
      {
        var x, z := DrawWindmillSpot();
        var left := attempts;
        while InWindmillExclusion(x, z)
          invariant simulator.rng.Valid()
          modifies simulator.rng
          invariant unit ==> -750.0 <= x < 750.0 && -750.0 <= z < 750.0
          decreases left
        {
          if left == 0 {
            assert buildings[|start|..] == added;
            return;
          }
          left := left - 1;
          x, z := DrawWindmillSpot();
        }
        var b := Building("windmill", x, z, 10.0, 60.0, 10.0);
        assert WindmillBox(b, unit);
        LayoutGrows(added, b, unit);
        buildings := buildings + [b];
        added := added + [b];
        i := i + 1;
      }
      i := 0;
      while i < |Landmarks|
        invariant simulator.rng.Valid()
        invariant i <= |Landmarks| && |added| == WindmillCount + i
        invariant buildings == start + added
        invariant Layout(added, unit)
      {
        LayoutGrows(added, Landmarks[i], unit);
        buildings := buildings + [Landmarks[i]];
        added := added + [Landmarks[i]];
        i := i + 1;
      }
      i := 0;
      while i < RandomBuildingCount
        invariant simulator.rng.Valid()
        invariant i <= RandomBuildingCount && |added| == WindmillCount + |Landmarks| + i
        invariant buildings == start + added
        invariant Layout(added, unit)
      {
        var w, h, d := DrawBuildingSize();
        var x, z := DrawBuildingSpot();
        var left := attempts;
        while InBuildingExclusion(x, z)
          invariant simulator.rng.Valid()
          modifies simulator.rng
          decreases left
        {
          if left == 0 {
            assert buildings[|start|..] == added;
            return;
          }
          left := left - 1;
          x, z := DrawBuildingSpot();
        }
        var b := Building("building", x, z, w + 10.0, h + 10.0, d + 10.0);
        assert RandomBuildingBox(b, unit);
        LayoutGrows(added, b, unit);
        buildings := buildings + [b];
        added := added + [b];
        i := i + 1;
      }
      assert buildings[|start|..] == added;
      ok := true;
    }

    /** `checkBuildingCollisions`: the first box, in list order, the point lies in. */
    method CheckBuildingCollisions(pos: Vec3) returns (hit: Option<Building>)
      ensures hit == FirstHit(buildings, pos)
    {
      var i := 0;
      while i < |buildings|
        invariant i <= |buildings|
        invariant FirstHit(buildings, pos) == FirstHit(buildings[i..], pos)
      {
        var b := buildings[i];
        var dx := Abs(pos.x - b.x);
        var dy := Abs(pos.y - b.height / 2.0);
        var dz := Abs(pos.z - b.z);
        if dx < b.width / 2.0 + SafetyMargin &&
           dy < b.height / 2.0 + SafetyMargin &&
           dz < b.depth / 2.0 + SafetyMargin
        {
          return Some(b);
        }
        FirstHitSkips(buildings, i, pos);
        i := i + 1;
      }
      return None;
    }

    /**
     * `checkGroundCollision` on the simulator's mode, speed and the given
     * point: a hit in the air at or below ground level, or on the ground
     * faster than 50 km/h more than 1 m below it; at or above the physics
     * floor only a flying aeroplane resting on the ground hits it.
     */
    function CheckGroundCollision(pos: Vec3): (hit: bool)
      reads simulator`flightMode, simulator`velocity
      ensures hit <==>
        (simulator.flightMode == Air && pos.y <= GroundLevel)
        || (simulator.flightMode == Ground && Length(simulator.math, simulator.velocity) * 3.6 > 50.0 && pos.y < GroundLevel - 1.0)
      ensures pos.y >= GroundHeight ==> (hit <==> simulator.flightMode == Air && pos.y == GroundLevel)
    {
      var speed := Length(simulator.math, simulator.velocity) * 3.6;
      GroundRuleCases(simulator.flightMode, speed, pos.y, groundLevel);
      if pos.y >= GroundHeight then
        GroundRuleAfterPhysics(simulator.flightMode, speed, pos.y);
        GroundRule(simulator.flightMode, speed, pos.y, groundLevel)
      else
        GroundRule(simulator.flightMode, speed, pos.y, groundLevel)
    }

    /** `isGameOverState` */
    predicate IsGameOverState()
      reads this`isGameOver
    {
      isGameOver
    }

    /**
     * `triggerGameOver`: the first call latches the game-over state, shows
     * the reason and stops the aeroplane; later calls change nothing.
     */
    method TriggerGameOver(reason: string)
      modifies this`isGameOver, this`shownReasons, simulator`velocity, simulator`throttle
      ensures isGameOver
      ensures old(isGameOver) ==>
        shownReasons == old(shownReasons) &&
        simulator.velocity == old(simulator.velocity) && simulator.throttle == old(simulator.throttle)
      ensures !old(isGameOver) ==>
        shownReasons == old(shownReasons) + [reason] &&
        simulator.velocity == Zero && simulator.throttle == 0.0
    {
      if isGameOver {
        return;
      }
      isGameOver := true;
      shownReasons := shownReasons + [reason];
      simulator.velocity := Zero;
      simulator.throttle := 0.0;
    }

    /**
     * `checkCollisions`: nothing happens once the game is over; otherwise the
     * ground test goes first, then the obstacle search, and a hit ends the
     * game with its reason.
     */
    method CheckCollisions() returns (collided: bool)
      modifies this`isGameOver, this`shownReasons, simulator`velocity, simulator`throttle
      ensures old(isGameOver) ==>
        !collided && isGameOver && shownReasons == old(shownReasons) &&
        simulator.velocity == old(simulator.velocity) && simulator.throttle == old(simulator.throttle)
      ensures !old(isGameOver) ==>
        var reason := CollisionReason(old(CheckGroundCollision(simulator.position)), buildings, simulator.position);
        (collided <==> reason.Some?) &&
        (collided ==>
          isGameOver && shownReasons == old(shownReasons) + [reason.value] &&
          simulator.velocity == Zero && simulator.throttle == 0.0) &&
        (!collided ==>
          !isGameOver && shownReasons == old(shownReasons) &&
          simulator.velocity == old(simulator.velocity) && simulator.throttle == old(simulator.throttle))
    {
      if isGameOver {
        return false;
      }
      var airplanePos := simulator.position;
      if CheckGroundCollision(airplanePos) {
        TriggerGameOver(GroundReason);
        return true;
      }
      var collidedBuilding := CheckBuildingCollisions(airplanePos);
      if collidedBuilding.Some? {
        TriggerGameOver(HitReason(collidedBuilding.value));
        return true;
      }
      return false;
    }

    /** `reset`: clears the game-over state and nothing else. */
    method Reset()
      modifies this`isGameOver
      ensures !isGameOver
    {
      isGameOver := false;
    }
  }
}
