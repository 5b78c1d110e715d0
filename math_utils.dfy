/**
 * The helpers of utils/MathUtils.js: the seeded linear-congruential generator,
 * the G-force estimate, degree/radian conversion, clamp, lerp and angle
 * normalisation.
 *
 * JavaScript's `%` truncates toward zero (the sign of the result follows the
 * dividend), unlike Dafny's Euclidean `%`; `JsRem` and `JsRem360` spell that out.
 */
module MathUtils {
  import opened Wrappers
  import opened HostMath

  /** `Math.PI`, written as the decimal JavaScript prints for it. */
  const PI: real := 3.141592653589793

  function Min(a: real, b: real): real { if a <= b then a else b }
  function Max(a: real, b: real): real { if a >= b then a else b }
  function Abs(a: real): real { if a < 0.0 then -a else a }

  // ---------------------------------------------------------------------
  // JavaScript remainder

  /** Integer products, kept in small lemmas so the solver sees one step at a time. */
  lemma IntMulNonNegative(k: int, b: int)
    requires 0 <= k && 0 <= b
    ensures 0 <= k * b
  {
  }

  lemma IntMulAtLeast(k: int, b: int)
    requires 1 <= k && 0 < b
    ensures k * b >= b
  {
    assert k * b == (k - 1) * b + b;
    IntMulNonNegative(k - 1, b);
  }

  lemma IntSubTimes(q: int, p: int, b: int)
    ensures q * b - p * b == (q - p) * b
  {
  }

  lemma IntNegTimes(q: int, b: int)
    ensures (-q) * b == -(q * b)
  {
  }

  /** Euclidean division is unique: a quotient and a remainder in [0, b) fix `x % b`. */
  lemma RemUnique(x: int, b: int, q: int, r: int)
    requires 0 < b && 0 <= r < b && x == q * b + r
    ensures x % b == r
  {
    var q', r' := x / b, x % b;
    assert x == q' * b + r';
    IntSubTimes(q, q', b);
    if q > q' {
      IntMulAtLeast(q - q', b);
    } else if q < q' {
      IntSubTimes(q', q, b);
      IntMulAtLeast(q' - q, b);
    }
  }

  /**
   * `a % b` on integers, with JavaScript's truncating semantics: `a` minus a
   * multiple of `b`, smaller than `b` in magnitude, with the sign of `a`
   * (together these fix the value).
   */
  function JsRem(a: int, b: int): (r: int)
    requires 0 < b
    ensures (a - r) % b == 0
    ensures -b < r < b
    ensures 0 <= a ==> 0 <= r
    ensures a <= 0 ==> r <= 0
  {
    if 0 <= a then
      assert a == (a / b) * b + a % b;
      RemUnique(a - a % b, b, a / b, 0);
      a % b
    else
      assert -a == ((-a) / b) * b + (-a) % b;
      IntNegTimes((-a) / b, b);
      RemUnique(a + (-a) % b, b, -((-a) / b), 0);
      -((-a) % b)
  }

  /** Truncation toward zero, the integer part JavaScript's `%` keeps. */
  function Trunc(x: real): (k: int)
    ensures 0.0 <= x ==> k as real <= x < k as real + 1.0
    ensures x <= 0.0 ==> k as real - 1.0 < x <= k as real
  {
    if 0.0 <= x then x.Floor else -((-x).Floor)
  }

  /**
   * `a % 360` on numbers, with JavaScript's truncating semantics: `a` minus a
   * whole number of turns, inside (-360, 360), with the sign of `a`.
   */
  function JsRem360(a: real): (r: real)
    ensures (a - r) / 360.0 == ((a - r) / 360.0).Floor as real
    ensures -360.0 < r < 360.0
    ensures 0.0 <= a ==> 0.0 <= r
    ensures a <= 0.0 ==> r <= 0.0
  {
    a - 360.0 * Trunc(a / 360.0) as real
  }

  // ---------------------------------------------------------------------
  // The seeded generator of `createSeededRandom`

  const Multiplier: int := 9301
  const Increment: int := 49297
  const Modulus: int := 233280

  /** One step of the recurrence `seed = (seed * 9301 + 49297) % 233280`. */
  function NextSeed(seed: int): int {
    JsRem(seed * Multiplier + Increment, Modulus)
  }

  /** What a call returns once it has stored `seed`. */
  function Output(seed: int): real {
    seed as real / Modulus as real
  }

  /** The seed after `n` calls. */
  function SeedAfter(seed: int, n: nat): int
    decreases n
  {
    if n == 0 then seed else SeedAfter(NextSeed(seed), n - 1)
  }

  /** The first `n` values a generator created with `seed` returns. */
  function Draws(seed: int, n: nat): (d: seq<real>)
    ensures |d| == n
    decreases n
  {
    if n == 0 then [] else [Output(NextSeed(seed))] + Draws(NextSeed(seed), n - 1)
  }

  /** From a non-negative seed the recurrence stays in [0, 233280). */
  lemma SeedStaysInRange(seed: int)
    requires 0 <= seed
    ensures 0 <= NextSeed(seed) < Modulus
    ensures 0.0 <= Output(NextSeed(seed)) < 1.0
  {
  }

  /**
   * The intermediate `seed * 9301 + 49297` of a seed in range stays below
   * 2^53, so the double arithmetic of the source computes it exactly.
   */
  lemma StepIsExactInDoubles(seed: int)
    requires 0 <= seed < Modulus
    ensures 0 <= seed * Multiplier + Increment < 0x20_0000_0000_0000
  {
  }

  /** Every value drawn from a non-negative seed lies in [0, 1). */
  lemma {:induction false} DrawsInUnitInterval(seed: int, n: nat)
    requires 0 <= seed
    ensures forall i :: 0 <= i < n ==> 0.0 <= Draws(seed, n)[i] < 1.0
    decreases n
  {
    if n > 0 {
      SeedStaysInRange(seed);
      DrawsInUnitInterval(NextSeed(seed), n - 1);
      forall i | 0 <= i < n
        ensures 0.0 <= Draws(seed, n)[i] < 1.0
      {
        if i > 0 {
          assert Draws(seed, n)[i] == Draws(NextSeed(seed), n - 1)[i - 1];
        }
      }
    }
  }

  /** One more call appends the output of one more step. */
  lemma {:induction false} DrawsSnoc(seed: int, n: nat)
    ensures SeedAfter(seed, n + 1) == NextSeed(SeedAfter(seed, n))
    ensures Draws(seed, n + 1) == Draws(seed, n) + [Output(SeedAfter(seed, n + 1))]
    decreases n
  {
    if n > 0 {
      DrawsSnoc(NextSeed(seed), n - 1);
    }
  }

  /** Fewer calls return a prefix of what more calls return. */
  lemma {:induction false} DrawsPrefix(seed: int, m: nat, n: nat)
    requires m <= n
    ensures Draws(seed, m) == Draws(seed, n)[..m]
    decreases m
  {
    if m > 0 {
      DrawsPrefix(NextSeed(seed), m - 1, n - 1);
    }
  }

  /**
   * The closure returned by `createSeededRandom`: `seed` is its captured
   * variable; `drawn` records what it has returned so far.
   */
  class SeededRandom {
    var seed: int
    ghost const initial: int
    ghost var drawn: seq<real>

    ghost predicate Valid()
      reads this
    {
      seed == SeedAfter(initial, |drawn|) && drawn == Draws(initial, |drawn|)
    }

    /** `createSeededRandom(initialSeed)` */
    constructor (initialSeed: int)
      ensures Valid()
      ensures initial == initialSeed && seed == initialSeed && drawn == []
    {
      seed := initialSeed;
      initial := initialSeed;
      drawn := [];
    }

    /** One call of the returned function. */
    method Next() returns (r: real)
      requires Valid()
      modifies this
      ensures Valid()
      ensures seed == NextSeed(old(seed))
      ensures r == Output(seed)
      ensures drawn == old(drawn) + [r]
    {
      DrawsSnoc(initial, |drawn|);
      seed := NextSeed(seed);
      r := seed as real / Modulus as real;
      drawn := drawn + [r];
    }
  }

  /**
   * Two generators created with the same seed return the same sequence: the
   * one that was called fewer times has returned a prefix of the other's.
   */
  lemma SameSeedSameSequence(a: SeededRandom, b: SeededRandom)
    requires a.Valid() && b.Valid()
    requires a.initial == b.initial && |a.drawn| <= |b.drawn|
    ensures a.drawn == b.drawn[..|a.drawn|]
    ensures |a.drawn| == |b.drawn| ==> a.seed == b.seed
  {
    DrawsPrefix(a.initial, |a.drawn|, |b.drawn|);
  }

  /** A generator created with a non-negative seed only returns values in [0, 1). */
  lemma GeneratorInUnitInterval(g: SeededRandom)
    requires g.Valid() && 0 <= g.initial
    ensures forall i :: 0 <= i < |g.drawn| ==> 0.0 <= g.drawn[i] < 1.0
  {
    DrawsInUnitInterval(g.initial, |g.drawn|);
  }

  // ---------------------------------------------------------------------
  // calculateGForce

  /**
   * `calculateGForce(velocity, previousVelocity)`: ten times the length of the
   * change in velocity, or 0 when there is no previous velocity.
   */
  function CalculateGForce(m: RealMath, velocity: Vec3, previousVelocity: Option<Vec3>): real {
    match previousVelocity
    case None => 0.0
    case Some(p) => Length(m, Sub(velocity, p)) * 10.0
  }

  /** The estimate is never negative, and it is zero exactly when nothing changed. */
  lemma CalculateGForceLaws(m: RealMath, velocity: Vec3, previousVelocity: Option<Vec3>)
    requires Lawful(m)
    ensures previousVelocity.None? ==> CalculateGForce(m, velocity, previousVelocity) == 0.0
    ensures 0.0 <= CalculateGForce(m, velocity, previousVelocity)
    ensures CalculateGForce(m, velocity, previousVelocity) == 0.0
        <==> previousVelocity.None? || previousVelocity.value == velocity
  {
    if previousVelocity.Some? {
      var d := Sub(velocity, previousVelocity.value);
      LengthNonNegative(m, d);
      LengthZero(m, d);
      assert d == Zero <==> previousVelocity.value == velocity;
    }
  }

  // ---------------------------------------------------------------------
  // distance

  /** `distance(point1, point2)`, that is `point1.distanceTo(point2)`. */
  function Distance(m: RealMath, point1: Vec3, point2: Vec3): real {
    Length(m, Sub(point1, point2))
  }

  /** Distance is non-negative, symmetric, and zero exactly between equal points. */
  lemma DistanceLaws(m: RealMath, point1: Vec3, point2: Vec3)
    requires Lawful(m)
    ensures 0.0 <= Distance(m, point1, point2)
    ensures Distance(m, point1, point2) == Distance(m, point2, point1)
    ensures Distance(m, point1, point2) == 0.0 <==> point1 == point2
  {
    var d := Sub(point1, point2);
    LengthNonNegative(m, d);
    LengthZero(m, d);
    assert LengthSq(d) == LengthSq(Sub(point2, point1));
    assert d == Zero <==> point1 == point2;
  }

  // ---------------------------------------------------------------------
  // Angles, clamp and lerp

  /** `degreesToRadians(degrees)` */
  function DegreesToRadians(degrees: real): real {
    degrees * PI / 180.0
  }

  /** `radiansToDegrees(radians)` */
  function RadiansToDegrees(radians: real): real {
    radians * 180.0 / PI
  }

  /** Over the reals the two conversions are inverse to each other. */
  lemma DegreesRadiansRoundTrip(d: real, r: real)
    ensures RadiansToDegrees(DegreesToRadians(d)) == d
    ensures DegreesToRadians(RadiansToDegrees(r)) == r
  {
  }

  /** `clamp(value, min, max)`, that is `Math.min(Math.max(value, min), max)`. */
  function Clamp(value: real, lo: real, hi: real): (r: real)
    ensures lo <= hi ==> lo <= r <= hi
    ensures lo <= value <= hi ==> r == value
    ensures lo <= hi && value < lo ==> r == lo
    ensures value > hi ==> r == hi
    ensures hi < lo ==> r == hi
  {
    Min(Max(value, lo), hi)
  }

  /**
   * `Math.max(lo, Math.min(hi, value))`, the clamp the modules write out
   * inline; it agrees with `Clamp` whenever `lo <= hi`.
   */
  function Limit(value: real, lo: real, hi: real): (r: real)
    ensures lo <= hi ==> lo <= r <= hi
    ensures lo <= value <= hi ==> r == value
    ensures value <= lo ==> r == lo
    ensures lo <= hi && hi <= value ==> r == hi
    ensures lo <= hi ==> r == Clamp(value, lo, hi)
  {
    Max(lo, Min(hi, value))
  }

  /** `lerp(a, b, t)` */
  function Lerp(a: real, b: real, t: real): (r: real)
    ensures t == 0.0 ==> r == a
    ensures t == 1.0 ==> r == b
  {
    a + (b - a) * t
  }

  /** For a factor in [0, 1] the interpolant lies between the two ends. */
  lemma LerpBetween(a: real, b: real, t: real)
    requires 0.0 <= t <= 1.0
    ensures Min(a, b) <= Lerp(a, b, t) <= Max(a, b)
  {
    if a <= b {
      var g := b - a;
      ScaledGapWithin(g, t);
      ShiftWithin(a, g, g * t);
    } else {
      var g := a - b;
      ScaledGapWithin(g, t);
      assert (b - a) * t == -(g * t);
      ShiftDownWithin(a, g, g * t);
    }
  }

  /** `a <= a + x <= a + g` for `0 <= x <= g`. */
  lemma ShiftWithin(a: real, g: real, x: real)
    requires 0.0 <= x <= g
    ensures a <= a + x <= a + g
  {
  }

  /** `a - g <= a - x <= a` for `0 <= x <= g`. */
  lemma ShiftDownWithin(a: real, g: real, x: real)
    requires 0.0 <= x <= g
    ensures a - g <= a - x <= a
  {
  }

  /** `0 <= g * t <= g` for a gap `g >= 0` and a factor in [0, 1]. */
  lemma ScaledGapWithin(g: real, t: real)
    requires 0.0 <= g && 0.0 <= t <= 1.0
    ensures 0.0 <= g * t <= g
  {
    calc {
      g * t;
    <=
      g * 1.0;
    }
  }

  /**
   * `normalizeAngle(angle)`: `((angle % 360) + 360) % 360` with the
   * truncating `%`.
   */
  function NormalizeAngle(angle: real): real {
    JsRem360(JsRem360(angle) + 360.0)
  }

  /**
   * The result lies in [0, 360) and differs from the angle by a whole number
   * of turns: it is the floored remainder `angle - 360 * floor(angle / 360)`.
   */
  lemma NormalizeAngleSpec(angle: real)
    ensures 0.0 <= NormalizeAngle(angle) < 360.0
    ensures NormalizeAngle(angle) == angle - 360.0 * (angle / 360.0).Floor as real
  {
    var t := Trunc(angle / 360.0);
    var x := JsRem360(angle);
    assert x == angle - 360.0 * t as real;
    var y := x + 360.0;
    var u := Trunc(y / 360.0);
    var r := JsRem360(y);
    assert r == y - 360.0 * u as real;
    assert r == angle - 360.0 * (t + u - 1) as real;
    FloorOfTurns(angle, r, t + u - 1);
  }

  /** A representative in [0, 360) of the angle fixes the number of turns taken away. */
  lemma FloorOfTurns(angle: real, r: real, k: int)
    requires 0.0 <= r < 360.0 && r == angle - 360.0 * k as real
    ensures (angle / 360.0).Floor == k
  {
    assert angle / 360.0 == k as real + r / 360.0;
  }

  /** Normalising twice gives the same angle as normalising once, and angles in range are kept. */
  lemma NormalizeAngleIdempotent(angle: real)
    ensures NormalizeAngle(NormalizeAngle(angle)) == NormalizeAngle(angle)
    ensures 0.0 <= angle < 360.0 ==> NormalizeAngle(angle) == angle
  {
    NormalizeAngleSpec(angle);
    var n := NormalizeAngle(angle);
    NormalizeAngleSpec(n);
    FloorOfTurns(n, n, 0);
    if 0.0 <= angle < 360.0 {
      NormalizeAngleSpec(angle);
      FloorOfTurns(angle, angle, 0);
    }
  }
}
