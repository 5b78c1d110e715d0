/**
 * What the simulator takes from its host: the three-component vectors of the
 * rendering library (the part of THREE.Vector3 the core uses) and the
 * transcendental functions of JavaScript's `Math` object.
 *
 * Numbers are Dafny `real`s: exact arithmetic, no IEEE-754 rounding.
 * `Math.sqrt`, `Math.cos`, `Math.sin` and `Math.exp` have no closed form over
 * the reals that Dafny can compute, so they are carried as a value of type
 * `RealMath` that the simulator is given. The only law assumed of them is the
 * one of the square root (`Lawful`); cos, sin and exp are left arbitrary, and
 * every bound the model proves about them comes from the `Math.max` floors the
 * code puts around them.
 */
module HostMath {

  /** A THREE.Vector3. */
  datatype Vec3 = Vec3(x: real, y: real, z: real)

  const Zero: Vec3 := Vec3(0.0, 0.0, 0.0)

  /** `a.clone().add(b)` */
  function Add(a: Vec3, b: Vec3): Vec3 {
    Vec3(a.x + b.x, a.y + b.y, a.z + b.z)
  }

  /** `a.clone().sub(b)` */
  function Sub(a: Vec3, b: Vec3): Vec3 {
    Vec3(a.x - b.x, a.y - b.y, a.z - b.z)
  }

  /** `v.clone().multiplyScalar(c)` */
  function Scale(v: Vec3, c: real): Vec3 {
    Vec3(v.x * c, v.y * c, v.z * c)
  }

  /** `THREE.MathUtils.lerp(x, y, t)`, that is `(1 - t) * x + t * y`. */
  function ThreeLerp(x: real, y: real, t: real): real {
    (1.0 - t) * x + t * y
  }

  /** `v.lengthSq()` */
  function LengthSq(v: Vec3): real {
    v.x * v.x + v.y * v.y + v.z * v.z
  }

  /** The host's `Math.sqrt`, `Math.cos`, `Math.sin` and `Math.exp`. */
  datatype RealMath = RealMath(sqrt: real -> real, cos: real -> real, sin: real -> real, exp: real -> real)

  /** The square root law: `sqrt(q)` is the non-negative root of every non-negative `q`. */
  ghost predicate Lawful(m: RealMath) {
    forall q :: 0.0 <= q ==> 0.0 <= m.sqrt(q) && m.sqrt(q) * m.sqrt(q) == q
  }

  /** `v.length()`, that is `Math.sqrt(x*x + y*y + z*z)`. */
  function Length(m: RealMath, v: Vec3): real {
    m.sqrt(LengthSq(v))
  }

  /** Squaring is strictly monotone on the non-negative numbers. */
  lemma SquareLess(a: real, b: real)
    requires 0.0 <= a < b
    ensures a * a < b * b
  {
    calc {
      a * a;
    <=
      a * b;
    <
      b * b;
    }
  }

  /** Two non-negative numbers with the same square are equal. */
  lemma SquareInjective(a: real, b: real)
    requires 0.0 <= a && 0.0 <= b && a * a == b * b
    ensures a == b
  {
    if a < b {
      SquareLess(a, b);
    } else if b < a {
      SquareLess(b, a);
    }
  }

  lemma LengthNonNegative(m: RealMath, v: Vec3)
    requires Lawful(m)
    ensures 0.0 <= Length(m, v)
    ensures Length(m, v) * Length(m, v) == LengthSq(v)
  {
    SquareNonNegative(v.x);
    SquareNonNegative(v.y);
    SquareNonNegative(v.z);
    SqrtLaw(m, LengthSq(v));
  }

  lemma SquareNonNegative(a: real)
    ensures 0.0 <= a * a
  {
  }

  lemma SquarePositive(a: real)
    requires a != 0.0
    ensures 0.0 < a * a
  {
    if a < 0.0 {
      assert a * a == (-a) * (-a);
    }
  }

  /** A sum of three squares vanishes only when all three bases do. */
  lemma SquareSumPositive(a: real, b: real, c: real)
    requires a != 0.0 || b != 0.0 || c != 0.0
    ensures 0.0 < a * a + b * b + c * c
  {
    SquareNonNegative(a);
    SquareNonNegative(b);
    SquareNonNegative(c);
    if a != 0.0 {
      SquarePositive(a);
    } else if b != 0.0 {
      SquarePositive(b);
    } else {
      SquarePositive(c);
    }
  }

  lemma LengthSqPositive(v: Vec3)
    requires v != Zero
    ensures 0.0 < LengthSq(v)
  {
    SquareSumPositive(v.x, v.y, v.z);
    calc {
      LengthSq(v);
    ==
      v.x * v.x + v.y * v.y + v.z * v.z;
    >
      0.0;
    }
  }

  lemma SqrtLaw(m: RealMath, q: real)
    requires Lawful(m) && 0.0 <= q
    ensures 0.0 <= m.sqrt(q) && m.sqrt(q) * m.sqrt(q) == q
  {
  }

  /** The root of a positive number is not zero. */
  lemma RootNonZero(l: real, q: real)
    requires l * l == q && 0.0 < q
    ensures l != 0.0
  {
  }

  /** The non-negative root of zero is zero. */
  lemma RootOfZero(l: real)
    requires 0.0 <= l && l * l == 0.0
    ensures l == 0.0
  {
    if 0.0 < l {
      SquareLess(0.0, l);
    }
  }

  /** The length vanishes exactly on the zero vector. */
  lemma LengthZero(m: RealMath, v: Vec3)
    requires Lawful(m)
    ensures Length(m, v) == 0.0 <==> v == Zero
  {
    LengthNonNegative(m, v);
    if v != Zero {
      LengthSqPositive(v);
      RootNonZero(Length(m, v), LengthSq(v));
    } else {
      assert LengthSq(v) == 0.0;
      RootOfZero(Length(m, v));
    }
  }

  /** Each component is bounded by the length. */
  lemma ComponentsWithinLength(m: RealMath, v: Vec3)
    requires Lawful(m)
    ensures -Length(m, v) <= v.x <= Length(m, v)
    ensures -Length(m, v) <= v.y <= Length(m, v)
    ensures -Length(m, v) <= v.z <= Length(m, v)
  {
    LengthNonNegative(m, v);
    SquareNonNegative(v.x);
    SquareNonNegative(v.y);
    SquareNonNegative(v.z);
    WithinRoot(v.x, Length(m, v));
    WithinRoot(v.y, Length(m, v));
    WithinRoot(v.z, Length(m, v));
  }

  /** If `c*c <= l*l` with `l` non-negative, then `|c| <= l`. */
  lemma WithinRoot(c: real, l: real)
    requires 0.0 <= l && c * c <= l * l
    ensures -l <= c <= l
  {
    var a := if c < 0.0 then -c else c;
    assert a * a == c * c;
    if l < a {
      SquareLess(l, a);
    }
  }

  /** Non-negative scaling scales the length: `|c v| = c |v|`. */
  lemma LengthScale(m: RealMath, v: Vec3, c: real)
    requires Lawful(m) && 0.0 <= c
    ensures Length(m, Scale(v, c)) == c * Length(m, v)
  {
    LengthNonNegative(m, v);
    LengthNonNegative(m, Scale(v, c));
    var l := Length(m, v);
    var ls := Length(m, Scale(v, c));
    var cc := c * c;
    assert LengthSq(Scale(v, c)) == cc * LengthSq(v);
    assert ls * ls == cc * (l * l);
    assert (c * l) * (c * l) == cc * (l * l);
    assert 0.0 <= c * l;
    SquareInjective(ls, c * l);
  }

  /** Shrinking every component in magnitude does not lengthen a vector. */
  lemma LengthMonotone(m: RealMath, u: Vec3, v: Vec3)
    requires Lawful(m)
    requires u.x * u.x <= v.x * v.x && u.y * u.y <= v.y * v.y && u.z * u.z <= v.z * v.z
    ensures Length(m, u) <= Length(m, v)
  {
    LengthNonNegative(m, u);
    LengthNonNegative(m, v);
    if Length(m, v) < Length(m, u) {
      SquareLess(Length(m, v), Length(m, u));
    }
  }
}
