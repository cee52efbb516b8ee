/** Small value types and real-number helpers shared by the simulation modules. */
module Geometry {

  /** A 2-D point or vector. */
  datatype Vec2 = Vec2(x: real, y: real)
  {
    function Add(o: Vec2): Vec2 { Vec2(x + o.x, y + o.y) }
    function Scale(k: real): Vec2 { Vec2(k * x, k * y) }
    function Dot(o: Vec2): real { x * o.x + y * o.y }
  }

  /** A 3-D point or vector (positions, rotations and velocities of the 3-D views). */
  datatype Vec3 = Vec3(x: real, y: real, z: real)
  {
    function Add(o: Vec3): Vec3 { Vec3(x + o.x, y + o.y, z + o.z) }
  }

  /** An RGB colour triple. */
  datatype Color = Color(r: real, g: real, b: real)

  function Abs(a: real): (r: real)
    ensures r >= 0.0 && (r == a || r == -a)
  {
    if a < 0.0 then -a else a
  }

  function Min(a: real, b: real): (r: real)
    ensures r <= a && r <= b && (r == a || r == b)
  {
    if a <= b then a else b
  }

  function Max(a: real, b: real): (r: real)
    ensures r >= a && r >= b && (r == a || r == b)
  {
    if a >= b then a else b
  }

  /**
   * Two bodies of masses `m1` and `m2` whose velocities go from `v1`, `v2` to
   * `w1`, `w2` keep their total momentum on both axes.
   */
  predicate MomentumKept(m1: real, m2: real, v1: Vec2, v2: Vec2, w1: Vec2, w2: Vec2)
  {
    && m1 * w1.x + m2 * w2.x == m1 * v1.x + m2 * v2.x
    && m1 * w1.y + m2 * w2.y == m1 * v1.y + m2 * v2.y
  }

  /** Squared Euclidean distance between two points. */
  function DistSq(a: Vec2, b: Vec2): (r: real)
    ensures r >= 0.0
  {
    (a.x - b.x) * (a.x - b.x) + (a.y - b.y) * (a.y - b.y)
  }

  /** `a * b`, carrying the fact that two positive factors give a positive product. */
  function Product(a: real, b: real): (r: real)
    ensures a > 0.0 && b > 0.0 ==> r > 0.0
  {
    if a > 0.0 && b > 0.0 then
      assert a * b > 0.0 * b;
      a * b
    else
      a * b
  }

  /**
   * `sqrt(d2) < bound` for the true square root, stated without a root:
   * a non-negative distance is below `bound` exactly when `bound` is positive
   * and the squared distance is below `bound * bound`.
   */
  predicate WithinStrict(d2: real, bound: real)
  {
    bound > 0.0 && d2 < bound * bound
  }

  /** `sqrt(d2) <= bound` for the true square root, stated without a root. */
  predicate WithinOrOn(d2: real, bound: real)
  {
    bound >= 0.0 && d2 <= bound * bound
  }

  /** A distance `d >= 0` with `d * d == d2` is below `bound` iff `WithinStrict(d2, bound)`. */
  lemma WithinStrictIsDistanceTest(d: real, d2: real, bound: real)
    requires d >= 0.0 && d * d == d2
    ensures WithinStrict(d2, bound) <==> d < bound
  {
    var dd, db, bb := d * d, d * bound, bound * bound;
    if d < bound {
      assert dd <= db < bb;
    } else if bound > 0.0 {
      assert bb <= db <= dd;
    }
  }

  /** Dividing an offset by its own positive length gives a vector of unit length. */
  lemma ScaledToUnit(dx: real, dy: real, dist: real)
    requires dist > 0.0 && dist * dist == dx * dx + dy * dy
    ensures (dx / dist) * (dx / dist) + (dy / dist) * (dy / dist) == 1.0
  {
    var nx, ny := dx / dist, dy / dist;
    var u := nx * nx + ny * ny;
    var dd := dist * dist;
    assert nx * dist == dx && ny * dist == dy;
    assert u * dd == (nx * dist) * (nx * dist) + (ny * dist) * (ny * dist);
    assert (nx * dist) * (nx * dist) == dx * dx && (ny * dist) * (ny * dist) == dy * dy;
    assert u * dd == dd;
    assert dd > 0.0 by { assert Product(dist, dist) > 0.0; }
  }

  /** The non-negative root of a positive number is positive. */
  lemma RootOfPositive(dist: real, d2: real)
    requires dist >= 0.0 && dist * dist == d2 && d2 > 0.0
    ensures dist > 0.0
  {
    assert dist * dist > 0.0;
  }

  /** The offset divided by its length has a positive dot product with the offset itself. */
  lemma UnitAlongOffset(dx: real, dy: real, dist: real)
    requires dist > 0.0 && dist * dist == dx * dx + dy * dy
    ensures Vec2(dx / dist, dy / dist).Dot(Vec2(dx, dy)) > 0.0
  {
    var nx, ny := dx / dist, dy / dist;
    ScaledToUnit(dx, dy, dist);
    assert nx * dx + ny * dy == (nx * nx + ny * ny) * dist;
  }

  /** A distance `d >= 0` with `d * d == d2` is at most `bound` iff `WithinOrOn(d2, bound)`. */
  lemma WithinOrOnIsDistanceTest(d: real, d2: real, bound: real)
    requires d >= 0.0 && d * d == d2
    ensures WithinOrOn(d2, bound) <==> d <= bound
  {
    var dd, db, bb := d * d, d * bound, bound * bound;
    if d <= bound {
      assert dd <= db <= bb;
    } else if bound >= 0.0 {
      assert bb <= db < dd;
    }
  }
}
