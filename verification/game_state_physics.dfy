/**
 * The per-body and per-pair rules of game_state.py, as functions on body
 * records. The GameState class (game_state.dfy) applies them in place.
 */
module GameStatePhysics {
  import opened Geometry
  import opened Wrappers

  /** Physical constants of GameState (game_state.py:21-23). */
  const Gravity: real := 9.8
  const Friction: real := 0.98
  const BounceFactor: real := 0.7

  /** Arena limits used by the per-body step (game_state.py:163-174). */
  const ArenaFloor: real := -10.0
  const ArenaHalfWidth: real := 15.0

  /** Points for one collected coin (game_state.py:246). */
  const CoinReward: int := 10

  /** The `type` tag of a body record. Static platforms are `Cube` bodies with `fixed` set. */
  datatype Kind = Cube | Collectible | MovingPlatform

  /** The extra keys of a moving platform: its two end points, speed, direction and timer. */
  datatype Track = Track(startPos: Vec2, endPos: Vec2, moveSpeed: real, moveDir: int, moveTimer: real)

  /** One entry of the body list. `track` is present exactly on moving platforms. */
  datatype Body = Body(
    position: Vec2,
    velocity: Vec2,
    size: real,
    fixed: bool,
    active: bool,
    color: Color,
    kind: Kind,
    rotation: real,
    rotationSpeed: real,
    track: Option<Track>)

  /** Two body lists agree on everything the step never changes: length, size, fixed flag and kind. */
  ghost predicate SameShape(a: seq<Body>, b: seq<Body>)
  {
    |a| == |b| && forall j :: 0 <= j < |a| ==> a[j].size == b[j].size && a[j].fixed == b[j].fixed && a[j].kind == b[j].kind
  }

  ghost predicate PositiveSizes(bs: seq<Body>)
  {
    forall j :: 0 <= j < |bs| ==> bs[j].size > 0.0
  }

  lemma SameShapeTransitive(a: seq<Body>, b: seq<Body>, c: seq<Body>)
    requires SameShape(a, b) && SameShape(b, c)
    ensures SameShape(a, c)
  {
  }

  // ---------------------------------------------------------------------------
  // Kinematics and the arena (game_state.py:146-174)
  // ---------------------------------------------------------------------------

  /** Gravity on y, friction on both axes, one explicit Euler step, spin. */
  function Integrated(b: Body, dt: real): (r: Body)
    ensures r == b.(position := r.position, velocity := r.velocity, rotation := r.rotation)
    ensures r.velocity == Vec2(b.velocity.x * Friction, (b.velocity.y - Gravity * dt) * Friction)
    ensures r.position == Vec2(b.position.x + r.velocity.x * dt, b.position.y + r.velocity.y * dt)
    ensures r.rotation == b.rotation + b.rotationSpeed * dt
  {
    var v := Vec2(b.velocity.x * Friction, (b.velocity.y - Gravity * dt) * Friction);
    b.(position := Vec2(b.position.x + v.x * dt, b.position.y + v.y * dt),
       velocity := v,
       rotation := b.rotation + b.rotationSpeed * dt)
  }

  /** The floor at y = -10 and the side walls at x = -15 and x = 15, with a damped bounce. */
  function ClampToArena(b: Body): (r: Body)
    ensures r == b.(position := r.position, velocity := r.velocity)
    ensures r.size == b.size && r.fixed == b.fixed && r.kind == b.kind && r.active == b.active
    ensures r.position.y == Max(b.position.y, ArenaFloor + b.size / 2.0)
    ensures r.velocity.y == if b.position.y - b.size / 2.0 < ArenaFloor then -b.velocity.y * BounceFactor else b.velocity.y
    ensures b.position.x - b.size / 2.0 < -ArenaHalfWidth ==>
              r.position.x == -ArenaHalfWidth + b.size / 2.0 && r.velocity.x == -b.velocity.x * BounceFactor
    ensures b.position.x - b.size / 2.0 >= -ArenaHalfWidth && b.position.x + b.size / 2.0 > ArenaHalfWidth ==>
              r.position.x == ArenaHalfWidth - b.size / 2.0 && r.velocity.x == -b.velocity.x * BounceFactor
    ensures -ArenaHalfWidth <= b.position.x - b.size / 2.0 && b.position.x + b.size / 2.0 <= ArenaHalfWidth ==>
              r.position.x == b.position.x && r.velocity.x == b.velocity.x
  {
    var afterFloor :=
      if b.position.y - b.size / 2.0 < ArenaFloor
      then b.(position := b.position.(y := ArenaFloor + b.size / 2.0), velocity := b.velocity.(y := -b.velocity.y * BounceFactor))
      else b;
    if afterFloor.position.x - afterFloor.size / 2.0 < -ArenaHalfWidth then
      afterFloor.(position := afterFloor.position.(x := -ArenaHalfWidth + afterFloor.size / 2.0),
                  velocity := afterFloor.velocity.(x := -afterFloor.velocity.x * BounceFactor))
    else if afterFloor.position.x + afterFloor.size / 2.0 > ArenaHalfWidth then
      afterFloor.(position := afterFloor.position.(x := ArenaHalfWidth - afterFloor.size / 2.0),
                  velocity := afterFloor.velocity.(x := -afterFloor.velocity.x * BounceFactor))
    else afterFloor
  }

  function ArenaStep(b: Body, dt: real): (r: Body)
    ensures r == b.(position := r.position, velocity := r.velocity, rotation := r.rotation)
    ensures r.size == b.size && r.fixed == b.fixed && r.kind == b.kind && r.active == b.active
    ensures r.rotation == b.rotation + b.rotationSpeed * dt
  {
    ClampToArena(Integrated(b, dt))
  }

  /** After the arena step a body of size at most 30 is above the floor and between the side walls. */
  lemma ArenaStepStaysInArena(b: Body, dt: real)
    requires b.size <= 2.0 * ArenaHalfWidth
    ensures ArenaStep(b, dt).position.y >= ArenaFloor + b.size / 2.0
    ensures -ArenaHalfWidth + b.size / 2.0 <= ArenaStep(b, dt).position.x <= ArenaHalfWidth - b.size / 2.0
  {
  }

  // ---------------------------------------------------------------------------
  // Moving platforms and their riders (game_state.py:187-230)
  // ---------------------------------------------------------------------------

  /** One step of a moving platform along x, turning round at either end point. */
  function PlatformStep(p: Body, dt: real): (r: Body)
    requires p.track.Some?
    ensures r.track.Some? && r.size == p.size && r.fixed == p.fixed && r.kind == p.kind && r.active == p.active
    ensures r == p.(position := Vec2(r.position.x, p.position.y), track := Some(p.track.value.(moveDir := r.track.value.moveDir)))
    ensures r.position.y == p.position.y && r.velocity == p.velocity
    ensures r.track.value.startPos == p.track.value.startPos && r.track.value.endPos == p.track.value.endPos
    ensures r.track.value.moveSpeed == p.track.value.moveSpeed
  {
    var t := p.track.value;
    var newX := p.position.x + (t.moveDir as real) * t.moveSpeed * dt;
    if t.moveDir > 0 then
      if newX >= t.endPos.x
      then p.(position := Vec2(t.endPos.x, p.position.y), track := Some(t.(moveDir := -1)))
      else p.(position := Vec2(newX, p.position.y))
    else
      if newX <= t.startPos.x
      then p.(position := Vec2(t.startPos.x, p.position.y), track := Some(t.(moveDir := 1)))
      else p.(position := Vec2(newX, p.position.y))
  }

  /** The unclamped displacement of one platform step, which is also what riders are moved by. */
  function PlatformDelta(p: Body, dt: real): (d: real)
    requires p.track.Some?
    ensures p.track.value.moveDir == 1 ==> d == p.track.value.moveSpeed * dt
    ensures p.track.value.moveDir == -1 ==> d == -(p.track.value.moveSpeed * dt)
  {
    (p.track.value.moveDir as real) * p.track.value.moveSpeed * dt
  }

  /** Moving forward: reaching or passing the end point clamps to it and turns back; otherwise x moves by the delta. */
  lemma PlatformForward(p: Body, dt: real)
    requires p.track.Some? && p.track.value.moveDir > 0
    ensures var r := PlatformStep(p, dt); var t := p.track.value;
      if p.position.x + PlatformDelta(p, dt) >= t.endPos.x
      then r.position.x == t.endPos.x && r.track.value.moveDir == -1
      else r.position.x == p.position.x + PlatformDelta(p, dt) && r.track.value.moveDir == t.moveDir
  {
  }

  /** Moving backward: reaching or passing the start point clamps to it and turns forward. */
  lemma PlatformBackward(p: Body, dt: real)
    requires p.track.Some? && p.track.value.moveDir <= 0
    ensures var r := PlatformStep(p, dt); var t := p.track.value;
      if p.position.x + PlatformDelta(p, dt) <= t.startPos.x
      then r.position.x == t.startPos.x && r.track.value.moveDir == 1
      else r.position.x == p.position.x + PlatformDelta(p, dt) && r.track.value.moveDir == t.moveDir
  {
  }

  /** A platform on its track, with direction +1 or -1 and a non-negative step length, stays on its track. */
  lemma PlatformStaysOnTrack(p: Body, dt: real)
    requires p.track.Some?
    requires p.track.value.startPos.x <= p.position.x <= p.track.value.endPos.x
    requires p.track.value.moveDir == 1 || p.track.value.moveDir == -1
    requires p.track.value.moveSpeed * dt >= 0.0
    ensures var r := PlatformStep(p, dt);
      && r.track.value.startPos.x <= r.position.x <= r.track.value.endPos.x
      && (r.track.value.moveDir == 1 || r.track.value.moveDir == -1)
  {
    var t := p.track.value;
    if t.moveDir == 1 {
      assert PlatformDelta(p, dt) == t.moveSpeed * dt;
    } else {
      assert PlatformDelta(p, dt) == -(t.moveSpeed * dt);
    }
  }

  /**
   * is_cube_on_platform: horizontally within 0.8 of the half-sizes' sum, above
   * the platform's centre, and less than the half-sizes' sum plus 0.1 above it.
   */
  predicate OnPlatform(cube: Body, platform: Body)
  {
    && Abs(cube.position.x - platform.position.x) < (cube.size + platform.size) / 2.0 * 0.8
    && cube.position.y - platform.position.y > 0.0
    && cube.position.y - platform.position.y < cube.size / 2.0 + platform.size / 2.0 + 0.1
  }

  /**
   * A cube resting on the platform's top face, centred over it, counts as on
   * the platform; nothing at or below the platform's centre ever does.
   */
  lemma RestingCubeIsOnPlatform(cube: Body, platform: Body)
    requires cube.size > 0.0 && platform.size > 0.0
    ensures (cube.position.x == platform.position.x
             && cube.position.y == platform.position.y + (cube.size + platform.size) / 2.0) ==> OnPlatform(cube, platform)
    ensures cube.position.y <= platform.position.y ==> !OnPlatform(cube, platform)
  {
  }

  /** Carrying a rider moves its x by the platform's delta and nothing else. */
  function Ride(b: Body, delta: real): (r: Body)
    ensures r.position.x == b.position.x + delta && r.position.y == b.position.y
    ensures r == b.(position := r.position)
  {
    b.(position := b.position.(x := b.position.x + delta))
  }

  /** Whether entry `c` is carried by the (already moved) platform `np`. */
  predicate Carried(c: Body, np: Body)
  {
    c != np && c.active && !c.fixed && OnPlatform(c, np)
  }

  /** The riders pass over a list in which the platform has already moved to `np`. */
  function CarryRiders(bs: seq<Body>, np: Body, delta: real): (r: seq<Body>)
    ensures |r| == |bs|
    ensures forall j :: 0 <= j < |bs| ==> r[j] == if Carried(bs[j], np) then Ride(bs[j], delta) else bs[j]
  {
    seq(|bs|, j requires 0 <= j < |bs| => if Carried(bs[j], np) then Ride(bs[j], delta) else bs[j])
  }

  /** Iteration `p` of the platform loop: an active moving platform steps and carries its riders. */
  function MovePlatformAt(bs: seq<Body>, p: int, dt: real): (r: seq<Body>)
    requires 0 <= p < |bs|
    ensures SameShape(bs, r)
  {
    var b := bs[p];
    if b.active && b.kind == MovingPlatform && b.track.Some? then
      var np := PlatformStep(b, dt);
      CarryRiders(bs[p := np], np, PlatformDelta(b, dt))
    else bs
  }

  /** The platform loop run over the first `n` entries. */
  function MovePlatformsUpTo(bs: seq<Body>, n: int, dt: real): (r: seq<Body>)
    requires 0 <= n <= |bs|
    ensures SameShape(bs, r)
  {
    if n == 0 then bs
    else
      var prev := MovePlatformsUpTo(bs, n - 1, dt);
      SameShapeTransitive(bs, prev, MovePlatformAt(prev, n - 1, dt));
      MovePlatformAt(prev, n - 1, dt)
  }

  /**
   * When a platform does not reach an end point this step, every rider keeps
   * its horizontal offset from the platform: both moved by the same delta.
   */
  lemma RiderKeepsOffset(bs: seq<Body>, p: int, j: int, dt: real)
    requires 0 <= p < |bs| && 0 <= j < |bs| && j != p
    requires bs[p].active && bs[p].kind == MovingPlatform && bs[p].track.Some?
    requires var t := bs[p].track.value; var x := bs[p].position.x + PlatformDelta(bs[p], dt);
      if t.moveDir > 0 then x < t.endPos.x else x > t.startPos.x
    requires Carried(bs[j], PlatformStep(bs[p], dt))
    ensures var r := MovePlatformAt(bs, p, dt);
      r[j].position.x - r[p].position.x == bs[j].position.x - bs[p].position.x
      && r[j].position.y == bs[j].position.y && r[j].velocity == bs[j].velocity
  {
    var np := PlatformStep(bs[p], dt);
    assert bs[p := np][j] == bs[j];
    assert !Carried(np, np);
  }

  /** Entries that are fixed (other than the stepping platform) or inactive are never moved by the platform pass. */
  lemma PlatformPassLeavesOthers(bs: seq<Body>, p: int, j: int, dt: real)
    requires 0 <= p < |bs| && 0 <= j < |bs| && j != p
    requires bs[j].fixed || !bs[j].active
    ensures MovePlatformAt(bs, p, dt)[j] == bs[j]
  {
  }

  // ---------------------------------------------------------------------------
  // Pairwise collision (game_state.py:251-361)
  // ---------------------------------------------------------------------------

  /** The random draws of one pair: the normal used when centres coincide and the velocity noise. */
  datatype Draw = Draw(normal: Vec2, curNoise: Vec2, otherNoise: Vec2)

  predicate NoNoise(d: Draw)
  {
    d.curNoise == Vec2(0.0, 0.0) && d.otherNoise == Vec2(0.0, 0.0)
  }

  /** The centres are closer than the mean of the two sizes (`distance < combined_size`). */
  predicate Touching(cur: Body, other: Body)
  {
    WithinStrict(DistSq(cur.position, other.position), (cur.size + other.size) / 2.0)
  }

  /** The unit normal from `other` towards `cur`, or the drawn one when the centres coincide. */
  function Normal(cur: Body, other: Body, sqrt: real -> real, d: Draw): Vec2
  {
    var dx := cur.position.x - other.position.x;
    var dy := cur.position.y - other.position.y;
    var dist := sqrt(DistSq(cur.position, other.position));
    if dist > 0.0 then Vec2(dx / dist, dy / dist) else d.normal
  }

  function Overlap(cur: Body, other: Body, sqrt: real -> real): real
  {
    (cur.size + other.size) / 2.0 - sqrt(DistSq(cur.position, other.position))
  }

  /** With the true root, the squared touching test holds exactly when the overlap is positive. */
  lemma TouchingIffOverlapPositive(cur: Body, other: Body, sqrt: real -> real)
    requires var d2 := DistSq(cur.position, other.position); sqrt(d2) >= 0.0 && sqrt(d2) * sqrt(d2) == d2
    ensures Touching(cur, other) <==> Overlap(cur, other, sqrt) > 0.0
  {
    var d2 := DistSq(cur.position, other.position);
    WithinStrictIsDistanceTest(sqrt(d2), d2, (cur.size + other.size) / 2.0);
  }

  /**
   * With the true root and a unit drawn normal, the normal has unit length,
   * and when the centres are apart it points from `other` towards `cur`.
   */
  lemma NormalIsUnit(cur: Body, other: Body, sqrt: real -> real, d: Draw)
    requires var d2 := DistSq(cur.position, other.position); sqrt(d2) >= 0.0 && sqrt(d2) * sqrt(d2) == d2
    requires d.normal.Dot(d.normal) == 1.0
    ensures Normal(cur, other, sqrt, d).Dot(Normal(cur, other, sqrt, d)) == 1.0
    ensures DistSq(cur.position, other.position) > 0.0 ==>
      Normal(cur, other, sqrt, d).Dot(Vec2(cur.position.x - other.position.x, cur.position.y - other.position.y)) > 0.0
  {
    var dx := cur.position.x - other.position.x;
    var dy := cur.position.y - other.position.y;
    var d2 := DistSq(cur.position, other.position);
    var dist := sqrt(d2);
    if d2 > 0.0 {
      RootOfPositive(dist, d2);
    }
    if dist > 0.0 {
      ScaledToUnit(dx, dy, dist);
      UnitAlongOffset(dx, dy, dist);
    }
  }

  /** Against a fixed body: push out along the normal, reflect (damped) only when moving into it. */
  function StaticPush(cur: Body, n: Vec2, overlap: real): (r: Body)
    ensures r == cur.(position := r.position, velocity := r.velocity)
    ensures r.position == cur.position.Add(n.Scale(overlap))
    ensures cur.velocity.Dot(n) >= 0.0 ==> r.velocity == cur.velocity
  {
    var pos := cur.position.Add(n.Scale(overlap));
    var dot := cur.velocity.x * n.x + cur.velocity.y * n.y;
    if dot < 0.0 then
      cur.(position := pos,
           velocity := Vec2(cur.velocity.x - 2.0 * dot * n.x * BounceFactor, cur.velocity.y - 2.0 * dot * n.y * BounceFactor))
    else cur.(position := pos)
  }

  /**
   * With a unit normal, an approaching body's normal speed is reversed and
   * scaled by 2 * 0.7 - 1 = 0.4, and its tangential speed is kept.
   */
  lemma StaticReflection(cur: Body, n: Vec2, overlap: real)
    requires n.x * n.x + n.y * n.y == 1.0
    requires cur.velocity.Dot(n) < 0.0
    ensures StaticPush(cur, n, overlap).velocity.Dot(n) == (1.0 - 2.0 * BounceFactor) * cur.velocity.Dot(n)
    ensures StaticPush(cur, n, overlap).velocity.Dot(Vec2(-n.y, n.x)) == cur.velocity.Dot(Vec2(-n.y, n.x))
    ensures StaticPush(cur, n, overlap).velocity.Dot(n) > 0.0
  {
    var u := cur.velocity;
    var dot := u.Dot(n);
    var k := 2.0 * dot * BounceFactor;
    assert StaticPush(cur, n, overlap).velocity == Vec2(u.x - k * n.x, u.y - k * n.y);
    UnitKickDots(u, n, k);
  }

  /** Taking `k` times a unit normal `n` off `u` lowers its normal component by `k` and keeps its tangential one. */
  lemma UnitKickDots(u: Vec2, n: Vec2, k: real)
    requires n.x * n.x + n.y * n.y == 1.0
    ensures Vec2(u.x - k * n.x, u.y - k * n.y).Dot(n) == u.Dot(n) - k
    ensures Vec2(u.x - k * n.x, u.y - k * n.y).Dot(Vec2(-n.y, n.x)) == u.Dot(Vec2(-n.y, n.x))
  {
    assert (u.x - k * n.x) * n.x + (u.y - k * n.y) * n.y == u.Dot(n) - k * (n.x * n.x + n.y * n.y);
  }

  /** The outcome of one pair: both bodies, and whether the scan over partners stops here. */
  datatype PairResult = PairResult(cur: Body, other: Body, stop: bool)

  /** Volume-like mass of a body (size cubed). */
  function Mass(b: Body): (m: real)
    requires b.size > 0.0
    ensures m > 0.0
  {
    b.size * b.size * b.size
  }

  /** Relative velocity of the pair along the normal (`vel_along_normal`). */
  function ApproachSpeed(cur: Body, other: Body, n: Vec2): real
  {
    (cur.velocity.x - other.velocity.x) * n.x + (cur.velocity.y - other.velocity.y) * n.y
  }

  /** The restitution impulse scalar for masses `m1` and `m2`. */
  function ImpulseScalar(velAlongNormal: real, m1: real, m2: real): real
    requires m1 > 0.0 && m2 > 0.0
  {
    -(1.0 + BounceFactor) * velAlongNormal / (1.0 / m1 + 1.0 / m2)
  }

  /**
   * Against a movable body: split the overlap in inverse proportion to size,
   * then, unless the bodies already separate, exchange a restitution impulse
   * with size-cubed masses and add the drawn velocity noise.
   */
  function DynamicResolve(cur: Body, other: Body, n: Vec2, overlap: real, d: Draw): (r: PairResult)
    requires cur.size > 0.0 && other.size > 0.0
    ensures r.cur == cur.(position := r.cur.position, velocity := r.cur.velocity)
    ensures r.other == other.(position := r.other.position, velocity := r.other.velocity)
    ensures ApproachSpeed(cur, other, n) > 0.0 ==> r.stop && r.cur.velocity == cur.velocity && r.other.velocity == other.velocity
    ensures ApproachSpeed(cur, other, n) <= 0.0 ==>
      var j := ImpulseScalar(ApproachSpeed(cur, other, n), Mass(cur), Mass(other));
      && !r.stop
      && r.cur.velocity == Kick(cur.velocity, n.Scale(j), Mass(cur), d.curNoise)
      && r.other.velocity == Kick(other.velocity, n.Scale(-j), Mass(other), d.otherNoise)
  {
    var total := cur.size + other.size;
    var curWeight := other.size / total;
    var otherWeight := cur.size / total;
    var cur1 := cur.(position := Vec2(cur.position.x + n.x * overlap * curWeight, cur.position.y + n.y * overlap * curWeight));
    var other1 := other.(position := Vec2(other.position.x - n.x * overlap * otherWeight, other.position.y - n.y * overlap * otherWeight));
    var velAlongNormal := ApproachSpeed(cur, other, n);
    if velAlongNormal > 0.0 then PairResult(cur1, other1, true)
    else
      var m1 := Mass(cur);
      var m2 := Mass(other);
      var impulse := ImpulseScalar(velAlongNormal, m1, m2);
      PairResult(
        cur1.(velocity := Kick(cur.velocity, n.Scale(impulse), m1, d.curNoise)),
        other1.(velocity := Kick(other.velocity, n.Scale(-impulse), m2, d.otherNoise)),
        false)
  }

  /** A velocity after receiving impulse `j` on mass `m`, plus noise. */
  function Kick(v: Vec2, j: Vec2, m: real, noise: Vec2): Vec2
    requires m > 0.0
  {
    Vec2(v.x + j.x / m + noise.x, v.y + j.y / m + noise.y)
  }

  /** Without noise, a kick adds exactly the impulse to the momentum `m * v`. */
  lemma KickMomentum(v: Vec2, j: Vec2, m: real)
    requires m > 0.0
    ensures m * Kick(v, j, m, Vec2(0.0, 0.0)).x == m * v.x + j.x
    ensures m * Kick(v, j, m, Vec2(0.0, 0.0)).y == m * v.y + j.y
  {
    var qx, qy := j.x / m, j.y / m;
    assert m * qx == j.x && m * qy == j.y;
    assert m * (v.x + qx) == m * v.x + m * qx;
    assert m * (v.y + qy) == m * v.y + m * qy;
  }

  /** With no noise, size-cubed momentum is the same before and after a dynamic pair resolution. */
  lemma DynamicMomentumConserved(cur: Body, other: Body, n: Vec2, overlap: real, d: Draw)
    requires cur.size > 0.0 && other.size > 0.0 && NoNoise(d)
    ensures var r := DynamicResolve(cur, other, n, overlap, d);
      MomentumKept(Mass(cur), Mass(other), cur.velocity, other.velocity, r.cur.velocity, r.other.velocity)
  {
    if ApproachSpeed(cur, other, n) <= 0.0 {
      ApproachingPairKeepsMomentum(cur, other, n, overlap, d);
    }
  }

  /** The impulse case of `DynamicMomentumConserved`: the two kicks cancel. */
  lemma ApproachingPairKeepsMomentum(cur: Body, other: Body, n: Vec2, overlap: real, d: Draw)
    requires cur.size > 0.0 && other.size > 0.0 && NoNoise(d)
    requires ApproachSpeed(cur, other, n) <= 0.0
    ensures var r := DynamicResolve(cur, other, n, overlap, d);
      MomentumKept(Mass(cur), Mass(other), cur.velocity, other.velocity, r.cur.velocity, r.other.velocity)
  {
    var r := DynamicResolve(cur, other, n, overlap, d);
    var j := ImpulseScalar(ApproachSpeed(cur, other, n), Mass(cur), Mass(other));
    OpposedKicksKeepMomentum(cur.velocity, other.velocity, r.cur.velocity, r.other.velocity, n.Scale(j), n.Scale(-j), Mass(cur), Mass(other));
  }

  /** Two noiseless kicks by opposite impulses leave the total momentum unchanged. */
  lemma OpposedKicksKeepMomentum(v1: Vec2, v2: Vec2, w1: Vec2, w2: Vec2, j1: Vec2, j2: Vec2, m1: real, m2: real)
    requires m1 > 0.0 && m2 > 0.0 && j2.x == -j1.x && j2.y == -j1.y
    requires w1 == Kick(v1, j1, m1, Vec2(0.0, 0.0)) && w2 == Kick(v2, j2, m2, Vec2(0.0, 0.0))
    ensures MomentumKept(m1, m2, v1, v2, w1, w2)
  {
    KickMomentum(v1, j1, m1);
    KickMomentum(v2, j2, m2);
  }

  /**
   * A pair that is already separating is pushed apart but its velocities are
   * left alone, and the scan stops; the push moves the two centres apart by
   * exactly the overlap along the normal.
   */
  lemma DynamicSeparatingPair(cur: Body, other: Body, n: Vec2, overlap: real, d: Draw)
    requires cur.size > 0.0 && other.size > 0.0
    requires ApproachSpeed(cur, other, n) > 0.0
    ensures var r := DynamicResolve(cur, other, n, overlap, d);
      && r.stop
      && r.cur.velocity == cur.velocity && r.other.velocity == other.velocity
      && r.cur.position.x - r.other.position.x == cur.position.x - other.position.x + n.x * overlap
      && r.cur.position.y - r.other.position.y == cur.position.y - other.position.y + n.y * overlap
  {
    var total := cur.size + other.size;
    var cw, ow := other.size / total, cur.size / total;
    assert cw + ow == 1.0;
    assert n.x * overlap * cw + n.x * overlap * ow == n.x * overlap * (cw + ow);
    assert n.y * overlap * cw + n.y * overlap * ow == n.y * overlap * (cw + ow);
  }

  /** One partner of the collision scan (the body of the loop at game_state.py:255-361). */
  function Resolve(cur: Body, other: Body, sqrt: real -> real, d: Draw): (r: PairResult)
    requires cur.size > 0.0 && other.size > 0.0
    ensures r.cur == cur.(position := r.cur.position, velocity := r.cur.velocity)
    ensures r.other == other.(position := r.other.position, velocity := r.other.velocity)
    ensures !Touching(cur, other) ==> r == PairResult(cur, other, false)
    ensures other.fixed ==> r.other == other && !r.stop
    ensures other.fixed && Touching(cur, other) ==> r.cur == StaticPush(cur, Normal(cur, other, sqrt, d), Overlap(cur, other, sqrt))
    ensures !other.fixed && Touching(cur, other) ==> r == DynamicResolve(cur, other, Normal(cur, other, sqrt, d), Overlap(cur, other, sqrt), d)
  {
    if !Touching(cur, other) then PairResult(cur, other, false)
    else
      var n := Normal(cur, other, sqrt, d);
      var overlap := Overlap(cur, other, sqrt);
      if other.fixed then PairResult(StaticPush(cur, n, overlap), other, false)
      else DynamicResolve(cur, other, n, overlap, d)
  }

  /**
   * check_cube_collisions from partner `j` on: inactive partners and the body
   * itself are skipped, and a separating dynamic pair ends the whole scan.
   */
  function CollideFrom(bs: seq<Body>, i: int, j: int, sqrt: real -> real, draw: (int, int) -> Draw): (r: seq<Body>)
    requires 0 <= i < |bs| && 0 <= j <= |bs| && PositiveSizes(bs)
    ensures SameShape(bs, r) && PositiveSizes(r)
    ensures forall k :: 0 <= k < |bs| ==> r[k].active == bs[k].active
    decreases |bs| - j
  {
    if j == |bs| then bs
    else if j == i || !bs[j].active then CollideFrom(bs, i, j + 1, sqrt, draw)
    else
      var pr := Resolve(bs[i], bs[j], sqrt, draw(i, j));
      var next := bs[i := pr.cur][j := pr.other];
      assert SameShape(bs, next);
      if pr.stop then next
      else
        var rest := CollideFrom(next, i, j + 1, sqrt, draw);
        SameShapeTransitive(bs, next, rest);
        rest
  }

  /**
   * A separating dynamic pair ends the scan: when the moving body touches an
   * active dynamic partner `j` and the two are already moving apart, the two
   * are pushed apart and no partner after `j` is visited, so every other body
   * keeps its state.
   */
  lemma CollideFromStopsOnSeparatingPair(bs: seq<Body>, i: int, j: int, sqrt: real -> real, draw: (int, int) -> Draw)
    requires 0 <= i < |bs| && 0 <= j < |bs| && j != i && PositiveSizes(bs)
    requires bs[j].active && !bs[j].fixed && Touching(bs[i], bs[j])
    requires ApproachSpeed(bs[i], bs[j], Normal(bs[i], bs[j], sqrt, draw(i, j))) > 0.0
    ensures var pr := Resolve(bs[i], bs[j], sqrt, draw(i, j));
      && CollideFrom(bs, i, j, sqrt, draw) == bs[i := pr.cur][j := pr.other]
      && pr.cur.velocity == bs[i].velocity && pr.other.velocity == bs[j].velocity
    ensures forall k :: 0 <= k < |bs| && k != i && k != j ==> CollideFrom(bs, i, j, sqrt, draw)[k] == bs[k]
  {
  }

  /** check_cube_collisions: nothing happens for an inactive body. */
  function CollideAll(bs: seq<Body>, i: int, sqrt: real -> real, draw: (int, int) -> Draw): (r: seq<Body>)
    requires 0 <= i < |bs| && PositiveSizes(bs)
    ensures SameShape(bs, r) && PositiveSizes(r)
  {
    if !bs[i].active then bs else CollideFrom(bs, i, 0, sqrt, draw)
  }

  /** A fixed body other than the moving one is never moved, nor its velocity changed, by the scan. */
  lemma {:induction false} CollideFromKeepsFixed(bs: seq<Body>, i: int, j: int, sqrt: real -> real, draw: (int, int) -> Draw, k: int)
    requires 0 <= i < |bs| && 0 <= j <= |bs| && PositiveSizes(bs)
    requires 0 <= k < |bs| && k != i && bs[k].fixed
    ensures CollideFrom(bs, i, j, sqrt, draw)[k] == bs[k]
    decreases |bs| - j
  {
    if j < |bs| {
      if j == i || !bs[j].active {
        CollideFromKeepsFixed(bs, i, j + 1, sqrt, draw, k);
      } else {
        var pr := Resolve(bs[i], bs[j], sqrt, draw(i, j));
        var next := bs[i := pr.cur][j := pr.other];
        assert next[k] == bs[k];
        if !pr.stop {
          CollideFromKeepsFixed(next, i, j + 1, sqrt, draw, k);
        }
      }
    }
  }

  /** The scan from partner `j` on never changes an entry before `j` (other than the moving body). */
  lemma {:induction false} CollideFromUntouchedPartner(bs: seq<Body>, i: int, j: int, sqrt: real -> real, draw: (int, int) -> Draw, k: int)
    requires 0 <= i < |bs| && 0 <= j <= |bs| && PositiveSizes(bs)
    requires 0 <= k < j && k != i
    ensures CollideFrom(bs, i, j, sqrt, draw)[k] == bs[k]
    decreases |bs| - j
  {
    if j < |bs| {
      if j == i || !bs[j].active {
        CollideFromUntouchedPartner(bs, i, j + 1, sqrt, draw, k);
      } else {
        var pr := Resolve(bs[i], bs[j], sqrt, draw(i, j));
        var next := bs[i := pr.cur][j := pr.other];
        if !pr.stop {
          CollideFromUntouchedPartner(next, i, j + 1, sqrt, draw, k);
        }
      }
    }
  }

  // ---------------------------------------------------------------------------
  // Coins (game_state.py:233-248)
  // ---------------------------------------------------------------------------

  /** A coin is collected by `cube` when it is an active collectible closer than the mean of the two sizes. */
  predicate Picks(cube: Body, coin: Body)
  {
    coin.active && coin.kind == Collectible
    && WithinStrict(DistSq(cube.position, coin.position), (cube.size + coin.size) / 2.0)
  }

  /** With the true root, a coin is picked exactly when it is an active collectible closer than the mean size. */
  lemma PicksIsDistanceTest(cube: Body, coin: Body, dist: real)
    requires dist >= 0.0 && dist * dist == DistSq(cube.position, coin.position)
    ensures Picks(cube, coin) <==> coin.active && coin.kind == Collectible && dist < (cube.size + coin.size) / 2.0
  {
    WithinStrictIsDistanceTest(dist, DistSq(cube.position, coin.position), (cube.size + coin.size) / 2.0);
  }

  /** How many entries of `bs` the cube picks up. */
  function CountPicked(bs: seq<Body>, cube: Body): (c: nat)
    ensures c <= |bs|
  {
    if |bs| == 0 then 0
    else CountPicked(bs[..|bs| - 1], cube) + (if Picks(cube, bs[|bs| - 1]) then 1 else 0)
  }

  lemma {:induction false} CountPickedZeroIffNone(bs: seq<Body>, cube: Body)
    ensures CountPicked(bs, cube) == 0 <==> forall j :: 0 <= j < |bs| ==> !Picks(cube, bs[j])
  {
    if |bs| > 0 {
      CountPickedZeroIffNone(bs[..|bs| - 1], cube);
      assert forall j :: 0 <= j < |bs| - 1 ==> bs[..|bs| - 1][j] == bs[j];
    }
  }

  /** The coin pass of one cube: every coin it picks is deactivated; nothing else changes. */
  function PickupPass(bs: seq<Body>, cube: Body): (r: seq<Body>)
    ensures |r| == |bs|
    ensures forall j :: 0 <= j < |bs| ==> r[j] == if Picks(cube, bs[j]) then bs[j].(active := false) else bs[j]
  {
    seq(|bs|, j requires 0 <= j < |bs| => if Picks(cube, bs[j]) then bs[j].(active := false) else bs[j])
  }

  /**
   * Collection is one-shot: after the pass the same cube (or the cube's own
   * entry, possibly deactivated) picks nothing more, so a second pass adds no score.
   */
  lemma PickupIsOneShot(bs: seq<Body>, i: int)
    requires 0 <= i < |bs|
    ensures CountPicked(PickupPass(bs, bs[i]), PickupPass(bs, bs[i])[i]) == 0
    ensures PickupPass(PickupPass(bs, bs[i]), PickupPass(bs, bs[i])[i]) == PickupPass(bs, bs[i])
  {
    var r := PickupPass(bs, bs[i]);
    var cube := r[i];
    assert cube.position == bs[i].position && cube.size == bs[i].size;
    forall j | 0 <= j < |r|
      ensures !Picks(cube, r[j])
    {
      if Picks(bs[i], bs[j]) {
        assert !r[j].active;
      } else {
        assert r[j] == bs[j];
      }
    }
    CountPickedZeroIffNone(r, cube);
  }

  // ---------------------------------------------------------------------------
  // Game over (game_state.py:364-368)
  // ---------------------------------------------------------------------------

  predicate LiveCube(b: Body)
  {
    b.active && !b.fixed && b.kind == Cube
  }

  /** The number of active, non-fixed entries of type cube. */
  function CountLiveCubes(bs: seq<Body>): (c: nat)
    ensures c <= |bs|
  {
    if |bs| == 0 then 0
    else CountLiveCubes(bs[..|bs| - 1]) + (if LiveCube(bs[|bs| - 1]) then 1 else 0)
  }

  lemma {:induction false} NoLiveCubesIffCountZero(bs: seq<Body>)
    ensures CountLiveCubes(bs) == 0 <==> forall j :: 0 <= j < |bs| ==> !LiveCube(bs[j])
  {
    if |bs| > 0 {
      NoLiveCubesIffCountZero(bs[..|bs| - 1]);
      assert forall j :: 0 <= j < |bs| - 1 ==> bs[..|bs| - 1][j] == bs[j];
    }
  }

  // ---------------------------------------------------------------------------
  // One frame of the body loop (game_state.py:144-181)
  // ---------------------------------------------------------------------------

  /** The body list together with the score, the two things the frame loop changes. */
  datatype World = World(bodies: seq<Body>, score: int)

  /** Iteration `i` of the frame loop. */
  function StepBody(w: World, i: int, dt: real, sqrt: real -> real, draw: (int, int) -> Draw): (r: World)
    requires 0 <= i < |w.bodies| && PositiveSizes(w.bodies)
    ensures SameShape(w.bodies, r.bodies) && PositiveSizes(r.bodies)
    ensures r.score >= w.score
  {
    var b := w.bodies[i];
    if b.active && !b.fixed then
      var bs1 := w.bodies[i := ArenaStep(b, dt)];
      assert SameShape(w.bodies, bs1);
      var bs2 := CollideAll(bs1, i, sqrt, draw);
      SameShapeTransitive(w.bodies, bs1, bs2);
      if bs2[i].kind == Cube then
        World(PickupPass(bs2, bs2[i]), w.score + CoinReward * CountPicked(bs2, bs2[i]))
      else World(bs2, w.score)
    else w
  }

  /** The frame loop over the first `n` entries. */
  function StepUpTo(w: World, n: int, dt: real, sqrt: real -> real, draw: (int, int) -> Draw): (r: World)
    requires 0 <= n <= |w.bodies| && PositiveSizes(w.bodies)
    ensures SameShape(w.bodies, r.bodies) && PositiveSizes(r.bodies)
    ensures r.score >= w.score
  {
    if n == 0 then w
    else
      var prev := StepUpTo(w, n - 1, dt, sqrt, draw);
      var next := StepBody(prev, n - 1, dt, sqrt, draw);
      SameShapeTransitive(w.bodies, prev.bodies, next.bodies);
      next
  }

  /** How many entries are active in `before` and inactive in `after`. */
  function CountDeactivated(before: seq<Body>, after: seq<Body>): (c: nat)
    requires |before| == |after|
    ensures c <= |before|
  {
    if |before| == 0 then 0
    else
      CountDeactivated(before[..|before| - 1], after[..|after| - 1])
      + (if before[|before| - 1].active && !after[|after| - 1].active then 1 else 0)
  }

  /** The coin pass scores exactly one reward per collectible it deactivates. */
  lemma {:induction false} PickupScoresPerCoin(bs: seq<Body>, cube: Body)
    ensures CountPicked(bs, cube) == CountDeactivated(bs, PickupPass(bs, cube))
  {
    if |bs| > 0 {
      var n := |bs|;
      assert PickupPass(bs, cube)[..n - 1] == PickupPass(bs[..n - 1], cube);
      PickupScoresPerCoin(bs[..n - 1], cube);
    }
  }

  /** One whole frame of `update` when the game is not over: the platform pass, then the body loop. */
  function Frame(bs: seq<Body>, score: int, dt: real, sqrt: real -> real, draw: (int, int) -> Draw): (r: World)
    requires PositiveSizes(bs)
    ensures SameShape(bs, r.bodies) && PositiveSizes(r.bodies)
    ensures r.score >= score
  {
    var moved := MovePlatformsUpTo(bs, |bs|, dt);
    var r := StepUpTo(World(moved, score), |bs|, dt, sqrt, draw);
    SameShapeTransitive(bs, moved, r.bodies);
    r
  }

  /** The platform pass never changes a fixed entry that is not a moving platform. */
  lemma {:induction false} PlatformsKeepStatic(bs: seq<Body>, n: int, dt: real, k: int)
    requires 0 <= n <= |bs| && 0 <= k < |bs|
    requires bs[k].fixed && bs[k].kind != MovingPlatform
    ensures MovePlatformsUpTo(bs, n, dt)[k] == bs[k]
  {
    if n > 0 {
      PlatformsKeepStatic(bs, n - 1, dt, k);
      var prev := MovePlatformsUpTo(bs, n - 1, dt);
      if n - 1 != k {
        PlatformPassLeavesOthers(prev, n - 1, k, dt);
      }
    }
  }

  /** One iteration of the body loop never changes a fixed entry that is not a collectible. */
  lemma StepBodyKeepsStatic(w: World, i: int, dt: real, sqrt: real -> real, draw: (int, int) -> Draw, k: int)
    requires 0 <= i < |w.bodies| && PositiveSizes(w.bodies) && 0 <= k < |w.bodies|
    requires w.bodies[k].fixed && w.bodies[k].kind != Collectible
    ensures StepBody(w, i, dt, sqrt, draw).bodies[k] == w.bodies[k]
  {
    var b := w.bodies[i];
    if b.active && !b.fixed {
      var bs1 := w.bodies[i := ArenaStep(b, dt)];
      assert bs1[k] == w.bodies[k];
      var bs2 := CollideAll(bs1, i, sqrt, draw);
      if bs1[i].active {
        CollideFromKeepsFixed(bs1, i, 0, sqrt, draw, k);
      }
      assert bs2[k] == w.bodies[k];
      assert !Picks(bs2[i], bs2[k]);
    }
  }

  /** The body loop never changes a fixed entry that is not a collectible. */
  lemma {:induction false} StepsKeepStatic(w: World, n: int, dt: real, sqrt: real -> real, draw: (int, int) -> Draw, k: int)
    requires 0 <= n <= |w.bodies| && PositiveSizes(w.bodies) && 0 <= k < |w.bodies|
    requires w.bodies[k].fixed && w.bodies[k].kind != Collectible
    ensures StepUpTo(w, n, dt, sqrt, draw).bodies[k] == w.bodies[k]
  {
    if n > 0 {
      StepsKeepStatic(w, n - 1, dt, sqrt, draw, k);
      StepBodyKeepsStatic(StepUpTo(w, n - 1, dt, sqrt, draw), n - 1, dt, sqrt, draw, k);
    }
  }

  /** A static platform (fixed, not moving, not a coin) is exactly the same after a frame. */
  lemma FrameKeepsStaticPlatforms(bs: seq<Body>, score: int, dt: real, sqrt: real -> real, draw: (int, int) -> Draw, k: int)
    requires PositiveSizes(bs) && 0 <= k < |bs|
    requires bs[k].fixed && bs[k].kind == Cube
    ensures Frame(bs, score, dt, sqrt, draw).bodies[k] == bs[k]
  {
    var moved := MovePlatformsUpTo(bs, |bs|, dt);
    PlatformsKeepStatic(bs, |bs|, dt, k);
    StepsKeepStatic(World(moved, score), |bs|, dt, sqrt, draw, k);
  }
}
