/**
 * The pygame version of the game in main.py: screen coordinates with y
 * pointing down, objects whose update changes their own fields and those of
 * the objects they touch, and short-lived particles kept in a list.
 * Random draws and the square root are parameters.
 */
module MainGame {
  import opened Geometry
  import opened Wrappers

  /** Screen and physics settings (main.py:14-15, 31-33). */
  const ScreenWidth: real := 800.0
  const ScreenHeight: real := 600.0
  const Gravity: real := 980.0
  const Friction: real := 0.98
  const BounceFactor: real := 0.7

  /** Per-frame fall of a particle (main.py:58). */
  const ParticleGravity: real := 0.05

  /** Largest time step the main loop lets through (main.py:552). */
  const MaxFrameTime: real := 0.1

  /** The `obj_type` string of a game object. */
  datatype ObjKind = CubeObj | PlatformObj | CollectibleObj

  /** An integer RGB triple. */
  datatype Rgb = Rgb(r: int, g: int, b: int)

  const White: Rgb := Rgb(255, 255, 255)
  const Gray: Rgb := Rgb(100, 100, 100)
  const PlatformBlue: Rgb := Rgb(50, 50, 200)
  const Gold: Rgb := Rgb(255, 215, 0)

  /** Python's `int()` on a float: truncation toward zero. */
  function TruncToInt(v: real): (n: int)
    ensures v >= 0.0 ==> 0 <= n && n as real <= v < n as real + 1.0
    ensures v < 0.0 ==> n <= 0 && n as real - 1.0 < v <= n as real
  {
    if v >= 0.0 then v.Floor else -((-v).Floor)
  }

  /** A colour given as a sequence keeps its first three components, truncated; a shorter one falls back. */
  function NormalizeColor(c: seq<real>, fallback: Rgb): (r: Rgb)
    ensures |c| < 3 ==> r == fallback
    ensures |c| >= 3 ==> r == Rgb(TruncToInt(c[0]), TruncToInt(c[1]), TruncToInt(c[2]))
  {
    if |c| >= 3 then Rgb(TruncToInt(c[0]), TruncToInt(c[1]), TruncToInt(c[2])) else fallback
  }

  function RgbAsSeq(c: Rgb): seq<real>
  {
    [c.r as real, c.g as real, c.b as real]
  }

  /** `run` limits the frame time to at most 0.1 seconds. */
  function ClampDt(dt: real): (r: real)
    ensures r <= MaxFrameTime
    ensures r == dt || r == MaxFrameTime
    ensures dt <= MaxFrameTime ==> r == dt
  {
    Min(dt, MaxFrameTime)
  }

  // ---------------------------------------------------------------------------
  // The rules of GameObject.update as functions on the objects' mutable state
  // ---------------------------------------------------------------------------

  /** The state of one game object that `update` reads or writes. */
  datatype ObjView = ObjView(x: real, y: real, velocity: Vec2, active: bool, size: real, isStatic: bool, kind: ObjKind,
                             rotation: real, rotationSpeed: real)

  /** Two views of the same object: size, static flag, type and rotation speed never change. */
  predicate SameObject(a: ObjView, b: ObjView)
  {
    a.size == b.size && a.isStatic == b.isStatic && a.kind == b.kind && a.rotationSpeed == b.rotationSpeed
  }

  /** The object turned on by its rotation speed over `dt`. */
  function Spun(o: ObjView, dt: real): (r: ObjView)
    ensures r == o.(rotation := r.rotation)
    ensures r.rotation - o.rotation == o.rotationSpeed * dt
  {
    o.(rotation := o.rotation + o.rotationSpeed * dt)
  }

  /** Gravity (downwards is +y), friction on both axes, one Euler step, then the rotation advances. */
  function Fly(o: ObjView, dt: real): (r: ObjView)
    ensures r == o.(x := r.x, y := r.y, velocity := r.velocity, rotation := r.rotation)
    ensures r.velocity == Vec2(o.velocity.x * Friction, (o.velocity.y + Gravity * dt) * Friction)
    ensures r.x == o.x + r.velocity.x * dt && r.y == o.y + r.velocity.y * dt
    ensures r.rotation == o.rotation + o.rotationSpeed * dt
  {
    var v := Vec2(o.velocity.x * Friction, (o.velocity.y + Gravity * dt) * Friction);
    Spun(o.(x := o.x + v.x * dt, y := o.y + v.y * dt, velocity := v), dt)
  }

  /** The object after the screen-edge checks, and whether any edge was hit. */
  datatype Clamped = Clamped(view: ObjView, hit: bool)

  /** Clamp to the screen on each axis separately, reversing and damping the clamped axis's velocity. */
  function ScreenClamp(o: ObjView): (r: Clamped)
    ensures r.view == o.(x := r.view.x, y := r.view.y, velocity := r.view.velocity)
    ensures r.hit <==> o.x - o.size < 0.0 || o.x + o.size > ScreenWidth || o.y - o.size < 0.0 || o.y + o.size > ScreenHeight
  {
    var ax :=
      if o.x - o.size < 0.0 then o.(x := o.size, velocity := o.velocity.(x := -o.velocity.x * BounceFactor))
      else if o.x + o.size > ScreenWidth then o.(x := ScreenWidth - o.size, velocity := o.velocity.(x := -o.velocity.x * BounceFactor))
      else o;
    var hitX := o.x - o.size < 0.0 || o.x + o.size > ScreenWidth;
    var ay :=
      if ax.y - ax.size < 0.0 then ax.(y := ax.size, velocity := ax.velocity.(y := -ax.velocity.y * BounceFactor))
      else if ax.y + ax.size > ScreenHeight then ax.(y := ScreenHeight - ax.size, velocity := ax.velocity.(y := -ax.velocity.y * BounceFactor))
      else ax;
    var hitY := ax.y - ax.size < 0.0 || ax.y + ax.size > ScreenHeight;
    Clamped(ay, hitX || hitY)
  }

  /**
   * An object no wider than half the screen ends the edge checks inside the
   * screen; a clamped axis has its velocity negated and scaled by 0.7, an
   * unclamped one keeps its position and velocity.
   */
  lemma ScreenClampBounds(o: ObjView)
    requires 2.0 * o.size <= ScreenWidth && 2.0 * o.size <= ScreenHeight
    ensures var r := ScreenClamp(o).view;
      && o.size <= r.x <= ScreenWidth - o.size
      && o.size <= r.y <= ScreenHeight - o.size
      && r.velocity.x == (if o.x - o.size < 0.0 || o.x + o.size > ScreenWidth then -o.velocity.x * BounceFactor else o.velocity.x)
      && r.velocity.y == (if o.y - o.size < 0.0 || o.y + o.size > ScreenHeight then -o.velocity.y * BounceFactor else o.velocity.y)
      && (o.size <= o.x <= ScreenWidth - o.size ==> r.x == o.x)
      && (o.size <= o.y <= ScreenHeight - o.size ==> r.y == o.y)
  {
  }

  /** The random draws of one pair: the normal used when the centres coincide, and the two velocity kicks. */
  datatype PairDraw = PairDraw(normal: Vec2, selfNoise: Vec2, objNoise: Vec2)

  predicate NoNoise(d: PairDraw)
  {
    d.selfNoise == Vec2(0.0, 0.0) && d.objNoise == Vec2(0.0, 0.0)
  }

  /** The centres are closer than the sum of the sizes (sizes act as radii here). */
  predicate Overlapping(me: ObjView, other: ObjView)
  {
    WithinStrict(DistSq(Vec2(me.x, me.y), Vec2(other.x, other.y)), me.size + other.size)
  }

  function PairNormal(me: ObjView, other: ObjView, sqrt: real -> real, d: PairDraw): Vec2
  {
    var dx := me.x - other.x;
    var dy := me.y - other.y;
    var dist := sqrt(DistSq(Vec2(me.x, me.y), Vec2(other.x, other.y)));
    if dist > 0.0 then Vec2(dx / dist, dy / dist) else d.normal
  }

  function Penetration(me: ObjView, other: ObjView, sqrt: real -> real): real
  {
    me.size + other.size - sqrt(DistSq(Vec2(me.x, me.y), Vec2(other.x, other.y)))
  }

  /** With the true root, the squared overlap test holds exactly when the penetration is positive. */
  lemma OverlappingIffPenetrationPositive(me: ObjView, other: ObjView, sqrt: real -> real)
    requires var d2 := DistSq(Vec2(me.x, me.y), Vec2(other.x, other.y)); sqrt(d2) >= 0.0 && sqrt(d2) * sqrt(d2) == d2
    ensures Overlapping(me, other) <==> Penetration(me, other, sqrt) > 0.0
  {
    var d2 := DistSq(Vec2(me.x, me.y), Vec2(other.x, other.y));
    WithinStrictIsDistanceTest(sqrt(d2), d2, me.size + other.size);
  }

  /**
   * With the true root and a unit drawn normal, the pair normal has unit
   * length, and when the centres are apart it points from `other` towards `me`.
   */
  lemma PairNormalIsUnit(me: ObjView, other: ObjView, sqrt: real -> real, d: PairDraw)
    requires var d2 := DistSq(Vec2(me.x, me.y), Vec2(other.x, other.y)); sqrt(d2) >= 0.0 && sqrt(d2) * sqrt(d2) == d2
    requires d.normal.Dot(d.normal) == 1.0
    ensures PairNormal(me, other, sqrt, d).Dot(PairNormal(me, other, sqrt, d)) == 1.0
    ensures DistSq(Vec2(me.x, me.y), Vec2(other.x, other.y)) > 0.0 ==>
      PairNormal(me, other, sqrt, d).Dot(Vec2(me.x - other.x, me.y - other.y)) > 0.0
  {
    var dx, dy := me.x - other.x, me.y - other.y;
    var d2 := DistSq(Vec2(me.x, me.y), Vec2(other.x, other.y));
    var dist := sqrt(d2);
    if d2 > 0.0 {
      RootOfPositive(dist, d2);
    }
    if dist > 0.0 {
      ScaledToUnit(dx, dy, dist);
      UnitAlongOffset(dx, dy, dist);
    }
  }

  /** The outcome of one pair: both objects and whether it counts as a collision. */
  datatype PairOutcome = PairOutcome(me: ObjView, other: ObjView, hit: bool)

  /** Against a static object: push out by the penetration, reflect (damped) only when moving into it. */
  function StaticBounce(me: ObjView, n: Vec2, overlap: real): (r: ObjView)
    ensures r == me.(x := r.x, y := r.y, velocity := r.velocity)
    ensures r.x == me.x + n.x * overlap && r.y == me.y + n.y * overlap
    ensures me.velocity.Dot(n) >= 0.0 ==> r.velocity == me.velocity
  {
    var dot := me.velocity.x * n.x + me.velocity.y * n.y;
    var v := if dot < 0.0
      then Vec2(me.velocity.x - 2.0 * dot * n.x * BounceFactor, me.velocity.y - 2.0 * dot * n.y * BounceFactor)
      else me.velocity;
    me.(x := me.x + n.x * overlap, y := me.y + n.y * overlap, velocity := v)
  }

  /** With a unit normal, an approaching object leaves with normal speed -0.4 times the old one, tangential speed kept. */
  lemma StaticBounceReflects(me: ObjView, n: Vec2, overlap: real)
    requires n.x * n.x + n.y * n.y == 1.0
    requires me.velocity.Dot(n) < 0.0
    ensures StaticBounce(me, n, overlap).velocity.Dot(n) == (1.0 - 2.0 * BounceFactor) * me.velocity.Dot(n)
    ensures StaticBounce(me, n, overlap).velocity.Dot(Vec2(-n.y, n.x)) == me.velocity.Dot(Vec2(-n.y, n.x))
  {
    var dot := me.velocity.Dot(n);
    var k := 2.0 * dot * BounceFactor;
    var v := StaticBounce(me, n, overlap).velocity;
    assert v == Vec2(me.velocity.x - k * n.x, me.velocity.y - k * n.y);
    assert v.Dot(n) == dot - k * (n.x * n.x + n.y * n.y);
  }

  /** Area-like mass (size squared). */
  function AreaMass(o: ObjView): (m: real)
    requires o.size > 0.0
    ensures m > 0.0
  {
    Product(o.size, o.size)
  }

  function RelativeNormalSpeed(me: ObjView, other: ObjView, n: Vec2): real
  {
    (me.velocity.x - other.velocity.x) * n.x + (me.velocity.y - other.velocity.y) * n.y
  }

  function ImpulseScalar(velAlongNormal: real, m1: real, m2: real): real
    requires m1 > 0.0 && m2 > 0.0
  {
    -(1.0 + BounceFactor) * velAlongNormal / (1.0 / m1 + 1.0 / m2)
  }

  /** A velocity after receiving impulse `j` on mass `m`, plus noise. */
  function Kick(v: Vec2, j: Vec2, m: real, noise: Vec2): Vec2
    requires m > 0.0
  {
    Vec2(v.x + j.x / m + noise.x, v.y + j.y / m + noise.y)
  }

  /** Without noise, a kick adds exactly the impulse to the momentum `m * v`. */
  lemma KickMomentum(v: Vec2, j: Vec2, m: real)
    requires m > 0.0
    ensures m * Kick(v, j, m, Vec2(0.0, 0.0)).x == m * v.x + j.x
    ensures m * Kick(v, j, m, Vec2(0.0, 0.0)).y == m * v.y + j.y
  {
    var qx, qy := j.x / m, j.y / m;
    assert m * qx == j.x && m * qy == j.y;
    assert m * (v.x + qx) == m * v.x + m * qx;
    assert m * (v.y + qy) == m * v.y + m * qy;
  }

  /**
   * Two movable objects: split the penetration in inverse proportion to size;
   * if they already separate, stop there (`continue`: no impulse and no
   * collision flag), otherwise exchange an impulse with size-squared masses
   * and add the drawn noise.
   */
  function DynamicExchange(me: ObjView, other: ObjView, n: Vec2, overlap: real, d: PairDraw): (r: PairOutcome)
    requires me.size > 0.0 && other.size > 0.0
    ensures r.me == me.(x := r.me.x, y := r.me.y, velocity := r.me.velocity)
    ensures r.other == other.(x := r.other.x, y := r.other.y, velocity := r.other.velocity)
    ensures RelativeNormalSpeed(me, other, n) > 0.0 ==> !r.hit && r.me.velocity == me.velocity && r.other.velocity == other.velocity
    ensures RelativeNormalSpeed(me, other, n) <= 0.0 ==>
      var j := ImpulseScalar(RelativeNormalSpeed(me, other, n), AreaMass(me), AreaMass(other));
      && r.hit
      && r.me.velocity == Kick(me.velocity, n.Scale(j), AreaMass(me), d.selfNoise)
      && r.other.velocity == Kick(other.velocity, n.Scale(-j), AreaMass(other), d.objNoise)
  {
    var total := me.size + other.size;
    var selfWeight := other.size / total;
    var objWeight := me.size / total;
    var me1 := me.(x := me.x + n.x * overlap * selfWeight, y := me.y + n.y * overlap * selfWeight);
    var other1 := other.(x := other.x - n.x * overlap * objWeight, y := other.y - n.y * overlap * objWeight);
    var velAlongNormal := RelativeNormalSpeed(me, other, n);
    if velAlongNormal > 0.0 then PairOutcome(me1, other1, false)
    else
      var m1 := AreaMass(me);
      var m2 := AreaMass(other);
      var impulse := ImpulseScalar(velAlongNormal, m1, m2);
      PairOutcome(
        me1.(velocity := Kick(me.velocity, n.Scale(impulse), m1, d.selfNoise)),
        other1.(velocity := Kick(other.velocity, n.Scale(-impulse), m2, d.objNoise)),
        true)
  }

  /** With no noise, size-squared momentum is the same before and after a dynamic exchange. */
  lemma DynamicExchangeMomentum(me: ObjView, other: ObjView, n: Vec2, overlap: real, d: PairDraw)
    requires me.size > 0.0 && other.size > 0.0 && NoNoise(d)
    ensures var r := DynamicExchange(me, other, n, overlap, d);
      MomentumKept(AreaMass(me), AreaMass(other), me.velocity, other.velocity, r.me.velocity, r.other.velocity)
  {
    if RelativeNormalSpeed(me, other, n) <= 0.0 {
      ApproachingExchangeKeepsMomentum(me, other, n, overlap, d);
    }
  }

  /** The impulse case of `DynamicExchangeMomentum`: the two kicks cancel. */
  lemma ApproachingExchangeKeepsMomentum(me: ObjView, other: ObjView, n: Vec2, overlap: real, d: PairDraw)
    requires me.size > 0.0 && other.size > 0.0 && NoNoise(d)
    requires RelativeNormalSpeed(me, other, n) <= 0.0
    ensures var r := DynamicExchange(me, other, n, overlap, d);
      MomentumKept(AreaMass(me), AreaMass(other), me.velocity, other.velocity, r.me.velocity, r.other.velocity)
  {
    var r := DynamicExchange(me, other, n, overlap, d);
    var j := ImpulseScalar(RelativeNormalSpeed(me, other, n), AreaMass(me), AreaMass(other));
    OpposedKicksKeepMomentum(me.velocity, other.velocity, r.me.velocity, r.other.velocity, n.Scale(j), n.Scale(-j), AreaMass(me), AreaMass(other));
  }

  /** Two noiseless kicks by opposite impulses leave the total momentum unchanged. */
  lemma OpposedKicksKeepMomentum(v1: Vec2, v2: Vec2, w1: Vec2, w2: Vec2, j1: Vec2, j2: Vec2, m1: real, m2: real)
    requires m1 > 0.0 && m2 > 0.0 && j2.x == -j1.x && j2.y == -j1.y
    requires w1 == Kick(v1, j1, m1, Vec2(0.0, 0.0)) && w2 == Kick(v2, j2, m2, Vec2(0.0, 0.0))
    ensures MomentumKept(m1, m2, v1, v2, w1, w2)
  {
    KickMomentum(v1, j1, m1);
    KickMomentum(v2, j2, m2);
  }

  /**
   * A separating pair has already been pushed apart when the impulse is
   * skipped: the centres move apart by exactly the penetration along the normal.
   */
  lemma SeparatingPairIsStillSplit(me: ObjView, other: ObjView, n: Vec2, overlap: real, d: PairDraw)
    requires me.size > 0.0 && other.size > 0.0
    requires RelativeNormalSpeed(me, other, n) > 0.0
    ensures var r := DynamicExchange(me, other, n, overlap, d);
      && !r.hit
      && r.me.x - r.other.x == me.x - other.x + n.x * overlap
      && r.me.y - r.other.y == me.y - other.y + n.y * overlap
  {
    var total := me.size + other.size;
    var sw, ow := other.size / total, me.size / total;
    assert sw + ow == 1.0;
    assert n.x * overlap * sw + n.x * overlap * ow == n.x * overlap * (sw + ow);
    assert n.y * overlap * sw + n.y * overlap * ow == n.y * overlap * (sw + ow);
  }

  /** One partner of the object loop of `update` (main.py:152-237). */
  function Interact(me: ObjView, other: ObjView, sqrt: real -> real, d: PairDraw): (r: PairOutcome)
    requires me.size > 0.0 && other.size > 0.0
    ensures r.me == me.(x := r.me.x, y := r.me.y, velocity := r.me.velocity)
    ensures r.other == other.(x := r.other.x, y := r.other.y, velocity := r.other.velocity, active := r.other.active)
    ensures !Overlapping(me, other) ==> r == PairOutcome(me, other, false)
    ensures other.isStatic ==> r.other == other
    ensures other.isStatic && Overlapping(me, other) ==>
      r.hit && r.me == StaticBounce(me, PairNormal(me, other, sqrt, d), Penetration(me, other, sqrt))
    ensures !other.isStatic && other.kind == CollectibleObj && me.kind == CubeObj && Overlapping(me, other) ==>
      r == PairOutcome(me, other.(active := false), true)
    ensures Overlapping(me, other) && !other.isStatic && !(other.kind == CollectibleObj && me.kind == CubeObj) ==>
      r == if me.isStatic then PairOutcome(me, other, false)
           else DynamicExchange(me, other, PairNormal(me, other, sqrt, d), Penetration(me, other, sqrt), d)
  {
    if !Overlapping(me, other) then PairOutcome(me, other, false)
    else
      var n := PairNormal(me, other, sqrt, d);
      var overlap := Penetration(me, other, sqrt);
      if other.isStatic then PairOutcome(StaticBounce(me, n, overlap), other, true)
      else if other.kind == CollectibleObj && me.kind == CubeObj then PairOutcome(me, other.(active := false), true)
      else if !me.isStatic then DynamicExchange(me, other, n, overlap, d)
      else PairOutcome(me, other, false)
  }

  predicate PositiveViews(vs: seq<ObjView>)
  {
    forall j :: 0 <= j < |vs| ==> vs[j].size > 0.0
  }

  /** The outcome of the whole partner loop: the mover, every partner and the collision flag. */
  datatype PassResult = PassResult(me: ObjView, others: seq<ObjView>, hit: bool)

  /**
   * The partner loop from position `k` on. `isSelf[j]` marks the mover's own
   * entry, which is skipped like an inactive one; `draw(j)` is the draw of
   * the pair with entry `j`.
   */
  function PassFrom(me: ObjView, others: seq<ObjView>, isSelf: seq<bool>, k: int, sqrt: real -> real, draw: int -> PairDraw, hit: bool): (r: PassResult)
    requires |isSelf| == |others| && 0 <= k <= |others|
    requires me.size > 0.0 && PositiveViews(others)
    ensures |r.others| == |others| && PositiveViews(r.others)
    ensures SameObject(r.me, me) && r.me.active == me.active && r.me.rotation == me.rotation
    ensures forall j :: 0 <= j < |others| ==> SameObject(r.others[j], others[j]) && r.others[j].rotation == others[j].rotation
    decreases |others| - k
  {
    if k == |others| then PassResult(me, others, hit)
    else if isSelf[k] || !others[k].active then PassFrom(me, others, isSelf, k + 1, sqrt, draw, hit)
    else
      var o := Interact(me, others[k], sqrt, draw(k));
      PassFrom(o.me, others[k := o.other], isSelf, k + 1, sqrt, draw, hit || o.hit)
  }

  /** A static partner leaves the partner loop exactly as it entered it. */
  lemma {:induction false} PassKeepsStatic(me: ObjView, others: seq<ObjView>, isSelf: seq<bool>, k: int, sqrt: real -> real, draw: int -> PairDraw, hit: bool, j: int)
    requires |isSelf| == |others| && 0 <= k <= |others|
    requires me.size > 0.0 && PositiveViews(others)
    requires 0 <= j < |others| && others[j].isStatic
    ensures PassFrom(me, others, isSelf, k, sqrt, draw, hit).others[j] == others[j]
    decreases |others| - k
  {
    if k < |others| {
      if isSelf[k] || !others[k].active {
        PassKeepsStatic(me, others, isSelf, k + 1, sqrt, draw, hit, j);
      } else {
        var o := Interact(me, others[k], sqrt, draw(k));
        assert others[k := o.other][j] == others[j];
        PassKeepsStatic(o.me, others[k := o.other], isSelf, k + 1, sqrt, draw, hit || o.hit, j);
      }
    }
  }

  /** Only collectibles are ever deactivated by the partner loop. */
  lemma {:induction false} PassDeactivatesOnlyCoins(me: ObjView, others: seq<ObjView>, isSelf: seq<bool>, k: int, sqrt: real -> real, draw: int -> PairDraw, hit: bool, j: int)
    requires |isSelf| == |others| && 0 <= k <= |others|
    requires me.size > 0.0 && PositiveViews(others)
    requires 0 <= j < |others| && others[j].kind != CollectibleObj
    ensures PassFrom(me, others, isSelf, k, sqrt, draw, hit).others[j].active == others[j].active
    decreases |others| - k
  {
    if k < |others| {
      if isSelf[k] || !others[k].active {
        PassDeactivatesOnlyCoins(me, others, isSelf, k + 1, sqrt, draw, hit, j);
      } else {
        var o := Interact(me, others[k], sqrt, draw(k));
        assert others[k := o.other][j].active == others[j].active;
        PassDeactivatesOnlyCoins(o.me, others[k := o.other], isSelf, k + 1, sqrt, draw, hit || o.hit, j);
      }
    }
  }

  // ---------------------------------------------------------------------------
  // Particles
  // ---------------------------------------------------------------------------

  /** The random draws of one particle: size and life (integers), velocity from a random angle and speed. */
  datatype ParticleDraw = ParticleDraw(size: int, life: int, vx: real, vy: real)

  /** `random.randint(2, 5)` for the size and `random.randint(15, 45)` for the life. */
  predicate InRange(d: ParticleDraw)
  {
    2 <= d.size <= 5 && 15 <= d.life <= 45
  }

  /** A particle's size after a frame: proportional to the remaining life, never negative. */
  function ShrunkSize(size: real, life: int, maxLife: int): (r: real)
    requires maxLife > 0
    ensures r >= 0.0
    ensures 0.0 <= size && 0 <= life <= maxLife ==> r <= size
    ensures life <= 0 && size >= 0.0 ==> r == 0.0
  {
    var k := life as real / maxLife as real;
    assert 0 <= life <= maxLife ==> 0.0 <= k <= 1.0;
    assert 0.0 <= size && 0.0 <= k <= 1.0 ==> size * k <= size;
    assert life <= 0 && size >= 0.0 ==> size * k <= 0.0;
    Max(0.0, size * k)
  }

  /** The fields of a particle that `update` reads and writes. */
  datatype ParticleState = ParticleState(x: real, y: real, vx: real, vy: real, size: real, life: int)

  /** The bounds of `Particle.Valid`, stated on a saved state. */
  predicate ValidState(s: ParticleState, maxLife: int)
  {
    maxLife > 0 && s.life <= maxLife && s.size >= 0.0
  }

  class Particle {
    var x: real
    var y: real
    var vx: real
    var vy: real
    const color: Rgb
    var size: real
    var life: int
    const maxLife: int

    /** The life starts at the maximum and only counts down; the size is never negative. */
    ghost predicate Valid()
      reads this
    {
      maxLife > 0 && life <= maxLife && size >= 0.0
    }

    constructor(x: real, y: real, color: seq<real>, d: ParticleDraw)
      requires InRange(d)
      ensures Valid()
      ensures this.x == x && this.y == y && vx == d.vx && vy == d.vy
      ensures this.color == NormalizeColor(color, White)
      ensures size == d.size as real && life == d.life && maxLife == d.life
    {
      this.x := x;
      this.y := y;
      this.color := NormalizeColor(color, White);
      size := d.size as real;
      life := d.life;
      maxLife := d.life;
      vx := d.vx;
      vy := d.vy;
    }

    function State(): ParticleState
      reads this
    {
      ParticleState(x, y, vx, vy, size, life)
    }

    /** Moves by the velocity, falls a little, loses one unit of life and shrinks; true while life remains. */
    method Update() returns (alive: bool)
      requires Valid()
      modifies this
      ensures Valid()
      ensures x == old(x) + old(vx) && y == old(y) + old(vy)
      ensures vx == old(vx) && vy == old(vy) + ParticleGravity
      ensures life == old(life) - 1 && size == ShrunkSize(old(size), life, maxLife)
      ensures alive <==> life > 0
    {
      x := x + vx;
      y := y + vy;
      vy := vy + ParticleGravity;
      life := life - 1;
      size := ShrunkSize(size, life, maxLife);
      alive := life > 0;
    }
  }

  /** The particles of `ps` whose life is still positive, in order. */
  ghost function Survivors(ps: seq<Particle>): (r: seq<Particle>)
    reads set p | p in ps
    ensures |r| <= |ps|
    ensures forall p :: p in r ==> p in ps && p.life > 0
  {
    if |ps| == 0 then []
    else Survivors(ps[..|ps| - 1]) + (if ps[|ps| - 1].life > 0 then [ps[|ps| - 1]] else [])
  }

  /** Every particle of `ps` that is still alive appears in `Survivors(ps)`. */
  lemma {:induction false} SurvivorsKeepsLiving(ps: seq<Particle>, p: Particle)
    requires p in ps && p.life > 0
    ensures p in Survivors(ps)
  {
    var n := |ps|;
    if ps[n - 1] != p {
      assert p in ps[..n - 1];
      SurvivorsKeepsLiving(ps[..n - 1], p);
    }
  }

  /** The views of a list whose every object shows the view it had in `vs`. */
  lemma UnchangedViews(objects: seq<GameObject>, vs: seq<ObjView>)
    requires |vs| == |objects| && forall j :: 0 <= j < |objects| ==> objects[j].View() == vs[j]
    ensures Views(objects) == vs
  {
  }

  /** Objects none of whose fields changed show the views they showed before. */
  twostate lemma ViewsFramed(objects: seq<GameObject>)
    requires unchanged(objects)
    ensures Views(objects) == old(Views(objects))
  {
    forall j | 0 <= j < |objects|
      ensures objects[j].View() == old(Views(objects))[j]
    {
      assert unchanged(objects[j]);
    }
    UnchangedViews(objects, old(Views(objects)));
  }

  /** After the whole object loop, a static object shows its old view and a non-collectible its old active flag. */
  lemma StaticViewsKept(objects: seq<GameObject>, start: seq<ObjView>, dt: real, sqrt: real -> real, draw: int -> int -> PairDraw)
    requires |start| == |objects| && PositiveViews(start)
    requires Views(objects) == ObjectsPass(start, |objects|, dt, sqrt, draw).views
    ensures forall j :: 0 <= j < |objects| && start[j].isStatic ==> objects[j].View() == start[j]
    ensures forall j :: 0 <= j < |objects| && start[j].kind != CollectibleObj ==> objects[j].active == start[j].active
  {
    forall j | 0 <= j < |objects|
      ensures start[j].isStatic ==> objects[j].View() == start[j]
      ensures start[j].kind != CollectibleObj ==> objects[j].active == start[j].active
    {
      ObjectsPassKeepsStatic(start, |objects|, dt, sqrt, draw, j);
    }
  }

  /** When every particle of `born` is new, every particle of `p0 + born` is one of `p0` or new. */
  twostate lemma OldOrFresh(p0: seq<Particle>, new born: seq<Particle>)
    requires forall p :: p in born ==> fresh(p)
    ensures forall j :: 0 <= j < |p0 + born| ==> (p0 + born)[j] in p0 || fresh((p0 + born)[j])
  {
    forall j | 0 <= j < |p0 + born|
      ensures (p0 + born)[j] in p0 || fresh((p0 + born)[j])
    {
      if j < |p0| {
        assert (p0 + born)[j] == p0[j] && p0[j] in p0;
      } else {
        assert (p0 + born)[j] == born[j - |p0|] && born[j - |p0|] in born;
      }
    }
  }

  /** Appending in two steps is appending once. */
  lemma AppendAssociates<T>(a: seq<T>, b: seq<T>, c: seq<T>)
    ensures (a + b) + c == a + (b + c)
  {
  }

  predicate Distinct<T(==)>(s: seq<T>)
  {
    forall i, j :: 0 <= i < j < |s| ==> s[i] != s[j]
  }

  // ---------------------------------------------------------------------------
  // Game objects
  // ---------------------------------------------------------------------------

  class GameObject {
    var x: real
    var y: real
    const size: real
    const color: Rgb
    var velocity: Vec2
    const isStatic: bool
    const kind: ObjKind
    var active: bool
    var rotation: real
    const rotationSpeed: real

    /** An object at rest, active, unrotated; a cube spins at the drawn speed, anything else at 90. */
    constructor(x: real, y: real, size: real, color: seq<real>, isStatic: bool, kind: ObjKind, spin: real)
      ensures this.x == x && this.y == y && this.size == size && this.isStatic == isStatic && this.kind == kind
      ensures this.color == NormalizeColor(color, Gray)
      ensures velocity == Vec2(0.0, 0.0) && active && rotation == 0.0
      ensures rotationSpeed == if kind == CubeObj then spin else 90.0
    {
      this.x := x;
      this.y := y;
      this.size := size;
      this.color := NormalizeColor(color, Gray);
      velocity := Vec2(0.0, 0.0);
      this.isStatic := isStatic;
      this.kind := kind;
      active := true;
      rotation := 0.0;
      rotationSpeed := if kind == CubeObj then spin else 90.0;
    }

    function View(): ObjView
      reads this
    {
      ObjView(x, y, velocity, active, size, isStatic, kind, rotation, rotationSpeed)
    }

    ghost function SelfMask(objects: seq<GameObject>): (m: seq<bool>)
      ensures |m| == |objects| && forall j :: 0 <= j < |objects| ==> (m[j] <==> objects[j] == this)
    {
      seq(|objects|, j requires 0 <= j < |objects| => objects[j] == this)
    }

    /**
     * One frame of this object against `objects`. Inactive and static
     * objects do nothing; a collectible only spins; anything else falls,
     * spins, is clamped to the screen and then meets every other active
     * object in list order. The result says whether any collision happened.
     */
    method Update(dt: real, objects: seq<GameObject>, sqrt: real -> real, draw: int -> PairDraw) returns (collision: bool)
      requires size > 0.0 && Distinct(objects)
      requires forall o :: o in objects ==> o.size > 0.0
      modifies this, objects
      ensures !old(active) || isStatic ==> !collision && unchanged(this) && unchanged(objects)
      ensures old(active) && !isStatic && kind == CollectibleObj ==>
        && !collision && View() == Spun(old(View()), dt) && rotation == old(rotation) + rotationSpeed * dt
        && (forall o :: o in objects && o != this ==> unchanged(o))
      ensures old(active) && !isStatic && kind != CollectibleObj ==>
        var c := ScreenClamp(Fly(old(View()), dt));
        var r := PassFrom(c.view, old(PartnerViews(objects, this)), SelfMask(objects), 0, sqrt, draw, c.hit);
        && View() == r.me && collision == r.hit
        && rotation == old(rotation) + rotationSpeed * dt
        && forall j :: 0 <= j < |objects| && objects[j] != this ==> objects[j].View() == r.others[j]
      ensures forall o :: o in objects && o != this ==> o.rotation == old(o.rotation)
      ensures forall o :: o in objects && o.isStatic ==> o.View() == old(o.View())
      ensures forall o :: o in objects && o.kind != CollectibleObj ==> o.active == old(o.active)
    {
      if !active || isStatic {
        return false;
      }
      if kind == CollectibleObj {
        rotation := rotation + rotationSpeed * dt;
        return false;
      }
      collision := Travel(dt, objects, sqrt, draw);
    }

    /** The moving case of `update`: fly and spin, clamp to the screen, then meet the partners. */
    method Travel(dt: real, objects: seq<GameObject>, sqrt: real -> real, draw: int -> PairDraw) returns (collision: bool)
      requires size > 0.0 && Distinct(objects)
      requires forall o :: o in objects ==> o.size > 0.0
      modifies this, objects
      ensures var c := ScreenClamp(Fly(old(View()), dt));
        var r := PassFrom(c.view, old(PartnerViews(objects, this)), SelfMask(objects), 0, sqrt, draw, c.hit);
        && View() == r.me && collision == r.hit
        && rotation == old(rotation) + rotationSpeed * dt
        && forall j :: 0 <= j < |objects| && objects[j] != this ==> objects[j].View() == r.others[j]
      ensures forall o :: o in objects && o != this ==> o.rotation == old(o.rotation)
      ensures forall o :: o in objects && o != this && o.isStatic ==> o.View() == old(o.View())
      ensures forall o :: o in objects && o.kind != CollectibleObj ==> o.active == old(o.active)
    {
      ghost var partners := PartnerViews(objects, this);
      var hit := Launch(dt);
      assert PartnerViews(objects, this) == partners;
      ghost var c := View();
      assert c == ScreenClamp(Fly(old(View()), dt)).view && c.rotation == old(rotation) + rotationSpeed * dt;
      collision := MeetObjects(objects, sqrt, draw, hit);
      ghost var r := PassFrom(c, partners, SelfMask(objects), 0, sqrt, draw, hit);
      assert View() == r.me && rotation == r.me.rotation == c.rotation;
      UpdateFacts(objects, partners, c, SelfMask(objects), sqrt, draw, hit);
    }

    /** Fly and spin, then the screen-edge checks; the result says whether an edge was hit. */
    method Launch(dt: real) returns (hit: bool)
      modifies this
      ensures var c := ScreenClamp(Fly(old(View()), dt));
        View() == c.view && hit == c.hit
    {
      var flown := Fly(View(), dt);
      x, y, velocity, rotation := flown.x, flown.y, flown.velocity, flown.rotation;
      var clamped := ScreenClamp(View());
      x, y, velocity := clamped.view.x, clamped.view.y, clamped.view.velocity;
      hit := clamped.hit;
    }

    /**
     * The partner loop of `update`: every other active object, in list
     * order, meets this one; `hit` is the collision flag so far.
     */
    method MeetObjects(objects: seq<GameObject>, sqrt: real -> real, draw: int -> PairDraw, hit: bool) returns (collision: bool)
      requires size > 0.0 && Distinct(objects)
      requires forall o :: o in objects ==> o.size > 0.0
      modifies this, objects
      ensures var r := PassFrom(old(View()), old(PartnerViews(objects, this)), SelfMask(objects), 0, sqrt, draw, hit);
        && View() == r.me && collision == r.hit
        && forall j :: 0 <= j < |objects| && objects[j] != this ==> objects[j].View() == r.others[j]
      ensures rotation == old(rotation)
      ensures forall o :: o in objects ==> o.rotation == old(o.rotation)
    {
      ghost var mask := SelfMask(objects);
      ghost var start := PartnerViews(objects, this);
      ghost var others := start;
      collision := hit;
      var k := 0;
      while k < |objects|
        invariant 0 <= k <= |objects| && |others| == |objects|
        invariant PositiveViews(others) && View().size == size
        invariant forall j :: 0 <= j < |objects| && objects[j] != this ==> objects[j].View() == others[j]
        invariant PassFrom(View(), others, mask, k, sqrt, draw, collision) == PassFrom(old(View()), start, mask, 0, sqrt, draw, hit)
        invariant rotation == old(rotation)
      {
        collision, others := MeetStep(objects, k, sqrt, draw, collision, mask, others);
        k := k + 1;
      }
    }

    /**
     * Step `k` of the partner loop: `objects[k]` meets this object unless it
     * is this object or inactive; the pass from step `k + 1` on then ends
     * where the pass from step `k` would have.
     */
    method MeetStep(objects: seq<GameObject>, k: int, sqrt: real -> real, draw: int -> PairDraw, hit: bool,
                    ghost mask: seq<bool>, ghost others: seq<ObjView>)
      returns (collision: bool, ghost others': seq<ObjView>)
      requires size > 0.0 && Distinct(objects) && 0 <= k < |objects|
      requires |others| == |objects| && PositiveViews(others)
      requires |mask| == |objects| && forall j :: 0 <= j < |objects| ==> (mask[j] <==> objects[j] == this)
      requires forall j :: 0 <= j < |objects| && objects[j] != this ==> objects[j].View() == others[j]
      modifies this, objects
      ensures |others'| == |objects| && PositiveViews(others') && View().size == size
      ensures forall j :: 0 <= j < |objects| && objects[j] != this ==> objects[j].View() == others'[j]
      ensures PassFrom(View(), others', mask, k + 1, sqrt, draw, collision) == PassFrom(old(View()), others, mask, k, sqrt, draw, hit)
      ensures rotation == old(rotation)
    {
      var obj := objects[k];
      collision, others' := hit, others;
      if obj != this && obj.active {
        assert obj.View() == others[k] && !mask[k];
        ghost var o := Interact(View(), obj.View(), sqrt, draw(k));
        var h := Meet(obj, sqrt, draw(k));
        collision := hit || h;
        others' := others[k := o.other];
        assert forall j :: 0 <= j < |objects| && j != k ==> objects[j] != obj;
      } else {
        assert mask[k] || !others[k].active;
      }
    }
    /** One pair of the partner loop: both objects take the outcome of `Interact`. */
    method Meet(obj: GameObject, sqrt: real -> real, d: PairDraw) returns (hit: bool)
      requires obj != this && size > 0.0 && obj.size > 0.0
      modifies this, obj
      ensures var o := Interact(old(View()), old(obj.View()), sqrt, d);
        View() == o.me && obj.View() == o.other && hit == o.hit
      ensures rotation == old(rotation)
    {
      var o := Interact(View(), obj.View(), sqrt, d);
      x, y, velocity := o.me.x, o.me.y, o.me.velocity;
      obj.x, obj.y, obj.velocity, obj.active := o.other.x, o.other.y, o.other.velocity, o.other.active;
      hit := o.hit;
    }
  }

  /** The statements about static and non-collectible partners that `Update` promises, from the pass lemmas. */
  lemma UpdateFacts(objects: seq<GameObject>, start: seq<ObjView>, me: ObjView, mask: seq<bool>, sqrt: real -> real, draw: int -> PairDraw, hit: bool)
    requires |start| == |objects| == |mask| && me.size > 0.0 && PositiveViews(start)
    ensures var r := PassFrom(me, start, mask, 0, sqrt, draw, hit);
      && (forall j :: 0 <= j < |objects| && start[j].isStatic ==> r.others[j] == start[j])
      && (forall j :: 0 <= j < |objects| && start[j].kind != CollectibleObj ==> r.others[j].active == start[j].active)
  {
    forall j | 0 <= j < |objects| && start[j].isStatic
      ensures PassFrom(me, start, mask, 0, sqrt, draw, hit).others[j] == start[j]
    {
      PassKeepsStatic(me, start, mask, 0, sqrt, draw, hit, j);
    }
    forall j | 0 <= j < |objects| && start[j].kind != CollectibleObj
      ensures PassFrom(me, start, mask, 0, sqrt, draw, hit).others[j].active == start[j].active
    {
      PassDeactivatesOnlyCoins(me, start, mask, 0, sqrt, draw, hit, j);
    }
  }

  /**
   * The views of the partners of `me` in `objects`, in order; the entries of
   * `me` itself, which the loop skips, hold a fixed placeholder.
   */
  ghost function PartnerViews(objects: seq<GameObject>, me: GameObject): (r: seq<ObjView>)
    reads set o | o in objects
    ensures |r| == |objects|
    ensures forall j :: 0 <= j < |objects| ==>
      r[j] == if objects[j] == me then ObjView(0.0, 0.0, Vec2(0.0, 0.0), false, me.size, me.isStatic, me.kind, 0.0, me.rotationSpeed) else objects[j].View()
  {
    if |objects| == 0 then []
    else
      var last := objects[|objects| - 1];
      PartnerViews(objects[..|objects| - 1], me)
      + [if last == me then ObjView(0.0, 0.0, Vec2(0.0, 0.0), false, me.size, me.isStatic, me.kind, 0.0, me.rotationSpeed) else last.View()]
  }

  /** The views of `objects`, in list order. */
  ghost function Views(objects: seq<GameObject>): (r: seq<ObjView>)
    reads set o | o in objects
    ensures |r| == |objects| && forall j :: 0 <= j < |objects| ==> r[j] == objects[j].View()
  {
    if |objects| == 0 then [] else Views(objects[..|objects| - 1]) + [objects[|objects| - 1].View()]
  }

  /** What the partner loop holds in place of the mover's own entry, which it skips. */
  function SelfEntry(me: ObjView): ObjView
  {
    ObjView(0.0, 0.0, Vec2(0.0, 0.0), false, me.size, me.isStatic, me.kind, 0.0, me.rotationSpeed)
  }

  /** Marks entry `i` of `n` as the mover's own. */
  function OwnEntry(n: nat, i: int): (m: seq<bool>)
    ensures |m| == n && forall j :: 0 <= j < n ==> (m[j] <==> j == i)
  {
    seq(n, j => j == i)
  }

  /** The views after one object's update, and its collision flag. */
  datatype Turn = Turn(views: seq<ObjView>, hit: bool)

  /**
   * `obj.update(dt, self.objects)` for the object at `i`, on the views of
   * the whole list. An inactive or static object changes no view, an active
   * collectible only spins, and neither reports a collision; any other object
   * flies and spins, is clamped to the screen and then meets its partners in
   * list order. Only the object taking its turn ever turns.
   */
  function ObjectTurn(vs: seq<ObjView>, i: int, dt: real, sqrt: real -> real, draw: int -> PairDraw): (r: Turn)
    requires 0 <= i < |vs| && PositiveViews(vs)
    ensures |r.views| == |vs| && PositiveViews(r.views)
    ensures forall j :: 0 <= j < |vs| ==> SameObject(r.views[j], vs[j])
    ensures forall j :: 0 <= j < |vs| && j != i ==> r.views[j].rotation == vs[j].rotation
    ensures r.views[i].rotation == if vs[i].active && !vs[i].isStatic then vs[i].rotation + vs[i].rotationSpeed * dt else vs[i].rotation
    ensures r.hit ==> vs[i].active && !vs[i].isStatic && vs[i].kind != CollectibleObj
    ensures !vs[i].active || vs[i].isStatic ==> r == Turn(vs, false)
    ensures vs[i].active && !vs[i].isStatic && vs[i].kind == CollectibleObj ==> r == Turn(vs[i := Spun(vs[i], dt)], false)
  {
    var me := vs[i];
    if !me.active || me.isStatic then Turn(vs, false)
    else if me.kind == CollectibleObj then Turn(vs[i := Spun(me, dt)], false)
    else
      var c := ScreenClamp(Fly(me, dt));
      var p := PassFrom(c.view, vs[i := SelfEntry(me)], OwnEntry(|vs|, i), 0, sqrt, draw, c.hit);
      Turn(p.others[i := p.me], p.hit)
  }

  /** The partner loop's list is the list of views with the mover's own entry blanked. */
  lemma PartnersOfEntry(objects: seq<GameObject>, i: int)
    requires Distinct(objects) && 0 <= i < |objects|
    ensures PartnerViews(objects, objects[i]) == Views(objects)[i := SelfEntry(objects[i].View())]
  {
    var p := PartnerViews(objects, objects[i]);
    var v := Views(objects)[i := SelfEntry(objects[i].View())];
    forall j | 0 <= j < |objects|
      ensures p[j] == v[j]
    {
      assert j != i ==> objects[j] != objects[i];
    }
  }

  /** The partner loop's mask marks the mover's own entry and no other. */
  lemma MaskOfEntry(objects: seq<GameObject>, i: int)
    requires Distinct(objects) && 0 <= i < |objects|
    ensures objects[i].SelfMask(objects) == OwnEntry(|objects|, i)
  {
    var m := objects[i].SelfMask(objects);
    forall j | 0 <= j < |objects|
      ensures m[j] == OwnEntry(|objects|, i)[j]
    {
      assert j != i ==> objects[j] != objects[i];
    }
  }

  /** The views of a list whose entry `i` shows `me` and whose other objects show `others`. */
  lemma ViewsAround(objects: seq<GameObject>, i: int, me: ObjView, others: seq<ObjView>)
    requires Distinct(objects) && 0 <= i < |objects| && |others| == |objects|
    requires objects[i].View() == me
    requires forall j :: 0 <= j < |objects| && objects[j] != objects[i] ==> objects[j].View() == others[j]
    ensures Views(objects) == others[i := me]
  {
    assert forall j :: 0 <= j < |objects| && j != i ==> objects[j] != objects[i];
  }

  /**
   * A moving object's turn, read off the partner loop: the list after the
   * turn holds the loop's partners, with the mover's own result in its place.
   */
  lemma MoverTurn(vs: seq<ObjView>, i: int, dt: real, sqrt: real -> real, draw: int -> PairDraw, post: seq<ObjView>)
    requires 0 <= i < |vs| && PositiveViews(vs)
    requires vs[i].active && !vs[i].isStatic && vs[i].kind != CollectibleObj
    requires |post| == |vs|
    requires var c := ScreenClamp(Fly(vs[i], dt));
      var p := PassFrom(c.view, vs[i := SelfEntry(vs[i])], OwnEntry(|vs|, i), 0, sqrt, draw, c.hit);
      post[i] == p.me && forall j :: 0 <= j < |vs| && j != i ==> post[j] == p.others[j]
    ensures var c := ScreenClamp(Fly(vs[i], dt));
      var p := PassFrom(c.view, vs[i := SelfEntry(vs[i])], OwnEntry(|vs|, i), 0, sqrt, draw, c.hit);
      ObjectTurn(vs, i, dt, sqrt, draw) == Turn(post, p.hit)
  {
    var c := ScreenClamp(Fly(vs[i], dt));
    var p := PassFrom(c.view, vs[i := SelfEntry(vs[i])], OwnEntry(|vs|, i), 0, sqrt, draw, c.hit);
    assert post == p.others[i := p.me];
  }

  /** One object's update never moves a static object and deactivates nothing but collectibles. */
  lemma ObjectTurnKeepsStatic(vs: seq<ObjView>, i: int, dt: real, sqrt: real -> real, draw: int -> PairDraw, j: int)
    requires 0 <= i < |vs| && PositiveViews(vs) && 0 <= j < |vs|
    ensures vs[j].isStatic ==> ObjectTurn(vs, i, dt, sqrt, draw).views[j] == vs[j]
    ensures vs[j].kind != CollectibleObj ==> ObjectTurn(vs, i, dt, sqrt, draw).views[j].active == vs[j].active
  {
    var me := vs[i];
    if me.active && !me.isStatic && me.kind != CollectibleObj && j != i {
      var c := ScreenClamp(Fly(me, dt));
      var others := vs[i := SelfEntry(me)];
      if vs[j].isStatic {
        PassKeepsStatic(c.view, others, OwnEntry(|vs|, i), 0, sqrt, draw, c.hit, j);
      }
      if vs[j].kind != CollectibleObj {
        PassDeactivatesOnlyCoins(c.view, others, OwnEntry(|vs|, i), 0, sqrt, draw, c.hit, j);
      }
    }
  }

  /** The views after the object loop over the first `n` objects, and how many of them burst particles. */
  datatype ObjectsResult = ObjectsResult(views: seq<ObjView>, bursts: nat, births: seq<Birth>)

  /**
   * The object loop of `update` over the first `n` objects: each object
   * updates against the views the earlier turns left, and a non-static one
   * that reports a collision counts as one burst.
   */
  function ObjectsPass(vs: seq<ObjView>, n: int, dt: real, sqrt: real -> real, draw: int -> int -> PairDraw): (r: ObjectsResult)
    requires 0 <= n <= |vs| && PositiveViews(vs)
    ensures |r.views| == |vs| && PositiveViews(r.views) && r.bursts <= n
    ensures forall j :: 0 <= j < |vs| ==> SameObject(r.views[j], vs[j])
  {
    if n == 0 then ObjectsResult(vs, 0, [])
    else NextPass(ObjectsPass(vs, n - 1, dt, sqrt, draw), n - 1, dt, sqrt, draw)
  }

  /**
   * One turn of the object loop on its running result: object `n` takes its
   * turn, and counts one burst when it hits and is not static.
   */
  function NextPass(r: ObjectsResult, n: int, dt: real, sqrt: real -> real, draw: int -> int -> PairDraw): (s: ObjectsResult)
    requires 0 <= n < |r.views| && PositiveViews(r.views)
    ensures |s.views| == |r.views| && PositiveViews(s.views) && s.bursts <= r.bursts + 1
    ensures forall j :: 0 <= j < |r.views| ==> SameObject(s.views[j], r.views[j])
  {
    var t := ObjectTurn(r.views, n, dt, sqrt, draw(n));
    ObjectsResult(t.views, r.bursts + (if t.hit && !r.views[n].isStatic then 1 else 0), r.births + TurnBirths(t, n))
  }

  /**
   * `trace` lists running results of the object loop, each entry the turn of
   * its own index applied to the entry before it.
   */
  ghost predicate PassTrace(trace: seq<ObjectsResult>, dt: real, sqrt: real -> real, draw: int -> int -> PairDraw)
  {
    forall k {:trigger NextPass(trace[k], k, dt, sqrt, draw)} :: 0 <= k < |trace| - 1 ==>
      && k < |trace[k].views| && PositiveViews(trace[k].views)
      && trace[k + 1] == NextPass(trace[k], k, dt, sqrt, draw)
  }

  /** The running results of the object loop over all of `vs`, one for each number of turns taken. */
  ghost function PassTraceOf(vs: seq<ObjView>, dt: real, sqrt: real -> real, draw: int -> int -> PairDraw): (trace: seq<ObjectsResult>)
    requires PositiveViews(vs)
    ensures |trace| == |vs| + 1 && trace[0] == ObjectsResult(vs, 0, [])
    ensures trace[|vs|] == ObjectsPass(vs, |vs|, dt, sqrt, draw)
    ensures PassTrace(trace, dt, sqrt, draw)
  {
    var trace := seq(|vs| + 1, k requires 0 <= k <= |vs| => ObjectsPass(vs, k, dt, sqrt, draw));
    PassesFormTrace(vs, |vs|, trace, dt, sqrt, draw);
    trace
  }

  /** The results of the object loop after each number of turns form a trace. */
  lemma PassesFormTrace(vs: seq<ObjView>, n: int, trace: seq<ObjectsResult>, dt: real, sqrt: real -> real, draw: int -> int -> PairDraw)
    requires PositiveViews(vs) && 0 <= n <= |vs| && |trace| == n + 1
    requires forall k :: 0 <= k <= n ==> trace[k] == ObjectsPass(vs, k, dt, sqrt, draw)
    ensures PassTrace(trace, dt, sqrt, draw)
  {
    forall k | 0 <= k < |trace| - 1
      ensures k < |trace[k].views| && PositiveViews(trace[k].views)
      ensures trace[k + 1] == NextPass(trace[k], k, dt, sqrt, draw)
    {
      ObjectsPassStep(vs, k, dt, sqrt, draw);
    }
  }

  /** One more turn of the object loop: the turn of object `n`, and one more burst when it hits and is not static. */
  lemma ObjectsPassStep(vs: seq<ObjView>, n: int, dt: real, sqrt: real -> real, draw: int -> int -> PairDraw)
    requires 0 <= n < |vs| && PositiveViews(vs)
    ensures ObjectsPass(vs, n + 1, dt, sqrt, draw) == NextPass(ObjectsPass(vs, n, dt, sqrt, draw), n, dt, sqrt, draw)
  {
  }

  /** `TraceRotations` at entry `n` of a trace of `n` turns from `vs`. */
  lemma {:induction false} TraceRotationAt(vs: seq<ObjView>, n: int, dt: real, sqrt: real -> real, draw: int -> int -> PairDraw, j: int, trace: seq<ObjectsResult>)
    requires 0 <= n <= |vs| && PositiveViews(vs) && 0 <= j < |vs|
    requires |trace| == n + 1 && PassTrace(trace, dt, sqrt, draw) && trace[0].views == vs
    ensures j < |trace[n].views| && (j < n ==> j < |trace[j].views|)
    ensures trace[n].views[j].rotation ==
      if j < n && trace[j].views[j].active && !vs[j].isStatic
      then vs[j].rotation + vs[j].rotationSpeed * dt
      else vs[j].rotation
  {
    TraceRotations(trace, dt, sqrt, draw, n, j);
  }

  /** What a trace says about a rotation, said of the object loop itself when the trace is made of its results. */
  lemma RotationOfTrace(vs: seq<ObjView>, n: int, dt: real, sqrt: real -> real, draw: int -> int -> PairDraw, j: int, trace: seq<ObjectsResult>)
    requires 0 <= n <= |vs| && PositiveViews(vs) && 0 <= j < |vs|
    requires |trace| == n + 1 && trace[0].views == vs
    requires trace[n] == ObjectsPass(vs, n, dt, sqrt, draw) && (j <= n ==> trace[j] == ObjectsPass(vs, j, dt, sqrt, draw))
    requires trace[n].views[j].rotation ==
      if j < n && trace[j].views[j].active && !vs[j].isStatic
      then vs[j].rotation + vs[j].rotationSpeed * dt
      else vs[j].rotation
    ensures ObjectsPass(vs, n, dt, sqrt, draw).views[j].rotation ==
      if j < n && ObjectsPass(vs, j, dt, sqrt, draw).views[j].active && !vs[j].isStatic
      then vs[j].rotation + vs[j].rotationSpeed * dt
      else vs[j].rotation
  {
  }

  /**
   * After the first `n` turns of the object loop, an object has turned once,
   * by its rotation speed over `dt`, if its own turn has come and it was then
   * active and not static; no other object's turn ever turns it.
   */
  lemma {:induction false} PassRotations(vs: seq<ObjView>, n: int, dt: real, sqrt: real -> real, draw: int -> int -> PairDraw, j: int)
    requires 0 <= n <= |vs| && PositiveViews(vs) && 0 <= j < |vs|
    ensures ObjectsPass(vs, n, dt, sqrt, draw).views[j].rotation ==
      if j < n && ObjectsPass(vs, j, dt, sqrt, draw).views[j].active && !vs[j].isStatic
      then vs[j].rotation + vs[j].rotationSpeed * dt
      else vs[j].rotation
  {
    var trace := TraceUpTo(vs, n, j, dt, sqrt, draw);
    TraceRotationAt(vs, n, dt, sqrt, draw, j, trace);
    RotationOfTrace(vs, n, dt, sqrt, draw, j, trace);
  }

  /** The results of the object loop after each number of turns up to `n`, as a trace, and its entries `j` and `n`. */
  lemma TraceUpTo(vs: seq<ObjView>, n: int, j: int, dt: real, sqrt: real -> real, draw: int -> int -> PairDraw) returns (trace: seq<ObjectsResult>)
    requires 0 <= n <= |vs| && PositiveViews(vs) && 0 <= j
    ensures |trace| == n + 1 && PassTrace(trace, dt, sqrt, draw)
    ensures trace[0].views == vs && trace[n] == ObjectsPass(vs, n, dt, sqrt, draw)
    ensures j <= n ==> trace[j] == ObjectsPass(vs, j, dt, sqrt, draw)
  {
    trace := seq(n + 1, k requires 0 <= k <= n => ObjectsPass(vs, k, dt, sqrt, draw));
    PassesFormTrace(vs, n, trace, dt, sqrt, draw);
  }

  /**
   * Each of `objects` has turned from its view in `vs` by its rotation speed
   * over `dt` if it was active and not static when its own turn of the object
   * loop came, and has not turned otherwise.
   */
  ghost predicate LoopRotated(objects: seq<GameObject>, vs: seq<ObjView>, dt: real, sqrt: real -> real, draw: int -> int -> PairDraw)
    reads set o | o in objects
  {
    && PositiveViews(vs)
    && forall j :: 0 <= j < |objects| && j < |vs| ==>
      objects[j].rotation ==
        if ObjectsPass(vs, j, dt, sqrt, draw).views[j].active && !vs[j].isStatic
        then vs[j].rotation + vs[j].rotationSpeed * dt
        else vs[j].rotation
  }

  /** The objects showing the views the whole object loop leaves from `vs` are turned as `PassRotations` says. */
  lemma LoopRotations(objects: seq<GameObject>, vs: seq<ObjView>, dt: real, sqrt: real -> real, draw: int -> int -> PairDraw)
    requires PositiveViews(vs) && |vs| == |objects| && Views(objects) == ObjectsPass(vs, |vs|, dt, sqrt, draw).views
    ensures LoopRotated(objects, vs, dt, sqrt, draw)
  {
    forall j | 0 <= j < |objects| && j < |vs|
      ensures objects[j].rotation ==
        if ObjectsPass(vs, j, dt, sqrt, draw).views[j].active && !vs[j].isStatic
        then vs[j].rotation + vs[j].rotationSpeed * dt
        else vs[j].rotation
    {
      PassRotations(vs, |vs|, dt, sqrt, draw, j);
      assert objects[j].rotation == Views(objects)[j].rotation;
    }
  }

  /** Along a trace of the object loop, an object turns only in its own turn, and then only when active and not static. */
  lemma {:induction false} TraceRotations(trace: seq<ObjectsResult>, dt: real, sqrt: real -> real, draw: int -> int -> PairDraw, k: int, j: int)
    requires PassTrace(trace, dt, sqrt, draw) && 0 <= k < |trace| && 0 <= j < |trace[0].views|
    ensures j < |trace[k].views|
    ensures k <= j ==> trace[k].views[j].rotation == trace[0].views[j].rotation
    ensures j < k ==> (
      && j < |trace[j].views|
      && trace[k].views[j].rotation ==
        if trace[j].views[j].active && !trace[0].views[j].isStatic
        then trace[0].views[j].rotation + trace[0].views[j].rotationSpeed * dt
        else trace[0].views[j].rotation)
  {
    if k > 0 {
      TraceRotations(trace, dt, sqrt, draw, k - 1, j);
      TraceKeepsStatic(trace, dt, sqrt, draw, k - 1, j);
      var r := trace[k - 1];
      assert k - 1 < |r.views| && PositiveViews(r.views) ==> trace[k] == NextPass(r, k - 1, dt, sqrt, draw);
      NextPassRotation(r, k - 1, dt, sqrt, draw, j);
    }
  }

  /** One turn of the object loop turns the object taking it alone, and only when it is active and not static. */
  lemma NextPassRotation(r: ObjectsResult, n: int, dt: real, sqrt: real -> real, draw: int -> int -> PairDraw, j: int)
    requires 0 <= n < |r.views| && PositiveViews(r.views) && 0 <= j < |r.views|
    ensures NextPass(r, n, dt, sqrt, draw).views[j].rotation ==
      if j == n && r.views[j].active && !r.views[j].isStatic then r.views[j].rotation + r.views[j].rotationSpeed * dt
      else r.views[j].rotation
  {
  }

  /** The whole object loop never moves a static object and deactivates nothing but collectibles. */
  lemma ObjectsPassKeepsStatic(vs: seq<ObjView>, n: int, dt: real, sqrt: real -> real, draw: int -> int -> PairDraw, j: int)
    requires 0 <= n <= |vs| && PositiveViews(vs) && 0 <= j < |vs|
    ensures vs[j].isStatic ==> ObjectsPass(vs, n, dt, sqrt, draw).views[j] == vs[j]
    ensures vs[j].kind != CollectibleObj ==> ObjectsPass(vs, n, dt, sqrt, draw).views[j].active == vs[j].active
  {
    var trace := seq(n + 1, k requires 0 <= k <= n => ObjectsPass(vs, k, dt, sqrt, draw));
    PassesFormTrace(vs, n, trace, dt, sqrt, draw);
    TraceKeepsStatic(trace, dt, sqrt, draw, n, j);
  }

  /** Along a trace of the object loop, a static object never moves and only collectibles change their active flag. */
  lemma {:induction false} TraceKeepsStatic(trace: seq<ObjectsResult>, dt: real, sqrt: real -> real, draw: int -> int -> PairDraw, k: int, j: int)
    requires PassTrace(trace, dt, sqrt, draw) && 0 <= k < |trace| && 0 <= j < |trace[0].views|
    ensures j < |trace[k].views| && SameObject(trace[k].views[j], trace[0].views[j])
    ensures trace[0].views[j].isStatic ==> trace[k].views[j] == trace[0].views[j]
    ensures trace[0].views[j].kind != CollectibleObj ==> trace[k].views[j].active == trace[0].views[j].active
  {
    if k > 0 {
      TraceKeepsStatic(trace, dt, sqrt, draw, k - 1, j);
      var r := trace[k - 1];
      assert k - 1 < |r.views| && PositiveViews(r.views) ==> trace[k] == NextPass(r, k - 1, dt, sqrt, draw);
      NextPassKeepsStatic(r, k - 1, dt, sqrt, draw, j);
    }
  }

  /** One turn of the object loop never moves a static object and deactivates nothing but collectibles. */
  lemma NextPassKeepsStatic(r: ObjectsResult, n: int, dt: real, sqrt: real -> real, draw: int -> int -> PairDraw, j: int)
    requires 0 <= n < |r.views| && PositiveViews(r.views) && 0 <= j < |r.views|
    ensures r.views[j].isStatic ==> NextPass(r, n, dt, sqrt, draw).views[j] == r.views[j]
    ensures r.views[j].kind != CollectibleObj ==> NextPass(r, n, dt, sqrt, draw).views[j].active == r.views[j].active
  {
    ObjectTurnKeepsStatic(r.views, n, dt, sqrt, draw(n), j);
  }

  /** Particle `k` of the burst of object `obj`, made around `(x, y)`: the object's position after its turn. */
  datatype Birth = Birth(obj: int, k: int, x: real, y: real)

  /** The births of turn `t` of object `i`: ten when it hits and is not static, at its position after the turn. */
  function TurnBirths(t: Turn, i: int): (r: seq<Birth>)
    requires 0 <= i < |t.views|
    ensures |r| == if t.hit && !t.views[i].isStatic then 10 else 0
    ensures forall j :: 0 <= j < |r| ==> r[j] == Birth(i, j, t.views[i].x, t.views[i].y)
  {
    if t.hit && !t.views[i].isStatic then seq(10, j => Birth(i, j, t.views[i].x, t.views[i].y)) else []
  }

  /** The state a particle made at `b` from the draws `s` starts in. */
  function BirthState(b: Birth, s: ParticleSpawn): ParticleState
  {
    ParticleState(b.x + s.dx, b.y + s.dy, s.d.vx, s.d.vy, s.d.size as real, s.d.life)
  }

  /**
   * `p` is particle `b.k` of the burst of `objects[b.obj]`, before any
   * update: around `b`'s position, in that object's colour, from the draws
   * `bursts[b.obj][b.k]`.
   */
  ghost predicate BornAt(p: Particle, b: Birth, objects: seq<GameObject>, bursts: seq<seq<ParticleSpawn>>)
    reads p
  {
    && 0 <= b.obj < |objects| && b.obj < |bursts| && 0 <= b.k < |bursts[b.obj]|
    && BurstParticle(p, b.x, b.y, BurstColor(Some(RgbAsSeq(objects[b.obj].color)), White), bursts[b.obj][b.k])
  }

  /** Each particle of `born` is made as the matching entry of `births` says. */
  ghost predicate BornAll(born: seq<Particle>, births: seq<Birth>, objects: seq<GameObject>, bursts: seq<seq<ParticleSpawn>>)
    reads set p | p in born
  {
    |born| == |births| && forall j :: 0 <= j < |born| ==> BornAt(born[j], births[j], objects, bursts)
  }

  /**
   * Each particle of `born` was made as the matching entry of `births` says
   * and has since taken one step: it is in its birth state stepped once, in
   * the colour of the object it burst from, with the lifetime of its draws.
   */
  ghost predicate SteppedBirths(born: seq<Particle>, births: seq<Birth>, objects: seq<GameObject>, bursts: seq<seq<ParticleSpawn>>)
    reads set p | p in born
  {
    && |born| == |births|
    && forall j :: 0 <= j < |born| ==>
      var b := births[j];
      && 0 <= b.obj < |objects| && b.obj < |bursts| && 0 <= b.k < |bursts[b.obj]|
      && born[j].color == NormalizeColor(BurstColor(Some(RgbAsSeq(objects[b.obj].color)), White), White)
      && born[j].maxLife == bursts[b.obj][b.k].d.life
      && Stepped(born[j], BirthState(b, bursts[b.obj][b.k]))
  }

  /** Particles made at `births` followed by particles made at `step` are made at `births + step`. */
  lemma BornAtAppend(born: seq<Particle>, births: seq<Birth>, more: seq<Particle>, step: seq<Birth>,
                     objects: seq<GameObject>, bursts: seq<seq<ParticleSpawn>>)
    requires BornAll(born, births, objects, bursts) && BornAll(more, step, objects, bursts)
    ensures BornAll(born + more, births + step, objects, bursts)
  {
    forall j | 0 <= j < |born + more|
      ensures BornAt((born + more)[j], (births + step)[j], objects, bursts)
    {
      if j >= |born| {
        assert (born + more)[j] == more[j - |born|] && (births + step)[j] == step[j - |born|];
      }
    }
  }

  // ---------------------------------------------------------------------------
  // The game: the object list and the particle list
  // ---------------------------------------------------------------------------

  /** The random draws of one initial cube: position, size, colour and spin (main.py:329-339, 102). */
  datatype CubeDraw = CubeDraw(x: int, y: int, size: int, color: Rgb, spin: real)

  predicate CubeDrawInRange(d: CubeDraw)
  {
    && 100 <= d.x <= 700 && 100 <= d.y <= 400 && 20 <= d.size <= 40
    && 50 <= d.color.r <= 255 && 50 <= d.color.g <= 255 && 50 <= d.color.b <= 255
    && -50.0 <= d.spin <= 50.0
  }

  /** The random position of one initial collectible (main.py:343-344). */
  datatype CoinDraw = CoinDraw(x: int, y: int)

  predicate CoinDrawInRange(d: CoinDraw)
  {
    100 <= d.x <= 700 && 100 <= d.y <= 400
  }

  /** The draws for one particle of a burst: its offset from the centre and its own draws. */
  datatype ParticleSpawn = ParticleSpawn(dx: real, dy: real, d: ParticleDraw)

  predicate SpawnInRange(s: ParticleSpawn)
  {
    -10.0 <= s.dx <= 10.0 && -10.0 <= s.dy <= 10.0 && InRange(s.d)
  }

  /** A random burst colour: each channel drawn from 100 to 255. */
  predicate BurstChannels(c: Rgb)
  {
    100 <= c.r <= 255 && 100 <= c.g <= 255 && 100 <= c.b <= 255
  }

  /**
   * The colour `create_particles` gives every particle of a burst: a random
   * one, `random`, when none is given, white when the given one is too short.
   */
  function BurstColor(color: Option<seq<real>>, random: Rgb): (r: seq<real>)
    requires color.None? ==> BurstChannels(random)
    ensures |r| >= 3
    ensures color.None? ==> forall k :: 0 <= k < 3 ==> 100.0 <= r[k] <= 255.0
    ensures color.None? ==> NormalizeColor(r, White) == random
    ensures color.Some? && |color.value| < 3 ==> NormalizeColor(r, White) == White
    ensures color.Some? && |color.value| >= 3 ==> r == color.value
  {
    match color
    case None => RgbAsSeq(random)
    case Some(c) => if |c| >= 3 then c else RgbAsSeq(White)
  }

  /** A freshly constructed object with the given attributes: at rest, active and unrotated. */
  ghost predicate AtRest(o: GameObject, x: real, y: real, size: real, color: Rgb, isStatic: bool, kind: ObjKind)
    reads o
  {
    && o.x == x && o.y == y && o.size == size && o.color == color
    && o.isStatic == isStatic && o.kind == kind
    && o.velocity == Vec2(0.0, 0.0) && o.active && o.rotation == 0.0
  }

  /** The floor and the two walls. */
  ghost predicate Platforms(os: seq<GameObject>)
    requires |os| >= 3
    reads set o | o in os
  {
    && AtRest(os[0], ScreenWidth / 2.0, ScreenHeight - 20.0, ScreenWidth / 2.0, PlatformBlue, true, PlatformObj)
    && AtRest(os[1], 10.0, ScreenHeight / 2.0, 10.0, PlatformBlue, true, PlatformObj)
    && AtRest(os[2], ScreenWidth - 10.0, ScreenHeight / 2.0, 10.0, PlatformBlue, true, PlatformObj)
  }

  /** `os[i]` is the cube built from `d`. */
  ghost predicate CubeFrom(o: GameObject, d: CubeDraw)
    reads o
  {
    AtRest(o, d.x as real, d.y as real, d.size as real, d.color, false, CubeObj) && o.rotationSpeed == d.spin
  }

  /** `o` is the collectible built from `d`. */
  ghost predicate CoinFrom(o: GameObject, d: CoinDraw)
    reads o
  {
    AtRest(o, d.x as real, d.y as real, 15.0, Gold, false, CollectibleObj) && o.rotationSpeed == 90.0
  }

  /** The eleven objects of `add_initial_objects`: floor, two walls, five cubes, three collectibles. */
  ghost predicate InitialObjects(os: seq<GameObject>, cubes: seq<CubeDraw>, coins: seq<CoinDraw>)
    reads set o | o in os
  {
    && |os| == 11 && |cubes| == 5 && |coins| == 3
    && Platforms(os)
    && (forall i :: 0 <= i < 5 ==> CubeFrom(os[3 + i], cubes[i]))
    && (forall i :: 0 <= i < 3 ==> CoinFrom(os[8 + i], coins[i]))
  }

  /** How many objects of `os` are of type `kind` with the given static flag. */
  function CountOf(os: seq<GameObject>, kind: ObjKind, isStatic: bool): (n: nat)
    ensures n <= |os|
  {
    if |os| == 0 then 0
    else CountOf(os[..|os| - 1], kind, isStatic) + (if os[|os| - 1].kind == kind && os[|os| - 1].isStatic == isStatic then 1 else 0)
  }

  /** Counting splits over concatenation. */
  lemma {:induction false} CountOfAppend(a: seq<GameObject>, b: seq<GameObject>, kind: ObjKind, isStatic: bool)
    ensures CountOf(a + b, kind, isStatic) == CountOf(a, kind, isStatic) + CountOf(b, kind, isStatic)
    decreases |b|
  {
    if |b| > 0 {
      var n := |b| - 1;
      assert (a + b)[..|a + b| - 1] == a + b[..n];
      CountOfAppend(a, b[..n], kind, isStatic);
    } else {
      assert a + b == a;
    }
  }

  /** In a run of objects that all share one type and static flag, that pair counts every object and any other pair none. */
  lemma {:induction false} CountOfUniform(s: seq<GameObject>, kind: ObjKind, isStatic: bool, otherKind: ObjKind, otherStatic: bool)
    requires forall o :: o in s ==> o.kind == kind && o.isStatic == isStatic
    requires otherKind != kind || otherStatic != isStatic
    ensures CountOf(s, kind, isStatic) == |s|
    ensures CountOf(s, otherKind, otherStatic) == 0
  {
    if |s| > 0 {
      assert s[|s| - 1] in s;
      CountOfUniform(s[..|s| - 1], kind, isStatic, otherKind, otherStatic);
    }
  }

  /** The initial objects are three static platforms, five moving cubes and three moving collectibles, and nothing else. */
  lemma InitialObjectsCounts(os: seq<GameObject>, cubes: seq<CubeDraw>, coins: seq<CoinDraw>)
    requires InitialObjects(os, cubes, coins)
    ensures CountOf(os, PlatformObj, true) == 3
    ensures CountOf(os, CubeObj, false) == 5
    ensures CountOf(os, CollectibleObj, false) == 3
    ensures CountOf(os, PlatformObj, false) + CountOf(os, CubeObj, true) + CountOf(os, CollectibleObj, true) == 0
  {
    var platforms, cubeObjs, coinObjs := os[..3], os[3..8], os[8..];
    forall m | 0 <= m < 5 ensures cubeObjs[m].kind == CubeObj && !cubeObjs[m].isStatic {
      assert CubeFrom(os[3 + m], cubes[m]);
    }
    forall m | 0 <= m < 3 ensures coinObjs[m].kind == CollectibleObj && !coinObjs[m].isStatic {
      assert CoinFrom(os[8 + m], coins[m]);
    }
    assert os == platforms + cubeObjs + coinObjs;
    forall kind, isStatic
      ensures CountOf(os, kind, isStatic) == CountOf(platforms, kind, isStatic) + CountOf(cubeObjs, kind, isStatic) + CountOf(coinObjs, kind, isStatic)
    {
      CountOfAppend(platforms, cubeObjs, kind, isStatic);
      CountOfAppend(platforms + cubeObjs, coinObjs, kind, isStatic);
    }
    forall kind, isStatic | kind != PlatformObj || !isStatic
      ensures CountOf(platforms, PlatformObj, true) == 3 && CountOf(platforms, kind, isStatic) == 0
    {
      CountOfUniform(platforms, PlatformObj, true, kind, isStatic);
    }
    forall kind, isStatic | kind != CubeObj || isStatic
      ensures CountOf(cubeObjs, CubeObj, false) == 5 && CountOf(cubeObjs, kind, isStatic) == 0
    {
      CountOfUniform(cubeObjs, CubeObj, false, kind, isStatic);
    }
    forall kind, isStatic | kind != CollectibleObj || isStatic
      ensures CountOf(coinObjs, CollectibleObj, false) == 3 && CountOf(coinObjs, kind, isStatic) == 0
    {
      CountOfUniform(coinObjs, CollectibleObj, false, kind, isStatic);
    }
  }

  class Game {
    var objects: seq<GameObject>
    var particles: seq<Particle>

    /** No object or particle is listed twice; objects have a positive size; every particle is well formed. */
    ghost predicate Valid()
      reads this, set p | p in particles
    {
      && Distinct(objects) && (forall o :: o in objects ==> o.size > 0.0)
      && Distinct(particles) && (forall p :: p in particles ==> p.Valid())
    }

    /** A game with the initial objects and no particles. */
    constructor(cubes: seq<CubeDraw>, coins: seq<CoinDraw>)
      requires |cubes| == 5 && |coins| == 3
      requires forall i :: 0 <= i < 5 ==> CubeDrawInRange(cubes[i])
      requires forall i :: 0 <= i < 3 ==> CoinDrawInRange(coins[i])
      ensures Valid() && particles == []
      ensures InitialObjects(objects, cubes, coins)
      ensures forall o :: o in objects ==> fresh(o)
    {
      objects := [];
      particles := [];
      new;
      AddInitialObjects(cubes, coins);
      assert objects == objects[0..];
    }

    /** Appends the floor, the two walls, five random cubes and three random collectibles. */
    method AddInitialObjects(cubes: seq<CubeDraw>, coins: seq<CoinDraw>)
      requires Valid()
      requires |cubes| == 5 && |coins| == 3
      requires forall i :: 0 <= i < 5 ==> CubeDrawInRange(cubes[i])
      requires forall i :: 0 <= i < 3 ==> CoinDrawInRange(coins[i])
      modifies this
      ensures Valid() && particles == old(particles)
      ensures |objects| == |old(objects)| + 11 && objects[..|old(objects)|] == old(objects)
      ensures InitialObjects(objects[|old(objects)|..], cubes, coins)
      ensures forall j :: |old(objects)| <= j < |objects| ==> fresh(objects[j])
    {
      ghost var n := |objects|;
      AddPlatformObjects();
      ghost var platforms := objects[n..];
      AddCubes(cubes);
      assert objects[n..n + 3] == platforms;
      AddCoins(coins);
      assert objects[n..n + 3] == platforms;
      assert Platforms(objects[n..]);
    }

    /** The floor and the two walls of `add_initial_objects`, static platforms at rest. */
    method AddPlatformObjects()
      requires Valid()
      modifies this
      ensures Valid() && particles == old(particles)
      ensures |objects| == |old(objects)| + 3 && objects[..|old(objects)|] == old(objects)
      ensures Platforms(objects[|old(objects)|..])
      ensures forall j :: |old(objects)| <= j < |objects| ==> fresh(objects[j])
    {
      ghost var n := |objects|;
      var floor := AddObject(ScreenWidth / 2.0, ScreenHeight - 20.0, ScreenWidth / 2.0, PlatformBlue, true, PlatformObj, 0.0);
      var leftWall := AddObject(10.0, ScreenHeight / 2.0, 10.0, PlatformBlue, true, PlatformObj, 0.0);
      var rightWall := AddObject(ScreenWidth - 10.0, ScreenHeight / 2.0, 10.0, PlatformBlue, true, PlatformObj, 0.0);
      assert objects[n..] == [floor, leftWall, rightWall];
    }

    /** The cube loop of `add_initial_objects`: one cube per draw, appended in order. */
    method AddCubes(cubes: seq<CubeDraw>)
      requires Valid() && forall i :: 0 <= i < |cubes| ==> CubeDrawInRange(cubes[i])
      modifies this
      ensures Valid() && particles == old(particles)
      ensures |objects| == |old(objects)| + |cubes| && objects[..|old(objects)|] == old(objects)
      ensures forall j :: 0 <= j < |cubes| ==> CubeFrom(objects[|old(objects)| + j], cubes[j])
      ensures forall j :: |old(objects)| <= j < |objects| ==> fresh(objects[j])
    {
      ghost var n := |objects|;
      for i := 0 to |cubes|
        invariant |objects| == n + i && objects[..n] == old(objects)
        invariant forall j :: n <= j < |objects| ==> fresh(objects[j])
        invariant Valid() && particles == old(particles)
        invariant forall j :: 0 <= j < i ==> CubeFrom(objects[n + j], cubes[j])
      {
        var d := cubes[i];
        var cube := AddObject(d.x as real, d.y as real, d.size as real, d.color, false, CubeObj, d.spin);
      }
    }

    /** The collectible loop of `add_initial_objects`: one gold collectible of size 15 per draw. */
    method AddCoins(coins: seq<CoinDraw>)
      requires Valid()
      modifies this
      ensures Valid() && particles == old(particles)
      ensures |objects| == |old(objects)| + |coins| && objects[..|old(objects)|] == old(objects)
      ensures forall j :: 0 <= j < |coins| ==> CoinFrom(objects[|old(objects)| + j], coins[j])
      ensures forall j :: |old(objects)| <= j < |objects| ==> fresh(objects[j])
    {
      ghost var n := |objects|;
      for i := 0 to |coins|
        invariant |objects| == n + i && objects[..n] == old(objects)
        invariant forall j :: n <= j < |objects| ==> fresh(objects[j])
        invariant Valid() && particles == old(particles)
        invariant forall j :: 0 <= j < i ==> CoinFrom(objects[n + j], coins[j])
      {
        var d := coins[i];
        var coin := AddObject(d.x as real, d.y as real, 15.0, Gold, false, CollectibleObj, 0.0);
      }
    }

    /** `self.objects.append(GameObject(...))`: a new object at rest goes to the end of the list. */
    method AddObject(x: real, y: real, size: real, color: Rgb, isStatic: bool, kind: ObjKind, spin: real) returns (o: GameObject)
      requires Valid() && size > 0.0
      modifies this
      ensures Valid() && particles == old(particles)
      ensures fresh(o) && objects == old(objects) + [o]
      ensures AtRest(o, x, y, size, color, isStatic, kind)
      ensures o.rotationSpeed == if kind == CubeObj then spin else 90.0
    {
      o := new GameObject(x, y, size, RgbAsSeq(color), isStatic, kind, spin);
      objects := objects + [o];
    }

    /**
     * Appends `count` particles (none for a negative count) around
     * `(x, y)`, all of one colour; `spawns[i]` holds the draws of the i-th.
     */
    method CreateParticles(x: real, y: real, color: Option<seq<real>>, count: int, randomColor: Rgb, spawns: seq<ParticleSpawn>)
      requires Valid() && BurstChannels(randomColor)
      requires count <= |spawns| && forall i :: 0 <= i < |spawns| ==> SpawnInRange(spawns[i])
      modifies this
      ensures Valid() && objects == old(objects) && unchanged(objects)
      ensures var m := if count > 0 then count else 0;
        && |particles| == |old(particles)| + m && particles[..|old(particles)|] == old(particles)
        && forall i :: 0 <= i < m ==> BurstParticle(particles[|old(particles)| + i], x, y, BurstColor(color, randomColor), spawns[i])
      ensures forall j :: |old(particles)| <= j < |particles| ==> fresh(particles[j])
    {
      var c := BurstColor(color, randomColor);
      ghost var n := |particles|;
      var i := 0;
      while i < count
        invariant 0 <= i <= if count > 0 then count else 0
        invariant |particles| == n + i && particles[..n] == old(particles)
        invariant forall j :: n <= j < |particles| ==> fresh(particles[j])
        invariant forall j :: 0 <= j < i ==> BurstParticle(particles[n + j], x, y, c, spawns[j])
        invariant Valid() && objects == old(objects)
      {
        var s := spawns[i];
        var p := new Particle(x + s.dx, y + s.dy, c, s.d);
        particles := particles + [p];
        i := i + 1;
      }
    }

    /**
     * One frame of `update`: every object updates against the whole list,
     * in order, and each non-static one that reports a collision bursts ten
     * particles at its new position in its colour; then the particle loop
     * runs. `draw(i)` holds the pair draws of object `i`, `bursts[i]` its
     * particle draws. The new particles are returned as `born`.
     */
    method Update(dt: real, sqrt: real -> real, draw: int -> int -> PairDraw, bursts: seq<seq<ParticleSpawn>>) returns (ghost born: seq<Particle>)
      requires Valid()
      requires |bursts| == |objects|
      requires forall i :: 0 <= i < |bursts| ==> |bursts[i]| >= 10 && forall j :: 0 <= j < |bursts[i]| ==> SpawnInRange(bursts[i][j])
      modifies this, objects, particles
      ensures Valid() && objects == old(objects)
      ensures PositiveViews(old(Views(objects)))
      ensures var r := ObjectsPass(old(Views(objects)), |objects|, dt, sqrt, draw);
        Views(objects) == r.views && |born| == 10 * r.bursts && |r.births| == |born|
      ensures SteppedBirths(born, ObjectsPass(old(Views(objects)), |objects|, dt, sqrt, draw).births, objects, bursts)
      ensures LoopRotated(objects, old(Views(objects)), dt, sqrt, draw)
      ensures forall p :: p in born ==> fresh(p)
      ensures particles == Survivors(old(particles) + born)
      ensures forall p :: p in old(particles) ==> Stepped(p, old(p.State()))
      ensures forall o :: o in objects && o.isStatic ==> o.View() == old(o.View())
      ensures forall o :: o in objects && o.kind != CollectibleObj ==> o.active == old(o.active)
    {
      born := UpdateObjects(dt, sqrt, draw, bursts);
      ghost var births := ObjectsPass(old(Views(objects)), |objects|, dt, sqrt, draw).births;
      assert forall j :: 0 <= j < |born| ==> BornAt(born[j], births[j], objects, bursts);
      label Born:
      UpdateParticles();
      forall j | 0 <= j < |born|
        ensures Stepped(born[j], BirthState(births[j], bursts[births[j].obj][births[j].k]))
      {
        assert born[j] in old@Born(particles);
      }
      assert SteppedBirths(born, births, objects, bursts);
      LoopRotations(objects, old(Views(objects)), dt, sqrt, draw);
    }

    /** The object loop of `update`, with its particle bursts. */
    method UpdateObjects(dt: real, sqrt: real -> real, draw: int -> int -> PairDraw, bursts: seq<seq<ParticleSpawn>>) returns (ghost born: seq<Particle>)
      requires Valid()
      requires |bursts| == |objects|
      requires forall i :: 0 <= i < |bursts| ==> |bursts[i]| >= 10 && forall j :: 0 <= j < |bursts[i]| ==> SpawnInRange(bursts[i][j])
      modifies this, objects
      ensures Valid() && objects == old(objects)
      ensures PositiveViews(old(Views(objects)))
      ensures var r := ObjectsPass(old(Views(objects)), |objects|, dt, sqrt, draw);
        Views(objects) == r.views && |born| == 10 * r.bursts && BornAll(born, r.births, objects, bursts)
      ensures particles == old(particles) + born
      ensures forall p :: p in born ==> fresh(p)
      ensures forall j :: 0 <= j < |particles| ==> particles[j] in old(particles) || fresh(particles[j])
      ensures forall p :: p in old(particles) ==> p.State() == old(p.State())
      ensures forall o :: o in objects && o.isStatic ==> o.View() == old(o.View())
      ensures forall o :: o in objects && o.kind != CollectibleObj ==> o.active == old(o.active)
    {
      ghost var start := Views(objects);
      assert PositiveViews(start);
      ghost var trace := PassTraceOf(start, dt, sqrt, draw);
      born := ObjectLoop(dt, sqrt, draw, bursts, trace);
      assert trace[|objects|] == ObjectsPass(start, |objects|, dt, sqrt, draw);
      StaticViewsKept(objects, start, dt, sqrt, draw);
    }

    /** The loop itself: every object takes its turn, in list order, and `trace` is where each turn leads. */
    method ObjectLoop(dt: real, sqrt: real -> real, draw: int -> int -> PairDraw, bursts: seq<seq<ParticleSpawn>>,
                      ghost trace: seq<ObjectsResult>)
      returns (ghost born: seq<Particle>)
      requires Valid() && |trace| == |objects| + 1 && trace[0] == ObjectsResult(Views(objects), 0, [])
      requires PassTrace(trace, dt, sqrt, draw)
      requires |bursts| == |objects|
      requires forall i :: 0 <= i < |bursts| ==> |bursts[i]| >= 10 && forall j :: 0 <= j < |bursts[i]| ==> SpawnInRange(bursts[i][j])
      modifies this, objects
      ensures objects == old(objects)
      ensures Tracks(trace, |objects|, old(particles), born)
      ensures BornAll(born, trace[|objects|].births, objects, bursts)
      ensures forall p :: p in born ==> fresh(p)
      ensures forall j :: 0 <= j < |particles| ==> particles[j] in old(particles) || fresh(particles[j])
    {
      born := [];
      assert particles + [] == particles;
      for i := 0 to |objects|
        invariant objects == old(objects)
        invariant Tracks(trace, i, old(particles), born)
        invariant BornAll(born, trace[i].births, objects, bursts)
        invariant forall p :: p in born ==> fresh(p)
      {
        ghost var more := ObjectLoopTurn(i, dt, sqrt, draw, bursts, trace, old(particles), born);
        forall p | p in born + more
          ensures fresh(p)
        {
          if p !in born {
            assert p in more;
          }
        }
        born := born + more;
      }
      OldOrFresh(old(particles), born);
    }

    /**
     * The object loop after `i` turns: the objects show the views `trace`
     * gives for `i` turns, and its bursts are the particles born after `p0`.
     */
    ghost predicate Tracks(trace: seq<ObjectsResult>, i: int, p0: seq<Particle>, born: seq<Particle>)
      reads this, set o | o in objects, set p | p in particles
    {
      && Valid() && |trace| == |objects| + 1 && 0 <= i <= |objects|
      && Views(objects) == trace[i].views && |born| == 10 * trace[i].bursts
      && particles == p0 + born
    }

    /**
     * Turn `i` of the object loop: `objects[i]` updates against the whole
     * list and, when it reports a collision and is not static, bursts ten
     * particles; the objects then show the next entry of `trace`.
     */
    method ObjectLoopTurn(i: int, dt: real, sqrt: real -> real, draw: int -> int -> PairDraw, bursts: seq<seq<ParticleSpawn>>,
                          ghost trace: seq<ObjectsResult>, ghost p0: seq<Particle>, ghost born: seq<Particle>)
      returns (ghost more: seq<Particle>)
      requires PassTrace(trace, dt, sqrt, draw)
      requires |bursts| == |objects|
      requires forall i :: 0 <= i < |bursts| ==> |bursts[i]| >= 10 && forall j :: 0 <= j < |bursts[i]| ==> SpawnInRange(bursts[i][j])
      requires Tracks(trace, i, p0, born)
      requires i < |objects| && BornAll(born, trace[i].births, objects, bursts)
      modifies this, objects
      ensures objects == old(objects)
      ensures Tracks(trace, i + 1, p0, born + more)
      ensures BornAll(born + more, trace[i + 1].births, objects, bursts)
      ensures forall p :: p in more ==> fresh(p)
    {
      var collision;
      collision, more := TakeTurn(i, dt, sqrt, draw(i), bursts);
      assert trace[i + 1] == NextPass(trace[i], i, dt, sqrt, draw);
      AppendAssociates(p0, born, more);
      BornAtAppend(born, trace[i].births, more, TurnBirths(Turn(Views(objects), collision), i), objects, bursts);
    }

    /**
     * `objects[i]` updates against the whole list and, when it reports a
     * collision and is not static, bursts ten particles at its new position
     * in its own colour.
     */
    method TakeTurn(i: int, dt: real, sqrt: real -> real, draw: int -> PairDraw, bursts: seq<seq<ParticleSpawn>>)
      returns (collision: bool, ghost more: seq<Particle>)
      requires Valid() && 0 <= i < |objects| && |bursts| == |objects|
      requires |bursts[i]| >= 10 && forall j :: 0 <= j < |bursts[i]| ==> SpawnInRange(bursts[i][j])
      modifies this, objects
      ensures Valid() && objects == old(objects)
      ensures PositiveViews(old(Views(objects)))
      ensures Turn(Views(objects), collision) == ObjectTurn(old(Views(objects)), i, dt, sqrt, draw)
      ensures particles == old(particles) + more
      ensures |more| == if collision && !objects[i].isStatic then 10 else 0
      ensures forall p :: p in more ==> fresh(p)
      ensures BornAll(more, TurnBirths(Turn(Views(objects), collision), i), objects, bursts)
    {
      collision := MoveValid(i, dt, sqrt, draw);
      more := BurstOnCollision(i, collision, bursts);
    }

    /** The burst of `objects[i]` after its update: ten particles at its new position when it collided and is not static. */
    method BurstOnCollision(i: int, collision: bool, bursts: seq<seq<ParticleSpawn>>) returns (ghost more: seq<Particle>)
      requires Valid() && 0 <= i < |objects| && |bursts| == |objects|
      requires |bursts[i]| >= 10 && forall j :: 0 <= j < |bursts[i]| ==> SpawnInRange(bursts[i][j])
      modifies this
      ensures Valid() && objects == old(objects) && Views(objects) == old(Views(objects))
      ensures particles == old(particles) + more
      ensures |more| == if collision && !objects[i].isStatic then 10 else 0
      ensures forall p :: p in more ==> fresh(p)
      ensures BornAll(more, TurnBirths(Turn(Views(objects), collision), i), objects, bursts)
    {
      more := [];
      if collision && !objects[i].isStatic {
        more := Burst(i, bursts[i]);
        assert objects[i].View() == Views(objects)[i];
      }
    }

    /** `create_particles(obj.x, obj.y, obj.color)` for `obj` = `objects[i]`: ten particles at its position in its colour. */
    method Burst(i: int, burst: seq<ParticleSpawn>) returns (ghost born: seq<Particle>)
      requires Valid() && 0 <= i < |objects|
      requires |burst| >= 10 && forall j :: 0 <= j < |burst| ==> SpawnInRange(burst[j])
      modifies this
      ensures Valid() && objects == old(objects) && unchanged(objects) && Views(objects) == old(Views(objects))
      ensures particles == old(particles) + born && |born| == 10
      ensures forall p :: p in born ==> fresh(p)
      ensures forall j :: 0 <= j < 10 ==>
        BurstParticle(born[j], objects[i].x, objects[i].y, BurstColor(Some(RgbAsSeq(objects[i].color)), White), burst[j])
    {
      var obj := objects[i];
      ghost var n := |particles|;
      ghost var before := Views(objects);
      CreateParticles(obj.x, obj.y, Some(RgbAsSeq(obj.color)), 10, White, burst);
      UnchangedViews(objects, before);
      born := particles[n..];
      assert particles == old(particles) + born;
    }

    /** `obj.update(dt, self.objects)` for `obj` = `objects[i]`, stated on the views of the whole list. */
    method MoveObject(i: int, dt: real, sqrt: real -> real, draw: int -> PairDraw) returns (collision: bool)
      requires Distinct(objects) && (forall o :: o in objects ==> o.size > 0.0) && 0 <= i < |objects|
      modifies objects
      ensures PositiveViews(old(Views(objects)))
      ensures var t := ObjectTurn(old(Views(objects)), i, dt, sqrt, draw);
        Views(objects) == t.views && collision == t.hit
    {
      var obj := objects[i];
      if !obj.active || obj.isStatic || obj.kind == CollectibleObj {
        collision := KeepObject(i, dt, sqrt, draw);
      } else {
        collision := FlyObject(i, dt, sqrt, draw);
      }
    }

    /** `MoveObject` on a valid game: the particle list, which the move does not touch, stays valid. */
    method MoveValid(i: int, dt: real, sqrt: real -> real, draw: int -> PairDraw) returns (collision: bool)
      requires Valid() && 0 <= i < |objects|
      modifies objects
      ensures Valid() && particles == old(particles)
      ensures PositiveViews(old(Views(objects)))
      ensures Turn(Views(objects), collision) == ObjectTurn(old(Views(objects)), i, dt, sqrt, draw)
    {
      collision := MoveObject(i, dt, sqrt, draw);
    }

    /**
     * The turn of an inactive, static or collectible object: no collision,
     * and no view changes except that an active collectible spins.
     */
    method KeepObject(i: int, dt: real, sqrt: real -> real, draw: int -> PairDraw) returns (collision: bool)
      requires Distinct(objects) && (forall o :: o in objects ==> o.size > 0.0) && 0 <= i < |objects|
      requires !objects[i].active || objects[i].isStatic || objects[i].kind == CollectibleObj
      modifies objects
      ensures PositiveViews(old(Views(objects)))
      ensures var t := ObjectTurn(old(Views(objects)), i, dt, sqrt, draw);
        Views(objects) == t.views && collision == t.hit && !collision
      ensures Views(objects) == old(Views(objects))[i := if old(objects[i].active) && !objects[i].isStatic then Spun(old(objects[i].View()), dt) else old(objects[i].View())]
    {
      var obj := objects[i];
      ghost var start := Views(objects);
      assert PositiveViews(start);
      collision := obj.Update(dt, objects, sqrt, draw);
      ghost var me := if start[i].active && !start[i].isStatic then Spun(start[i], dt) else start[i];
      assert obj.View() == me;
      forall j | 0 <= j < |objects| && objects[j] != obj
        ensures objects[j].View() == start[j]
      {
        assert old(objects[j].View()) == start[j];
      }
      ViewsAround(objects, i, me, start);
      assert !start[i].active || start[i].isStatic ==> start[i := me] == start;
    }

    /** The turn of an active, non-static, non-collectible object: it flies, is clamped, then meets its partners. */
    method FlyObject(i: int, dt: real, sqrt: real -> real, draw: int -> PairDraw) returns (collision: bool)
      requires Distinct(objects) && (forall o :: o in objects ==> o.size > 0.0) && 0 <= i < |objects|
      requires objects[i].active && !objects[i].isStatic && objects[i].kind != CollectibleObj
      modifies objects
      ensures PositiveViews(old(Views(objects)))
      ensures var t := ObjectTurn(old(Views(objects)), i, dt, sqrt, draw);
        Views(objects) == t.views && collision == t.hit
    {
      var obj := objects[i];
      ghost var start := Views(objects);
      assert PositiveViews(start);
      PartnersOfEntry(objects, i);
      MaskOfEntry(objects, i);
      ghost var partners := PartnerViews(objects, obj);
      collision := obj.Update(dt, objects, sqrt, draw);
      ghost var c := ScreenClamp(Fly(start[i], dt));
      ghost var r := PassFrom(c.view, partners, obj.SelfMask(objects), 0, sqrt, draw, c.hit);
      ViewsAround(objects, i, r.me, r.others);
      MoverTurn(start, i, dt, sqrt, draw, r.others[i := r.me]);
    }

    /**
     * The particle loop of `update`: every particle is updated once, and
     * exactly those whose update reports them alive stay, in order.
     */
    method UpdateParticles()
      requires Valid()
      modifies this, particles
      ensures Valid() && objects == old(objects) && unchanged(objects) && Views(objects) == old(Views(objects))
      ensures particles == Survivors(old(particles))
      ensures forall p :: p in old(particles) ==> Stepped(p, old(p.State()))
    {
      ghost var start := particles;
      ghost var before := States(particles);
      FilterParticles(Positions(particles));
      ViewsFramed(objects);
      KeptLiveIsSurvivors(start, before);
      SurvivorsDistinct(start);
    }

    /**
     * The while loop itself; `index` gives each particle's position, which
     * tells the particles apart.
     */
    method FilterParticles(ghost index: map<Particle, int>)
      requires forall j :: 0 <= j < |particles| ==> particles[j] in index && index[particles[j]] == j
      requires forall p :: p in particles ==> p.Valid()
      modifies this, particles
      ensures objects == old(objects) && unchanged(objects)
      ensures particles == KeptLive(old(particles), old(States(particles)))
      ensures forall j :: 0 <= j < |old(particles)| ==> Stepped(old(particles)[j], old(States(particles))[j])
    {
      ghost var start := particles;
      ghost var before := States(particles);
      forall j | 0 <= j < |start| ensures ValidState(before[j], start[j].maxLife) {
        assert start[j].Valid();
      }
      assert Filtering(0, start, before, 0, index);
      FilterLoop(start, before, index);
    }

    /** The loop of `FilterParticles`, from its first turn on. */
    method FilterLoop(ghost start: seq<Particle>, ghost before: seq<ParticleState>, ghost index: map<Particle, int>)
      requires Filtering(0, start, before, 0, index)
      modifies this, start
      ensures objects == old(objects) && unchanged(objects)
      ensures particles == KeptLive(start, before)
      ensures forall j :: 0 <= j < |start| ==> Stepped(start[j], before[j])
    {
      ghost var k := 0;
      var i := 0;
      while i < |particles|
        invariant Filtering(i, start, before, k, index) && objects == old(objects)
        decreases |start| - k
      {
        i := FilterTurn(i, start, before, k, index);
        k := k + 1;
      }
      assert start[..k] == start && before[..k] == before;
    }

    /** The state of the particle loop after `k` turns, with `i` particles kept so far. */
    ghost predicate Filtering(i: int, start: seq<Particle>, before: seq<ParticleState>, k: int, index: map<Particle, int>)
      reads this, set p | p in start
    {
      && 0 <= k <= |start| == |before| && 0 <= i <= |particles|
      && particles[..i] == KeptLive(start[..k], before[..k]) && particles[i..] == start[k..]
      && (forall j :: 0 <= j < |start| ==> start[j] in index && index[start[j]] == j)
      && (forall j :: k <= j < |start| ==> start[j].State() == before[j] && ValidState(before[j], start[j].maxLife))
      && (forall j :: 0 <= j < k ==> Stepped(start[j], before[j]))
    }

    /** One turn of the particle loop: the particle at `i` is updated, then kept (and passed) or popped. */
    method FilterTurn(i: int, ghost start: seq<Particle>, ghost before: seq<ParticleState>, ghost k: int, ghost index: map<Particle, int>) returns (next: int)
      requires Filtering(i, start, before, k, index) && i < |particles|
      modifies this, particles[i]
      ensures Filtering(next, start, before, k + 1, index) && objects == old(objects)
    {
      var p := particles[i];
      assert p == start[k] && index[p] == k;
      var alive := p.Update();
      FilterStep(start, before, k, particles, i);
      if alive {
        next := i + 1;
      } else {
        particles := particles[..i] + particles[i + 1..];
        next := i;
      }
    }
  }

  /** `p` is a new particle of a burst around `(x, y)` in colour `c`, drawn from `s`. */
  ghost predicate BurstParticle(p: Particle, x: real, y: real, c: seq<real>, s: ParticleSpawn)
    reads p
  {
    && p.Valid() && p.x == x + s.dx && p.y == y + s.dy && p.color == NormalizeColor(c, White)
    && p.vx == s.d.vx && p.vy == s.d.vy && p.size == s.d.size as real
    && p.life == s.d.life && p.maxLife == s.d.life
  }

  /** `p` has taken exactly one `Particle.update` from state `s`. */
  ghost predicate Stepped(p: Particle, s: ParticleState)
    reads p
  {
    && p.Valid() && p.x == s.x + s.vx && p.y == s.y + s.vy && p.vx == s.vx && p.vy == s.vy + ParticleGravity
    && p.life == s.life - 1 && p.size == ShrunkSize(s.size, p.life, p.maxLife)
  }

  /** The states of the particles of `ps`, in order. */
  ghost function States(ps: seq<Particle>): (r: seq<ParticleState>)
    reads set p | p in ps
    ensures |r| == |ps| && forall j :: 0 <= j < |ps| ==> r[j] == ps[j].State()
  {
    if |ps| == 0 then [] else States(ps[..|ps| - 1]) + [ps[|ps| - 1].State()]
  }

  /** The entries of `s` whose particle, in state `states[j]` before its update, is still alive after it. */
  function KeptLive<T>(s: seq<T>, states: seq<ParticleState>): (r: seq<T>)
    requires |states| == |s|
    ensures |r| <= |s|
  {
    if |s| == 0 then []
    else KeptLive(s[..|s| - 1], states[..|s| - 1]) + (if states[|s| - 1].life > 1 then [s[|s| - 1]] else [])
  }

  /** One turn of the particle loop: an entry that stays moves past `i`, one that is popped closes the gap. */
  lemma FilterStep<T>(start: seq<T>, states: seq<ParticleState>, k: int, ps: seq<T>, i: int)
    requires |states| == |start| && 0 <= k < |start| && 0 <= i < |ps|
    requires ps[..i] == KeptLive(start[..k], states[..k]) && ps[i..] == start[k..]
    ensures states[k].life > 1 ==> ps[..i + 1] == KeptLive(start[..k + 1], states[..k + 1]) && ps[i + 1..] == start[k + 1..]
    ensures states[k].life <= 1 ==> (ps[..i] + ps[i + 1..])[..i] == KeptLive(start[..k + 1], states[..k + 1])
    ensures states[k].life <= 1 ==> (ps[..i] + ps[i + 1..])[i..] == start[k + 1..]
  {
    assert start[..k + 1][..k] == start[..k] && states[..k + 1][..k] == states[..k];
    assert ps[i] == start[k];
    assert ps[i + 1..] == start[k + 1..];
    if states[k].life > 1 {
      assert ps[..i + 1] == ps[..i] + [ps[i]];
    } else {
      assert (ps[..i] + ps[i + 1..])[..i] == ps[..i];
      assert (ps[..i] + ps[i + 1..])[i..] == ps[i + 1..];
    }
  }

  /** Once every particle has taken its update, the ones kept by their old lives are the survivors. */
  lemma {:induction false} KeptLiveIsSurvivors(ps: seq<Particle>, states: seq<ParticleState>)
    requires |states| == |ps| && forall j :: 0 <= j < |ps| ==> ps[j].life == states[j].life - 1
    ensures KeptLive(ps, states) == Survivors(ps)
  {
    if |ps| > 0 {
      KeptLiveIsSurvivors(ps[..|ps| - 1], states[..|ps| - 1]);
    }
  }

  /** Filtering a list without repetitions leaves one without repetitions. */
  lemma {:induction false} SurvivorsDistinct(ps: seq<Particle>)
    requires Distinct(ps)
    ensures Distinct(Survivors(ps))
  {
    if |ps| > 0 {
      var init := ps[..|ps| - 1];
      assert Distinct(init);
      SurvivorsDistinct(init);
      var last := ps[|ps| - 1];
      assert last !in init;
      var r := Survivors(init);
      if last.life > 0 {
        forall a, b | 0 <= a < b < |r + [last]|
          ensures (r + [last])[a] != (r + [last])[b]
        {
          if b == |r| {
            assert r[a] in init;
          }
        }
      }
    }
  }

  /** The position of every entry of a list without repetitions. */
  ghost function Positions<T>(s: seq<T>): (m: map<T, int>)
    requires Distinct(s)
    ensures forall j :: 0 <= j < |s| ==> s[j] in m && m[s[j]] == j
  {
    if |s| == 0 then map[]
    else Positions(s[..|s| - 1])[s[|s| - 1] := |s| - 1]
  }
}
