/**
 * The particle buffer of rendering.py: a list of at most one hundred
 * particle records, filled first in, first out, and a pass that drops the
 * expired records and moves the others. The wall clock and the random
 * draws are parameters.
 */
module Rendering {
  import opened Geometry

  /** Capacity of the buffer and the longest lifetime a particle can draw, in seconds (rendering.py:16, 18). */
  const MaxParticles: nat := 100
  const MaxLifetime: real := 1.0

  /** Downward acceleration and shrink rate of a particle (rendering.py:67, 74). */
  const Fall: real := 5.0
  const Shrink: real := 0.5

  /** An RGBA colour; the alpha channel carries the fading. */
  datatype Rgba = Rgba(r: real, g: real, b: real, a: real)

  /** One particle record, the dictionary built by `emit_particles`. */
  datatype Spark = Spark(position: Vec3, velocity: Vec3, size: real, color: Rgba, creationTime: real, lifetime: real)

  /** The random draws and the clock reading behind one emitted particle. */
  datatype EmitDraw = EmitDraw(vx: real, vy: real, size: real, dr: real, dg: real, db: real, lifetime: real, now: real)

  /** The ranges of the draws of `emit_particles` (rendering.py:29-42). */
  predicate DrawInRange(d: EmitDraw)
  {
    && -2.0 <= d.vx <= 2.0 && 0.5 <= d.vy <= 3.0 && 0.05 <= d.size <= 0.2
    && -0.1 <= d.dr <= 0.1 && -0.1 <= d.dg <= 0.1 && -0.1 <= d.db <= 0.1
    && 0.5 <= d.lifetime <= MaxLifetime
  }

  /** The particle emitted at `position` in `color` with draws `d`: flat on the plane, opaque. */
  function NewSpark(position: seq<real>, color: seq<real>, d: EmitDraw): Spark
    requires |position| >= 2 && |color| >= 3
  {
    Spark(Vec3(position[0], position[1], 0.0), Vec3(d.vx, d.vy, 0.0), d.size,
          Rgba(color[0] + d.dr, color[1] + d.dg, color[2] + d.db, 1.0), d.now, d.lifetime)
  }

  /**
   * An emitted particle starts at the given point on the plane, opaque, its
   * colour within 0.1 of the given one on each channel, moving upward, with a
   * size and lifetime in their draw ranges, and not yet expired.
   */
  lemma NewSparkInRange(position: seq<real>, color: seq<real>, d: EmitDraw)
    requires |position| >= 2 && |color| >= 3 && DrawInRange(d)
    ensures var s := NewSpark(position, color, d);
      && s.position == Vec3(position[0], position[1], 0.0) && s.velocity.z == 0.0 && s.velocity.y >= 0.5
      && s.color.a == 1.0
      && Abs(s.color.r - color[0]) <= 0.1 && Abs(s.color.g - color[1]) <= 0.1 && Abs(s.color.b - color[2]) <= 0.1
      && 0.05 <= s.size <= 0.2 && 0.5 <= s.lifetime <= MaxLifetime
      && s.creationTime == d.now && !Expired(s, d.now)
  {
  }

  /** The particles emitted for the draws `ds`, in order. */
  function Sparks(position: seq<real>, color: seq<real>, ds: seq<EmitDraw>): (r: seq<Spark>)
    requires |ds| > 0 ==> |position| >= 2 && |color| >= 3
    ensures |r| == |ds|
    ensures forall i :: 0 <= i < |ds| ==> r[i] == NewSpark(position, color, ds[i])
  {
    if |ds| == 0 then [] else Sparks(position, color, ds[..|ds| - 1]) + [NewSpark(position, color, ds[|ds| - 1])]
  }

  /** One turn of the emit loop: the oldest record leaves a full buffer, then the new one joins at the end. */
  function Push(ps: seq<Spark>, p: Spark): seq<Spark>
  {
    (if |ps| >= MaxParticles then ps[1..] else ps) + [p]
  }

  /** One push into at most a full buffer keeps the newest records of the old ones followed by the new one. */
  lemma PushKeepsNewest(ps: seq<Spark>, p: Spark)
    requires |ps| <= MaxParticles
    ensures var n := if |ps| < MaxParticles then |ps| + 1 else MaxParticles as int;
      |Push(ps, p)| == n && Push(ps, p) == (ps + [p])[|ps| + 1 - n..]
  {
    if |ps| == MaxParticles {
      assert (ps + [p])[1..] == ps[1..] + [p];
    } else {
      assert (ps + [p])[0..] == ps + [p];
    }
  }

  /** Pushes every record of `news`, in order. */
  function PushAll(ps: seq<Spark>, news: seq<Spark>): seq<Spark>
  {
    if |news| == 0 then ps else Push(PushAll(ps, news[..|news| - 1]), news[|news| - 1])
  }

  /**
   * Starting from at most a full buffer, emitting keeps the newest
   * min(n + count, 100) records of the old ones followed by the new ones:
   * the oldest are the ones dropped, and the order is kept.
   */
  lemma {:induction false} PushAllKeepsNewest(ps: seq<Spark>, news: seq<Spark>)
    requires |ps| <= MaxParticles
    ensures var total := |ps| + |news|;
      var n := if total <= MaxParticles then total else MaxParticles;
      |PushAll(ps, news)| == n && PushAll(ps, news) == (ps + news)[total - n..]
  {
    if |news| > 0 {
      var m := |news| - 1;
      var x := news[m];
      PushAllKeepsNewest(ps, news[..m]);
      var prev := PushAll(ps, news[..m]);
      var total := |ps| + m;
      var all := ps + news[..m];
      assert ps + news == all + [x] by {
        assert news == news[..m] + [x];
      }
      if total < MaxParticles {
        assert prev == all;
      } else {
        var n := MaxParticles as int;
        assert prev == all[total - n..];
        assert prev[1..] == all[total - n + 1..];
        assert (all + [x])[total + 1 - n..] == all[total - n + 1..] + [x];
      }
    }
  }

  /** One more draw pushes one more particle. */
  lemma EmitStep(ps: seq<Spark>, position: seq<real>, color: seq<real>, ds: seq<EmitDraw>, i: int)
    requires 0 <= i < |ds| && |position| >= 2 && |color| >= 3
    ensures PushAll(ps, Sparks(position, color, ds[..i + 1]))
         == Push(PushAll(ps, Sparks(position, color, ds[..i])), NewSpark(position, color, ds[i]))
  {
    assert ds[..i + 1][..i] == ds[..i];
    var xs := Sparks(position, color, ds[..i + 1]);
    assert xs[..i] == Sparks(position, color, ds[..i]);
  }

  /** The emitted particles all have a positive lifetime. */
  lemma SparksLive(position: seq<real>, color: seq<real>, ds: seq<EmitDraw>)
    requires |ds| > 0 ==> |position| >= 2 && |color| >= 3
    requires forall i :: 0 <= i < |ds| ==> DrawInRange(ds[i])
    ensures forall p :: p in Sparks(position, color, ds) ==> p.lifetime > 0.0
  {
  }

  /** Pushing live records into a valid buffer leaves a valid buffer. */
  lemma {:induction false} PushAllLive(ps: seq<Spark>, news: seq<Spark>)
    requires |ps| <= MaxParticles && AllLive(ps)
    requires forall p :: p in news ==> p.lifetime > 0.0
    ensures |PushAll(ps, news)| <= MaxParticles && AllLive(PushAll(ps, news))
  {
    PushAllKeepsNewest(ps, news);
    var r := PushAll(ps, news);
    var total := |ps| + |news|;
    var all := ps + news;
    forall j | 0 <= j < |r|
      ensures r[j].lifetime > 0.0
    {
      assert r[j] == all[total - |r| + j];
      if total - |r| + j >= |ps| {
        assert all[total - |r| + j] == news[total - |r| + j - |ps|];
      }
    }
  }

  /** `update`'s test for whether a particle has lived out its lifetime. */
  predicate Expired(p: Spark, now: real)
  {
    now - p.creationTime >= p.lifetime
  }

  /**
   * Expiry follows the clock: a particle with a positive lifetime is not
   * expired at its creation time, and once expired it stays expired.
   */
  lemma ExpiryFollowsClock(p: Spark, now: real, later: real)
    requires now <= later
    ensures p.lifetime > 0.0 ==> !Expired(p, p.creationTime)
    ensures Expired(p, now) ==> Expired(p, later)
  {
  }

  /**
   * A surviving particle after one pass: it moves by its old velocity, falls,
   * fades to the remaining share of its life and shrinks.
   */
  function Advance(p: Spark, dt: real, now: real): (q: Spark)
    requires p.lifetime > 0.0
    ensures q.velocity.x == p.velocity.x && q.velocity.z == p.velocity.z
    ensures q.position.x - p.position.x == p.velocity.x * dt && q.position.y - p.position.y == p.velocity.y * dt
    ensures q.velocity.y == p.velocity.y - Fall * dt
    ensures q.position.z == p.position.z && q.size == p.size * (1.0 - Shrink * dt)
    ensures q.color == p.color.(a := 1.0 - (now - p.creationTime) / p.lifetime)
    ensures 0.0 <= now - p.creationTime < p.lifetime ==> 0.0 < q.color.a <= 1.0
    ensures q.creationTime == p.creationTime && q.lifetime == p.lifetime
  {
    var age := now - p.creationTime;
    var alpha := 1.0 - age / p.lifetime;
    ShareBelowOne(age, p.lifetime);
    Spark(Vec3(p.position.x + p.velocity.x * dt, p.position.y + p.velocity.y * dt, p.position.z),
          Vec3(p.velocity.x, p.velocity.y - Fall * dt, p.velocity.z),
          p.size * (1.0 - Shrink * dt),
          p.color.(a := alpha),
          p.creationTime, p.lifetime)
  }

  /** A part of a positive whole is a share in [0, 1). */
  lemma ShareBelowOne(part: real, whole: real)
    requires whole > 0.0
    ensures 0.0 <= part < whole ==> 0.0 <= part / whole < 1.0
  {
    var f := part / whole;
    assert f * whole == part;
    if 0.0 <= part < whole && f >= 1.0 {
      // then f * whole >= whole > part
      assert false;
    }
  }

  /** Every record has a positive lifetime, the divisor of the fading. */
  predicate AllLive(ps: seq<Spark>)
  {
    forall i :: 0 <= i < |ps| ==> ps[i].lifetime > 0.0
  }

  /** The records after one pass of `update`: the expired ones dropped, the others advanced, in order. */
  function Aged(ps: seq<Spark>, dt: real, now: real): (r: seq<Spark>)
    requires AllLive(ps)
    ensures |r| <= |ps| && AllLive(r)
  {
    if |ps| == 0 then []
    else
      var p := ps[|ps| - 1];
      Aged(ps[..|ps| - 1], dt, now) + (if Expired(p, now) then [] else [Advance(p, dt, now)])
  }

  /** One more record of the buffer adds its own outcome to the end of the pass. */
  lemma AgedStep(ps: seq<Spark>, k: int, dt: real, now: real)
    requires AllLive(ps) && 0 <= k < |ps|
    ensures Aged(ps[..k + 1], dt, now) == Aged(ps[..k], dt, now) + (if Expired(ps[k], now) then [] else [Advance(ps[k], dt, now)])
  {
    assert ps[..k + 1][..k] == ps[..k];
  }

  /** The records of `ps` that have not expired, in order. */
  function Unexpired(ps: seq<Spark>, now: real): seq<Spark>
  {
    if |ps| == 0 then []
    else Unexpired(ps[..|ps| - 1], now) + (if Expired(ps[|ps| - 1], now) then [] else [ps[|ps| - 1]])
  }

  /** A record is kept exactly when it is one of the old records and has not expired. */
  lemma {:induction false} UnexpiredExactly(ps: seq<Spark>, now: real, p: Spark)
    ensures p in Unexpired(ps, now) <==> p in ps && !Expired(p, now)
  {
    if |ps| > 0 {
      var init := ps[..|ps| - 1];
      UnexpiredExactly(init, now, p);
      assert ps == init + [ps[|ps| - 1]];
    }
  }

  /** How many records of `ps` have expired. */
  function CountExpired(ps: seq<Spark>, now: real): nat
  {
    if |ps| == 0 then 0
    else CountExpired(ps[..|ps| - 1], now) + (if Expired(ps[|ps| - 1], now) then 1 else 0)
  }

  /**
   * The pass is "drop the expired records, then advance each of the others":
   * the i-th record left is the advanced i-th unexpired one, and exactly as
   * many records leave as have expired.
   */
  lemma {:induction false} AgedIsAdvancedUnexpired(ps: seq<Spark>, dt: real, now: real)
    requires AllLive(ps)
    ensures var kept := Unexpired(ps, now);
      && |Aged(ps, dt, now)| == |kept| == |ps| - CountExpired(ps, now)
      && forall i :: 0 <= i < |kept| ==> kept[i].lifetime > 0.0 && Aged(ps, dt, now)[i] == Advance(kept[i], dt, now)
  {
    if |ps| > 0 {
      var init := ps[..|ps| - 1];
      assert AllLive(init);
      AgedIsAdvancedUnexpired(init, dt, now);
    }
  }

  class ParticleSystem {
    var particles: seq<Spark>

    /** The buffer is never over capacity and every record can be faded. */
    ghost predicate Valid()
      reads this
    {
      |particles| <= MaxParticles && AllLive(particles)
    }

    /** An empty buffer (the renderer it draws with is not part of this model). */
    constructor()
      ensures particles == [] && Valid()
    {
      particles := [];
    }

    /**
     * Emits `count` particles at `position` in `color` (nothing for a
     * count of zero or less); `draws[i]` holds the draws of the i-th.
     */
    method EmitParticles(position: seq<real>, color: seq<real>, count: int, draws: seq<EmitDraw>)
      requires Valid()
      requires count > 0 ==> |position| >= 2 && |color| >= 3
      requires count <= |draws| && forall i :: 0 <= i < |draws| ==> DrawInRange(draws[i])
      modifies this
      ensures var n := if count > 0 then count else 0;
        particles == PushAll(old(particles), Sparks(position, color, draws[..n]))
      ensures Valid()
    {
      var n := if count > 0 then count else 0;
      var i := 0;
      while i < n
        invariant 0 <= i <= n
        invariant particles == PushAll(old(particles), Sparks(position, color, draws[..i]))
      {
        EmitStep(old(particles), position, color, draws, i);
        PushParticle(NewSpark(position, color, draws[i]));
        i := i + 1;
      }
      SparksLive(position, color, draws[..i]);
      PushAllLive(old(particles), Sparks(position, color, draws[..i]));
    }

    /** Makes room by dropping the oldest record when the buffer is full, then appends `p`. */
    method PushParticle(p: Spark)
      modifies this
      ensures particles == Push(old(particles), p)
    {
      if |particles| >= MaxParticles {
        particles := particles[1..];
      }
      particles := particles + [p];
    }

    /**
     * One pass over the buffer at time `now`: expired records are popped,
     * the others advanced by `dt`.
     */
    method Update(dt: real, now: real)
      requires Valid()
      modifies this
      ensures particles == Aged(old(particles), dt, now)
      ensures Valid()
    {
      ghost var start := particles;
      ghost var k := 0;
      var i := 0;
      while i < |particles|
        invariant 0 <= k <= |start| && 0 <= i <= |particles| && AllLive(start)
        invariant particles[..i] == Aged(start[..k], dt, now) && particles[i..] == start[k..]
        decreases |start| - k
      {
        var p := particles[i];
        assert p == start[k];
        AgedStep(start, k, dt, now);
        var age := now - p.creationTime;
        if age >= p.lifetime {
          assert particles[i + 1..] == start[k + 1..];
          particles := particles[..i] + particles[i + 1..];
          k := k + 1;
          continue;
        }
        ghost var before := particles;
        AdvanceAt(i, dt, now);
        assert particles[..i + 1] == before[..i] + [Advance(p, dt, now)];
        assert particles[i + 1..] == before[i + 1..];
        i := i + 1;
        k := k + 1;
      }
      assert start[..k] == start;
    }

    /** The body of the update loop for a particle that has not expired: it moves, falls, fades and shrinks in place. */
    method AdvanceAt(i: int, dt: real, now: real)
      requires 0 <= i < |particles| && particles[i].lifetime > 0.0
      modifies this
      ensures particles == old(particles)[i := Advance(old(particles)[i], dt, now)]
    {
      var p := particles[i];
      var age := now - p.creationTime;
      var position := p.position.(x := p.position.x + p.velocity.x * dt);
      position := position.(y := position.y + p.velocity.y * dt);
      var velocity := p.velocity.(y := p.velocity.y - Fall * dt);
      var remaining := 1.0 - age / p.lifetime;
      var color := p.color.(a := remaining);
      var size := p.size * (1.0 - Shrink * dt);
      var newPos := Vec3(p.position.x + p.velocity.x * dt, p.position.y + p.velocity.y * dt, p.position.z);
      var newVel := Vec3(p.velocity.x, p.velocity.y - Fall * dt, p.velocity.z);
      assert position == newPos && velocity == newVel;
      assert Advance(p, dt, now) == Spark(newPos, newVel, size, color, p.creationTime, p.lifetime);
      particles := particles[i := Spark(position, velocity, size, color, p.creationTime, p.lifetime)];
    }
  }
}
