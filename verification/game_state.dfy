/**
 * The GameState class of game_state.py: a list of body records, the score and
 * the game-over flag, changed in place by the creation methods, the frame
 * update and its collision passes. The per-body rules it applies are the
 * functions of GameStatePhysics.
 */
module GameState {
  import opened Geometry
  import opened Wrappers
  import opened GameStatePhysics

  /** Default colours of the record constructors (game_state.py:70, 96, 107, 124). */
  const CubeColor: Color := Color(0.8, 0.2, 0.2)
  const PlatformColor: Color := Color(0.3, 0.3, 0.8)
  const WallColor: Color := Color(0.3, 0.5, 0.8)
  const CoinColor: Color := Color(1.0, 0.9, 0.1)
  const MovingPlatformColor: Color := Color(0.2, 0.7, 0.4)

  /** The record `create_cube` appends; `spin` is the uniform draw in [-1, 1] that sets the rotation speed. */
  function CubeRecord(position: Vec2, velocity: Vec2, size: real, fixed: bool, color: Color, spin: real): Body
  {
    Body(position, velocity, size, fixed, true, color, Cube, 0.0, spin * 50.0, None)
  }

  /** The coin record: size 0.3, not fixed, gold, spinning at 90 degrees per second. */
  function CoinRecord(position: Vec2): Body
  {
    Body(position, Vec2(0.0, 0.0), 0.3, false, true, CoinColor, Collectible, 0.0, 90.0, None)
  }

  /**
   * The moving-platform record: fixed, moving at speed 2 from `position`
   * towards `position + endpoints`, direction forward. It has no rotation keys;
   * being fixed, it is never integrated, so rotation 0 stands for their absence.
   */
  function MovingPlatformRecord(position: Vec2, endpoints: Vec2, size: real): Body
  {
    Body(position, Vec2(0.0, 0.0), size, true, true, MovingPlatformColor, MovingPlatform, 0.0, 0.0,
         Some(Track(position, position.Add(endpoints), 2.0, 1, 0.0)))
  }

  /**
   * What each new record counts as. A cube record keeps the game going (is a
   * live cube) exactly when it is not fixed. A coin never does, and a cube
   * picks it exactly when their centres are closer than the mean size. A
   * moving platform is fixed, moves forward at speed 2, and starts on its
   * track when the end-point offset is not negative.
   */
  lemma NewRecordRoles(position: Vec2, velocity: Vec2, size: real, fixed: bool, color: Color, spin: real,
                       endpoints: Vec2, cube: Body)
    ensures LiveCube(CubeRecord(position, velocity, size, fixed, color, spin)) <==> !fixed
    ensures !LiveCube(CoinRecord(position))
    ensures Picks(cube, CoinRecord(position)) <==> WithinStrict(DistSq(cube.position, position), (cube.size + 0.3) / 2.0)
    ensures var m := MovingPlatformRecord(position, endpoints, size);
      && m.fixed && !LiveCube(m) && m.track.Some? && m.track.value.moveDir == 1 && m.track.value.moveSpeed == 2.0
      && (endpoints.x >= 0.0 ==> m.track.value.startPos.x <= m.position.x <= m.track.value.endPos.x)
  {
  }

  /** The floor platform and the two side walls, the first three `create_cube` calls. */
  function InitialPlatforms(spin: nat -> real): seq<Body>
  {
    [ CubeRecord(Vec2(0.0, -5.0), Vec2(0.0, 0.0), 20.0, true, PlatformColor, spin(0)),
      CubeRecord(Vec2(-10.0, 0.0), Vec2(0.0, 0.0), 1.0, true, WallColor, spin(1)),
      CubeRecord(Vec2(10.0, 0.0), Vec2(0.0, 0.0), 1.0, true, WallColor, spin(2)) ]
  }

  /** The six movable cubes. */
  function InitialCubes(spin: nat -> real): seq<Body>
  {
    [ CubeRecord(Vec2(0.0, 3.0), Vec2(0.0, 0.0), 1.0, false, CubeColor, spin(3)),
      CubeRecord(Vec2(5.0, 5.0), Vec2(0.0, 0.0), 1.0, false, CubeColor, spin(4)),
      CubeRecord(Vec2(-5.0, 7.0), Vec2(0.0, 0.0), 1.0, false, CubeColor, spin(5)),
      CubeRecord(Vec2(2.0, 10.0), Vec2(0.0, 0.0), 1.0, false, CubeColor, spin(6)),
      CubeRecord(Vec2(-2.0, 10.0), Vec2(0.0, 0.0), 1.0, false, CubeColor, spin(7)),
      CubeRecord(Vec2(0.0, 0.0), Vec2(0.0, 0.0), 0.5, false, CubeColor, spin(8)) ]
  }

  /** The two coins and the moving platform. */
  function InitialExtras(): seq<Body>
  {
    [ CoinRecord(Vec2(3.0, 1.0)),
      CoinRecord(Vec2(-3.0, 1.0)),
      MovingPlatformRecord(Vec2(0.0, 2.0), Vec2(3.0, 0.0), 3.0) ]
  }

  /** The twelve entries `add_initial_cubes` appends; `spin(k)` is the draw of the k-th `create_cube` call. */
  function InitialLayout(spin: nat -> real): seq<Body>
  {
    InitialPlatforms(spin) + InitialCubes(spin) + InitialExtras()
  }

  /**
   * The initial layout has 12 active entries: 3 fixed platforms, 6 movable
   * cubes, 2 coins and 1 moving platform; exactly 6 count towards game over.
   */
  lemma InitialLayoutShape(spin: nat -> real)
    ensures var l := InitialLayout(spin);
      && |l| == 12
      && PositiveSizes(l)
      && (forall j :: 0 <= j < 12 ==> l[j].active)
      && (forall j :: 0 <= j < 3 ==> l[j].fixed && l[j].kind == Cube)
      && (forall j :: 3 <= j < 9 ==> !l[j].fixed && l[j].kind == Cube)
      && l[9].kind == Collectible && l[10].kind == Collectible && !l[9].fixed && !l[10].fixed
      && l[11].kind == MovingPlatform && l[11].fixed
      && CountLiveCubes(l) == 6
  {
    var l := InitialLayout(spin);
    assert CountLiveCubes(l[..0]) == 0;
    assert CountLiveCubes(l[..1]) == 0 by { assert l[..1][..0] == l[..0]; }
    assert CountLiveCubes(l[..2]) == 0 by { assert l[..2][..1] == l[..1]; }
    assert CountLiveCubes(l[..3]) == 0 by { assert l[..3][..2] == l[..2]; }
    assert CountLiveCubes(l[..4]) == 1 by { assert l[..4][..3] == l[..3]; }
    assert CountLiveCubes(l[..5]) == 2 by { assert l[..5][..4] == l[..4]; }
    assert CountLiveCubes(l[..6]) == 3 by { assert l[..6][..5] == l[..5]; }
    assert CountLiveCubes(l[..7]) == 4 by { assert l[..7][..6] == l[..6]; }
    assert CountLiveCubes(l[..8]) == 5 by { assert l[..8][..7] == l[..7]; }
    assert CountLiveCubes(l[..9]) == 6 by { assert l[..9][..8] == l[..8]; }
    assert CountLiveCubes(l[..10]) == 6 by { assert l[..10][..9] == l[..9]; }
    assert CountLiveCubes(l[..11]) == 6 by { assert l[..11][..10] == l[..10]; }
    assert CountLiveCubes(l[..12]) == 6 by { assert l[..12][..11] == l[..11]; }
    assert l[..12] == l;
  }

  /** The game: the body list, the score and the one-way game-over flag. */
  class GameState {
    var cubes: seq<Body>
    var score: int
    var gameOver: bool

    /** Every entry has a positive size, so masses and size ratios are defined. */
    ghost predicate Valid()
      reads this
    {
      PositiveSizes(cubes)
    }

    /** A new game holds the initial layout, score 0, not over. */
    constructor(spin: nat -> real)
      ensures Valid()
      ensures cubes == InitialLayout(spin) && score == 0 && !gameOver
    {
      score := 0;
      gameOver := false;
      cubes := [];
      new;
      AddInitialCubes(spin);
      InitialLayoutShape(spin);
    }

    /** Appends the twelve initial entries in order. */
    method AddInitialCubes(spin: nat -> real)
      modifies this
      ensures cubes == old(cubes) + InitialLayout(spin)
      ensures score == old(score) && gameOver == old(gameOver)
    {
      AddInitialPlatforms(spin);
      AddInitialMovables(spin);
      AddInitialExtras();
      assert cubes == old(cubes) + InitialPlatforms(spin) + InitialCubes(spin) + InitialExtras();
    }

    /** The floor platform and the two side walls. */
    method AddInitialPlatforms(spin: nat -> real)
      modifies this
      ensures cubes == old(cubes) + InitialPlatforms(spin)
      ensures score == old(score) && gameOver == old(gameOver)
    {
      var e0 := AddPlatform([0.0, -5.0], 20.0, None, spin(0));
      var e1 := AddPlatform([-10.0, 0.0], 1.0, Some(WallColor), spin(1));
      var e2 := AddPlatform([10.0, 0.0], 1.0, Some(WallColor), spin(2));
    }

    /** The six movable cubes. */
    method AddInitialMovables(spin: nat -> real)
      modifies this
      ensures cubes == old(cubes) + InitialCubes(spin)
      ensures score == old(score) && gameOver == old(gameOver)
    {
      var e3 := CreateCube([0.0, 3.0], None, 1.0, false, None, spin(3));
      var e4 := CreateCube([5.0, 5.0], None, 1.0, false, None, spin(4));
      var e5 := CreateCube([-5.0, 7.0], None, 1.0, false, None, spin(5));
      ghost var half := cubes;
      assert half == old(cubes) + InitialCubes(spin)[..3];
      var e6 := CreateCube([2.0, 10.0], None, 1.0, false, None, spin(6));
      var e7 := CreateCube([-2.0, 10.0], None, 1.0, false, None, spin(7));
      var e8 := CreateCube([0.0, 0.0], Some(Vec2(0.0, 0.0)), 0.5, false, None, spin(8));
      assert cubes == half + InitialCubes(spin)[3..];
      assert InitialCubes(spin) == InitialCubes(spin)[..3] + InitialCubes(spin)[3..];
    }

    /** The two coins and the moving platform. */
    method AddInitialExtras()
      modifies this
      ensures cubes == old(cubes) + InitialExtras()
      ensures score == old(score) && gameOver == old(gameOver)
    {
      var e9 := CreateCollectible(Vec2(3.0, 1.0));
      var e10 := CreateCollectible(Vec2(-3.0, 1.0));
      var e11 := CreateMovingPlatform(Vec2(0.0, 2.0), Vec2(3.0, 0.0), 3.0);
    }

    /** Score back to 0, not over, and the list cleared and rebuilt to the initial layout. */
    method Reset(spin: nat -> real)
      modifies this
      ensures Valid()
      ensures cubes == InitialLayout(spin) && score == 0 && !gameOver
    {
      score := 0;
      gameOver := false;
      cubes := [];
      AddInitialCubes(spin);
      InitialLayoutShape(spin);
    }

    /** Adds `points` to the score and returns the new score. */
    method UpdateScore(points: int) returns (newScore: int)
      modifies this
      ensures score == old(score) + points && newScore == score
      ensures cubes == old(cubes) && gameOver == old(gameOver)
    {
      score := score + points;
      newScore := score;
    }

    /**
     * Appends an active cube record. Only the first two coordinates of
     * `position` are kept; the velocity defaults to zero and the colour to red.
     */
    method CreateCube(position: seq<real>, velocity: Option<Vec2>, size: real, fixed: bool, color: Option<Color>, spin: real)
      returns (cube: Body)
      requires |position| >= 2
      modifies this
      ensures cube == CubeRecord(Vec2(position[0], position[1]), velocity.GetOr(Vec2(0.0, 0.0)), size, fixed, color.GetOr(CubeColor), spin)
      ensures cubes == old(cubes) + [cube]
      ensures score == old(score) && gameOver == old(gameOver)
    {
      var v := velocity.GetOr(Vec2(0.0, 0.0));
      var c := color.GetOr(CubeColor);
      var p := if |position| > 2 then position[..2] else position;
      cube := CubeRecord(Vec2(p[0], p[1]), v, size, fixed, c, spin);
      cubes := cubes + [cube];
    }

    /** A fixed cube at rest, blue unless a colour is given. */
    method AddPlatform(position: seq<real>, size: real, color: Option<Color>, spin: real) returns (platform: Body)
      requires |position| >= 2
      modifies this
      ensures platform == CubeRecord(Vec2(position[0], position[1]), Vec2(0.0, 0.0), size, true, color.GetOr(PlatformColor), spin)
      ensures cubes == old(cubes) + [platform]
      ensures score == old(score) && gameOver == old(gameOver)
    {
      platform := CreateCube(position, Some(Vec2(0.0, 0.0)), size, true, Some(color.GetOr(PlatformColor)), spin);
    }

    method CreateCollectible(position: Vec2) returns (coin: Body)
      modifies this
      ensures coin == CoinRecord(position) && cubes == old(cubes) + [coin]
      ensures score == old(score) && gameOver == old(gameOver)
    {
      coin := CoinRecord(position);
      cubes := cubes + [coin];
    }

    method CreateMovingPlatform(position: Vec2, endpoints: Vec2, size: real) returns (platform: Body)
      modifies this
      ensures platform == MovingPlatformRecord(position, endpoints, size) && cubes == old(cubes) + [platform]
      ensures score == old(score) && gameOver == old(gameOver)
    {
      platform := MovingPlatformRecord(position, endpoints, size);
      cubes := cubes + [platform];
    }

    /**
     * One frame. Nothing changes once the game is over; otherwise the
     * platforms move, every active movable entry steps, collides and (for a
     * cube) collects coins, and the game-over flag is raised when no live cube
     * remains. The flag is never lowered here.
     */
    method Update(dt: real, sqrt: real -> real, draw: (int, int) -> Draw)
      requires Valid()
      modifies this
      ensures Valid()
      ensures old(gameOver) ==> cubes == old(cubes) && score == old(score) && gameOver
      ensures !old(gameOver) ==>
        && cubes == Frame(old(cubes), old(score), dt, sqrt, draw).bodies
        && score == Frame(old(cubes), old(score), dt, sqrt, draw).score
        && (gameOver <==> CountLiveCubes(cubes) == 0)
    {
      if gameOver {
        return;
      }
      UpdateMovingPlatforms(dt);
      var start := World(cubes, score);
      var i := 0;
      while i < |cubes|
        invariant |cubes| == |start.bodies| && 0 <= i <= |cubes|
        invariant PositiveSizes(start.bodies)
        invariant World(cubes, score) == StepUpTo(start, i, dt, sqrt, draw)
        invariant !gameOver
      {
        StepEntry(i, dt, sqrt, draw);
        i := i + 1;
      }
      assert World(cubes, score) == Frame(old(cubes), old(score), dt, sqrt, draw);
      CheckGameOver();
    }

    /**
     * The body of the frame loop for entry `i`: an active movable entry takes
     * its arena step, then its partner scan, then (for a cube) its coin pass.
     */
    method StepEntry(i: int, dt: real, sqrt: real -> real, draw: (int, int) -> Draw)
      requires Valid() && 0 <= i < |cubes|
      modifies this
      ensures Valid()
      ensures World(cubes, score) == StepBody(World(old(cubes), old(score)), i, dt, sqrt, draw)
      ensures gameOver == old(gameOver)
    {
      var cube := cubes[i];
      if cube.active && !cube.fixed {
        cubes := cubes[i := ArenaStep(cube, dt)];
        CheckCubeCollisions(i, sqrt, draw);
        if cubes[i].kind == Cube {
          CheckCollectibleCollision(cubes[i]);
        }
      }
    }

    /**
     * Every active moving platform steps along its track and then carries
     * each other active movable entry standing on it by the unclamped delta.
     */
    method UpdateMovingPlatforms(dt: real)
      requires Valid()
      modifies this
      ensures Valid()
      ensures cubes == MovePlatformsUpTo(old(cubes), |old(cubes)|, dt)
      ensures score == old(score) && gameOver == old(gameOver)
    {
      var p := 0;
      while p < |cubes|
        invariant Valid() && |cubes| == |old(cubes)| && 0 <= p <= |cubes|
        invariant cubes == MovePlatformsUpTo(old(cubes), p, dt)
        invariant score == old(score) && gameOver == old(gameOver)
      {
        MovePlatform(p, dt);
        p := p + 1;
      }
    }

    /** Iteration `p` of the platform loop: an active moving platform steps along its track and carries its riders. */
    method MovePlatform(p: int, dt: real)
      requires Valid() && 0 <= p < |cubes|
      modifies this
      ensures Valid()
      ensures cubes == MovePlatformAt(old(cubes), p, dt)
      ensures score == old(score) && gameOver == old(gameOver)
    {
      var platform := cubes[p];
      if platform.active && platform.kind == MovingPlatform && platform.track.Some? {
        var delta := PlatformDelta(platform, dt);
        var moved := PlatformStep(platform, dt);
        cubes := cubes[p := moved];
        CarryRidersOf(moved, delta);
      }
    }

    /** The rider loop: every other active movable entry standing on `moved` shifts by `delta`. */
    method CarryRidersOf(moved: Body, delta: real)
      requires PositiveSizes(cubes)
      modifies this
      ensures Valid()
      ensures cubes == CarryRiders(old(cubes), moved, delta)
      ensures score == old(score) && gameOver == old(gameOver)
    {
      var q := 0;
      while q < |cubes|
        invariant |cubes| == |old(cubes)| && 0 <= q <= |cubes|
        invariant forall m :: 0 <= m < q ==> cubes[m] == if Carried(old(cubes)[m], moved) then Ride(old(cubes)[m], delta) else old(cubes)[m]
        invariant forall m :: q <= m < |cubes| ==> cubes[m] == old(cubes)[m]
        invariant score == old(score) && gameOver == old(gameOver)
      {
        if Carried(cubes[q], moved) {
          cubes := cubes[q := Ride(cubes[q], delta)];
        }
        q := q + 1;
      }
      assert cubes == CarryRiders(old(cubes), moved, delta);
    }

    /**
     * The partner scan of entry `current`: skips itself and inactive entries,
     * resolves every touching partner, and stops at the first separating
     * dynamic pair.
     */
    method CheckCubeCollisions(current: int, sqrt: real -> real, draw: (int, int) -> Draw)
      requires Valid() && 0 <= current < |cubes|
      modifies this
      ensures Valid()
      ensures cubes == CollideAll(old(cubes), current, sqrt, draw)
      ensures score == old(score) && gameOver == old(gameOver)
    {
      if !cubes[current].active {
        return;
      }
      var j := 0;
      while j < |cubes|
        invariant |cubes| == |old(cubes)| && 0 <= j <= |cubes|
        invariant PositiveSizes(cubes)
        invariant CollideFrom(cubes, current, j, sqrt, draw) == CollideAll(old(cubes), current, sqrt, draw)
        invariant score == old(score) && gameOver == old(gameOver)
      {
        if j != current && cubes[j].active {
          var pr := Resolve(cubes[current], cubes[j], sqrt, draw(current, j));
          cubes := cubes[current := pr.cur][j := pr.other];
          if pr.stop {
            return;
          }
        }
        j := j + 1;
      }
    }

    /**
     * The coin pass of `cube`: every active collectible it touches is
     * deactivated and scores 10; nothing else changes.
     */
    method CheckCollectibleCollision(cube: Body)
      requires Valid()
      modifies this
      ensures Valid()
      ensures cubes == PickupPass(old(cubes), cube)
      ensures score == old(score) + CoinReward * CountPicked(old(cubes), cube)
      ensures gameOver == old(gameOver)
    {
      var k := 0;
      while k < |cubes|
        invariant |cubes| == |old(cubes)| && 0 <= k <= |cubes|
        invariant forall m :: 0 <= m < k ==> cubes[m] == if Picks(cube, old(cubes)[m]) then old(cubes)[m].(active := false) else old(cubes)[m]
        invariant forall m :: k <= m < |cubes| ==> cubes[m] == old(cubes)[m]
        invariant score == old(score) + CoinReward * CountPicked(old(cubes)[..k], cube)
        invariant gameOver == old(gameOver)
      {
        assert old(cubes)[..k + 1][..k] == old(cubes)[..k];
        var collectible := cubes[k];
        if Picks(cube, collectible) {
          cubes := cubes[k := collectible.(active := false)];
          var newScore := UpdateScore(CoinReward);
        }
        k := k + 1;
      }
      assert old(cubes)[..k] == old(cubes);
      assert cubes == PickupPass(old(cubes), cube);
    }

    /** Raises the game-over flag when no active, movable cube is left; never lowers it. */
    method CheckGameOver()
      modifies this
      ensures gameOver == (old(gameOver) || CountLiveCubes(cubes) == 0)
      ensures cubes == old(cubes) && score == old(score)
    {
      var dynamicCubes := CountLiveCubes(cubes);
      if dynamicCubes == 0 {
        gameOver := true;
      }
    }
  }
}
