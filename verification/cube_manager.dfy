/**
 * cube_manager.py: the fixed-capacity cube table kept in module-level
 * struct-of-arrays fields (class CubeTable), and the list-based CubeManager
 * class used by the 3-D renderer.
 */
module CubeManager {
  import opened Geometry
  import opened Wrappers
  import opened Config

  /** Capacity of the cube table (cube_manager.py:10; it shadows config.max_cubes). */
  const MaxCubes: nat := 5

  // ---------------------------------------------------------------------------
  // Specification functions over the table's columns
  // ---------------------------------------------------------------------------

  /** Index of the first active flag (== 1) in `s`, or -1 when there is none. */
  function FirstActive(s: seq<int>): (r: int)
    ensures -1 <= r < |s|
    ensures r == -1 <==> forall i :: 0 <= i < |s| ==> s[i] != 1
    ensures r != -1 ==> s[r] == 1 && forall i :: 0 <= i < r ==> s[i] != 1
  {
    if |s| == 0 then -1
    else if s[0] == 1 then 0
    else
      var k := FirstActive(s[1..]);
      if k == -1 then -1 else k + 1
  }

  /**
   * The column `s` after the entries at `index + 1 .. k - 1` have each been
   * copied one slot down; slots from `k - 1` on keep their old values.
   */
  ghost function ShiftDown<T>(s: seq<T>, index: int, k: int): (r: seq<T>)
    requires 0 <= index < k <= |s|
    ensures |r| == |s|
  {
    seq(|s|, j requires 0 <= j < |s| => if index <= j < k - 1 then s[j + 1] else s[j])
  }

  /** Shifting down over the live prefix removes the entry at `index` and keeps the others in order. */
  lemma ShiftDownRemovesIndex<T>(s: seq<T>, index: int, n: int)
    requires 0 <= index < n <= |s|
    ensures ShiftDown(s, index, n)[..n - 1] == s[..index] + s[index + 1..n]
    ensures ShiftDown(s, index, n)[n - 1..] == s[n - 1..]
  {
    var r := ShiftDown(s, index, n);
    var t := s[..index] + s[index + 1..n];
    assert |r[..n - 1]| == |t|;
    forall j | 0 <= j < n - 1
      ensures r[..n - 1][j] == t[j]
    {
      if j < index {
        assert t[j] == s[j];
      } else {
        assert t[j] == s[index + 1..n][j - index];
      }
    }
  }

  /** The active column after add_new_cube: every live slot cleared, slot `n` set. */
  function ActivateOnly(s: seq<int>, n: int): (r: seq<int>)
    requires 0 <= n < |s|
    ensures |r| == |s|
    ensures FirstActive(r[..n + 1]) == n
    ensures forall i :: 0 <= i <= n ==> (r[i] == 1 <==> i == n)
    ensures forall i :: n < i < |s| ==> r[i] == s[i]
  {
    var r := seq(|s|, i requires 0 <= i < |s| => if i < n then 0 else if i == n then 1 else s[i]);
    FirstActiveIsFirst(r[..n + 1], n);
    r
  }

  /** Size clamping used by resize_active_cube. */
  function ClampSize(v: real): (r: real)
    ensures MinCubeSize <= r <= MaxCubeSize
    ensures MinCubeSize <= v <= MaxCubeSize ==> r == v
    ensures v < MinCubeSize ==> r == MinCubeSize
    ensures v > MaxCubeSize ==> r == MaxCubeSize
  {
    if v < MinCubeSize then MinCubeSize
    else if v > MaxCubeSize then MaxCubeSize
    else v
  }

  /** The spawn point chosen by an index (Python's `%` agrees with Dafny's for a positive divisor). */
  function SpawnPoint(idx: int): (p: Vec2)
    ensures p in SpawnPoints
    ensures 0 <= idx < |SpawnPoints| ==> p == SpawnPoints[idx]
  {
    SpawnPoints[idx % |SpawnPoints|]
  }

  /** A point lies within (or on) the circle of a target zone. */
  predicate InZone(p: Vec2, z: Zone)
  {
    WithinOrOn(DistSq(p, Vec2(z.x, z.y)), z.radius)
  }

  // ---------------------------------------------------------------------------
  // The module-level cube fields
  // ---------------------------------------------------------------------------

  class CubeTable {
    const positions: array<Vec2>
    const colors: array<Color>
    const sizes: array<real>
    const active: array<int>       // 1 = active, 0 = inactive
    const lastPositions: array<Vec2>
    const steps: array<int>
    var count: int

    ghost predicate Valid()
      reads this
    {
      && positions.Length == MaxCubes && colors.Length == MaxCubes && sizes.Length == MaxCubes
      && active.Length == MaxCubes && lastPositions.Length == MaxCubes && steps.Length == MaxCubes
      && positions != lastPositions && active != steps
      && 0 <= count <= MaxCubes
    }

    /** The field allocation of init(): every column zero-filled, no cubes. */
    constructor ()
      ensures Valid() && count == 0
      ensures fresh(positions) && fresh(colors) && fresh(sizes)
      ensures fresh(active) && fresh(lastPositions) && fresh(steps)
      ensures forall i :: 0 <= i < MaxCubes ==> active[i] == 0
    {
      positions := new Vec2[MaxCubes](_ => Vec2(0.0, 0.0));
      colors := new Color[MaxCubes](_ => Color(0.0, 0.0, 0.0));
      sizes := new real[MaxCubes](_ => 0.0);
      active := new int[MaxCubes](_ => 0);
      lastPositions := new Vec2[MaxCubes](_ => Vec2(0.0, 0.0));
      steps := new int[MaxCubes](_ => 0);
      count := 0;
    }

    /** init_first_cube: slot 0 becomes the default cube at (0.5, 0.5) and the count is 1. */
    method InitFirstCube()
      requires Valid()
      modifies this, positions, colors, sizes, active, lastPositions, steps
      ensures Valid() && count == 1
      ensures positions[..] == old(positions[..])[0 := Vec2(0.5, 0.5)]
      ensures colors[..] == old(colors[..])[0 := DefaultCubeColor]
      ensures sizes[..] == old(sizes[..])[0 := DefaultCubeSize]
      ensures active[..] == old(active[..])[0 := 1]
      ensures lastPositions[..] == old(lastPositions[..])[0 := Vec2(0.5, 0.5)]
      ensures steps[..] == old(steps[..])[0 := 0]
    {
      positions[0] := Vec2(0.5, 0.5);
      colors[0] := DefaultCubeColor;
      sizes[0] := DefaultCubeSize;
      active[0] := 1;
      lastPositions[0] := positions[0];
      steps[0] := 0;
      count := 1;
    }

    /** get_active_cube_index: the first live slot whose flag is 1, or -1. */
    method GetActiveCubeIndex() returns (r: int)
      requires Valid()
      ensures r == FirstActive(active[..count])
      ensures r == -1 <==> forall i :: 0 <= i < count ==> active[i] != 1
      ensures r != -1 ==> 0 <= r < count && active[r] == 1 && forall i :: 0 <= i < r ==> active[i] != 1
    {
      var i := 0;
      while i < count
        invariant 0 <= i <= count
        invariant forall j :: 0 <= j < i ==> active[j] != 1
      {
        if active[i] == 1 {
          FirstActiveIsFirst(active[..count], i);
          return i;
        }
        i := i + 1;
      }
      return -1;
    }

    /**
     * add_new_cube: below capacity, every live cube is deactivated and a new,
     * active cube is written into slot `count` at the chosen spawn point; at
     * capacity nothing changes. `randomColor` stands for the colour drawn when
     * none is given.
     */
    method AddNewCube(color: Option<Color>, randomColor: Color, size: Option<real>, spawnPointIdx: Option<int>)
      returns (ok: bool)
      requires Valid()
      modifies this, positions, colors, sizes, active, lastPositions, steps
      ensures Valid()
      ensures ok <==> old(count) < MaxCubes
      ensures !ok ==> count == old(count) && unchanged(positions, colors, sizes, active, lastPositions, steps)
      ensures ok ==> var n := old(count);
        && count == n + 1
        && positions[..] == old(positions[..])[n := SpawnPoint(spawnPointIdx.GetOr(CurrentSpawnPoint))]
        && colors[..] == old(colors[..])[n := color.GetOr(randomColor)]
        && sizes[..] == old(sizes[..])[n := size.GetOr(DefaultCubeSize)]
        && active[..] == ActivateOnly(old(active[..]), n)
        && lastPositions[..] == old(lastPositions[..])[n := positions[n]]
        && steps[..] == old(steps[..])[n := 0]
      ensures ok ==> forall i :: 0 <= i < count ==> (active[i] == 1 <==> i == count - 1)
    {
      var n := count;
      if n < MaxCubes {
        ClearActive(n);
        var c := color.GetOr(randomColor);
        var s := size.GetOr(DefaultCubeSize);
        var spawn := SpawnPoint(spawnPointIdx.GetOr(CurrentSpawnPoint));
        WriteSlot(n, spawn, c, s);
        count := count + 1;
        assert active[..] == ActivateOnly(old(active[..]), n);
        return true;
      }
      return false;
    }

    /** The deactivation loop of add_new_cube: slots `0 .. n - 1` are cleared, the rest kept. */
    method ClearActive(n: int)
      requires Valid() && 0 <= n < MaxCubes
      modifies active
      ensures forall j :: 0 <= j < MaxCubes ==> active[j] == if j < n then 0 else old(active[j])
    {
      var i := 0;
      while i < n
        invariant 0 <= i <= n
        invariant forall j :: 0 <= j < MaxCubes ==> active[j] == if j < i then 0 else old(active[j])
      {
        active[i] := 0;
        i := i + 1;
      }
    }

    /** Slot `n` takes a new, active cube at `spawn` with no steps taken. */
    method WriteSlot(n: int, spawn: Vec2, c: Color, s: real)
      requires Valid() && 0 <= n < MaxCubes
      modifies positions, colors, sizes, active, lastPositions, steps
      ensures positions[..] == old(positions[..])[n := spawn]
      ensures colors[..] == old(colors[..])[n := c]
      ensures sizes[..] == old(sizes[..])[n := s]
      ensures active[..] == old(active[..])[n := 1]
      ensures lastPositions[..] == old(lastPositions[..])[n := spawn]
      ensures steps[..] == old(steps[..])[n := 0]
    {
      positions[n] := spawn;
      colors[n] := c;
      sizes[n] := s;
      active[n] := 1;
      lastPositions[n] := positions[n];
      steps[n] := 0;
    }

    /** The copy loop of delete_cube: slots `index .. n - 2` take the entries one slot above them. */
    method ShiftEntriesDown(index: int, n: int)
      requires Valid() && 0 <= index < n <= MaxCubes
      modifies positions, colors, sizes, active, lastPositions, steps
      ensures positions[..] == ShiftDown(old(positions[..]), index, n)
      ensures colors[..] == ShiftDown(old(colors[..]), index, n)
      ensures sizes[..] == ShiftDown(old(sizes[..]), index, n)
      ensures active[..] == ShiftDown(old(active[..]), index, n)
      ensures lastPositions[..] == ShiftDown(old(lastPositions[..]), index, n)
      ensures steps[..] == ShiftDown(old(steps[..]), index, n)
    {
      var i := index;
      while i < n - 1
        invariant index <= i <= n - 1
        invariant positions[..] == ShiftDown(old(positions[..]), index, i + 1)
        invariant colors[..] == ShiftDown(old(colors[..]), index, i + 1)
        invariant sizes[..] == ShiftDown(old(sizes[..]), index, i + 1)
        invariant active[..] == ShiftDown(old(active[..]), index, i + 1)
        invariant lastPositions[..] == ShiftDown(old(lastPositions[..]), index, i + 1)
        invariant steps[..] == ShiftDown(old(steps[..]), index, i + 1)
      {
        ShiftDownStep(old(positions[..]), index, i + 1);
        ShiftDownStep(old(colors[..]), index, i + 1);
        ShiftDownStep(old(sizes[..]), index, i + 1);
        ShiftDownStep(old(active[..]), index, i + 1);
        ShiftDownStep(old(lastPositions[..]), index, i + 1);
        ShiftDownStep(old(steps[..]), index, i + 1);
        positions[i] := positions[i + 1];
        colors[i] := colors[i + 1];
        sizes[i] := sizes[i + 1];
        active[i] := active[i + 1];
        lastPositions[i] := lastPositions[i + 1];
        steps[i] := steps[i + 1];
        i := i + 1;
      }
    }

    /**
     * delete_cube: an index outside the live range is refused with no change.
     * Otherwise every later entry moves one slot down (in all six columns),
     * the count drops by one, an emptied table gets its default first cube
     * back, and when the entry now at `index` is the first active one the
     * last live slot is also activated.
     */
    method DeleteCube(index: int) returns (ok: bool)
      requires Valid()
      modifies this, positions, colors, sizes, active, lastPositions, steps
      ensures Valid()
      ensures ok <==> 0 <= index < old(count)
      ensures !ok ==> count == old(count) && unchanged(positions, colors, sizes, active, lastPositions, steps)
      ensures ok ==> count >= 1
      ensures ok && old(count) == 1 ==>
        && count == 1
        && positions[..] == old(positions[..])[0 := Vec2(0.5, 0.5)]
        && colors[..] == old(colors[..])[0 := DefaultCubeColor]
        && sizes[..] == old(sizes[..])[0 := DefaultCubeSize]
        && active[..] == old(active[..])[0 := 1]
        && lastPositions[..] == old(lastPositions[..])[0 := Vec2(0.5, 0.5)]
        && steps[..] == old(steps[..])[0 := 0]
      ensures ok && old(count) > 1 ==> var n := old(count);
        && count == n - 1
        && positions[..] == ShiftDown(old(positions[..]), index, n)
        && colors[..] == ShiftDown(old(colors[..]), index, n)
        && sizes[..] == ShiftDown(old(sizes[..]), index, n)
        && lastPositions[..] == ShiftDown(old(lastPositions[..]), index, n)
        && steps[..] == ShiftDown(old(steps[..]), index, n)
        && var shifted := ShiftDown(old(active[..]), index, n);
           active[..] == if index == FirstActive(shifted[..n - 1]) then shifted[n - 2 := 1] else shifted
    {
      var n := count;
      if 0 <= index < n {
        if index < n - 1 {
          ShiftEntriesDown(index, n);
        }
        count := count - 1;
        if count == 0 {
          InitFirstCube();
        } else {
          var a := GetActiveCubeIndex();
          if index == a {
            active[count - 1] := 1;
          }
        }
        return true;
      }
      return false;
    }

    /** resize_active_cube: the first active cube gets the requested size clamped into the configured range. */
    method ResizeActiveCube(newSize: real) returns (ok: bool)
      requires Valid()
      modifies sizes
      ensures ok <==> FirstActive(active[..count]) != -1
      ensures ok ==> sizes[..] == old(sizes[..])[FirstActive(active[..count]) := ClampSize(newSize)]
      ensures !ok ==> sizes[..] == old(sizes[..])
    {
      var a := GetActiveCubeIndex();
      if a != -1 {
        var v := newSize;
        if v < MinCubeSize {
          v := MinCubeSize;
        } else if v > MaxCubeSize {
          v := MaxCubeSize;
        }
        sizes[a] := v;
        return true;
      }
      return false;
    }

    /** change_active_cube_color: the first active cube takes the new colour. */
    method ChangeActiveCubeColor(newColor: Color) returns (ok: bool)
      requires Valid()
      modifies colors
      ensures ok <==> FirstActive(active[..count]) != -1
      ensures ok ==> colors[..] == old(colors[..])[FirstActive(active[..count]) := newColor]
      ensures !ok ==> colors[..] == old(colors[..])
    {
      var a := GetActiveCubeIndex();
      if a != -1 {
        colors[a] := newColor;
        return true;
      }
      return false;
    }

    /** reset_active_cube_position: the first active cube returns to the current spawn point. */
    method ResetActiveCubePosition() returns (ok: bool)
      requires Valid()
      modifies positions, lastPositions, steps
      ensures ok <==> FirstActive(active[..count]) != -1
      ensures ok ==> var a := FirstActive(active[..count]);
        && positions[..] == old(positions[..])[a := SpawnPoint(CurrentSpawnPoint)]
        && lastPositions[..] == old(lastPositions[..])[a := SpawnPoint(CurrentSpawnPoint)]
        && steps[..] == old(steps[..])[a := 0]
      ensures !ok ==> unchanged(positions, lastPositions, steps)
    {
      var a := GetActiveCubeIndex();
      if a != -1 {
        var spawn := SpawnPoint(CurrentSpawnPoint);
        positions[a] := spawn;
        lastPositions[a] := positions[a];
        steps[a] := 0;
        return true;
      }
      return false;
    }

    /**
     * is_cube_in_target_zone: false for an index outside the live range,
     * otherwise whether the cube's centre lies within (or on) some zone.
     */
    method IsCubeInTargetZone(cubeIndex: int) returns (inZone: bool)
      requires Valid()
      ensures inZone <==> 0 <= cubeIndex < count
                          && exists z :: 0 <= z < |TargetZones| && InZone(positions[cubeIndex], TargetZones[z])
    {
      if cubeIndex < 0 || cubeIndex >= count {
        return false;
      }
      var pos := positions[cubeIndex];
      var k := 0;
      while k < |TargetZones|
        invariant 0 <= k <= |TargetZones|
        invariant forall z :: 0 <= z < k ==> !InZone(pos, TargetZones[z])
      {
        var zone := TargetZones[k];
        var distSq := (pos.x - zone.x) * (pos.x - zone.x) + (pos.y - zone.y) * (pos.y - zone.y);
        if zone.radius >= 0.0 && distSq <= zone.radius * zone.radius {
          return true;
        }
        k := k + 1;
      }
      return false;
    }
  }

  /** One pass of the copy loop extends the shifted range by one slot. */
  lemma ShiftDownStep<T>(s: seq<T>, index: int, k: int)
    requires 0 <= index < k < |s|
    ensures ShiftDown(s, index, k)[k - 1 := s[k]] == ShiftDown(s, index, k + 1)
    ensures ShiftDown(s, index, k)[k] == s[k]
  {
  }

  /** The first flag equal to 1, found by a left-to-right scan, is FirstActive. */
  lemma FirstActiveIsFirst(s: seq<int>, i: int)
    requires 0 <= i < |s| && s[i] == 1
    requires forall j :: 0 <= j < i ==> s[j] != 1
    ensures FirstActive(s) == i
  {
  }

  // ---------------------------------------------------------------------------
  // The CubeManager class (a list of cube records)
  // ---------------------------------------------------------------------------

  /** Floor height, gravity, bounce and random-rotation rate of CubeManager (cube_manager.py:13-16, 308). */
  const ListGravity: real := 9.8
  const ListBounce: real := 0.8
  const ListRotationSpeed: real := 5.0
  const ListFloor: real := -5.0

  datatype ListCube = ListCube(position: Vec3, rotation: Vec3, scale: Vec3, color: Color, velocity: Vec3)

  /**
   * One cube of CubeManager.update: gravity, explicit Euler step, the floor at
   * y = -5 with a bouncing velocity, and a random rotation drift (`spin` holds
   * the three uniform draws in [-1, 1]).
   */
  function FallStep(c: ListCube, dt: real, spin: Vec3): (r: ListCube)
    ensures r.position.y >= ListFloor
    ensures r.scale == c.scale && r.color == c.color
    ensures r.velocity.x == c.velocity.x && r.velocity.z == c.velocity.z
    ensures r.position.x == c.position.x + c.velocity.x * dt
    ensures r.position.z == c.position.z + c.velocity.z * dt
    ensures r.rotation.x - c.rotation.x == spin.x * ListRotationSpeed * dt
    ensures r.rotation.y - c.rotation.y == spin.y * ListRotationSpeed * dt
    ensures r.rotation.z - c.rotation.z == spin.z * ListRotationSpeed * dt
  {
    var vy := c.velocity.y - ListGravity * dt;
    var p := Vec3(c.position.x + c.velocity.x * dt, c.position.y + vy * dt, c.position.z + c.velocity.z * dt);
    var rot := Vec3(c.rotation.x + spin.x * ListRotationSpeed * dt,
                    c.rotation.y + spin.y * ListRotationSpeed * dt,
                    c.rotation.z + spin.z * ListRotationSpeed * dt);
    if p.y < ListFloor then
      ListCube(p.(y := ListFloor), rot, c.scale, c.color, c.velocity.(y := -vy * ListBounce))
    else
      ListCube(p, rot, c.scale, c.color, c.velocity.(y := vy))
  }

  /** A falling cube that reaches the floor is set onto it and its vertical velocity is reversed and damped. */
  lemma FloorBounce(c: ListCube, dt: real, spin: Vec3)
    requires c.position.y + (c.velocity.y - ListGravity * dt) * dt < ListFloor
    ensures FallStep(c, dt, spin).position.y == ListFloor
    ensures FallStep(c, dt, spin).velocity.y == -(c.velocity.y - ListGravity * dt) * ListBounce
  {
  }

  /** A cube that stays above the floor takes plain gravity: vy drops by 9.8 * dt, then y moves by the new vy * dt. */
  lemma FreeFall(c: ListCube, dt: real, spin: Vec3)
    requires c.position.y + (c.velocity.y - ListGravity * dt) * dt >= ListFloor
    ensures FallStep(c, dt, spin).velocity.y == c.velocity.y - ListGravity * dt
    ensures FallStep(c, dt, spin).position.y == c.position.y + (c.velocity.y - ListGravity * dt) * dt
  {
  }

  class CubeManager {
    var cubes: seq<ListCube>
    var selectedCubeIndex: Option<int>

    ghost predicate Valid()
      reads this
    {
      selectedCubeIndex.Some? ==> 0 <= selectedCubeIndex.value < |cubes|
    }

    /** An empty manager with nothing selected (the renderer and model loading are outside the model). */
    constructor ()
      ensures Valid() && cubes == [] && selectedCubeIndex == None
    {
      cubes := [];
      selectedCubeIndex := None;
    }

    /**
     * create_cube: appends a cube with unit scale and zero velocity and returns
     * its index. `randomPosition`, `color` and `rotation` stand for the random draws.
     */
    method CreateCube(position: Option<Vec3>, randomPosition: Vec3, color: Color, rotation: Vec3)
      returns (index: int)
      requires Valid()
      modifies this
      ensures Valid() && selectedCubeIndex == old(selectedCubeIndex)
      ensures cubes == old(cubes) + [ListCube(position.GetOr(randomPosition), rotation, Vec3(1.0, 1.0, 1.0), color, Vec3(0.0, 0.0, 0.0))]
      ensures index == |cubes| - 1 && index == |old(cubes)|
    {
      var pos := position.GetOr(randomPosition);
      cubes := cubes + [ListCube(pos, rotation, Vec3(1.0, 1.0, 1.0), color, Vec3(0.0, 0.0, 0.0))];
      index := |cubes| - 1;
    }

    /** update: every cube takes one FallStep; afterwards no cube is below the floor. */
    method Update(deltaTime: real, spins: seq<Vec3>)
      requires Valid() && |spins| == |cubes|
      modifies this
      ensures Valid() && selectedCubeIndex == old(selectedCubeIndex)
      ensures |cubes| == |old(cubes)|
      ensures forall i :: 0 <= i < |cubes| ==> cubes[i] == FallStep(old(cubes)[i], deltaTime, spins[i])
      ensures forall i :: 0 <= i < |cubes| ==> cubes[i].position.y >= ListFloor
    {
      var i := 0;
      while i < |cubes|
        invariant 0 <= i <= |cubes| == |old(cubes)|
        invariant selectedCubeIndex == old(selectedCubeIndex)
        invariant forall j :: 0 <= j < i ==> cubes[j] == FallStep(old(cubes)[j], deltaTime, spins[j])
        invariant forall j :: i <= j < |cubes| ==> cubes[j] == old(cubes)[j]
      {
        cubes := cubes[i := FallStep(cubes[i], deltaTime, spins[i])];
        i := i + 1;
      }
    }

    /** select_cube: only an index of an existing cube is accepted. */
    method SelectCube(index: int) returns (ok: bool)
      requires Valid()
      modifies this
      ensures Valid() && cubes == old(cubes)
      ensures ok <==> 0 <= index < |cubes|
      ensures selectedCubeIndex == if ok then Some(index) else old(selectedCubeIndex)
    {
      if 0 <= index < |cubes| {
        selectedCubeIndex := Some(index);
        return true;
      }
      return false;
    }

    /** apply_force_to_selected: the force is added to the selected cube's velocity; nothing else changes. */
    method ApplyForceToSelected(force: Vec3)
      requires Valid()
      modifies this
      ensures Valid() && selectedCubeIndex == old(selectedCubeIndex) && |cubes| == |old(cubes)|
      ensures selectedCubeIndex.None? ==> cubes == old(cubes)
      ensures selectedCubeIndex.Some? ==> var k := selectedCubeIndex.value;
        cubes == old(cubes)[k := old(cubes)[k].(velocity := old(cubes)[k].velocity.Add(force))]
    {
      if selectedCubeIndex.Some? {
        var k := selectedCubeIndex.value;
        cubes := cubes[k := cubes[k].(velocity := cubes[k].velocity.Add(force))];
      }
    }
  }
}
