/**
 * The tunable constants of config.py that the simulation core reads.
 * Decimal literals are exact reals here; the source stores them as
 * binary floating point (the inner walls as 32-bit floats).
 */
module Config {
  import opened Geometry

  /** Relative size of the playing field (config.py:12-13). */
  const FieldWidth: real := 0.8
  const FieldHeight: real := 0.8

  /** Thickness of the inner walls (config.py:42). */
  const WallThickness: real := 0.02

  /** Cube size limits and defaults (config.py:52-55). */
  const DefaultCubeSize: real := 0.08
  const MinCubeSize: real := 0.03
  const MaxCubeSize: real := 0.15
  const DefaultCubeColor: Color := Color(0.9, 0.2, 0.3)

  /** Spawn points and the selected one (config.py:81-86). */
  const SpawnPoints: seq<Vec2> := [Vec2(0.5, 0.5), Vec2(0.3, 0.2), Vec2(0.7, 0.8)]
  const CurrentSpawnPoint: int := 0

  /** A circular goal area: centre and radius (config.py:89-91). */
  datatype Zone = Zone(x: real, y: real, radius: real)
  const TargetZones: seq<Zone> := [Zone(0.7, 0.2, 0.1)]

  /** An inner wall segment from (x1, y1) to (x2, y2) (config.py:99-105). */
  datatype Wall = Wall(x1: real, y1: real, x2: real, y2: real)
  const InnerWalls: seq<Wall> := [
    Wall(0.3, 0.3, 0.7, 0.3),  // horizontal wall
    Wall(0.7, 0.3, 0.7, 0.7),  // vertical wall right
    Wall(0.3, 0.7, 0.3, 0.5),  // vertical wall left top
    Wall(0.3, 0.5, 0.5, 0.5)   // horizontal wall centre
  ]
}
