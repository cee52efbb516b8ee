/**
 * The wall test of collision.py: does a cube, seen as an axis-aligned box of
 * half-extent size/2 around its centre, touch the outer field bounds or come
 * within the wall thickness of an inner wall segment?
 */
module Collision {
  import opened Geometry
  import opened Config

  /** The axis-aligned box of a cube. */
  datatype Box = Box(minX: real, maxX: real, minY: real, maxY: real)

  function CubeBox(pos: Vec2, size: real): (b: Box)
    ensures b.maxX - b.minX == size && b.maxY - b.minY == size
    ensures b.minX + b.maxX == 2.0 * pos.x && b.minY + b.maxY == 2.0 * pos.y
  {
    Box(pos.x - size / 2.0, pos.x + size / 2.0, pos.y - size / 2.0, pos.y + size / 2.0)
  }

  /** The field is centred on 0.5 with the configured width and height. */
  function FieldMinX(): (r: real)
    ensures r == 0.1 && 2.0 * r + FieldWidth == 1.0
  {
    (1.0 - FieldWidth) / 2.0
  }

  function FieldMaxX(): (r: real)
    ensures r == 0.9 && r - FieldMinX() == FieldWidth
  {
    FieldMinX() + FieldWidth
  }

  function FieldMinY(): (r: real)
    ensures r == 0.1 && 2.0 * r + FieldHeight == 1.0
  {
    (1.0 - FieldHeight) / 2.0
  }

  function FieldMaxY(): (r: real)
    ensures r == 0.9 && r - FieldMinY() == FieldHeight
  {
    FieldMinY() + FieldHeight
  }

  /** The box touches or crosses an outer bound (all four comparisons non-strict). */
  predicate HitsOuterBounds(b: Box)
  {
    b.minX <= FieldMinX() || b.maxX >= FieldMaxX() || b.minY <= FieldMinY() || b.maxY >= FieldMaxY()
  }

  /**
   * The outer-bounds test read on the cube's centre: a cube is clear of all
   * four bounds exactly when its centre lies more than half its size inside
   * each of them; a cube at least as wide as the field always touches one.
   */
  lemma OuterBoundsByCentre(pos: Vec2, size: real)
    ensures !HitsOuterBounds(CubeBox(pos, size)) <==>
      && FieldMinX() + size / 2.0 < pos.x < FieldMaxX() - size / 2.0
      && FieldMinY() + size / 2.0 < pos.y < FieldMaxY() - size / 2.0
    ensures size >= FieldWidth ==> HitsOuterBounds(CubeBox(pos, size))
  {
  }

  /**
   * A wall is looked at only when it overlaps the box in x (from x1 to x2 as
   * written, not normalised) and, widened by half the thickness, in y.
   */
  predicate WallExamined(w: Wall, b: Box)
  {
    (w.x1 <= b.maxX && w.x2 >= b.minX)
    && (Min(w.y1, w.y2) - WallThickness / 2.0 <= b.maxY && Max(w.y1, w.y2) + WallThickness / 2.0 >= b.minY)
  }

  /** A near-vertical wall triggers when a vertical box edge is within the thickness of its x. */
  predicate VerticalTriggers(w: Wall, b: Box)
  {
    Abs(w.x1 - w.x2) < WallThickness
    && (Abs(b.minX - w.x1) < WallThickness || Abs(b.maxX - w.x1) < WallThickness)
  }

  /** A near-horizontal wall triggers when a horizontal box edge is within the thickness of its y. */
  predicate HorizontalTriggers(w: Wall, b: Box)
  {
    Abs(w.y1 - w.y2) < WallThickness
    && (Abs(b.minY - w.y1) < WallThickness || Abs(b.maxY - w.y1) < WallThickness)
  }

  predicate WallTriggers(w: Wall, b: Box)
  {
    WallExamined(w, b) && (VerticalTriggers(w, b) || HorizontalTriggers(w, b))
  }

  /**
   * A box edge lying on a wall's line, while the box meets the wall's span,
   * triggers: a vertical edge on a vertical wall, a horizontal edge on a
   * horizontal wall.
   */
  lemma EdgeOnWallTriggers(w: Wall, b: Box)
    requires b.minX <= b.maxX && b.minY <= b.maxY
    ensures (&& w.x1 == w.x2 && (b.minX == w.x1 || b.maxX == w.x1)
             && Min(w.y1, w.y2) <= b.maxY && Max(w.y1, w.y2) >= b.minY) ==> WallTriggers(w, b)
    ensures (&& w.y1 == w.y2 && (b.minY == w.y1 || b.maxY == w.y1)
             && w.x1 <= b.maxX && w.x2 >= b.minX) ==> WallTriggers(w, b)
  {
  }

  /** The loop over the inner walls: the first triggering wall ends it with true. */
  function HitsInnerWalls(walls: seq<Wall>, b: Box): bool
  {
    if |walls| == 0 then false
    else if WallTriggers(walls[0], b) then true
    else HitsInnerWalls(walls[1..], b)
  }

  lemma {:induction false} HitsInnerWallsIffSomeWallTriggers(walls: seq<Wall>, b: Box)
    ensures HitsInnerWalls(walls, b) <==> exists i :: 0 <= i < |walls| && WallTriggers(walls[i], b)
  {
    if |walls| > 0 {
      HitsInnerWallsIffSomeWallTriggers(walls[1..], b);
      if !WallTriggers(walls[0], b) && HitsInnerWalls(walls[1..], b) {
        var i :| 0 <= i < |walls[1..]| && WallTriggers(walls[1..][i], b);
        assert WallTriggers(walls[i + 1], b);
      }
      if exists i :: 0 <= i < |walls| && WallTriggers(walls[i], b) {
        var i :| 0 <= i < |walls| && WallTriggers(walls[i], b);
        if i > 0 {
          assert WallTriggers(walls[1..][i - 1], b);
        }
      }
    }
  }

  /**
   * check_collision: true exactly when the cube's box touches an outer bound or
   * some inner wall triggers; it depends on nothing but its arguments and the
   * configured constants.
   */
  function CheckCollision(pos: Vec2, size: real): (hit: bool)
    ensures HitsOuterBounds(CubeBox(pos, size)) ==> hit
    ensures hit <==> HitsOuterBounds(CubeBox(pos, size))
                     || exists i :: 0 <= i < |InnerWalls| && WallTriggers(InnerWalls[i], CubeBox(pos, size))
  {
    HitsInnerWallsIffSomeWallTriggers(InnerWalls, CubeBox(pos, size));
    HitsOuterBounds(CubeBox(pos, size)) || HitsInnerWalls(InnerWalls, CubeBox(pos, size))
  }

  /** A cube whose box reaches exactly to the left bound already collides. */
  lemma TouchingLeftBoundCollides(pos: Vec2, size: real)
    requires pos.x - size / 2.0 == FieldMinX()
    ensures CheckCollision(pos, size)
  {
  }

  /** Inside the field and clear of every wall, there is no collision. */
  lemma ClearCubeDoesNotCollide(pos: Vec2, size: real)
    requires !HitsOuterBounds(CubeBox(pos, size))
    requires forall i :: 0 <= i < |InnerWalls| ==> !WallTriggers(InnerWalls[i], CubeBox(pos, size))
    ensures !CheckCollision(pos, size)
  {
  }

  /**
   * The test looks at box edges near a wall, not at boxes that straddle one:
   * the default cube at the default spawn point (0.5, 0.5) straddles the
   * horizontal centre wall at y = 0.5, yet no collision is reported.
   */
  lemma StraddlingSpawnCubeIsNotReported()
    ensures CubeBox(SpawnPoints[0], DefaultCubeSize).minY < InnerWalls[3].y1 < CubeBox(SpawnPoints[0], DefaultCubeSize).maxY
    ensures !CheckCollision(SpawnPoints[0], DefaultCubeSize)
  {
    var b := CubeBox(SpawnPoints[0], DefaultCubeSize);
    assert !WallTriggers(InnerWalls[0], b);
    assert !WallTriggers(InnerWalls[1], b);
    assert !WallTriggers(InnerWalls[2], b);
    assert !WallTriggers(InnerWalls[3], b);
  }
}
