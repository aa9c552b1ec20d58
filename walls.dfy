/**
  The wall world of the maze: axis-aligned rectangles on the horizontal XZ
  plane, and the closed-rectangle containment test that the collision scan
  decides.
 */
module Walls {

  /** A wall's bounding box on the XZ plane (main.cpp:16-18). Walls are built
      with min <= max on each axis, but nothing checks it. */
  datatype Wall = Wall(minX: real, maxX: real, minZ: real, maxZ: real) {

    /** The closed rectangle: all four bounds are inclusive. */
    predicate Contains(x: real, z: real) {
      minX <= x <= maxX && minZ <= z <= maxZ
    }
  }

  /** The one wall the maze is built with: a unit square centred on the origin. */
  const UnitWall := Wall(-0.5, 0.5, -0.5, 0.5)

  /** The point (x, z) lies inside the closed rectangle of at least one wall.
      Only which walls are present matters, not their order or repetition. */
  predicate Collides(walls: seq<Wall>, x: real, z: real)
    ensures Collides(walls, x, z) <==> exists w :: w in walls && w.Contains(x, z)
  {
    exists i :: 0 <= i < |walls| && walls[i].Contains(x, z)
  }

  /** An empty world is passable everywhere. */
  lemma NoWallsNoCollision(x: real, z: real)
    ensures !Collides([], x, z)
  {
  }

  /** Appending a wall adds exactly the points of that wall: no colliding point
      becomes free, and a free point becomes colliding only inside the new wall. */
  lemma CollidesAppend(walls: seq<Wall>, w: Wall, x: real, z: real)
    ensures Collides(walls + [w], x, z) <==> Collides(walls, x, z) || w.Contains(x, z)
  {
  }
}
