/**
  The navigation controller: the camera's angles and position and the wall
  list, which main.cpp keeps as globals, gathered in one object whose
  methods are the program's key and mouse handlers.
 */
module Navigation {
  import opened Walls
  import opened Movement
  import opened Look

  class Navigator {
    var cameraAngleX: real   // yaw
    var cameraAngleY: real   // pitch
    var cameraPosX: real
    var cameraPosY: real     // camera height, fixed for the session
    var cameraPosZ: real
    var walls: seq<Wall>

    /** The invariant the handlers keep: pitch within its limits and the
        camera outside every wall. */
    ghost predicate Valid()
      reads this
    {
      InPitchRange(cameraAngleY) && !Collides(walls, cameraPosX, cameraPosZ)
    }

    /** The camera's position on the XZ plane. */
    function Position(): Vec
      reads this
    {
      Vec(cameraPosX, cameraPosZ)
    }

    /** The camera's yaw and pitch. */
    function View(): Angles
      reads this
    {
      Angles(cameraAngleX, cameraAngleY)
    }

    /** The globals' initial values: looking straight ahead from (0, 0, 5),
        in an empty world. */
    constructor ()
      ensures cameraAngleX == 0.0 && cameraAngleY == 0.0
      ensures cameraPosX == 0.0 && cameraPosY == 0.0 && cameraPosZ == 5.0
      ensures walls == []
      ensures Valid()
    {
      cameraAngleX, cameraAngleY := 0.0, 0.0;
      cameraPosX, cameraPosY, cameraPosZ := 0.0, 0.0, 5.0;
      walls := [];
    }

    /** Builds the maze by appending its one wall, the unit square at the
        origin. The camera is untouched; it stays valid when it lies outside
        the new wall. */
    method InitMaze()
      modifies this
      ensures walls == old(walls) + [UnitWall]
      ensures cameraAngleX == old(cameraAngleX) && cameraAngleY == old(cameraAngleY)
      ensures cameraPosX == old(cameraPosX) && cameraPosY == old(cameraPosY) && cameraPosZ == old(cameraPosZ)
      ensures old(Valid()) && !UnitWall.Contains(cameraPosX, cameraPosZ) ==> Valid()
    {
      walls := walls + [UnitWall];
      CollidesAppend(old(walls), UnitWall, cameraPosX, cameraPosZ);
    }

    /** The collision scan: walks the walls in order and stops at the first
        whose closed rectangle holds (nextX, nextZ). */
    method CheckCollisionWithWalls(nextX: real, nextZ: real) returns (hit: bool)
      ensures hit <==> Collides(walls, nextX, nextZ)
    {
      for i := 0 to |walls|
        invariant forall j :: 0 <= j < i ==> !walls[j].Contains(nextX, nextZ)
      {
        if walls[i].Contains(nextX, nextZ) {
          return true;
        }
      }
      return false;
    }

    /** The key handler. sinYaw and cosYaw are the sine and cosine of the
        current yaw. The candidate position is committed when it is clear of
        every wall; otherwise the position is left exactly as it was and
        `collided` reports the rejection the handler logs. Height and angles
        never change. */
    method ProcessNormalKeys(key: char, sinYaw: real, cosYaw: real) returns (collided: bool)
      modifies this
      ensures var c := Candidate(old(Position()), key, sinYaw, cosYaw);
        && collided == Collides(walls, c.x, c.z)
        && (collided ==> cameraPosX == old(cameraPosX) && cameraPosZ == old(cameraPosZ))
        && (!collided ==> cameraPosX == c.x && cameraPosZ == c.z)
      ensures Position() == Move(walls, old(Position()), key, sinYaw, cosYaw)
      ensures cameraPosY == old(cameraPosY) && walls == old(walls)
      ensures cameraAngleX == old(cameraAngleX) && cameraAngleY == old(cameraAngleY)
      ensures old(Valid()) ==> Valid()
    {
      var fraction := Fraction;
      var deltaX, deltaZ := 0.0, 0.0;
      var lx, lz := sinYaw, -cosYaw;
      match key {
        case 'w' =>
          deltaZ := fraction * lz;
          deltaX := fraction * lx;
        case 's' =>
          deltaZ := -fraction * lz;
          deltaX := -fraction * lx;
        case 'a' =>
          deltaX := -fraction * cosYaw;
          deltaZ := -fraction * sinYaw;
        case 'd' =>
          deltaX := fraction * cosYaw;
          deltaZ := fraction * sinYaw;
        case _ =>
      }
      assert Vec(deltaX, deltaZ) == Displacement(key, sinYaw, cosYaw);

      var nextX := cameraPosX + deltaX;
      var nextZ := cameraPosZ + deltaZ;
      collided := CheckCollisionWithWalls(nextX, nextZ);
      if !collided {
        cameraPosX := nextX;
        cameraPosZ := nextZ;
      }
    }

    /** The mouse handler: (x, y) is the pointer and the window is
        windowWidth by windowHeight; the deltas are measured from the
        window's centre in int arithmetic. Only the angles change, as Turn
        says: zero deltas change nothing, yaw moves by dx times the
        sensitivity, and pitch stays within its limits. */
    method MouseMove(x: int, y: int, windowWidth: int, windowHeight: int)
      modifies this
      ensures var m := Motion(x - HalfTowardZero(windowWidth), y - HalfTowardZero(windowHeight));
        View() == Turn(old(View()), m)
      ensures x == HalfTowardZero(windowWidth) && y == HalfTowardZero(windowHeight) ==>
        cameraAngleX == old(cameraAngleX) && cameraAngleY == old(cameraAngleY)
      ensures cameraPosX == old(cameraPosX) && cameraPosY == old(cameraPosY) && cameraPosZ == old(cameraPosZ)
      ensures walls == old(walls)
      ensures old(Valid()) ==> Valid()
    {
      var deltaX := x - HalfTowardZero(windowWidth);
      var deltaY := y - HalfTowardZero(windowHeight);

      if deltaX != 0 || deltaY != 0 {
        cameraAngleX := cameraAngleX + deltaX as real * Sensitivity;
        cameraAngleY := cameraAngleY - deltaY as real * Sensitivity;

        if cameraAngleY < -PitchLimit {
          cameraAngleY := -PitchLimit;
        } else if cameraAngleY > PitchLimit {
          cameraAngleY := PitchLimit;
        }
      }
    }
  }

  /** Start-up as main performs it: the globals at their initial values, then
      the maze built. The camera at (0, 5) lies outside the unit wall, so the
      handlers' invariant holds from the first event on. */
  method StartNavigation() returns (nav: Navigator)
    ensures fresh(nav) && nav.Valid()
    ensures nav.walls == [UnitWall]
    ensures nav.Position() == Vec(0.0, 5.0) && nav.cameraPosY == 0.0
    ensures nav.View() == Angles(0.0, 0.0)
  {
    nav := new Navigator();
    nav.InitMaze();
  }
}
