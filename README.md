# Verified model of the simple_maze navigation core

simple_maze is a small first-person maze demo. A camera walks on a flat XZ
plane among axis-aligned rectangular walls. The keys `w`/`s`/`a`/`d` move the
camera forward, backward, left and right by a fixed step. A move whose end
point lies inside any wall is rejected whole. The mouse turns the camera
(yaw) and tilts it (pitch), and pitch is clamped to [-1.5, 1.5] radians.

The model has four modules:

- `Walls` (walls.dfy): the `Wall` rectangle, its closed containment test,
  and `Collides`, which says whether a point lies in any wall of a list.
- `Movement` (movement.dfy): the displacement each key asks for, the
  candidate position, the all-or-nothing `Move`, and `Run`, which handles a
  sequence of presses. Its lemmas cover walls never being entered, rejected
  moves being idempotent, the strafe round trip, and the walk from the start
  point into the wall.
- `Look` (look.dfy): the centre-relative pointer deltas, the pitch clamp,
  `Turn` for one motion, and `LookRun` for a sequence of motions.
- `Navigation` (navigation.dfy): the class `Navigator`. Its fields are the
  program's globals: `cameraAngleX` (yaw), `cameraAngleY` (pitch),
  `cameraPosX`, `cameraPosY`, `cameraPosZ` and `walls`. Its methods are
  `initMaze`, the collision scan, the key handler and the mouse handler.
  Each method's `ensures` ties the new state to the pure functions above.
  The invariant `Valid()` says that pitch is in range and the camera is
  outside every wall. The constructor and `StartNavigation` establish it.
  `ProcessNormalKeys` and `MouseMove` preserve it. `InitMaze` preserves it
  when the camera lies outside the new wall. `CheckCollisionWithWalls`
  changes no state.

Coordinates and angles are `real`. The key handler's sine and cosine of the
yaw are parameters (`sinYaw`, `cosYaw`) supplied by the caller. The mouse
handler takes the window size as parameters too.

Two details of the code are modelled as written:

- An unrecognised key gives displacement (0, 0), and `processNormalKeys`
  still runs the collision test on the unchanged position (main.cpp:114-117).
  The camera stays where it is whatever the walls are
  (`UnrecognizedKeyStaysPut`). What the test decides is only `collided`:
  under `Valid()` the position is free and no collision is reported, but a
  camera inside a wall would report a collision for any unrecognised key.
- The mouse deltas are `x - windowWidth / 2` and `y - windowHeight / 2` in
  C int arithmetic, whose division truncates toward zero (main.cpp:133-134).
  `HalfTowardZero` models that division.

## Model

| member | source | states |
|---|---|---|
| `Walls.Collides` | CGB_HW01/main.cpp:30-38 | The point collides iff some wall in the list holds it in its closed rectangle; the order of the walls does not matter. |
| `Movement.Displacement` | CGB_HW01/main.cpp:87-112 | w/s step along the forward axis (sin, -cos), a/d along the right axis (cos, sin); each recognised step has squared length 0.1^2 (sin^2 + cos^2); any other key gives (0, 0). |
| `Movement.Candidate` | CGB_HW01/main.cpp:114-115 | The old position plus the displacement: an unrecognised key proposes the current position, a recognised key a point one step length (0.1) away on the unit circle. |
| `Navigation.Navigator.CheckCollisionWithWalls` | CGB_HW01/main.cpp:30-38 | The early-return scan answers true exactly when some wall has minX <= x <= maxX and minZ <= z <= maxZ. All four bounds are inclusive. |
| `Walls.NoWallsNoCollision` | CGB_HW01/main.cpp:31-37 | With no walls, no point collides. |
| `Walls.CollidesAppend` | CGB_HW01/main.cpp:23-37 | After a wall is appended, a point collides iff it collided before or lies in the new wall. So appending never frees a colliding point. |
| `Navigation.Navigator.InitMaze` | CGB_HW01/main.cpp:23-28 | The wall list becomes the old list plus the unit square at the origin. The camera is untouched. The invariant survives when the camera lies outside the new wall. |
| `Navigation.Navigator.constructor` | CGB_HW01/main.cpp:7-20 | The initial state: angles 0, position (0, 0, 5), no walls. The invariant holds. |
| `Navigation.StartNavigation` | CGB_HW01/main.cpp:162 | After start-up the world is the one unit wall and the camera is at (0, 5), looking ahead. The invariant holds, because (0, 5) is outside the wall. |
| `Navigation.Navigator.ProcessNormalKeys` | CGB_HW01/main.cpp:84-125 | If the candidate (old position + displacement) collides, x and z are unchanged and the collision is reported. Otherwise the new position is exactly the candidate. Height, angles and walls never change. The invariant is preserved. |
| `Movement.Move` | CGB_HW01/main.cpp:114-121 | One press either leaves the position as it was or moves it to the candidate; there is no sliding and no partial move. A camera outside every wall stays outside. |
| `Movement.UnrecognizedKeyStaysPut` | CGB_HW01/main.cpp:87-112 | A key other than w/s/a/d gives displacement (0, 0), the candidate is the current position, and the move leaves the camera where it is. |
| `Movement.OppositeKeys` | CGB_HW01/main.cpp:93-111 | In exact arithmetic, backward is the negation of forward and strafe-left is the negation of strafe-right. |
| `Movement.StrafeIsPerpendicular` | CGB_HW01/main.cpp:90-111 | Strafe displacements are orthogonal to the forward displacement. |
| `Movement.StepLength` | CGB_HW01/main.cpp:85-111 | When sinYaw^2 + cosYaw^2 = 1, every recognised key moves the candidate by exactly the step length 0.1. |
| `Movement.RunStaysOutside` | CGB_HW01/main.cpp:117-121 | A camera that starts outside every wall is outside every wall after any sequence of presses. |
| `Movement.RejectedKeyRepeats` | CGB_HW01/main.cpp:114-124 | If a key's candidate collides, pressing that key any number of times leaves the position unchanged. |
| `Movement.StrafeRoundTrip` | CGB_HW01/main.cpp:102-121 | From a free position whose strafe-left candidate is free, pressing `a` then `d` returns exactly to the start (exact arithmetic). |
| `Movement.ForwardUnobstructed` | CGB_HW01/main.cpp:94-121 | Walking forward at yaw 0 toward the unit wall, n presses whose candidates stay clear each move the camera 0.1 closer. |
| `Movement.WalkUntilBlocked` | CGB_HW01/main.cpp:94-124 | Once the next forward candidate falls inside the wall, every later forward press is rejected. The camera stays at the last accepted position. |
| `Movement.ForwardIntoWall` | CGB_HW01/main.cpp:11-124 | In exact arithmetic, from (0, 5) at yaw 0, any n >= 44 forward presses end at (0, 0.6). The 45th candidate, z = 0.5, lies on the wall's closed edge. |
| `Navigation.Navigator.MouseMove` | CGB_HW01/main.cpp:127-150 | The angles become `Turn` of the old angles and the centre-relative deltas. A pointer at the centre changes nothing. The position and the walls never change. The invariant is preserved. |
| `Look.HalfTowardZero` | CGB_HW01/main.cpp:133-134 | C int `n / 2`: the result is half of n, rounded toward zero, for both signs. |
| `Look.ClampPitch` | CGB_HW01/main.cpp:141-145 | The result lies in [-1.5, 1.5]. An in-range pitch is kept. The result is the in-range value nearest the requested pitch. |
| `Look.Turn` | CGB_HW01/main.cpp:137-146 | Yaw changes by exactly dx * 0.001. Zero deltas leave yaw and pitch unchanged. A non-zero motion sets pitch to the clamp of old pitch - dy * 0.001. An in-range pitch stays in range. |
| `Look.TiltWithinLimits` | CGB_HW01/main.cpp:137-145 | A non-zero motion whose tilt stays within the limits moves pitch by exactly -dy * 0.001. |
| `Look.OvershootPinsPitch` | CGB_HW01/main.cpp:139-145 | From an in-range pitch, a motion that would push pitch past +/-1.5 leaves it exactly at +/-1.5. |
| `Look.LookRunBounds` | CGB_HW01/main.cpp:137-146 | After any sequence of motions, pitch is still in [-1.5, 1.5]. Yaw has moved by exactly 0.001 times the total dx. |

## Left out

- Rendering, projection and window setup are not modelled: `display`, `reshape` and `main`'s GLUT calls and callback registration (main.cpp:40-82, 153-181). Start-up is kept as `StartNavigation`.
- `glutGet` and `glutWarpPointer` are windowing I/O. The window size is a parameter of `MouseMove`, and re-centring the pointer is not modelled.
- The "Collision" line written to standard output is modelled as the `collided` result of `ProcessNormalKeys`. The output itself is not modelled.
- The key handler's unused pointer arguments `x` and `y` are dropped.
- IEEE single-precision rounding is not modelled. Coordinates are exact reals, and 0.1f, 0.001f and 1.5f are taken as the exact decimals. `OppositeKeys` holds in single precision too, because negating a factor negates a rounded product exactly. `StrafeRoundTrip` holds exactly here but only approximately in the program, because the additions at main.cpp:114-115 round.
- The 32-bit range of `int` is not modelled. `x - windowWidth / 2` is unbounded.
- Movement.ForwardIntoWall: the stop at (0, 0.6) is an exact-arithmetic result. In single precision the accumulated steps give a 45th candidate just above 0.5, which is accepted, so the program stops one press later, near z = 0.5.
- Navigation.Navigator.ProcessNormalKeys: `sinYaw` and `cosYaw` are not tied to `cameraAngleX`, because sine and cosine have no definition here. The caller is trusted to pass the sine and cosine of the current yaw. `StepLength` assumes only that they lie on the unit circle.
- Collision is tested only at the end point of a step, as in the program. Swept collision, and tunnelling through thin walls with large steps, are not modelled.
