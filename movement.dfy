/**
  Keyboard movement with reject-on-collision, as pure functions on positions:
  the displacement a key asks for, the candidate position, the all-or-nothing
  move, and runs of key presses at a fixed yaw (the key handler never turns
  the camera, so consecutive presses see the same sin and cos of the yaw).
 */
module Movement {
  import opened Walls

  /** A position or a displacement on the XZ plane. */
  datatype Vec = Vec(x: real, z: real)

  /** Step length of one key press (main.cpp:85). */
  const Fraction: real := 0.1

  /** The four keys the handler recognises: forward, backward, strafe left, strafe right. */
  predicate IsMoveKey(key: char) {
    key == 'w' || key == 's' || key == 'a' || key == 'd'
  }

  function Neg(v: Vec): Vec {
    Vec(-v.x, -v.z)
  }

  function Dot(u: Vec, v: Vec): real {
    u.x * v.x + u.z * v.z
  }

  /** The (deltaX, deltaZ) that processNormalKeys derives from a key, given the
      sine and cosine of the current yaw; the forward direction is (sin, -cos)
      and the right direction (cos, sin). Forward and backward steps run along
      the forward axis, strafes along the right axis, every recognised key's
      step is Fraction times the length of (sin, cos), and any other key asks
      for no displacement at all. */
  function Displacement(key: char, sinYaw: real, cosYaw: real): (d: Vec)
    ensures key == 'w' || key == 's' ==> Dot(d, Vec(cosYaw, sinYaw)) == 0.0
    ensures key == 'a' || key == 'd' ==> Dot(d, Vec(sinYaw, -cosYaw)) == 0.0
    ensures IsMoveKey(key) ==> Dot(d, d) == Fraction * Fraction * (sinYaw * sinYaw + cosYaw * cosYaw)
    ensures !IsMoveKey(key) ==> d == Vec(0.0, 0.0)
  {
    var lx, lz := sinYaw, -cosYaw;
    match key
    case 'w' => Vec(Fraction * lx, Fraction * lz)
    case 's' => Vec(-Fraction * lx, -Fraction * lz)
    case 'a' => Vec(-Fraction * cosYaw, -Fraction * sinYaw)
    case 'd' => Vec(Fraction * cosYaw, Fraction * sinYaw)
    case _ => Vec(0.0, 0.0)
  }

  /** The position the key press proposes: the current one plus the
      displacement. An unrecognised key proposes the current position; a
      recognised one proposes a point one step length away when sin and cos
      lie on the unit circle. */
  function Candidate(p: Vec, key: char, sinYaw: real, cosYaw: real): (c: Vec)
    ensures !IsMoveKey(key) ==> c == p
    ensures IsMoveKey(key) && sinYaw * sinYaw + cosYaw * cosYaw == 1.0 ==>
      (c.x - p.x) * (c.x - p.x) + (c.z - p.z) * (c.z - p.z) == Fraction * Fraction
  {
    var d := Displacement(key, sinYaw, cosYaw);
    Vec(p.x + d.x, p.z + d.z)
  }

  /** One key press: the candidate is committed unless it lies in a wall, in
      which case the position is left as it was. The result is all or nothing,
      and a camera outside every wall stays outside every wall. */
  function Move(walls: seq<Wall>, p: Vec, key: char, sinYaw: real, cosYaw: real): (q: Vec)
    ensures q == p || q == Candidate(p, key, sinYaw, cosYaw)
    ensures !Collides(walls, p.x, p.z) ==> !Collides(walls, q.x, q.z)
  {
    var c := Candidate(p, key, sinYaw, cosYaw);
    if Collides(walls, c.x, c.z) then p else c
  }

  /** A sequence of key presses handled one after another at a fixed yaw. */
  function Run(walls: seq<Wall>, p: Vec, keys: seq<char>, sinYaw: real, cosYaw: real): Vec
    decreases |keys|
  {
    if keys == [] then p
    else Run(walls, Move(walls, p, keys[0], sinYaw, cosYaw), keys[1..], sinYaw, cosYaw)
  }

  /** The same key pressed n times. */
  function Repeat(key: char, n: nat): (keys: seq<char>)
    ensures |keys| == n
    ensures forall i :: 0 <= i < n ==> keys[i] == key
  {
    if n == 0 then [] else [key] + Repeat(key, n - 1)
  }

  /** n + m presses of one key are n presses followed by m presses. */
  lemma RepeatSplit(key: char, n: nat, m: nat)
    ensures Repeat(key, n + m) == Repeat(key, n) + Repeat(key, m)
  {
  }

  /** A key other than w/s/a/d leaves the camera where it is. */
  lemma UnrecognizedKeyStaysPut(walls: seq<Wall>, p: Vec, key: char, sinYaw: real, cosYaw: real)
    requires !IsMoveKey(key)
    ensures Displacement(key, sinYaw, cosYaw) == Vec(0.0, 0.0)
    ensures Candidate(p, key, sinYaw, cosYaw) == p
    ensures Move(walls, p, key, sinYaw, cosYaw) == p
  {
  }

  /** Backward undoes forward and strafe-right undoes strafe-left, exactly. */
  lemma OppositeKeys(sinYaw: real, cosYaw: real)
    ensures Displacement('s', sinYaw, cosYaw) == Neg(Displacement('w', sinYaw, cosYaw))
    ensures Displacement('a', sinYaw, cosYaw) == Neg(Displacement('d', sinYaw, cosYaw))
  {
  }

  /** Strafing is at right angles to the forward direction. */
  lemma StrafeIsPerpendicular(sinYaw: real, cosYaw: real)
    ensures Dot(Displacement('w', sinYaw, cosYaw), Displacement('d', sinYaw, cosYaw)) == 0.0
    ensures Dot(Displacement('w', sinYaw, cosYaw), Displacement('a', sinYaw, cosYaw)) == 0.0
  {
  }

  /** When sin and cos are those of one angle, every recognised key moves the
      candidate by exactly one step length. */
  lemma StepLength(key: char, sinYaw: real, cosYaw: real)
    requires IsMoveKey(key)
    requires sinYaw * sinYaw + cosYaw * cosYaw == 1.0
    ensures Dot(Displacement(key, sinYaw, cosYaw), Displacement(key, sinYaw, cosYaw)) == Fraction * Fraction
  {
  }

  /** Running two batches of presses is running their concatenation. */
  lemma {:induction false} RunAppend(walls: seq<Wall>, p: Vec, ks1: seq<char>, ks2: seq<char>, sinYaw: real, cosYaw: real)
    ensures Run(walls, p, ks1 + ks2, sinYaw, cosYaw) == Run(walls, Run(walls, p, ks1, sinYaw, cosYaw), ks2, sinYaw, cosYaw)
    decreases |ks1|
  {
    if ks1 != [] {
      assert (ks1 + ks2)[0] == ks1[0];
      assert (ks1 + ks2)[1..] == ks1[1..] + ks2;
      RunAppend(walls, Move(walls, p, ks1[0], sinYaw, cosYaw), ks1[1..], ks2, sinYaw, cosYaw);
    } else {
      assert ks1 + ks2 == ks2;
    }
  }

  /** Never enters a wall: a camera that starts outside every wall is outside
      every wall after any sequence of key presses. */
  lemma {:induction false} RunStaysOutside(walls: seq<Wall>, p: Vec, keys: seq<char>, sinYaw: real, cosYaw: real)
    requires !Collides(walls, p.x, p.z)
    ensures var q := Run(walls, p, keys, sinYaw, cosYaw); !Collides(walls, q.x, q.z)
    decreases |keys|
  {
    if keys != [] {
      RunStaysOutside(walls, Move(walls, p, keys[0], sinYaw, cosYaw), keys[1..], sinYaw, cosYaw);
    }
  }

  /** A rejected move is idempotent: pressing the same key again and again
      from a position whose candidate lies in a wall never moves the camera. */
  lemma {:induction false} RejectedKeyRepeats(walls: seq<Wall>, p: Vec, key: char, n: nat, sinYaw: real, cosYaw: real)
    requires var c := Candidate(p, key, sinYaw, cosYaw); Collides(walls, c.x, c.z)
    ensures Run(walls, p, Repeat(key, n), sinYaw, cosYaw) == p
  {
    if n > 0 {
      var keys := Repeat(key, n);
      assert keys[0] == key && keys[1..] == Repeat(key, n - 1);
      assert Move(walls, p, key, sinYaw, cosYaw) == p;
      RejectedKeyRepeats(walls, p, key, n - 1, sinYaw, cosYaw);
    }
  }

  /** Strafe left then strafe right from an unobstructed position, when the
      first step is accepted, brings the camera back exactly. */
  lemma StrafeRoundTrip(walls: seq<Wall>, p: Vec, sinYaw: real, cosYaw: real)
    requires !Collides(walls, p.x, p.z)
    requires var c := Candidate(p, 'a', sinYaw, cosYaw); !Collides(walls, c.x, c.z)
    ensures Run(walls, p, ['a', 'd'], sinYaw, cosYaw) == p
  {
  }

  /** Walking forward at yaw 0 (sin 0, cos 1) along x = 0 toward the unit wall:
      while every candidate stays beyond the wall's far edge z = 0.5, each of
      the n presses is accepted and moves the camera one step toward the wall. */
  lemma {:induction false} ForwardUnobstructed(z: real, n: nat)
    requires z - n as real * Fraction > 0.5
    ensures Run([UnitWall], Vec(0.0, z), Repeat('w', n), 0.0, 1.0) == Vec(0.0, z - n as real * Fraction)
    decreases n
  {
    if n > 0 {
      var keys := Repeat('w', n);
      assert keys[0] == 'w' && keys[1..] == Repeat('w', n - 1);
      var c := Candidate(Vec(0.0, z), 'w', 0.0, 1.0);
      assert c == Vec(0.0, z - Fraction);
      assert !UnitWall.Contains(c.x, c.z);
      assert !Collides([UnitWall], c.x, c.z);
      ForwardUnobstructed(z - Fraction, n - 1);
    }
  }

  /** Walking forward at yaw 0 from (0, z) toward the unit wall: after the m
      presses that keep clear of it, the next candidate lands in the wall, so
      every press from the m-th on is rejected and the camera stays put. */
  lemma WalkUntilBlocked(z: real, m: nat, n: nat)
    requires z - m as real * Fraction > 0.5
    requires -0.5 <= z - (m + 1) as real * Fraction <= 0.5
    requires n >= m
    ensures Run([UnitWall], Vec(0.0, z), Repeat('w', n), 0.0, 1.0) == Vec(0.0, z - m as real * Fraction)
  {
    var walls, stop := [UnitWall], Vec(0.0, z - m as real * Fraction);
    RepeatSplit('w', m, n - m);
    RunAppend(walls, Vec(0.0, z), Repeat('w', m), Repeat('w', n - m), 0.0, 1.0);
    ForwardUnobstructed(z, m);
    var c := Candidate(stop, 'w', 0.0, 1.0);
    assert c == Vec(0.0, z - (m + 1) as real * Fraction);
    assert walls[0].Contains(c.x, c.z);
    RejectedKeyRepeats(walls, stop, 'w', n - m, 0.0, 1.0);
  }

  /** The approach from the starting point (0, 5), in exact arithmetic:
      forty-four forward presses reach z = 0.6, the next candidate z = 0.5
      lies on the wall's closed edge and is rejected, and from then on the
      camera stays at (0, 0.6). */
  lemma ForwardIntoWall(n: nat)
    requires n >= 44
    ensures Run([UnitWall], Vec(0.0, 5.0), Repeat('w', n), 0.0, 1.0) == Vec(0.0, 0.6)
  {
    WalkUntilBlocked(5.0, 44, n);
  }
}
