/**
  Mouse look as pure functions: pointer deltas measured from the window
  centre turn the camera (yaw) and tilt it (pitch), and pitch is clamped so
  that the view never flips over.
 */
module Look {

  /** Radians of turn per pixel of pointer motion (main.cpp:138-139). */
  const Sensitivity: real := 0.001

  /** Largest pitch, up or down, in radians (main.cpp:142-145). */
  const PitchLimit: real := 1.5

  /** Yaw (cameraAngleX) and pitch (cameraAngleY). */
  datatype Angles = Angles(yaw: real, pitch: real)

  /** One pointer motion, already measured from the window centre. */
  datatype Motion = Motion(dx: int, dy: int)

  predicate InPitchRange(p: real) {
    -PitchLimit <= p <= PitchLimit
  }

  function Dist(a: real, b: real): real {
    if a <= b then b - a else a - b
  }

  /** C's `n / 2` on int, which truncates toward zero (Dafny's `/` floors for
      a positive divisor). The result is the half of n rounded toward zero. */
  function HalfTowardZero(n: int): (h: int)
    ensures n >= 0 ==> 0 <= n - 2 * h <= 1
    ensures n < 0 ==> -1 <= n - 2 * h <= 0
  {
    if n >= 0 then n / 2 else -((-n) / 2)
  }

  /** The vertical clamp of mouseMove: below the range goes to its lower end,
      above it to its upper end. The result is in range, a pitch already in
      range is kept, and in general the result is the in-range pitch nearest
      to the requested one. */
  function ClampPitch(p: real): (r: real)
    ensures InPitchRange(r)
    ensures InPitchRange(p) ==> r == p
    ensures forall q :: InPitchRange(q) ==> Dist(r, p) <= Dist(q, p)
  {
    if p < -PitchLimit then -PitchLimit
    else if p > PitchLimit then PitchLimit
    else p
  }

  /** mouseMove's update of the angles for one pointer motion: nothing happens
      when both deltas are zero; otherwise yaw grows with dx, pitch falls with
      dy, and pitch is clamped. */
  function Turn(a: Angles, m: Motion): (b: Angles)
    ensures b.yaw == a.yaw + m.dx as real * Sensitivity
    ensures m.dx == 0 && m.dy == 0 ==> b == a
    ensures InPitchRange(a.pitch) ==> InPitchRange(b.pitch)
    ensures m.dx != 0 || m.dy != 0 ==> b.pitch == ClampPitch(a.pitch - m.dy as real * Sensitivity)
  {
    if m.dx != 0 || m.dy != 0 then
      Angles(a.yaw + m.dx as real * Sensitivity, ClampPitch(a.pitch - m.dy as real * Sensitivity))
    else
      a
  }

  /** A motion that would push pitch past a limit leaves it exactly at that
      limit, never beyond. */
  lemma OvershootPinsPitch(a: Angles, m: Motion)
    requires InPitchRange(a.pitch)
    ensures a.pitch - m.dy as real * Sensitivity > PitchLimit ==> Turn(a, m).pitch == PitchLimit
    ensures a.pitch - m.dy as real * Sensitivity < -PitchLimit ==> Turn(a, m).pitch == -PitchLimit
  {
  }

  /** A non-zero motion whose tilt keeps pitch within its limits moves pitch
      by exactly dy times the sensitivity, downward for positive dy. */
  lemma TiltWithinLimits(a: Angles, m: Motion)
    requires m.dx != 0 || m.dy != 0
    requires InPitchRange(a.pitch - m.dy as real * Sensitivity)
    ensures Turn(a, m).pitch == a.pitch - m.dy as real * Sensitivity
  {
  }

  /** Pointer motions handled one after another. */
  function LookRun(a: Angles, ms: seq<Motion>): Angles
    decreases |ms|
  {
    if ms == [] then a else LookRun(Turn(a, ms[0]), ms[1..])
  }

  /** Total horizontal pointer motion. */
  function SumDx(ms: seq<Motion>): int
    decreases |ms|
  {
    if ms == [] then 0 else ms[0].dx + SumDx(ms[1..])
  }

  /** After any sequence of pointer motions, pitch is still within its limits
      (if it started there, as it does at 0) and yaw has moved by exactly the
      total horizontal motion times the sensitivity. */
  lemma {:induction false} LookRunBounds(a: Angles, ms: seq<Motion>)
    requires InPitchRange(a.pitch)
    ensures InPitchRange(LookRun(a, ms).pitch)
    ensures LookRun(a, ms).yaw == a.yaw + SumDx(ms) as real * Sensitivity
    decreases |ms|
  {
    if ms != [] {
      LookRunBounds(Turn(a, ms[0]), ms[1..]);
    }
  }
}
