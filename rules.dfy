/**
 * Constants, configuration and the expression-level rules of the swing:
 * aim clamp, release impulse, pendulum update, swing rail, capture funnel and
 * the end-of-attempt test (the "Physics & Rules" constants and the rule parts
 * of `step`, `doRelease` and `moveDrag` in visual/app.js). Angles are radians
 * from straight down; real arithmetic stands for the source's floating point.
 */
module Rules {
  /** The swing rail: the ring never goes past ±MAX_SWING while flying (≈ ±89°). */
  const MAX_SWING: real := 1.55
  /** Settled: slower than this ... */
  const STOP_VEL: real := 0.0025
  /** ... and closer to the bottom than this. */
  const STOP_NEAR: real := 0.05
  /** An attempt is given up after this many milliseconds of flight. */
  const MAX_THROW_MS: real := 5500.0
  const RING_RADIUS: real := 14.0
  /** Extra grab distance around the ring when a drag begins. */
  const GRAB_SLACK: real := 16.0
  /** Largest release speed, either way. */
  const RELEASE_CAP: real := 0.6
  /** Velocity factor on hitting the rail: reverse and damp. */
  const RAIL_BOUNCE: real := -0.2
  /** The funnel reaches out to this multiple of the capture radius. */
  const FUNNEL: real := 1.35
  /** Size of one funnel nudge. */
  const NUDGE: real := 0.0009
  /** Any swing faster than this counts as heading for the tip. */
  const FAST_SWING: real := 0.01

  /** The live-tunable settings `CFG`. */
  datatype Config = Config(
    thetaHook: real,     // hook angle, left of down negative
    ropeL: real,         // rope length
    hookInset: real,     // taken off the rope length to place the hook tip
    captureR: real,      // capture radius
    gravity: real,
    damping: real,
    releaseScale: real,  // release velocity per radian of displacement
    holdStart: real)     // angle the ring is held at when an attempt is readied

  const DEFAULTS: Config := Config(-0.22, 260.0, 0.0, 28.0, 0.0040, 0.9990, 0.30, 0.95)

  /** The ring's `{angle, angVel, angAcc}` as a value. */
  datatype Motion = Motion(angle: real, angVel: real, angAcc: real)

  function Abs(x: real): real { if x < 0.0 then -x else x }
  function RMax(a: real, b: real): real { if a >= b then a else b }
  function RMin(a: real, b: real): real { if a <= b then a else b }

  /** The aim clamp of `moveDrag`: `Math.max(-MAX_SWING, Math.min(MAX_SWING, a))`. */
  function ClampAngle(a: real): (r: real)
    ensures -MAX_SWING <= r <= MAX_SWING
    ensures -MAX_SWING <= a <= MAX_SWING ==> r == a
    ensures a > MAX_SWING ==> r == MAX_SWING
    ensures a < -MAX_SWING ==> r == -MAX_SWING
  {
    RMax(-MAX_SWING, RMin(MAX_SWING, a))
  }

  /** The release impulse of `doRelease`: `clamp(-displacement * scale, -0.6, 0.6)`. */
  function ReleaseVelocity(displacement: real, scale: real): (v: real)
    ensures -RELEASE_CAP <= v <= RELEASE_CAP
    ensures -RELEASE_CAP <= -displacement * scale <= RELEASE_CAP ==> v == -displacement * scale
    ensures -displacement * scale > RELEASE_CAP ==> v == RELEASE_CAP
    ensures -displacement * scale < -RELEASE_CAP ==> v == -RELEASE_CAP
    // with a non-negative scale the ring is always sent back toward the bottom
    ensures scale >= 0.0 && displacement >= 0.0 ==> v <= 0.0
    ensures scale >= 0.0 && displacement <= 0.0 ==> v >= 0.0
  {
    RMax(-RELEASE_CAP, RMin(RELEASE_CAP, -displacement * scale))
  }

  /** One tick of the pendulum (semi-implicit Euler), given the sine of the current angle. */
  function Advance(m: Motion, gravity: real, damping: real, sinAngle: real): (r: Motion)
    // gravity pulls against the sine of the angle
    ensures r.angAcc == -gravity * sinAngle
    // semi-implicit: the angle moves by the velocity just computed, not the old one
    ensures r.angle == m.angle + r.angVel
    // with no pull and no damping the ring coasts at its old speed
    ensures sinAngle == 0.0 && damping == 1.0 ==> r.angVel == m.angVel
    // undamped, the velocity changes by exactly the new acceleration
    ensures damping == 1.0 ==> r.angVel - m.angVel == r.angAcc
    // with no pull, damping scales the old speed
    ensures sinAngle == 0.0 ==> r.angVel == m.angVel * damping
    // full damping stops the ring where it is
    ensures damping == 0.0 ==> r.angVel == 0.0 && r.angle == m.angle
  {
    var acc := -gravity * sinAngle;
    var vel := (m.angVel + acc) * damping;
    Motion(m.angle + vel, vel, acc)
  }

  /** The swing rail: clamp the angle to ±MAX_SWING and bounce the velocity back, damped. */
  function Rail(m: Motion): (r: Motion)
    ensures -MAX_SWING <= r.angle <= MAX_SWING
    ensures r.angAcc == m.angAcc
    ensures -MAX_SWING <= m.angle <= MAX_SWING ==> r == m
    ensures m.angle > MAX_SWING ==> r.angle == MAX_SWING && r.angVel == m.angVel * RAIL_BOUNCE
    ensures m.angle < -MAX_SWING ==> r.angle == -MAX_SWING && r.angVel == m.angVel * RAIL_BOUNCE
  {
    var m1 := if m.angle > MAX_SWING then m.(angle := MAX_SWING, angVel := m.angVel * RAIL_BOUNCE) else m;
    if m1.angle < -MAX_SWING then m1.(angle := -MAX_SWING, angVel := m1.angVel * RAIL_BOUNCE) else m1
  }

  /**
   * `towardTip`: the ring moves toward the tip, judged from its horizontal offset
   * from the tip, or swings fast enough that the direction is not asked.
   */
  function TowardTip(offsetX: real, angVel: real): (r: bool)
    ensures Abs(angVel) > FAST_SWING ==> r
    ensures offsetX * angVel < 0.0 ==> r
    ensures r ==> offsetX * angVel < 0.0 || Abs(angVel) > FAST_SWING
    ensures r ==> angVel != 0.0
  {
    offsetX * angVel < 0.0 || Abs(angVel) > FAST_SWING
  }

  /**
   * Direction of a funnel nudge: `Math.sign(angVel)`, or, for a ring at rest,
   * the side the tip lies on.
   */
  function NudgeSign(angVel: real, tipAhead: bool): (s: real)
    ensures s == 1.0 || s == -1.0
    ensures angVel > 0.0 ==> s == 1.0
    ensures angVel < 0.0 ==> s == -1.0
    ensures angVel == 0.0 ==> (s == 1.0 <==> tipAhead)
  {
    if angVel > 0.0 then 1.0 else if angVel < 0.0 then -1.0 else if tipAhead then 1.0 else -1.0
  }

  /** What the capture check of a tick does. */
  datatype Catch = Capture | Nudge | Pass

  /**
   * The latch-guarded capture rule: capture inside the radius, nudge inside the
   * funnel ring when heading for the tip, and nothing at all once the latch is set.
   */
  function CatchRule(latched: bool, d: real, captureR: real, toward: bool): (c: Catch)
    ensures latched ==> c == Pass
    ensures c == Capture <==> !latched && d < captureR
    ensures c == Nudge <==> !latched && captureR <= d < captureR * FUNNEL && toward
  {
    if latched then Pass
    else if d < captureR then Capture
    else if d < captureR * FUNNEL && toward then Nudge
    else Pass
  }

  /** Whether the tick ends the attempt without a score. */
  function ShouldEnd(latched: bool, elapsed: real, angVel: real, angle: real): (b: bool)
    // a latched attempt is never ended here: its score callback ends it
    ensures b ==> !latched
    ensures !latched && elapsed > MAX_THROW_MS ==> b
    ensures !latched && Abs(angVel) < STOP_VEL && Abs(angle) < STOP_NEAR ==> b
    // before the time limit, only a ring that has settled near the bottom is stopped
    ensures b && elapsed <= MAX_THROW_MS ==> Abs(angVel) < STOP_VEL && Abs(angle) < STOP_NEAR
  {
    !latched && (elapsed > MAX_THROW_MS || (Abs(angVel) < STOP_VEL && Abs(angle) < STOP_NEAR))
  }

  /** A drag to 2.0 rad is stored as exactly 1.55; a release from the default hold angle. */
  lemma ClampExamples()
    ensures ClampAngle(2.0) == 1.55
    ensures ReleaseVelocity(DEFAULTS.holdStart, DEFAULTS.releaseScale) == -0.285
  {
  }
}
