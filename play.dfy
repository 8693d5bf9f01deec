/**
 * The game's mutable state and its handlers (visual/app.js): the ring, the
 * attempt state machine idle -> ready -> flying -> idle, the drag-to-aim
 * handlers, the per-tick rules of `step`, the two delayed callbacks, and
 * configuration changes. The browser's clock and timers are explicit here:
 * handlers that read the clock take `now`, and each scheduled callback is a
 * pending count with a method that fires it.
 */
module Play {
  import opened Wrappers
  import opened Scoring
  import opened Rules

  datatype Mode = Idle | Ready | Flying

  datatype Vec = Vec(x: real, y: real)

  /** The host's `Math.sin`, `Math.cos`, `Math.atan2` and `Math.hypot`; nothing is assumed of them. */
  datatype MathLib = MathLib(
    sin: real -> real,
    cos: real -> real,
    atan2: (real, real) -> real,
    hypot: (real, real) -> real)

  /** The pendulum bob `ring`. */
  class Ring {
    var angle: real
    var angVel: real
    var angAcc: real

    function State(): Motion
      reads this
    {
      Motion(angle, angVel, angAcc)
    }

    constructor (angle: real)
      ensures State() == Motion(angle, 0.0, 0.0)
    {
      this.angle := angle;
      angVel := 0.0;
      angAcc := 0.0;
    }

    /** The integrator lines of `step`, given the sine of the current angle. */
    method Integrate(gravity: real, damping: real, sinAngle: real)
      modifies this
      ensures State() == Advance(old(State()), gravity, damping, sinAngle)
    {
      angAcc := -gravity * sinAngle;
      angVel := (angVel + angAcc) * damping;
      angle := angle + angVel;
    }

    /** The swing rail of `step`. */
    method ClampToRail()
      modifies this
      ensures State() == Rail(old(State()))
      ensures -MAX_SWING <= angle <= MAX_SWING
    {
      if angle > MAX_SWING { angle := MAX_SWING; angVel := angVel * RAIL_BOUNCE; }
      if angle < -MAX_SWING { angle := -MAX_SWING; angVel := angVel * RAIL_BOUNCE; }
    }
  }

  /** The page's global state: `CFG`, `HOOK`, `game`, `mode`, `ring` and the flags. */
  class Table {
    const math: MathLib
    const anchor: Vec
    const ring: Ring
    var cfg: Config
    var tip: Vec              // the hook tip, recomputed from cfg
    var game: Game
    var mode: Mode
    var dragging: bool
    var scoreLatch: bool
    var attemptStart: real    // clock reading at release, in milliseconds
    var pendingScores: nat    // scheduled "score, then end the attempt" callbacks
    var pendingResets: nat    // scheduled "announce the winner, then hardReset" callbacks

    /**
     * The latch is only up during a flight whose score callback is still to come,
     * and a decided game or match only stays on the board while its reset is pending.
     */
    ghost predicate Valid()
      reads this
    {
      && (scoreLatch ==> mode == Flying && pendingScores > 0)
      && (!InPlay(game) ==> pendingResets > 0)
      && tip == HookTip(cfg)
    }

    /** The point at distance `r` from the anchor along angle `a` (0 straight down). */
    function ArcPoint(r: real, a: real): Vec
    {
      Vec(anchor.x + r * math.sin(a), anchor.y + r * math.cos(a))
    }

    /** `positionHookTip`: the tip on the rope circle, `hookInset` short of the rope length. */
    function HookTip(c: Config): (t: Vec)
      // with no inset the tip is exactly where a ring hanging at the hook angle would be
      ensures c.hookInset == 0.0 ==> t == ArcPoint(c.ropeL, c.thetaHook)
      // an inset of the whole rope puts the tip on the anchor
      ensures c.hookInset == c.ropeL ==> t == anchor
    {
      ArcPoint(c.ropeL - c.hookInset, c.thetaHook)
    }

    /** `ringPosFromAngle`: where the ring is at angle `a`, on the full rope length. */
    function RingPos(a: real): (p: Vec)
      reads this`cfg
      ensures cfg.hookInset == 0.0 && a == cfg.thetaHook ==> p == HookTip(cfg)
    {
      ArcPoint(cfg.ropeL, a)
    }

    /**
     * `angleFromPoint`: the host's atan2 of the point's offset from the anchor,
     * sideways offset first so that 0 is straight down. Nothing else is known of atan2.
     */
    function AngleFromPoint(p: Vec): (a: real)
      // a press on the pivot itself reads as atan2(0, 0)
      ensures p == anchor ==> a == math.atan2(0.0, 0.0)
    {
      math.atan2(p.x - anchor.x, p.y - anchor.y)
    }

    /**
     * A press on the ring at angle `b` reads back atan2(L sin b, L cos b): the anchor drops
     * out, so the drag recovers `b` whenever the host's atan2 inverts its sin and cos.
     */
    lemma AngleOfRing(b: real)
      ensures AngleFromPoint(RingPos(b)) == math.atan2(cfg.ropeL * math.sin(b), cfg.ropeL * math.cos(b))
    {
      var p := RingPos(b);
      assert p.x - anchor.x == cfg.ropeL * math.sin(b);
      assert p.y - anchor.y == cfg.ropeL * math.cos(b);
    }

    /** Distance from the ring at angle `a` to the hook tip. */
    function CaptureDistance(a: real): (d: real)
      reads this`cfg, this`tip
      // with an up-to-date tip and no inset, a ring at the hook angle is at distance hypot(0, 0)
      ensures tip == HookTip(cfg) && cfg.hookInset == 0.0 && a == cfg.thetaHook ==> d == math.hypot(0.0, 0.0)
    {
      var pos := RingPos(a);
      math.hypot(pos.x - tip.x, pos.y - tip.y)
    }

    /** Whether a ring at `m` heads for the tip. */
    function Toward(m: Motion): (r: bool)
      reads this`cfg, this`tip
      // a ring at rest never heads for the tip, and one swinging faster than FAST_SWING always does
      ensures m.angVel == 0.0 ==> !r
      ensures Abs(m.angVel) > FAST_SWING ==> r
      // a slow ring level with the tip is not heading for it
      ensures RingPos(m.angle).x == tip.x && Abs(m.angVel) <= FAST_SWING ==> !r
    {
      TowardTip(RingPos(m.angle).x - tip.x, m.angVel)
    }

    /** Which way the tip lies along the swing from a ring at angle `a`. */
    function TipAhead(a: real): (r: bool)
      reads this`cfg, this`tip
      // a ring sitting on the tip counts the tip as ahead, so a nudge at rest there pushes forward
      ensures tip == RingPos(a) ==> r
      // in particular with an up-to-date tip, no inset and the ring at the hook angle
      ensures tip == HookTip(cfg) && cfg.hookInset == 0.0 && a == cfg.thetaHook ==> r
    {
      var pos := RingPos(a);
      var dx := tip.x - pos.x;
      var dy := tip.y - pos.y;
      dx * math.cos(a) - dy * math.sin(a) >= 0.0
    }

    /** Whether point `p` is close enough to a ring at angle `a` to grab it. */
    function WithinGrab(p: Vec, a: real): (r: bool)
      reads this`cfg
      // a press dead on the ring's centre grabs exactly when the host puts hypot(0, 0) within reach
      ensures p == RingPos(a) ==> (r <==> math.hypot(0.0, 0.0) <= RING_RADIUS + GRAB_SLACK)
    {
      var pos := RingPos(a);
      math.hypot(p.x - pos.x, p.y - pos.y) <= RING_RADIUS + GRAB_SLACK
    }

    /** Page start: load `CFG`, place the hook, then `hardReset()` and `doReady()`. */
    constructor (math: MathLib, anchor: Vec, loaded: Config)
      ensures Valid()
      ensures this.anchor == anchor && cfg == loaded && tip == HookTip(loaded)
      ensures game == NewMatch && mode == Ready && !dragging && !scoreLatch
      ensures fresh(ring) && ring.State() == Motion(loaded.holdStart, 0.0, 0.0)
      ensures pendingScores == 0 && pendingResets == 0
    {
      this.math := math;
      this.anchor := anchor;
      ring := new Ring(loaded.holdStart);
      cfg := loaded;
      tip := Vec(0.0, 0.0);
      game := NewMatch;
      mode := Idle;
      dragging := false;
      scoreLatch := false;
      attemptStart := 0.0;
      pendingScores := 0;
      pendingResets := 0;
      new;
      tip := HookTip(cfg);
      HardReset();
      DoReady();
    }

    /** `doReady`: only from idle; hold the ring at the start angle, at rest. */
    method DoReady()
      requires Valid()
      modifies this`mode, ring`angle, ring`angVel
      ensures Valid()
      ensures old(mode) == Idle ==> mode == Ready && ring.angle == cfg.holdStart && ring.angVel == 0.0
      ensures old(mode) != Idle ==> mode == old(mode) && unchanged(ring)
    {
      if mode != Idle { return; }
      mode := Ready;
      ring.angle := cfg.holdStart;
      ring.angVel := 0.0;
    }

    /** `doRelease`: only from ready; launch with the clamped release impulse and start the clock. */
    method DoRelease(now: real)
      requires Valid()
      modifies this`mode, this`attemptStart, ring`angVel
      ensures Valid()
      ensures old(mode) == Ready ==>
        && mode == Flying && attemptStart == now
        && ring.angVel == ReleaseVelocity(ring.angle, cfg.releaseScale)
        && -RELEASE_CAP <= ring.angVel <= RELEASE_CAP
      ensures old(mode) != Ready ==>
        mode == old(mode) && attemptStart == old(attemptStart) && ring.angVel == old(ring.angVel)
    {
      if mode != Ready { return; }
      var displacement := ring.angle;
      ring.angVel := ReleaseVelocity(displacement, cfg.releaseScale);
      mode := Flying;
      attemptStart := now;
    }

    /** `beginDrag`: in ready, a press near the ring grabs it and stops it. */
    method BeginDrag(p: Vec)
      requires Valid()
      modifies this`dragging, ring`angVel
      ensures Valid()
      ensures mode == Ready && WithinGrab(p, ring.angle) ==> dragging && ring.angVel == 0.0
      ensures !(mode == Ready && WithinGrab(p, ring.angle)) ==>
        dragging == old(dragging) && ring.angVel == old(ring.angVel)
    {
      if mode != Ready { return; }
      if WithinGrab(p, ring.angle) {
        dragging := true;
        ring.angVel := 0.0;
      }
    }

    /** `moveDrag`: while a grab is held in ready, aim the ring at the pointer, clamped to the rail. */
    method MoveDrag(p: Vec)
      requires Valid()
      modifies ring`angle, ring`angVel
      ensures Valid()
      ensures dragging && mode == Ready ==>
        && ring.angle == ClampAngle(AngleFromPoint(p)) && ring.angVel == 0.0
        && -MAX_SWING <= ring.angle <= MAX_SWING
      ensures !(dragging && mode == Ready) ==> unchanged(ring)
    {
      if !dragging || mode != Ready { return; }
      var dragAngle := AngleFromPoint(p);
      dragAngle := ClampAngle(dragAngle);
      ring.angle := dragAngle;
      ring.angVel := 0.0;
    }

    /** `endDrag`: let go. */
    method EndDrag()
      requires Valid()
      modifies this`dragging
      ensures Valid()
      ensures !dragging
    {
      if dragging { dragging := false; }
    }

    /** `scorePoint`: the player whose turn it is takes the point; games, sets and match follow. */
    method ScorePoint()
      requires Valid()
      modifies this`game, this`pendingResets
      ensures Valid()
      ensures game == AfterPoint(old(game)).game
      ensures pendingResets == old(pendingResets) + (if AfterPoint(old(game)).matchOver.Some? then 1 else 0)
    {
      ghost var g0 := game;
      if InPlay(g0) && AfterPoint(g0).matchOver.None? {
        AfterPointInPlay(g0);
      }
      if game.current == P1 { game := game.(p1 := game.p1 + 1); }
      else { game := game.(p2 := game.p2 + 1); }
      var gw := GameWinner(game);
      if gw.Some? {
        if gw.value == P1 { game := game.(sets1 := game.sets1 + 1); }
        else { game := game.(sets2 := game.sets2 + 1); }
        var mw := MatchWinner(game);
        if mw.Some? {
          pendingResets := pendingResets + 1;
          return;
        }
        // next game: clear the points, serve to the loser
        game := game.(p1 := 0, p2 := 0);
        game := game.(current := Other(gw.value));
      }
    }

    /** `endAttempt`: back to idle, latch down, turn passes, ring back to the hold angle. */
    method EndAttempt()
      requires Valid()
      modifies this`mode, this`scoreLatch, this`game, ring`angle, ring`angVel
      ensures Valid()
      ensures mode == Idle && !scoreLatch && game == PassServe(old(game))
      ensures ring.angle == cfg.holdStart && ring.angVel == 0.0
    {
      mode := Idle;
      scoreLatch := false;
      game := PassServe(game);
      ring.angle := cfg.holdStart;
      ring.angVel := 0.0;
    }

    /** `hardReset`: a new match, idle, latch down, ring at rest at the hold angle. */
    method HardReset()
      requires Valid()
      modifies this`game, this`scoreLatch, this`mode, ring
      ensures Valid()
      ensures game == NewMatch && mode == Idle && !scoreLatch
      ensures ring.State() == Motion(cfg.holdStart, 0.0, 0.0)
    {
      game := NewMatch;
      ring.angle := cfg.holdStart;
      ring.angVel := 0.0;
      ring.angAcc := 0.0;
      scoreLatch := false;
      mode := Idle;
    }

    /** The callback a capture schedules: `scorePoint()` then `endAttempt()`. */
    method FireScoreTimer()
      requires Valid() && pendingScores > 0
      modifies this`game, this`pendingResets, this`pendingScores, this`mode, this`scoreLatch,
        ring`angle, ring`angVel
      ensures Valid()
      ensures pendingScores == old(pendingScores) - 1
      ensures game == PassServe(AfterPoint(old(game)).game)
      ensures pendingResets == old(pendingResets) + (if AfterPoint(old(game)).matchOver.Some? then 1 else 0)
      ensures mode == Idle && !scoreLatch && ring.angle == cfg.holdStart && ring.angVel == 0.0
    {
      ScorePoint();
      EndAttempt();
      pendingScores := pendingScores - 1;
    }

    /** The callback a match win schedules: announce the winner (not modelled), then `hardReset()`. */
    method FireResetTimer()
      requires Valid() && pendingResets > 0
      modifies this`pendingResets, this`game, this`scoreLatch, this`mode, ring
      ensures Valid()
      ensures pendingResets == old(pendingResets) - 1
      ensures game == NewMatch && mode == Idle && !scoreLatch
      ensures ring.State() == Motion(cfg.holdStart, 0.0, 0.0)
    {
      HardReset();
      pendingResets := pendingResets - 1;
    }

    /** The latch-guarded capture check of `step`, for the ring where it now is. */
    method CaptureOrNudge()
      requires Valid() && mode == Flying
      modifies this`scoreLatch, this`pendingScores, ring`angVel
      ensures Valid()
      ensures var c := CatchRule(old(scoreLatch), CaptureDistance(ring.angle), cfg.captureR, Toward(old(ring.State())));
        && scoreLatch == (old(scoreLatch) || c == Capture)
        && pendingScores == old(pendingScores) + (if c == Capture then 1 else 0)
        && ring.angVel == match c
             case Capture => 0.0
             case Nudge => old(ring.angVel) + NudgeSign(old(ring.angVel), TipAhead(ring.angle)) * NUDGE
             case Pass => old(ring.angVel)
    {
      match CatchRule(scoreLatch, CaptureDistance(ring.angle), cfg.captureR, Toward(ring.State()))
      case Capture =>
        scoreLatch := true;
        ring.angVel := 0.0;
        pendingScores := pendingScores + 1;
      case Nudge =>
        var tangent := NudgeSign(ring.angVel, TipAhead(ring.angle));
        ring.angVel := ring.angVel + tangent * NUDGE;
      case Pass =>
    }

    /** The end-of-attempt check of `step`: time is up, or the ring has settled; never while latched. */
    method EndIfStopped(now: real)
      requires Valid()
      modifies this`mode, this`scoreLatch, this`game, ring`angle, ring`angVel
      ensures Valid()
      ensures ShouldEnd(old(scoreLatch), now - attemptStart, old(ring.angVel), old(ring.angle)) ==>
        && mode == Idle && !scoreLatch && game == PassServe(old(game))
        && ring.angle == cfg.holdStart && ring.angVel == 0.0
      ensures !ShouldEnd(old(scoreLatch), now - attemptStart, old(ring.angVel), old(ring.angle)) ==>
        unchanged(this) && unchanged(ring)
    {
      var elapsed := now - attemptStart;
      if ShouldEnd(scoreLatch, elapsed, ring.angVel, ring.angle) {
        EndAttempt();
      }
    }

    /** `step`: one animation frame; only a flying ring moves. */
    method Step(now: real)
      requires Valid()
      modifies this`mode, this`scoreLatch, this`pendingScores, this`game, ring
      ensures Valid()
      ensures old(mode) != Flying ==> unchanged(this) && unchanged(ring)
      ensures old(mode) == Flying ==>
        var m := Rail(Advance(old(ring.State()), cfg.gravity, cfg.damping, math.sin(old(ring.angle))));
        var c := CatchRule(old(scoreLatch), CaptureDistance(m.angle), cfg.captureR, Toward(m));
        var v := match c
          case Capture => 0.0
          case Nudge => m.angVel + NudgeSign(m.angVel, TipAhead(m.angle)) * NUDGE
          case Pass => m.angVel;
        var latched := old(scoreLatch) || c == Capture;
        var ends := ShouldEnd(latched, now - attemptStart, v, m.angle);
        && pendingScores == old(pendingScores) + (if c == Capture then 1 else 0)
        && ring.angAcc == m.angAcc
        && (ends ==> mode == Idle && !scoreLatch && game == PassServe(old(game))
                     && ring.angle == cfg.holdStart && ring.angVel == 0.0)
        && (!ends ==> mode == Flying && scoreLatch == latched && game == old(game)
                      && ring.angle == m.angle && ring.angVel == v)
      // the rail holds for every flying ring
      ensures old(mode) == Flying && mode == Flying ==> -MAX_SWING <= ring.angle <= MAX_SWING
      // once latched, no capture, no nudge and no early end until the score callback fires
      ensures old(scoreLatch) ==>
        && scoreLatch && mode == Flying && game == old(game) && pendingScores == old(pendingScores)
        && ring.angVel == Rail(Advance(old(ring.State()), cfg.gravity, cfg.damping, math.sin(old(ring.angle)))).angVel
    {
      if mode == Flying {
        ring.Integrate(cfg.gravity, cfg.damping, math.sin(ring.angle));
        ring.ClampToRail();
        CaptureOrNudge();
        EndIfStopped(now);
      }
    }

    /** `onConfigChange`: adopt the new settings, move the hook, and re-hold the ring unless it is flying. */
    method OnConfigChange(c: Config)
      requires Valid()
      modifies this`cfg, this`tip, ring`angle, ring`angVel
      ensures Valid()
      ensures cfg == c && tip == HookTip(c)
      ensures mode != Flying ==> ring.angle == c.holdStart && ring.angVel == 0.0
      ensures mode == Flying ==> unchanged(ring)
    {
      cfg := c;
      tip := HookTip(cfg);
      if mode != Flying {
        ring.angle := cfg.holdStart;
        ring.angVel := 0.0;
      }
    }
  }
}
