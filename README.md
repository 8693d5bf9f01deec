# Hook and ring: a Dafny model of the game rules

Two players take turns swinging a ring on a rope from a fixed anchor. Each tries to
release it so that it swings onto a hook on the wall. A capture scores a point for the
player whose turn it is. A game goes to 21 points, win by two, and a match is best of
three games ("sets"). The turn passes after every attempt.

This project models the rules layer of `visual/app.js` and proves properties of it:

- **Scoring** (`scoring.dfy`). Pure functions over the `game` record: `winByTwo`, `setsToWin`,
  `gameWinner`, `matchWinner`, and the effect of `scorePoint` as a function (`AfterPoint`).
  Lemmas cover who can win a game, what a game win or a match win does to the record, the
  serve order after a capture, and an invariant kept over any sequence of attempts.
- **Rules** (`rules.dfy`). The constants, the configuration record, and the expression-level
  rules:
  - the aim clamp and the release impulse;
  - one pendulum tick and the swing rail;
  - the "toward the tip" test and the direction of a funnel nudge;
  - the latch-guarded capture decision and the end-of-attempt test.
- **Play** (`play.dfy`). The page's mutable state, as two classes:
  - `Ring` holds the angle, velocity and acceleration, which are updated in place;
  - `Table` holds the configuration, hook tip, `game`, `mode`, the drag and score-latch
    flags, the release time and the pending callbacks.

  Each event handler is a method with a `modifies` frame. Its `ensures` gives the new state,
  in terms of the old state and the functions above. `Valid()` is the object invariant:
  - the score latch is only up during a flight whose score callback is still pending;
  - a decided game or match only stays on the board while its reset callback is pending;
  - the hook tip is the one computed from the current configuration.

Things from the browser become explicit:

- **Clock.** `performance.now()` becomes a `now` argument to `DoRelease` and `Step`.
- **Timers.** Each `setTimeout` callback becomes a pending count plus a method that fires
  one callback:
  - `FireScoreTimer` runs "score, then end the attempt";
  - `FireResetTimer` runs "announce, then `hardReset`".
- **Math functions.** `Math.sin`, `Math.cos`, `Math.atan2` and `Math.hypot` become the
  fields of a `MathLib` value. The model assumes nothing about these functions, so every
  clamp and latch property holds whatever they return.

Behaviour of the code worth knowing, all modelled as written:

- The score latch is cleared by `endAttempt` and `hardReset`, not when the next attempt is
  readied.
- After a game is won, `scorePoint` gives the serve to the game's loser. `endAttempt` then
  passes it again, so the game's winner plays the next attempt (`Scoring.CaptureServeOrder`).
- On a match win, `scorePoint` returns early without clearing the points. The attempt still
  ends (turn passes), and the full reset happens only when its callback fires.
- `hardReset` does not cancel a pending score callback. If that callback fires afterwards,
  it scores a point into the fresh match and passes the turn. `Table.FireScoreTimer` has no
  latch or mode guard, just like the source.

## Model

| member | source | states |
|---|---|---|
| `Scoring.Other` | visual/app.js:207 | the turn always goes to the other player |
| `Scoring.WinByTwo` | visual/app.js:179 | true exactly when one side has reached the target and leads by at least two |
| `Scoring.SetsToWin` | visual/app.js:180 | the result is the smallest strict majority of BEST_OF |
| `Scoring.GameWinner` | visual/app.js:181 | player 1 (resp. 2) is returned exactly when that player has at least 21 points and leads by two; otherwise no winner |
| `Scoring.MatchWinner` | visual/app.js:182 | player 1 wins iff sets1 reaches SetsToWin; player 2 iff sets1 has not and sets2 has; none iff neither has |
| `Scoring.Award` | visual/app.js:185-186 | the server's points go up by one; the other player's points, the sets and the serve are unchanged |
| `Scoring.PassServe` | visual/app.js:207 | only the turn changes, to the other player |
| `Scoring.AfterPoint` | visual/app.js:184-202 | unless a match reset was scheduled, no won game is left on the board; a scheduled reset names the record's match winner; one point adds at most one set |
| `Scoring.ServerOnlyScores` | visual/app.js:185-186 | a point that wins no game adds one to the server's points only; sets and serve unchanged, nothing scheduled |
| `Scoring.GameGoesToScorer` | visual/app.js:184-191 | from an undecided board, the opponent of the scorer can never be the game winner |
| `Scoring.GameWinClearsBoard` | visual/app.js:190-201 | a game win short of the match gives the scorer exactly one more set, sets both points to 0 and gives the serve to the game's loser |
| `Scoring.MatchWinKeepsPoints` | visual/app.js:193-197 | a match win is announced for the scorer, who gains one set to hold exactly SetsToWin while the loser's sets stay as they were (so the announced set score is fixed); points are not cleared and the serve is unchanged |
| `Scoring.AfterPointInPlay` | visual/app.js:189-201 | from an undecided board, a point that schedules no reset leaves the board undecided |
| `Scoring.CaptureServeOrder` | visual/app.js:199-207 | after a capture (score, then end of attempt), a game winner plays the next attempt; otherwise the turn passes to the other player |
| `Scoring.WinByTwoExamples` | visual/app.js:179-180 | 21-20 is not a game win, 22-20 is; two sets win the match |
| `Scoring.TwentyOneLove` | visual/app.js:184-201 | player 1 scoring at 20-0 gives sets 1-0, points 0-0, player 2 to serve |
| `Scoring.DeuceNeedsTwo` | visual/app.js:179-191 | from 20-20 the server reaches 21-20 with no game, then takes the game at 22-20 |
| `Scoring.AfterAttempt` | visual/app.js:184-209 | a miss only passes the turn; a capture that wins no match scores the point and then passes the turn; a match-winning capture ends in a fresh match (the reset of app.js line 195); from an undecided board one attempt leaves it undecided |
| `Scoring.Replay` | visual/app.js:203-209 | the record after a sequence of attempts; attempts that all miss never change points or sets |
| `Scoring.ReplayStaysInPlay` | visual/app.js:184-209 | over any sequence of captured and missed attempts, no decided game or match stays on the board |
| `Scoring.MissesAlternate` | visual/app.js:203-209 | n missed attempts leave points and sets as they were and alternate the turn n times |
| `Rules.ClampAngle` | visual/app.js:140 | the stored aim angle is within ±MAX_SWING, equal to the request when in range and to the nearest limit otherwise |
| `Rules.ReleaseVelocity` | visual/app.js:169-171 | the release speed is within ±0.6: it equals -displacement*scale when that is in range and is exactly +0.6 or -0.6 beyond it; with a non-negative scale it sends the ring back toward the bottom |
| `Rules.Advance` | visual/app.js:222-224 | one pendulum tick: acceleration -gravity·sin(angle); the angle moves by the newly computed velocity (semi-implicit Euler); undamped, the velocity changes by exactly the acceleration; with no pull, damping scales the old speed; full damping stops the ring in place |
| `Rules.Rail` | visual/app.js:226-227 | the angle ends within ±MAX_SWING; in range nothing changes; past a limit the angle is set to it and the velocity is multiplied by -0.2 |
| `Rules.TowardTip` | visual/app.js:232 | true exactly when the swing is faster than 0.01 or the horizontal offset from the tip has the opposite sign to the velocity; a ring at rest never heads for the tip |
| `Rules.NudgeSign` | visual/app.js:246 | the nudge is ±1, follows the sign of the velocity, and for a ring at rest points to the side the tip lies on |
| `Rules.CatchRule` | visual/app.js:234-248 | latched: nothing; capture exactly when unlatched and inside the capture radius; nudge exactly when unlatched, in the funnel band and heading for the tip |
| `Rules.ShouldEnd` | visual/app.js:252-254 | a latched attempt never ends here; time-out or settling ends it; before time-out only a settled ring near the bottom ends it |
| `Rules.ClampExamples` | visual/app.js:137-171 | a drag to 2.0 rad stores exactly 1.55; releasing from the default hold angle 0.95 with scale 0.30 gives -0.285 |
| `Play.Table.HookTip` | visual/app.js:67-71 | the tip is anchor + (ropeL − hookInset)·(sin θ, cos θ) with the host's sin and cos at the hook angle θ: with no inset it is exactly where a ring hanging at the hook angle would be, and with an inset of the whole rope it is the anchor |
| `Play.Table.RingPos` | visual/app.js:109-112 | the ring is anchor + ropeL·(sin a, cos a) with the host's sin and cos; with no inset, a ring at the hook angle is at the hook tip |
| `Play.Table.AngleFromPoint` | visual/app.js:113-115 | a press on the pivot reads as atan2(0, 0) |
| `Play.Table.AngleOfRing` | visual/app.js:109-115 | a press on the ring at angle b reads back atan2(ropeL·sin b, ropeL·cos b): the anchor drops out, so the drag recovers b whenever the host's atan2 inverts its sin and cos |
| `Play.Table.CaptureDistance` | visual/app.js:230-231 | with an up-to-date tip and no inset, a ring at the hook angle is at zero offset from the tip, so its distance is the host's hypot(0, 0) |
| `Play.Table.Toward` | visual/app.js:232 | a ring at rest never heads for the tip; one swinging faster than 0.01 always does; a slow ring level with the tip does not |
| `Play.Table.TipAhead` | visual/app.js:243-246 | a ring sitting on the tip counts the tip as ahead (so a nudge at rest there pushes forward), in particular at the hook angle with no inset |
| `Play.Table.WithinGrab` | visual/app.js:131-132 | a press dead on the ring's centre grabs it exactly when the host's hypot(0, 0) is within 30 px (ring radius 14 plus 16) |
| `Play.Ring.constructor` | visual/app.js:93 | a new ring is at rest at the given angle |
| `Play.Ring.Integrate` | visual/app.js:222-224 | one semi-implicit Euler tick of the pendulum, given the sine of the angle |
| `Play.Ring.ClampToRail` | visual/app.js:226-227 | the ring's new state is the rail applied to the old one, so the angle is within ±MAX_SWING |
| `Play.Table.constructor` | visual/app.js:439-440 | page start: the initial state of app.js lines 58-94 (loaded config, hook placed, fresh match), then the boot reset and auto-ready: the mode is ready, the ring at rest at the hold angle, no callbacks pending |
| `Play.Table.DoReady` | visual/app.js:160-166 | only from idle: mode becomes ready, ring held at the hold angle with velocity 0; a no-op in any other mode |
| `Play.Table.DoRelease` | visual/app.js:167-176 | only from ready: mode becomes flying, velocity is the clamped release impulse (at most 0.6 either way), the clock is started; a no-op otherwise |
| `Play.Table.BeginDrag` | visual/app.js:129-136 | in ready, a press within grab distance of the ring starts a drag and stops the ring; otherwise nothing changes |
| `Play.Table.MoveDrag` | visual/app.js:137-142 | only while dragging in ready: the ring is set to the clamped pointer angle (within ±MAX_SWING) at rest; otherwise the ring is unchanged |
| `Play.Table.EndDrag` | visual/app.js:143 | the drag is over |
| `Play.Table.ScorePoint` | visual/app.js:184-202 | the new record is AfterPoint of the old one; a match win schedules exactly one reset callback; the invariant is kept |
| `Play.Table.EndAttempt` | visual/app.js:203-209 | mode idle, latch cleared, turn passed, ring held at the hold angle at rest |
| `Play.Table.HardReset` | visual/app.js:210-217 | fresh match with player 1 to serve, mode idle, latch cleared, ring at rest at the hold angle; pending callbacks and the drag flag are left as they were |
| `Play.Table.FireScoreTimer` | visual/app.js:239 | consumes one pending score callback: the record becomes AfterPoint then a pass of serve, a match win schedules a reset, and the attempt is over (idle, latch cleared) |
| `Play.Table.FireResetTimer` | visual/app.js:195 | consumes one pending reset callback and leaves a fresh match, idle, latch cleared |
| `Play.Table.CaptureOrNudge` | visual/app.js:229-249 | applies CatchRule at the ring's position: a capture raises the latch, stops the ring and schedules one score callback; a nudge adds ±0.0009 to the velocity; latched, nothing happens |
| `Play.Table.EndIfStopped` | visual/app.js:251-256 | ends the attempt exactly when ShouldEnd holds, and otherwise changes nothing |
| `Play.Table.Step` | visual/app.js:220-257 | outside flight nothing changes; in flight the full new state is given by the tick, rail, capture rule and end test. A flying ring stays within ±MAX_SWING. Once latched, there is no capture, no nudge and no early end |
| `Play.Table.OnConfigChange` | visual/app.js:431-436 | takes the new settings and moves the hook tip; the ring is re-held at the hold angle at rest unless a flight is in progress, when it is untouched |

## Left out

- Canvas drawing (`draw` and the `drawX` helpers) is presentation. The "freeze" redraw on capture goes with it.
- These are UI plumbing, not rules:
  - DOM and HUD text;
  - button enabling;
  - `updateAimUI` and `updateModeTag`;
  - the slider panel, with its presets, Save, Defaults and Recenter buttons (the model keeps
    only the configuration change they trigger, `OnConfigChange`);
  - event-listener wiring and `getPoint`.
- `beep` is foreign Web Audio calls whose errors are swallowed.
- `loadConfig` and `saveConfig` use `localStorage` and `JSON`. The loaded configuration is a
  constructor argument.
- `dragAngle`: it only feeds the aim display.
- The `alert` that announces the match winner.
- Floating point: angles, velocities and distances are exact reals. Rounding, NaN and
  negative zero are not modelled. This includes `Math.sign(-0)` and NaN falling through to
  the geometric direction in `NudgeSign`.
- The trigonometric and distance functions are arbitrary values of `MathLib`. No property of
  `sin`, `cos`, `atan2` or `hypot` is used.
- `Rules.Advance`: because `sin` is abstract and the damping factor multiplies the gravity-updated velocity, the
  general damped update under gravity is given only by the function's definition; the contract states the
  undamped, no-pull and fully damped cases.
- `Play.Table.AngleFromPoint`, `Play.Table.Toward`, `Play.Table.TipAhead` and `Play.Table.WithinGrab`: beyond the
  cases their contracts name, each is its definition over the arbitrary `MathLib`; what they decide in
  play is stated by `MoveDrag`, `CaptureOrNudge`, `Step` and `BeginDrag`.
- Timer ordering: pending callbacks are counts, and any pending callback may be fired at any
  time. The model does not capture that the score callback waits 110 ms and the reset callback
  90 ms.
- `Scoring.AfterAttempt` and `Scoring.Replay`: a won match is reset before the next attempt
  starts. In the page the 90 ms callback could in principle be overtaken.
- `requestAnimationFrame` scheduling: each call of `Step` is one frame.
- The unused funnel constant `k = 0.0008` in `step`.
