# rong: a verified model of the game update

rong is a two-paddle ball game. Player 1 steers the left paddle with W/S.
Player 2 owns the right paddle on the arrow keys, and a tracking routine also
moves it toward the ball. Two teleporter zones on the top and bottom edges wrap
the ball vertically. A point is scored when the ball passes the left or right
edge, and the ball stops for good once either score passes 7.

This project models the per-frame update of the game state (`MainState`) and
the velocity freeze of the drawing handler, and proves properties of them.

- `entities.dfy` (module `Entities`): the playfield constants and the
  entities. A player has an id, a position and its key bindings. A ball has a
  position, a velocity and a radius. A teleporter has a location, a position and
  a size. It also holds the constructors that fix the start positions.
- `rules.dfy` (module `Rules`): each stage of `update` as a function on a
  value snapshot `World` of the state. The stages are paddle movement,
  teleporters, walls, scoring with reset, paddle deflection and motion. `Tick`
  chains them in source order, `FreezeIfWon` is the game-over step of `draw`,
  `Frame` is one `update` followed by that step, and `Run` is any number of
  frames.
- `invariants.dfy` (module `Invariants`): lemmas over one tick and over any
  run. The layout never changes. Paddles stay within [-6, 306]. The ball keeps
  horizontal speed 12 until it is stopped, and its vertical speed stays within
  [-5, 5]. At most one point is awarded per tick and scores never decrease.
  Game over is terminal.
- `game.dfy` (module `Game`): the class `MainState` with the source's fields.
  Its methods change those fields step by step as `update`, `reset_ball` and
  `draw` do. Each method is proved to produce exactly the corresponding `Rules`
  function of the old state. `Update` is proved equal to `Tick` and to keep the
  invariant.

Positions and velocities are `real`s. The random row of a reset is a parameter
of type `ResetDraw` (an integer in 0..400, as `gen_range(0..=400)` returns).
The keyboard is a snapshot `Keys` of four booleans, one per bound key. Each
paddle looks up its own `keyUp`/`keyDown` binding in it.

Three behaviours of the code worth knowing:

- The tracking move does not replace player 2's keys. When player 2's id is
  `Player2`, the paddle first tracks the ball and then also follows its keys in
  the same tick. A paddle built as `Comp` gets no tracking at all.
- The tracking reference row is the paddle's top edge plus a quarter of
  PADDLE_HEIGHT, which is top + 50.
- Scoring tests the ball's position before this tick's motion. A ball at x = 799
  moving right scores one tick after it passes 800, not on the tick that carries
  it there.

One consequence of the code, proved rather than corrected: a bottom-zone hit
puts the ball on row 1, and row 1 is inside the top zone's trigger band
(y <= 5). A top-zone hit instead lands the ball on row 394, which is outside the
bottom band. So a slow ball moving down through the bottom zone can be sent
back and forth between the zones (`BottomTeleportLandsInTopBand`,
`DownwardWrapRetriggers`).

## Model

| member | source | states |
|---|---|---|
| `Entities.NewPlayer` | src/main.rs:43-65 | every paddle starts at y = 150, centred on its quarter-height row; player 1 sits at x = 20 on W/S, any other id at x = 760 (flush with the right edge) on Up/Down |
| `Entities.NewBall` | src/main.rs:77-86 | the ball starts in the centre (400, 200) with velocity (12, 1) and radius 10 |
| `Entities.NewTeleporter` | src/main.rs:98-113 | both zones span x in [325, 625]; the top one is on row 0 and the bottom one on row 395, flush with the bottom edge; size 300 x 5 |
| `Rules.Initial` | src/main.rs:127-144 | the starting state has both paddles at 150, ids Player1/Player2, scores 0 and ball velocity (12, 1) |
| `Rules.KeyMove` | src/main.rs:209-215 | a key move changes only the paddle's y: +6 exactly when its down key is held and y <= 300; -6 exactly when that does not apply and its up key is held and y >= 0; otherwise 0, so down wins when both are held |
| `Rules.TrackingOffset` | src/main.rs:222 | the offset is the signed distance from the paddle's reference row (top + 50) to the ball's row: positive exactly when the ball is below it, negative exactly when above |
| `Rules.AiTrack` | src/main.rs:219-229 | the tracking move changes only y; it has the sign of the offset to the ball's row, magnitude at most 6, never overshoots the target, is non-zero exactly when the guard for its direction passes, moves the full 6 when the offset is at least 6 in size, and lands exactly on the target when the offset is within 6 |
| `Rules.MovePaddles` | src/main.rs:209-237 | player 1 makes a key move; player 2 tracks the ball only when its id is Player2 and then makes a key move as well; nothing else changes |
| `Rules.CheckPaddleCollisions` | src/main.rs:146-170 | for Player1: true exactly when ball x is in [p1.x, p1.x + 20] and ball y in [p1.y, p1.y + 100]; for any other id: ball x in [p2.x, p2.x + 40] and ball y in [p2.y, p2.y + 100] |
| `Rules.CheckTeleportCollisions` | src/main.rs:172-190 | top: true exactly when y <= 5 and x lies within 300 of the top zone's left end; bottom: y >= 395 and x within 300 of the bottom zone's left end |
| `Rules.Teleport` | src/main.rs:239-244 | only the ball's row changes, and it becomes the old row, one row above the bottom zone, or one row below the top zone |
| `Rules.Bounce` | src/main.rs:247-252 | the vertical velocity is negated exactly when the ball is on or beyond the top or bottom edge; position and horizontal velocity are unchanged and the row is not clamped |
| `Rules.Reset` | src/main.rs:192-201 | the horizontal velocity is negated; the ball goes to the drawn row in [0, 400], at x = 80 when it now moves right and x = 720 otherwise, strictly inside the field |
| `Rules.ScorePoints` | src/main.rs:254-262 | player 1 gains one point exactly when the ball starts the stage at x >= 800 and player 2 exactly when it starts at x <= 0; a scoring ball is reset once and ends strictly inside the field; nothing else changes |
| `Rules.Slope` | src/main.rs:268-270 | the unclamped vertical speed (abs(vx) + abs(vy)) x offset / 100 is zero for a zero offset and has the offset's sign when the ball moves |
| `Rules.Deflect` | src/main.rs:266-277 | a paddle hit negates the horizontal velocity and sets the vertical one to total speed x offset / 100 clamped to [-5, 5]; the ball goes down when hit below the reference row, up when hit above it, and level when hit on it |
| `Rules.Reflect` | src/main.rs:265-292 | the ball's position is unchanged; its horizontal velocity is kept or negated; the ball changes at all only on a hit on paddle 1 while moving left or on paddle 2 while moving right, and is left untouched otherwise; a changed vertical velocity lies in [-5, 5]; a ball with no horizontal velocity is never deflected; a ball in paddle 2's box moving right is deflected by paddle 2, and one in paddle 1's box (and not paddle 2's) moving left by paddle 1 |
| `Rules.Integrate` | src/main.rs:293-294 | the ball moves by exactly its velocity; nothing else changes |
| `Rules.Tick` | src/main.rs:206-297 | one `update`: the stages in source order; no player's id, column or key bindings and no teleporter change (its other properties are the `Invariants.Tick*` lemmas) |
| `Rules.GameOver` | src/main.rs:390 | the game is over exactly when a player has at least 8 points (score > 7, as in the checks at lines 390 and 406); its properties are that it persists through every later frame with the ball stopped (`Invariants.GameOverIsSticky`, `Invariants.GameOverIsTerminal`) and that a frame ends game over exactly when its update does (`Rules.Frame`, `Rules.Run`) |
| `Rules.FreezeIfWon` | src/main.rs:390-408 | when either score exceeds 7 both velocities become 0; otherwise nothing changes; only the velocity is ever touched |
| `Rules.Frame` | src/main.rs:206-408 | one frame (update, then the freeze of draw) keeps the setup, is game over exactly when its update is, and leaves a finished game with a stopped ball (see `Invariants.FrameKeepsInv`, `Invariants.GameOverIsSticky`) |
| `Rules.Run` | src/main.rs:206-408 | any number of frames keeps the setup, and after at least one frame a finished game has a stopped ball (see `Invariants.RunKeepsInv`, `Invariants.GameOverIsTerminal`) |
| `Invariants.InitialInv` | src/main.rs:43-113 | the starting state satisfies the invariant (fixed layout, paddles in band, ball speed 12 and vertical speed in [-5, 5]) and is not game over |
| `Invariants.MovePaddlesInBounds` | src/main.rs:209-237 | tracking and key moves keep both paddles' y within [-6, 306] |
| `Invariants.TeleportAtMostOnce` | src/main.rs:239-244 | with the constructed zones: a top-band hit (y <= 5, x in [325, 625]) sets y to 394, else a bottom-band hit (y >= 395, same span) sets y to 1, else nothing changes; at most one teleport per tick |
| `Invariants.BottomTeleportLandsInTopBand` | src/main.rs:242-244 | after a bottom-zone teleport the ball lies inside the top zone's trigger band |
| `Invariants.DownwardWrapRetriggers` | src/main.rs:239-244 | a ball at (400, 396) moving (12, 1) is wrapped to the top and reaches the bottom band again two ticks later |
| `Invariants.BounceDoesNotClamp` | src/main.rs:247-252 | a ball above the top edge that already moves back down is turned upward again and moves further out, since the row is never clamped |
| `Invariants.HitBoxesDisjoint` | src/main.rs:146-170 | with the paddles in their columns no ball is in both hit boxes, so at most one paddle deflects it per tick; ids Player2 and Comp test the same box |
| `Invariants.PaddleHitDeflects` | src/main.rs:265-292 | with the paddles in their columns, a ball in paddle 1's box moving left becomes `Deflect` by paddle 1, and one in paddle 2's box moving right becomes `Deflect` by paddle 2 |
| `Invariants.TickScoring` | src/main.rs:254-262 | over a whole update, player 1 gains a point exactly when the ball started at x >= 800 and player 2 exactly when it started at x <= 0 |
| `Invariants.TickAwardsAtMostOnePoint` | src/main.rs:254-262 | an update leaves the scores unchanged or adds exactly one point to exactly one player |
| `Invariants.TickKeepsHorizontalSpeed` | src/main.rs:206-297 | an update only ever negates the horizontal velocity, so its magnitude is unchanged |
| `Invariants.StillBallStaysStill` | src/main.rs:206-297 | a ball with zero velocity still has zero velocity after an update, whatever the input |
| `Invariants.TickKeepsInv` | src/main.rs:206-297 | an update preserves the fixed layout, the paddle band [-6, 306], horizontal speed 12 (or a stopped ball), vertical speed in [-5, 5], ball x in (-12, 812) and non-negative scores |
| `Invariants.FrameKeepsInv` | src/main.rs:206-408 | an update followed by the game-over freeze preserves the same invariant |
| `Invariants.GameOverIsSticky` | src/main.rs:390-408 | from a game-over state, one frame stays game over and leaves the ball stopped |
| `Invariants.RunKeepsInv` | src/main.rs:206-408 | every state reached from an invariant state by any number of frames satisfies the invariant |
| `Invariants.PaddlesStayInBounds` | src/main.rs:209-237 | from the starting state, both paddles stay within [-6, 306] forever |
| `Invariants.RunScoresNeverDecrease` | src/main.rs:254-262 | scores never decrease over any number of frames |
| `Invariants.GameOverIsTerminal` | src/main.rs:390-408 | game over persists through any number of frames, with the ball stopped after the first of them |
| `Game.MainState.constructor` | src/main.rs:127-144 | the state holds the given entities with both scores 0; built from the standard constructors it is the starting state and valid |
| `Game.MainState.ResetBall` | src/main.rs:192-201 | the ball becomes `Reset` of the old ball; nothing else changes; the invariant is kept |
| `Game.MainState.MoveByKeys` | src/main.rs:209-215 | the chosen player's paddle makes exactly `KeyMove`; nothing else changes |
| `Game.MainState.Steer` | src/main.rs:209-237 | the fields change exactly as `MovePaddles` says |
| `Game.MainState.UseTeleporters` | src/main.rs:239-244 | the fields change exactly as `Teleport` says |
| `Game.MainState.BounceOffWalls` | src/main.rs:247-252 | the ball becomes `Bounce` of the old ball; nothing else changes |
| `Game.MainState.AwardPoints` | src/main.rs:254-262 | the fields change exactly as `ScorePoints` says |
| `Game.MainState.DeflectBall` | src/main.rs:266-277 | the ball becomes `Deflect` of the old ball; nothing else changes |
| `Game.MainState.BounceOffPaddles` | src/main.rs:265-292 | the fields change exactly as `Reflect` says |
| `Game.MainState.Update` | src/main.rs:206-297 | the new state is `Tick` of the old one; it keeps the invariant, keeps the horizontal speed, and never lowers a score |
| `Game.MainState.FreezeIfWon` | src/main.rs:390-408 | the new state is `FreezeIfWon` of the old one, so a game-over state has a stopped ball; the invariant is kept |

## Left out

- Rendering in `draw` (src/main.rs:299-481): meshes, the canvas, the score glyphs and the "W"/"L" labels are host toolkit calls. Only the velocity freeze is modelled.
- `main`, window setup and the event-loop plumbing (src/main.rs:484-499). `Rules.Initial` is the state `main` builds.
- Keyboard polling: replaced by the `Keys` snapshot.
- The random generator: the reset row is the `ResetDraw` parameter. The two `noise` draws in `update` are never used and are dropped.
- `f32` rounding: positions and velocities are exact `real`s, and `Abs`, `Min` and `Max` are the exact real operations.
- The `i32` score counters are unbounded integers, so wrap-around after 2^31 - 1 points is not modelled.
- `GameResult`: every constructor returns `Ok`, so the constructors return plain values.
- `Ball.radius` and `Teleporter.width`/`height`/`location` are carried but unused by the logic, which reads the constants, as the source does.
