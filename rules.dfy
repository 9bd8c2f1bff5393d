/**
 * The per-tick game rules as functions on a value snapshot of the game
 * state. Each function is one stage of `update` (or the game-over freeze
 * of `draw`); `Tick` chains the stages in the order the source runs them.
 */
module Rules {
  import opened Entities

  /** Everything `MainState` holds, as one value. */
  datatype World = World(player1: Player, player2: Player, ball: Ball,
                         player1Score: int, player2Score: int,
                         teleporterTop: Teleporter, teleporterBottom: Teleporter)

  /** The state `main` builds before the first tick. */
  function Initial(): (w: World)
    ensures w.player1.posY == 150.0 && w.player2.posY == 150.0
    ensures w.player1.id == Player1 && w.player2.id == Player2
    ensures w.player1Score == 0 && w.player2Score == 0
    ensures w.ball.velX == 12.0 && w.ball.velY == 1.0
  {
    World(NewPlayer(Player1), NewPlayer(Player2), NewBall(), 0, 0,
          NewTeleporter(Top), NewTeleporter(Bottom))
  }

  function Abs(x: real): (r: real)
    ensures r >= 0.0 && (r == x || r == -x)
  {
    if x < 0.0 then -x else x
  }

  function Min(x: real, y: real): (r: real)
    ensures r <= x && r <= y && (r == x || r == y)
  {
    if x <= y then x else y
  }

  function Max(x: real, y: real): (r: real)
    ensures r >= x && r >= y && (r == x || r == y)
  {
    if x >= y then x else y
  }

  /** Lowest top edge from which a paddle may still move down. */
  const LOWEST_START: real := WINDOW_HEIGHT - PADDLE_HEIGHT / 2.0

  /**
   * One key-driven paddle move: down by PADDLE_SPEED when the paddle's down
   * key is held and its top edge is at most LOWEST_START, otherwise up by
   * PADDLE_SPEED when its up key is held and the top edge is not above 0.
   * Down wins when both keys are held.
   */
  function KeyMove(p: Player, keys: Keys): (r: Player)
    ensures r == p.(posY := r.posY)
    ensures r.posY == p.posY + 6.0 <==> IsPressed(keys, p.keyDown) && p.posY <= 300.0
    ensures r.posY == p.posY - 6.0 <==>
              !(IsPressed(keys, p.keyDown) && p.posY <= 300.0)
              && IsPressed(keys, p.keyUp) && p.posY >= 0.0
    ensures r.posY == p.posY <==>
              !(IsPressed(keys, p.keyDown) && p.posY <= 300.0)
              && !(IsPressed(keys, p.keyUp) && p.posY >= 0.0)
  {
    if IsPressed(keys, p.keyDown) && p.posY <= LOWEST_START then
      p.(posY := p.posY + PADDLE_SPEED)
    else if IsPressed(keys, p.keyUp) && p.posY >= 0.0 then
      p.(posY := p.posY - PADDLE_SPEED)
    else
      p
  }

  /** How far the ball's row lies below the paddle's quarter-height reference row. */
  function TrackingOffset(p: Player, ballY: real): (offset: real)
    ensures offset > 0.0 <==> ballY > p.posY + 50.0
    ensures offset < 0.0 <==> ballY < p.posY + 50.0
    ensures p.posY + 50.0 + offset == ballY
  {
    ballY - (p.posY + PADDLE_HEIGHT / 4.0)
  }

  /**
   * The computer's tracking move: step toward the ball's row by at most
   * PADDLE_SPEED, guarded by the same edge checks as a key move.
   */
  function AiTrack(p: Player, ballY: real): (r: Player)
    ensures r == p.(posY := r.posY)
    ensures var offset, d := TrackingOffset(p, ballY), r.posY - p.posY;
      && (offset > 0.0 && p.posY <= 300.0 ==> 0.0 < d <= 6.0 && d <= offset)
      && (offset < 0.0 && p.posY >= 0.0 ==> -6.0 <= d < 0.0 && offset <= d)
      && (d != 0.0 <==> (offset > 0.0 && p.posY <= 300.0) || (offset < 0.0 && p.posY >= 0.0))
    ensures var offset := TrackingOffset(p, ballY);
      (offset > 0.0 && p.posY <= 300.0) || (offset < 0.0 && p.posY >= 0.0) ==>
        (Abs(offset) <= 6.0 <==> r.posY + 50.0 == ballY)
    ensures var offset := TrackingOffset(p, ballY);
      && (offset >= 6.0 && p.posY <= 300.0 ==> r.posY == p.posY + 6.0)
      && (offset <= -6.0 && p.posY >= 0.0 ==> r.posY == p.posY - 6.0)
  {
    var offset := TrackingOffset(p, ballY);
    if offset > 0.0 && p.posY <= LOWEST_START then
      p.(posY := p.posY + Min(offset, PADDLE_SPEED))
    else if offset < 0.0 && p.posY >= 0.0 then
      p.(posY := p.posY + Max(offset, -PADDLE_SPEED))
    else
      p
  }

  /**
   * Paddle stage: player 1 follows its keys; player 2 first tracks the ball
   * when its id is Player2, then also follows its own keys.
   */
  function MovePaddles(w: World, keys: Keys): (r: World)
    ensures r == w.(player1 := r.player1, player2 := r.player2)
    ensures r.player1 == KeyMove(w.player1, keys)
    ensures w.player2.id == Player2 ==> r.player2 == KeyMove(AiTrack(w.player2, w.ball.posY), keys)
    ensures w.player2.id != Player2 ==> r.player2 == KeyMove(w.player2, keys)
  {
    var p2 := if w.player2.id == Player2 then AiTrack(w.player2, w.ball.posY) else w.player2;
    w.(player1 := KeyMove(w.player1, keys), player2 := KeyMove(p2, keys))
  }

  /**
   * Is the ball inside the given paddle's hit box? Player 1's box is the
   * left half of its width; any other id tests player 2's paddle over its
   * full width. Both boxes cover the top half of the paddle's height.
   */
  function CheckPaddleCollisions(w: World, id: PlayerId): (hit: bool)
    ensures id == Player1 ==>
      (hit <==> w.player1.posX <= w.ball.posX <= w.player1.posX + 20.0
                && w.player1.posY <= w.ball.posY <= w.player1.posY + 100.0)
    ensures id != Player1 ==>
      (hit <==> w.player2.posX <= w.ball.posX <= w.player2.posX + 40.0
                && w.player2.posY <= w.ball.posY <= w.player2.posY + 100.0)
  {
    if id == Player1 && w.ball.posX >= w.player1.posX
       && w.ball.posX <= w.player1.posX + PADDLE_WIDTH / 2.0
       && w.ball.posY >= w.player1.posY
       && w.ball.posY <= w.player1.posY + PADDLE_HEIGHT / 2.0 then
      true
    else if id != Player1 && w.ball.posX >= w.player2.posX
       && w.ball.posX <= w.player2.posX + PADDLE_WIDTH
       && w.ball.posY >= w.player2.posY
       && w.ball.posY <= w.player2.posY + PADDLE_HEIGHT / 2.0 then
      true
    else
      false
  }

  /**
   * Is the ball inside the trigger band of the given teleporter: at most
   * TELEPORTER_HEIGHT from the top edge, or at least WINDOW_HEIGHT -
   * TELEPORTER_HEIGHT, and within the zone's horizontal span?
   */
  function CheckTeleportCollisions(w: World, location: TeleporterLocation): (hit: bool)
    ensures location == Top ==>
      (hit <==> w.ball.posY <= 5.0
                && w.teleporterTop.posX <= w.ball.posX <= w.teleporterTop.posX + 300.0)
    ensures location == Bottom ==>
      (hit <==> w.ball.posY >= 395.0
                && w.teleporterBottom.posX <= w.ball.posX <= w.teleporterBottom.posX + 300.0)
  {
    match location
    case Top =>
      w.ball.posY <= TELEPORTER_HEIGHT
      && w.ball.posX >= w.teleporterTop.posX
      && w.ball.posX <= w.teleporterTop.posX + TELEPORTER_WIDTH
    case Bottom =>
      w.ball.posY >= WINDOW_HEIGHT - TELEPORTER_HEIGHT
      && w.ball.posX >= w.teleporterBottom.posX
      && w.ball.posX <= w.teleporterBottom.posX + TELEPORTER_WIDTH
  }

  /**
   * Teleport stage: a ball in the top band moves to one row above the bottom
   * zone; then a ball in the bottom band moves to one row below the top zone.
   * Only the ball's row changes.
   */
  function Teleport(w: World): (r: World)
    ensures r == w.(ball := w.ball.(posY := r.ball.posY))
    ensures r.ball.posY == w.ball.posY
            || r.ball.posY == w.teleporterBottom.posY - 1.0
            || r.ball.posY == w.teleporterTop.posY + 1.0
  {
    var w1 := if CheckTeleportCollisions(w, Top)
              then w.(ball := w.ball.(posY := w.teleporterBottom.posY - 1.0))
              else w;
    if CheckTeleportCollisions(w1, Bottom)
    then w1.(ball := w1.ball.(posY := w1.teleporterTop.posY + 1.0))
    else w1
  }

  /**
   * Wall stage: the vertical velocity flips exactly when the ball is on or
   * beyond the top or bottom edge; the position is not clamped.
   */
  function Bounce(b: Ball): (r: Ball)
    ensures r == b.(velY := r.velY)
    ensures r.velY == -b.velY <==> b.posY <= 0.0 || b.posY >= 400.0 || b.velY == 0.0
    ensures r.velY == b.velY <==> (0.0 < b.posY < 400.0) || b.velY == 0.0
  {
    var b1 := if b.posY <= 0.0 then b.(velY := -b.velY) else b;
    if b1.posY >= WINDOW_HEIGHT then b1.(velY := -b1.velY) else b1
  }

  /**
   * `reset_ball`: reverse the horizontal direction, put the ball on the drawn
   * row, and two paddle widths in from the edge it now travels away from.
   */
  function Reset(b: Ball, draw: ResetDraw): (r: Ball)
    ensures r.velX == -b.velX && r.velY == b.velY && r.radius == b.radius
    ensures 0.0 <= r.posY <= WINDOW_HEIGHT && r.posY == draw as real
    ensures 0.0 < r.posX < WINDOW_WIDTH
    ensures r.velX > 0.0 ==> r.posX == 2.0 * PADDLE_WIDTH
    ensures r.velX <= 0.0 ==> r.posX == WINDOW_WIDTH - 2.0 * PADDLE_WIDTH
  {
    var b1 := b.(velX := -b.velX, posY := draw as real);
    if b1.velX > 0.0 then b1.(posX := PADDLE_WIDTH * 2.0)
    else b1.(posX := WINDOW_WIDTH - PADDLE_WIDTH * 2.0)
  }

  /**
   * Scoring stage: a ball on or past the right edge scores for player 1, one
   * on or past the left edge for player 2, and either resets the ball. The
   * reset puts the ball strictly inside the field, so at most one point is
   * awarded, decided by where the ball was before the stage.
   */
  function ScorePoints(w: World, draw: ResetDraw): (r: World)
    ensures r == w.(player1Score := r.player1Score, player2Score := r.player2Score, ball := r.ball)
    ensures r.player1Score == w.player1Score + (if w.ball.posX >= 800.0 then 1 else 0)
    ensures r.player2Score == w.player2Score + (if w.ball.posX <= 0.0 then 1 else 0)
    ensures w.ball.posX >= 800.0 || w.ball.posX <= 0.0 ==> r.ball == Reset(w.ball, draw)
    ensures 0.0 < w.ball.posX < 800.0 ==> r.ball == w.ball
    ensures 0.0 < r.ball.posX < 800.0
  {
    var w1 := if w.ball.posX >= WINDOW_WIDTH
              then w.(player1Score := w.player1Score + 1, ball := Reset(w.ball, draw))
              else w;
    if w1.ball.posX <= 0.0
    then w1.(player2Score := w1.player2Score + 1, ball := Reset(w1.ball, draw))
    else w1
  }

  /** Largest vertical speed a paddle hit can give the ball. */
  const MAX_BOUNCE: real := 5.0

  /**
   * The unclamped vertical speed after a paddle hit: the ball's total speed
   * times its offset from the paddle's reference row, over 100. It has the
   * sign of the offset.
   */
  function Slope(absoluteSpeed: real, offset: real): (v: real)
    requires absoluteSpeed >= 0.0
    ensures offset == 0.0 ==> v == 0.0
    ensures absoluteSpeed > 0.0 && offset > 0.0 ==> v > 0.0
    ensures absoluteSpeed > 0.0 && offset < 0.0 ==> v < 0.0
  {
    assert absoluteSpeed > 0.0 && offset < 0.0 ==> absoluteSpeed * -offset > 0.0;
    absoluteSpeed * offset / 100.0
  }

  /**
   * A paddle hit: reverse the horizontal velocity and give the ball a
   * vertical velocity proportional to how far below the paddle's reference
   * row it struck, scaled by its total speed and capped at MAX_BOUNCE.
   */
  function Deflect(b: Ball, paddleY: real): (r: Ball)
    ensures r == b.(velX := -b.velX, velY := r.velY)
    ensures -5.0 <= r.velY <= 5.0
    ensures var raw := Slope(Abs(b.velX) + Abs(b.velY), b.posY - (paddleY + 50.0));
      && (-5.0 <= raw <= 5.0 ==> r.velY == raw)
      && (raw > 5.0 ==> r.velY == 5.0)
      && (raw < -5.0 ==> r.velY == -5.0)
    ensures Abs(b.velX) > 0.0 ==>
      && (b.posY > paddleY + 50.0 ==> r.velY > 0.0)
      && (b.posY < paddleY + 50.0 ==> r.velY < 0.0)
    ensures b.posY == paddleY + 50.0 ==> r.velY == 0.0
  {
    var velX := -b.velX;
    var offset := b.posY - (paddleY + PADDLE_HEIGHT / 4.0);
    var absoluteSpeed := Abs(velX) + Abs(b.velY);
    var velY := Slope(absoluteSpeed, offset);
    var capped := if velY > MAX_BOUNCE then MAX_BOUNCE else velY;
    var velY' := if capped < -MAX_BOUNCE then -MAX_BOUNCE else capped;
    b.(velX := velX, velY := velY')
  }

  /**
   * Paddle stage: player 1's paddle deflects a ball in its hit box that moves
   * left, then player 2's paddle one in its hit box that moves right.
   */
  function Reflect(w: World): (r: World)
    ensures r == w.(ball := r.ball)
    ensures r.ball.posX == w.ball.posX && r.ball.posY == w.ball.posY
    ensures r.ball.velX == w.ball.velX || r.ball.velX == -w.ball.velX
    ensures r.ball.velX != w.ball.velX ==>
      (CheckPaddleCollisions(w, Player1) && w.ball.velX < 0.0)
      || (CheckPaddleCollisions(w, Player2) && w.ball.velX > 0.0)
    ensures r.ball != w.ball ==>
      (CheckPaddleCollisions(w, Player1) && w.ball.velX < 0.0)
      || (CheckPaddleCollisions(w, Player2) && w.ball.velX > 0.0)
    ensures r.ball.velY != w.ball.velY ==> -5.0 <= r.ball.velY <= 5.0
    ensures w.ball.velX == 0.0 ==> r == w
    ensures CheckPaddleCollisions(w, Player1) && w.ball.velX < 0.0
            && !CheckPaddleCollisions(w, Player2) ==>
              r.ball == Deflect(w.ball, w.player1.posY)
    ensures CheckPaddleCollisions(w, Player2) && w.ball.velX > 0.0 ==>
              r.ball == Deflect(w.ball, w.player2.posY)
  {
    var w1 := if CheckPaddleCollisions(w, Player1) && w.ball.velX < 0.0
              then w.(ball := Deflect(w.ball, w.player1.posY))
              else w;
    if CheckPaddleCollisions(w1, Player2) && w1.ball.velX > 0.0
    then w1.(ball := Deflect(w1.ball, w1.player2.posY))
    else w1
  }

  /** Motion stage: the ball moves by its velocity. */
  function Integrate(b: Ball): (r: Ball)
    ensures r.posX - b.posX == b.velX && r.posY - b.posY == b.velY
    ensures r == b.(posX := r.posX, posY := r.posY)
  {
    b.(posX := b.posX + b.velX, posY := b.posY + b.velY)
  }

  /**
   * The parts of the state no stage of `update` or `draw` writes: each
   * player's id, column and key bindings, and both teleporter zones.
   */
  predicate SameSetup(w: World, r: World)
  {
    && r.player1 == w.player1.(posY := r.player1.posY)
    && r.player2 == w.player2.(posY := r.player2.posY)
    && r.teleporterTop == w.teleporterTop && r.teleporterBottom == w.teleporterBottom
  }

  /** One `update`: the stages in source order. Only paddle rows, the ball and the scores change. */
  function Tick(w: World, keys: Keys, draw: ResetDraw): (r: World)
    ensures SameSetup(w, r)
  {
    var moved := MovePaddles(w, keys);
    var teleported := Teleport(moved);
    var bounced := teleported.(ball := Bounce(teleported.ball));
    var scored := ScorePoints(bounced, draw);
    var reflected := Reflect(scored);
    reflected.(ball := Integrate(reflected.ball))
  }

  /** The game ends once either score passes 7, that is, once a player has 8 points. */
  predicate GameOver(w: World): (over: bool)
    ensures over <==> w.player1Score >= 8 || w.player2Score >= 8
  {
    w.player1Score > 7 || w.player2Score > 7
  }

  /** The velocity-zeroing part of `draw`: once the game is over the ball stops. */
  function FreezeIfWon(w: World): (r: World)
    ensures GameOver(w) ==> r.ball.velX == 0.0 && r.ball.velY == 0.0
    ensures !GameOver(w) ==> r == w
    ensures r == w.(ball := w.ball.(velX := r.ball.velX, velY := r.ball.velY))
  {
    var w1 := if w.player1Score > 7 then w.(ball := w.ball.(velX := 0.0, velY := 0.0)) else w;
    if w1.player2Score > 7 then w1.(ball := w1.ball.(velX := 0.0, velY := 0.0)) else w1
  }

  /** One frame of the game loop: `update`, then the freeze check of `draw`. */
  function Frame(w: World, keys: Keys, draw: ResetDraw): (r: World)
    ensures SameSetup(w, r)
    ensures GameOver(r) <==> GameOver(Tick(w, keys, draw))
    ensures GameOver(r) ==> r.ball.velX == 0.0 && r.ball.velY == 0.0
  {
    FreezeIfWon(Tick(w, keys, draw))
  }

  /** What the host supplies for one frame: the key snapshot and the reset draw. */
  datatype FrameInput = FrameInput(keys: Keys, draw: ResetDraw)

  /** The state after running the given frames in order. */
  function Run(w: World, frames: seq<FrameInput>): (r: World)
    ensures SameSetup(w, r)
    ensures frames != [] && GameOver(r) ==> r.ball.velX == 0.0 && r.ball.velY == 0.0
    decreases |frames|
  {
    if frames == [] then w
    else Run(Frame(w, frames[0].keys, frames[0].draw), frames[1..])
  }
}
