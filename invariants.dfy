/**
 * What the rules guarantee over one tick and over any number of frames:
 * the playfield layout never changes, paddles stay within a band around
 * the field, the ball keeps its horizontal speed until the game ends,
 * scores only grow, and the game-over freeze is permanent.
 */
module Invariants {
  import opened Entities
  import opened Rules

  /** The fixed geometry: paddle columns and teleporter zones never move. */
  predicate Layout(w: World)
  {
    && w.player1.posX == 20.0 && w.player2.posX == 760.0
    && w.teleporterTop.posX == 325.0 && w.teleporterTop.posY == 0.0
    && w.teleporterBottom.posX == 325.0 && w.teleporterBottom.posY == 395.0
  }

  /**
   * A paddle may overshoot the move guards (top edge <= 300 for down, >= 0
   * for up) by one step of PADDLE_SPEED, never more.
   */
  predicate PaddleInBounds(p: Player)
  {
    -6.0 <= p.posY <= 306.0
  }

  /**
   * The ball moves horizontally at the start speed 12 in either direction,
   * or is stopped altogether; its vertical speed never exceeds 5; and it is
   * never more than one step outside the field horizontally.
   */
  predicate BallMotion(b: Ball)
  {
    && (b.velX == 12.0 || b.velX == -12.0 || (b.velX == 0.0 && b.velY == 0.0))
    && -5.0 <= b.velY <= 5.0
    && -12.0 < b.posX < 812.0
  }

  predicate Inv(w: World)
  {
    && Layout(w)
    && PaddleInBounds(w.player1) && PaddleInBounds(w.player2)
    && BallMotion(w.ball)
    && w.player1Score >= 0 && w.player2Score >= 0
  }

  lemma InitialInv()
    ensures Inv(Initial())
    ensures !GameOver(Initial())
  {
  }

  /** Every paddle move, key-driven or tracking, keeps the paddle in its band. */
  lemma MovePaddlesInBounds(w: World, keys: Keys)
    requires PaddleInBounds(w.player1) && PaddleInBounds(w.player2)
    ensures PaddleInBounds(MovePaddles(w, keys).player1)
    ensures PaddleInBounds(MovePaddles(w, keys).player2)
  {
  }

  /**
   * With the zones where the constructors put them, one tick teleports the
   * ball at most once: a top-band hit lands it on row 394, which is above the
   * bottom band; otherwise a bottom-band hit lands it on row 1.
   */
  lemma TeleportAtMostOnce(w: World)
    requires Layout(w)
    ensures var b := w.ball;
      Teleport(w).ball ==
        if b.posY <= 5.0 && 325.0 <= b.posX <= 625.0 then b.(posY := 394.0)
        else if b.posY >= 395.0 && 325.0 <= b.posX <= 625.0 then b.(posY := 1.0)
        else b
  {
  }

  /**
   * Row 1, where a bottom-band hit lands the ball, lies inside the top band,
   * so the top zone still covers the ball right after such a teleport.
   */
  lemma BottomTeleportLandsInTopBand(w: World)
    requires Layout(w)
    requires CheckTeleportCollisions(w, Bottom)
    ensures CheckTeleportCollisions(Teleport(w), Top)
  {
  }

  /**
   * A ball moving slowly down through the bottom zone is wrapped to row 1,
   * reaches the top band again on the next tick and is sent straight back
   * to the bottom band.
   */
  lemma DownwardWrapRetriggers()
    ensures var none := Keys(false, false, false, false);
      var w := Initial().(ball := Ball(400.0, 396.0, 12.0, 1.0, 10.0));
      && Tick(w, none, 0).ball.posY == 2.0
      && Tick(Tick(w, none, 0), none, 0).ball.posY == 395.0
      && CheckTeleportCollisions(Tick(Tick(w, none, 0), none, 0), Bottom)
  {
  }

  /**
   * The wall stage does not clamp: a ball already beyond the top edge but
   * moving back into the field is turned outward again and drifts further out.
   */
  lemma BounceDoesNotClamp(b: Ball)
    requires b.posY <= 0.0 && b.velY > 0.0
    ensures Bounce(b).velY == -b.velY
    ensures Integrate(Bounce(b)).posY < b.posY
  {
  }

  /**
   * Paddle 1's hit box ends at x = 40 and paddle 2's starts at x = 760, so
   * no ball is in both and at most one paddle deflects it in a tick.
   */
  lemma HitBoxesDisjoint(w: World)
    requires Layout(w)
    ensures !(CheckPaddleCollisions(w, Player1) && CheckPaddleCollisions(w, Player2))
    ensures CheckPaddleCollisions(w, Player2) == CheckPaddleCollisions(w, Comp)
  {
  }

  /**
   * With the paddles in their columns, a ball in paddle 1's hit box moving
   * left, or in paddle 2's moving right, is deflected by that paddle.
   */
  lemma PaddleHitDeflects(w: World)
    requires Layout(w)
    ensures CheckPaddleCollisions(w, Player1) && w.ball.velX < 0.0 ==>
              Reflect(w).ball == Deflect(w.ball, w.player1.posY)
    ensures CheckPaddleCollisions(w, Player2) && w.ball.velX > 0.0 ==>
              Reflect(w).ball == Deflect(w.ball, w.player2.posY)
  {
    HitBoxesDisjoint(w);
  }

  /** The points of a tick depend only on where the ball stands when the tick starts. */
  lemma TickScoring(w: World, keys: Keys, draw: ResetDraw)
    ensures var r := Tick(w, keys, draw);
      && r.player1Score == w.player1Score + (if w.ball.posX >= WINDOW_WIDTH then 1 else 0)
      && r.player2Score == w.player2Score + (if w.ball.posX <= 0.0 then 1 else 0)
  {
  }

  /** A tick awards at most one point and never takes one away. */
  lemma TickAwardsAtMostOnePoint(w: World, keys: Keys, draw: ResetDraw)
    ensures var r := Tick(w, keys, draw);
      || (r.player1Score == w.player1Score && r.player2Score == w.player2Score)
      || (r.player1Score == w.player1Score + 1 && r.player2Score == w.player2Score)
      || (r.player1Score == w.player1Score && r.player2Score == w.player2Score + 1)
  {
  }

  /** A tick only ever reverses the ball's horizontal velocity. */
  lemma TickKeepsHorizontalSpeed(w: World, keys: Keys, draw: ResetDraw)
    ensures Abs(Tick(w, keys, draw).ball.velX) == Abs(w.ball.velX)
  {
  }

  /** A stopped ball stays stopped through a tick, whatever the input. */
  lemma StillBallStaysStill(w: World, keys: Keys, draw: ResetDraw)
    requires w.ball.velX == 0.0 && w.ball.velY == 0.0
    ensures Tick(w, keys, draw).ball.velX == 0.0 && Tick(w, keys, draw).ball.velY == 0.0
  {
  }

  lemma TickKeepsInv(w: World, keys: Keys, draw: ResetDraw)
    requires Inv(w)
    ensures Inv(Tick(w, keys, draw))
  {
  }

  lemma FrameKeepsInv(w: World, keys: Keys, draw: ResetDraw)
    requires Inv(w)
    ensures Inv(Frame(w, keys, draw))
  {
  }

  /** Once a score passes 7, every later frame leaves the game over with the ball stopped. */
  lemma GameOverIsSticky(w: World, keys: Keys, draw: ResetDraw)
    requires GameOver(w)
    ensures GameOver(Frame(w, keys, draw))
    ensures Frame(w, keys, draw).ball.velX == 0.0 && Frame(w, keys, draw).ball.velY == 0.0
  {
  }

  /** From any invariant state, every reachable state satisfies the invariant. */
  lemma {:induction false} RunKeepsInv(w: World, frames: seq<FrameInput>)
    requires Inv(w)
    ensures Inv(Run(w, frames))
    decreases |frames|
  {
    if frames != [] {
      FrameKeepsInv(w, frames[0].keys, frames[0].draw);
      RunKeepsInv(Frame(w, frames[0].keys, frames[0].draw), frames[1..]);
    }
  }

  /** From the start of a game, both paddles stay within [-6, 306] forever. */
  lemma PaddlesStayInBounds(frames: seq<FrameInput>)
    ensures var r := Run(Initial(), frames);
      -6.0 <= r.player1.posY <= 306.0 && -6.0 <= r.player2.posY <= 306.0
  {
    InitialInv();
    RunKeepsInv(Initial(), frames);
  }

  /** Scores never decrease over any number of frames. */
  lemma {:induction false} RunScoresNeverDecrease(w: World, frames: seq<FrameInput>)
    ensures Run(w, frames).player1Score >= w.player1Score
    ensures Run(w, frames).player2Score >= w.player2Score
    decreases |frames|
  {
    if frames != [] {
      TickAwardsAtMostOnePoint(w, frames[0].keys, frames[0].draw);
      RunScoresNeverDecrease(Frame(w, frames[0].keys, frames[0].draw), frames[1..]);
    }
  }

  /**
   * The game-over state is terminal: it persists through any further frames,
   * and after at least one of them the ball is stopped.
   */
  lemma {:induction false} GameOverIsTerminal(w: World, frames: seq<FrameInput>)
    requires GameOver(w)
    ensures GameOver(Run(w, frames))
    ensures frames != [] ==> Run(w, frames).ball.velX == 0.0 && Run(w, frames).ball.velY == 0.0
    decreases |frames|
  {
    if frames != [] {
      GameOverIsSticky(w, frames[0].keys, frames[0].draw);
      GameOverIsTerminal(Frame(w, frames[0].keys, frames[0].draw), frames[1..]);
    }
  }
}
