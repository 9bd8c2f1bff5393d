/**
 * The game state object. `Update` changes the fields stage by stage as the
 * per-frame handler does, and is proved to produce exactly `Rules.Tick` of
 * the state it started from; `FreezeIfWon` is the velocity-zeroing step of
 * the drawing handler.
 */
module Game {
  import opened Entities
  import opened Rules
  import opened Invariants

  class MainState {
    var player1: Player
    var player2: Player
    var ball: Ball
    var player1Score: int
    var player2Score: int
    var teleporterTop: Teleporter
    var teleporterBottom: Teleporter

    /** The object's fields as one value. */
    function State(): World
      reads this
    {
      World(player1, player2, ball, player1Score, player2Score, teleporterTop, teleporterBottom)
    }

    ghost predicate Valid()
      reads this
    {
      Inv(State())
    }

    /** Both scores start at 0; everything else is taken as given. */
    constructor (player1: Player, player2: Player, ball: Ball,
                 teleporterTop: Teleporter, teleporterBottom: Teleporter)
      ensures State() == World(player1, player2, ball, 0, 0, teleporterTop, teleporterBottom)
      ensures player1 == NewPlayer(Player1) && player2 == NewPlayer(Player2) && ball == NewBall()
              && teleporterTop == NewTeleporter(Top) && teleporterBottom == NewTeleporter(Bottom)
              ==> State() == Initial() && Valid()
    {
      this.player1 := player1;
      this.player2 := player2;
      this.ball := ball;
      this.player1Score := 0;
      this.player2Score := 0;
      this.teleporterTop := teleporterTop;
      this.teleporterBottom := teleporterBottom;
      new;
      InitialInv();
    }

    /** Serve again after a point, on the drawn row; nothing but the ball changes. */
    method ResetBall(draw: ResetDraw)
      modifies this
      ensures ball == Reset(old(ball), draw)
      ensures State() == old(State()).(ball := ball)
      ensures old(Valid()) ==> Valid()
    {
      ball := ball.(velX := ball.velX * -1.0);
      ball := ball.(posY := draw as real);
      if ball.velX > 0.0 {
        ball := ball.(posX := PADDLE_WIDTH * 2.0);
      } else {
        ball := ball.(posX := WINDOW_WIDTH - PADDLE_WIDTH * 2.0);
      }
    }

    /** Player 1's key move, or player 2's, on the paddle's own bindings. */
    method MoveByKeys(id: PlayerId, keys: Keys)
      modifies this
      ensures id == Player1 ==> State() == old(State()).(player1 := KeyMove(old(player1), keys))
      ensures id != Player1 ==> State() == old(State()).(player2 := KeyMove(old(player2), keys))
    {
      var p := if id == Player1 then player1 else player2;
      if IsPressed(keys, p.keyDown) && p.posY <= WINDOW_HEIGHT - PADDLE_HEIGHT / 2.0 {
        p := p.(posY := p.posY + PADDLE_SPEED);
      } else if IsPressed(keys, p.keyUp) && p.posY >= 0.0 {
        p := p.(posY := p.posY - PADDLE_SPEED);
      }
      if id == Player1 {
        player1 := p;
      } else {
        player2 := p;
      }
    }

    /** A hit on the paddle whose top edge is at `paddleY`; only the ball's velocity changes. */
    method DeflectBall(paddleY: real)
      modifies this
      ensures ball == Deflect(old(ball), paddleY)
      ensures State() == old(State()).(ball := ball)
    {
      ball := ball.(velX := ball.velX * -1.0);
      var offset := ball.posY - (paddleY + PADDLE_HEIGHT / 4.0);
      var absoluteSpeed := Abs(ball.velX) + Abs(ball.velY);
      ball := ball.(velY := absoluteSpeed * offset / 100.0);
      assert ball.velY == Slope(Abs(old(ball.velX)) + Abs(old(ball.velY)), old(ball.posY) - (paddleY + 50.0));
      if ball.velY > 5.0 {
        ball := ball.(velY := 5.0);
      }
      if ball.velY < -5.0 {
        ball := ball.(velY := -5.0);
      }
    }

    /** Player 1's paddle deflects first, then player 2's. */
    method BounceOffPaddles()
      modifies this
      ensures State() == Reflect(old(State()))
    {
      if CheckPaddleCollisions(State(), Player1) {
        if ball.velX < 0.0 {
          DeflectBall(player1.posY);
        }
      }
      if CheckPaddleCollisions(State(), Player2) {
        if ball.velX > 0.0 {
          DeflectBall(player2.posY);
        }
      }
    }

    /** The movement stage: player 1's keys, player 2's tracking, player 2's keys. */
    method Steer(keys: Keys)
      modifies this
      ensures State() == MovePaddles(old(State()), keys)
    {
      MoveByKeys(Player1, keys);
      if player2.id == Player2 {
        var yOffset := ball.posY - (player2.posY + PADDLE_HEIGHT / 4.0);
        if yOffset > 0.0 && player2.posY <= WINDOW_HEIGHT - PADDLE_HEIGHT / 2.0 {
          player2 := player2.(posY := player2.posY + Min(yOffset, PADDLE_SPEED));
        } else if yOffset < 0.0 && player2.posY >= 0.0 {
          player2 := player2.(posY := player2.posY + Max(yOffset, -PADDLE_SPEED));
        }
      }
      MoveByKeys(Player2, keys);
    }

    /** The teleporter stage: the top zone is checked first, then the bottom one. */
    method UseTeleporters()
      modifies this
      ensures State() == Teleport(old(State()))
    {
      if CheckTeleportCollisions(State(), Top) {
        ball := ball.(posY := teleporterBottom.posY - 1.0);
      }
      if CheckTeleportCollisions(State(), Bottom) {
        ball := ball.(posY := teleporterTop.posY + 1.0);
      }
    }

    /** The wall stage: the top edge is checked first, then the bottom one. */
    method BounceOffWalls()
      modifies this
      ensures State() == old(State()).(ball := Bounce(old(ball)))
    {
      if ball.posY <= 0.0 {
        ball := ball.(velY := ball.velY * -1.0);
      }
      if ball.posY >= WINDOW_HEIGHT {
        ball := ball.(velY := ball.velY * -1.0);
      }
    }

    /** The scoring stage: the right edge is checked first, then the left one. */
    method AwardPoints(draw: ResetDraw)
      modifies this
      ensures State() == ScorePoints(old(State()), draw)
    {
      if ball.posX >= WINDOW_WIDTH {
        player1Score := player1Score + 1;
        ResetBall(draw);
      }
      if ball.posX <= 0.0 {
        player2Score := player2Score + 1;
        ResetBall(draw);
      }
    }

    /**
     * One frame's game update on the given key snapshot and reset draw. It
     * changes the state exactly as `Tick` says and keeps the invariant.
     */
    method Update(keys: Keys, draw: ResetDraw)
      modifies this
      ensures State() == Tick(old(State()), keys, draw)
      ensures old(Valid()) ==> Valid()
      ensures Abs(ball.velX) == Abs(old(ball.velX))
      ensures player1Score >= old(player1Score) && player2Score >= old(player2Score)
    {
      ghost var w := State();
      if Inv(w) {
        TickKeepsInv(w, keys, draw);
      }
      TickKeepsHorizontalSpeed(w, keys, draw);
      TickScoring(w, keys, draw);

      Steer(keys);
      UseTeleporters();
      BounceOffWalls();
      AwardPoints(draw);
      BounceOffPaddles();
      ghost var reflected := State();
      ball := ball.(posX := ball.posX + ball.velX);
      ball := ball.(posY := ball.posY + ball.velY);
      assert State() == reflected.(ball := Integrate(reflected.ball));
    }

    /**
     * The game-over check of the drawing handler: once either score passes 7
     * the ball is stopped; nothing else changes.
     */
    method FreezeIfWon()
      modifies this
      ensures State() == Rules.FreezeIfWon(old(State()))
      ensures GameOver(State()) ==> ball.velX == 0.0 && ball.velY == 0.0
      ensures old(Valid()) ==> Valid()
    {
      if player1Score > 7 {
        ball := ball.(velX := 0.0);
        ball := ball.(velY := 0.0);
      }
      if player2Score > 7 {
        ball := ball.(velX := 0.0);
        ball := ball.(velY := 0.0);
      }
    }
  }
}
