/**
 * The playfield constants and the entities of the rong game: two paddles,
 * one ball and two teleporter zones, with the constructors that fix their
 * start positions. Positions and velocities are `real`s standing for the
 * source's `f32`s.
 */
module Entities {

  const WINDOW_HEIGHT: real := 400.0
  const WINDOW_WIDTH: real := 800.0
  const PADDLE_HEIGHT: real := 200.0
  const PADDLE_WIDTH: real := 40.0
  const PADDLE_SPEED: real := 6.0
  const TELEPORTER_WIDTH: real := 300.0
  const TELEPORTER_HEIGHT: real := 5.0

  /** Largest row the random reset draw can return (`WINDOW_HEIGHT as i32`). */
  const MAX_RESET_ROW: int := 400

  /** A row drawn uniformly from `0..=WINDOW_HEIGHT` when the ball is reset. */
  type ResetDraw = n: int | 0 <= n <= MAX_RESET_ROW

  datatype PlayerId = Player1 | Player2 | Comp

  datatype TeleporterLocation = Top | Bottom

  /** The keyboard keys the paddles are bound to. */
  datatype Key = W | S | Up | Down

  /** A snapshot of which of the four bound keys are held down this tick. */
  datatype Keys = Keys(w: bool, s: bool, up: bool, down: bool)

  function IsPressed(keys: Keys, k: Key): bool
  {
    match k
    case W => keys.w
    case S => keys.s
    case Up => keys.up
    case Down => keys.down
  }

  datatype Player = Player(id: PlayerId, posX: real, posY: real, keyUp: Key, keyDown: Key)

  datatype Ball = Ball(posX: real, posY: real, velX: real, velY: real, radius: real)

  datatype Teleporter = Teleporter(location: TeleporterLocation, posX: real, posY: real,
                                   width: real, height: real)

  /**
   * A paddle starts vertically centred on its quarter-height reference row;
   * player 1 sits at the left edge on W/S, every other id at the right edge
   * on the arrow keys.
   */
  function NewPlayer(id: PlayerId): (p: Player)
    ensures p.id == id && p.posY == 150.0
    ensures p.posY + PADDLE_HEIGHT / 4.0 == WINDOW_HEIGHT / 2.0
    ensures id == Player1 ==> p.posX == 20.0 && p.keyUp == W && p.keyDown == S
    ensures id != Player1 ==> p.posX == 760.0 && p.keyUp == Up && p.keyDown == Down
    ensures id != Player1 ==> p.posX + PADDLE_WIDTH == WINDOW_WIDTH
  {
    var startY := WINDOW_HEIGHT / 2.0 - PADDLE_HEIGHT / 4.0;
    if id == Player1 then
      Player(id, PADDLE_WIDTH / 2.0, startY, W, S)
    else
      Player(id, WINDOW_WIDTH - PADDLE_WIDTH, startY, Up, Down)
  }

  /** The ball starts in the middle of the playfield, heading right and slightly down. */
  function NewBall(): (b: Ball)
    ensures b.posX == 400.0 && b.posY == 200.0
    ensures b.posX == WINDOW_WIDTH / 2.0 && b.posY == WINDOW_HEIGHT / 2.0
    ensures b.velX == 12.0 && b.velY == 1.0 && b.radius == 10.0
  {
    Ball(WINDOW_WIDTH / 2.0, WINDOW_HEIGHT / 2.0, 12.0, 1.0, 10.0)
  }

  /**
   * Both zones span x in [325, 625]; the top one sits on row 0, the bottom
   * one on the last TELEPORTER_HEIGHT rows of the playfield.
   */
  function NewTeleporter(location: TeleporterLocation): (t: Teleporter)
    ensures t.location == location && t.posX == 325.0
    ensures t.posX + TELEPORTER_WIDTH == 625.0
    ensures location == Top ==> t.posY == 0.0
    ensures location == Bottom ==> t.posY == 395.0 && t.posY + TELEPORTER_HEIGHT == WINDOW_HEIGHT
    ensures t.width == TELEPORTER_WIDTH && t.height == TELEPORTER_HEIGHT
  {
    var y := if location == Top then 0.0 else WINDOW_HEIGHT - TELEPORTER_HEIGHT;
    Teleporter(location, WINDOW_WIDTH / 2.0 - TELEPORTER_WIDTH / 4.0, y,
               TELEPORTER_WIDTH, TELEPORTER_HEIGHT)
  }
}
