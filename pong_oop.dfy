/** The object-oriented game (pong_game_oop.py): a `Ball` and a `Paddle`
    object whose methods update their fields in place, a stateless
    `PaddleCollision`, and the game loop that calls them once per tick in the
    order ball, paddle move, key read, collision. The arena size is passed as
    the two integers `width` and `height`. */
module PongOop {
  import opened PongRules

  /** The default arena size. */
  const WIDTH: int := 1000
  const HEIGHT: int := 600

  /** The whole simulated state, as a value. */
  datatype World = World(ball: BallState, paddles: Paddles)

  class Ball {
    var radius: int
    var ballX: int
    var ballY: int
    var ballVelX: int
    var ballVelY: int

    function Value(): BallState
      reads this
    {
      BallState(ballX, ballY, ballVelX, ballVelY, radius)
    }

    /** The ball starts at the centre moving right and down at 2 per tick. */
    constructor (width: int, height: int, radius: int := 15)
      ensures Value() == BallState(width / 2, height / 2, 2, 2, radius)
    {
      this.radius := radius;
      ballX, ballY := width / 2, height / 2;
      ballVelX, ballVelY := 2, 2;
    }

    /** Translate, bounce off the top and bottom walls, and re-centre the
        ball when it reaches the left or right edge. The radius is outside
        the frame, so it cannot change. */
    method BallMovement(width: int, height: int)
      modifies this`ballX, this`ballY, this`ballVelX, this`ballVelY
      ensures Value() == MoveBall(old(Value()), width, height)
    {
      ballX := ballX + ballVelX;
      ballY := ballY + ballVelY;

      if ballY - radius <= 0 || ballY + radius >= height {
        ballVelY := -ballVelY;
      }

      if ballX - radius <= 0 || ballX + radius >= width {
        ballX, ballY := width / 2, height / 2;
        ballVelX := -ballVelX;
        ballVelY := -ballVelY;
      }
    }
  }

  /** Both paddles in one object, as the game keeps them. */
  class Paddle {
    var paddleWidth: int
    var paddleHeight: int
    var leftPaddleY: int
    var rightPaddleY: int
    var leftPaddleX: int
    var rightPaddleX: int
    var leftPaddleVel: int
    var rightPaddleVel: int

    function Value(): Paddles
      reads this
    {
      Paddles(paddleWidth, paddleHeight,
              leftPaddleX, leftPaddleY, leftPaddleVel,
              rightPaddleX, rightPaddleY, rightPaddleVel)
    }

    /** Paddles 20 by 120, vertically centred, at x = 100 and x = width - 10,
        at rest. */
    constructor (width: int, height: int)
      ensures Value() == InitialPaddles(width, height)
    {
      paddleWidth, paddleHeight := 20, 120;
      leftPaddleY := height / 2 - 120 / 2;
      rightPaddleY := height / 2 - 120 / 2;
      leftPaddleX := 100;
      rightPaddleX := width - 10;
      leftPaddleVel := 0;
      rightPaddleVel := 0;
    }

    /** Move each paddle by its velocity and keep it on screen. Only the two
        top edges are in the frame: x positions and sizes cannot change. */
    method PaddleMovement(height: int)
      modifies this`leftPaddleY, this`rightPaddleY
      ensures Value() == MovePaddles(old(Value()), height)
    {
      leftPaddleY := leftPaddleY + leftPaddleVel;
      rightPaddleY := rightPaddleY + rightPaddleVel;

      leftPaddleY := Max(0, Min(height - paddleHeight, leftPaddleY));
      rightPaddleY := Max(0, Min(height - paddleHeight, rightPaddleY));
    }

    /** Take both velocities from the keys held now. */
    method KeyPressed(keys: Keys)
      modifies this`leftPaddleVel, this`rightPaddleVel
      ensures Value() == SetIntent(old(Value()), keys)
    {
      leftPaddleVel := KeyVelocity(keys.w, keys.s);
      rightPaddleVel := KeyVelocity(keys.up, keys.down);
    }
  }

  /** The collision resolver holds no state. */
  class PaddleCollision {
    constructor () { }

    /** Negate the ball's horizontal velocity once for each paddle whose
        test passes; only that one field is in the frame. */
    method BallAndPaddleCollision(ball: Ball, paddle: Paddle)
      modifies ball`ballVelX
      ensures ball.Value() == Collide(old(ball.Value()), paddle.Value())
    {
      if paddle.leftPaddleX <= ball.ballX - ball.radius <= paddle.leftPaddleX + paddle.paddleWidth {
        if paddle.leftPaddleY <= ball.ballY <= paddle.leftPaddleY + paddle.paddleHeight {
          ball.ballVelX := -ball.ballVelX;
        }
      }
      if paddle.rightPaddleX <= ball.ballX + ball.radius <= paddle.rightPaddleX + paddle.paddleWidth {
        if paddle.rightPaddleY <= ball.ballY <= paddle.rightPaddleY + paddle.paddleHeight {
          ball.ballVelX := -ball.ballVelX;
        }
      }
    }
  }

  /** The paddles as the `Paddle` constructor lays them out. */
  function InitialPaddles(width: int, height: int): (p: Paddles)
    ensures p.leftVel == 0 && p.rightVel == 0
    // both paddles vertically centred: the margins above and below differ by at most 1
    ensures p.leftY == p.rightY
    ensures 2 * p.leftY + p.height <= height <= 2 * p.leftY + p.height + 1
    ensures height >= 120 ==> OnScreen(p, height)
  {
    Paddles(20, 120, 100, height / 2 - 120 / 2, 0, width - 10, height / 2 - 120 / 2, 0)
  }

  /** The state right after construction, with the default radius. */
  function InitialWorld(width: int, height: int): (w: World)
    ensures height >= 120 ==> OnScreen(w.paddles, height)
    ensures width > 160 ==> BandsApart(w.paddles, w.ball.radius)
  {
    World(BallState(width / 2, height / 2, 2, 2, 15), InitialPaddles(width, height))
  }

  /** The invariant the game keeps from tick to tick: the paddles fit the
      arena and are on screen, and their velocities come from the key rule. */
  predicate TickInvariant(w: World, height: int) {
    w.paddles.height <= height && OnScreen(w.paddles, height) &&
    IsKeyVelocity(w.paddles.leftVel) && IsKeyVelocity(w.paddles.rightVel)
  }

  /** One tick in the loop's call order: ball, paddle move, key read,
      collision. The paddles move with the velocities read on the previous
      tick; the keys read now take effect on the next one. */
  function OopTick(w: World, keys: Keys, width: int, height: int): (r: World)
    // the paddles moved with the velocities they had before this tick ...
    ensures r.paddles.leftY == ClampToArena(w.paddles.leftY + w.paddles.leftVel, w.paddles.height, height)
    ensures r.paddles.rightY == ClampToArena(w.paddles.rightY + w.paddles.rightVel, w.paddles.height, height)
    // ... and carry this tick's key intent into the next one
    ensures r.paddles.leftVel == KeyVelocity(keys.w, keys.s)
    ensures r.paddles.rightVel == KeyVelocity(keys.up, keys.down)
    ensures SameGeometry(r.paddles, w.paddles) && r.ball.radius == w.ball.radius
    ensures Abs(r.ball.velX) == Abs(w.ball.velX) && Abs(r.ball.velY) == Abs(w.ball.velY)
    ensures w.paddles.height <= height ==> TickInvariant(r, height)
  {
    var ball := MoveBall(w.ball, width, height);
    var paddles := SetIntent(MovePaddles(w.paddles, height), keys);
    World(Collide(ball, paddles), paddles)
  }

  /** The state after one tick per element of `frames`, the last one applied
      last. */
  function OopRun(w: World, frames: seq<Keys>, width: int, height: int): (r: World)
    // sizes, x positions and radius never change
    ensures SameGeometry(r.paddles, w.paddles) && r.ball.radius == w.ball.radius
    // after at least one tick, the velocities carried forward are the last keys' intent
    ensures frames != [] ==>
      r.paddles.leftVel == KeyVelocity(frames[|frames| - 1].w, frames[|frames| - 1].s) &&
      r.paddles.rightVel == KeyVelocity(frames[|frames| - 1].up, frames[|frames| - 1].down)
    decreases |frames|
  {
    if frames == [] then w
    else OopTick(OopRun(w, frames[..|frames| - 1], width, height), frames[|frames| - 1], width, height)
  }

  /** Over any number of ticks the paddles stay on screen and the geometry
      stays what it was, so with bands apart at the start no tick can negate
      the ball's horizontal velocity twice. */
  lemma {:induction false} OopRunKeepsInvariant(w: World, frames: seq<Keys>, width: int, height: int)
    requires TickInvariant(w, height)
    ensures TickInvariant(OopRun(w, frames, width, height), height)
    ensures SameGeometry(OopRun(w, frames, width, height).paddles, w.paddles)
    ensures OopRun(w, frames, width, height).ball.radius == w.ball.radius
    decreases |frames|
  {
    if frames != [] {
      OopRunKeepsInvariant(w, frames[..|frames| - 1], width, height);
    }
  }

  /** One pass of the game loop's body, on the game's objects. */
  method Tick(width: int, height: int, ball: Ball, paddle: Paddle, collision: PaddleCollision, keys: Keys)
    modifies ball, paddle
    ensures World(ball.Value(), paddle.Value()) ==
      OopTick(old(World(ball.Value(), paddle.Value())), keys, width, height)
  {
    ball.BallMovement(width, height);
    paddle.PaddleMovement(height);
    paddle.KeyPressed(keys);
    collision.BallAndPaddleCollision(ball, paddle);
  }

  /** A game session: create the objects, then run one tick per element of
      `frames`. On an arena at least as tall as a paddle the paddles end on
      screen; the ball always keeps speed 2 on each axis. */
  method Play(width: int, height: int, frames: seq<Keys>) returns (ball: Ball, paddle: Paddle)
    ensures World(ball.Value(), paddle.Value()) == OopRun(InitialWorld(width, height), frames, width, height)
    ensures height >= 120 ==> TickInvariant(World(ball.Value(), paddle.Value()), height)
    ensures Abs(ball.ballVelX) == 2 && Abs(ball.ballVelY) == 2
  {
    ball := new Ball(width, height);
    paddle := new Paddle(width, height);
    var collision := new PaddleCollision();
    var i := 0;
    while i < |frames|
      invariant 0 <= i <= |frames|
      invariant World(ball.Value(), paddle.Value()) == OopRun(InitialWorld(width, height), frames[..i], width, height)
    {
      Tick(width, height, ball, paddle, collision, frames[i]);
      assert frames[..i + 1][..i] == frames[..i];
      i := i + 1;
    }
    assert frames[..|frames|] == frames;
    if height >= 120 {
      OopRunKeepsInvariant(InitialWorld(width, height), frames, width, height);
    }
    SpeedKept(InitialWorld(width, height), frames, width, height);
  }

  /** The ball's speed on each axis never changes, whatever the paddles do. */
  lemma {:induction false} SpeedKept(w: World, frames: seq<Keys>, width: int, height: int)
    ensures Abs(OopRun(w, frames, width, height).ball.velX) == Abs(w.ball.velX)
    ensures Abs(OopRun(w, frames, width, height).ball.velY) == Abs(w.ball.velY)
    decreases |frames|
  {
    if frames != [] {
      SpeedKept(w, frames[..|frames| - 1], width, height);
    }
  }
}
