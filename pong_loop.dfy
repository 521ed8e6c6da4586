/** The single-loop game (pong_game.py): the state lives in local variables
    that one `while` loop reassigns each tick, in the order keys, paddles,
    ball, collision. The arena and the shapes are fixed constants. */
module PongLoop {
  import opened PongRules

  const WIDTH: int := 1000
  const HEIGHT: int := 600
  const RADIUS: int := 15
  const PADDLE_WIDTH: int := 20
  const PADDLE_HEIGHT: int := 120
  const LEFT_PADDLE_X: int := 100
  const RIGHT_PADDLE_X: int := WIDTH - 100

  /** The loop's variables. */
  datatype GameState = GameState(
    ballX: int, ballY: int, ballVelX: int, ballVelY: int,
    leftPaddleY: int, rightPaddleY: int,
    leftPaddleVel: int, rightPaddleVel: int)

  /** The values the loop starts from. */
  function InitialState(): (s: GameState)
    ensures s == GameState(500, 300, 2, 2, 240, 240, 0, 0)
  {
    GameState(WIDTH / 2, HEIGHT / 2, 2, 2,
              HEIGHT / 2 - PADDLE_HEIGHT / 2, HEIGHT / 2 - PADDLE_HEIGHT / 2, 0, 0)
  }

  function BallOf(s: GameState): BallState {
    BallState(s.ballX, s.ballY, s.ballVelX, s.ballVelY, RADIUS)
  }

  function PaddlesOf(s: GameState): Paddles {
    Paddles(PADDLE_WIDTH, PADDLE_HEIGHT,
            LEFT_PADDLE_X, s.leftPaddleY, s.leftPaddleVel,
            RIGHT_PADDLE_X, s.rightPaddleY, s.rightPaddleVel)
  }

  /** The paddles after this tick's keys are read and applied. */
  function MovedPaddles(s: GameState, keys: Keys): Paddles {
    MovePaddles(SetIntent(PaddlesOf(s), keys), HEIGHT)
  }

  /** The ball after translation, wall bounce and reset, before collision. */
  function MovedBall(s: GameState): BallState {
    MoveBall(BallOf(s), WIDTH, HEIGHT)
  }

  /** The collision test passes for one of the paddles this tick. */
  predicate PaddleHit(s: GameState, keys: Keys) {
    HitsLeft(MovedBall(s), MovedPaddles(s, keys)) || HitsRight(MovedBall(s), MovedPaddles(s, keys))
  }

  /** One pass of the loop body, composed from the shared rules in the
      loop's order: keys, paddles, ball, collision. */
  function Step(s: GameState, keys: Keys): (t: GameState)
    // this tick's keys decide this tick's paddle velocities, up winning
    ensures t.leftPaddleVel == KeyVelocity(keys.w, keys.s)
    ensures t.rightPaddleVel == KeyVelocity(keys.up, keys.down)
    // and are applied at once, clamped to the arena
    ensures t.leftPaddleY == Max(0, Min(HEIGHT - PADDLE_HEIGHT, s.leftPaddleY + t.leftPaddleVel))
    ensures t.rightPaddleY == Max(0, Min(HEIGHT - PADDLE_HEIGHT, s.rightPaddleY + t.rightPaddleVel))
    ensures 0 <= t.leftPaddleY <= 480 && 0 <= t.rightPaddleY <= 480
    ensures Abs(t.ballVelX) == Abs(s.ballVelX) && Abs(t.ballVelY) == Abs(s.ballVelY)
    // with no reset the ball moves by its velocity, bouncing off top or bottom
    ensures !Resets(BallOf(s), WIDTH) ==>
      t.ballX == s.ballX + s.ballVelX && t.ballY == s.ballY + s.ballVelY
    ensures !Resets(BallOf(s), WIDTH) ==>
      t.ballVelY == if Bounces(BallOf(s), HEIGHT) then -s.ballVelY else s.ballVelY
    // the reset re-centres the ball, and the paddles cannot touch it there
    ensures Resets(BallOf(s), WIDTH) ==>
      t.ballX == 500 && t.ballY == 300 && t.ballVelX == -s.ballVelX && !PaddleHit(s, keys)
    ensures Resets(BallOf(s), WIDTH) ==>
      t.ballVelY == if Bounces(BallOf(s), HEIGHT) then s.ballVelY else -s.ballVelY
    // the horizontal velocity is negated at most once per tick
    ensures t.ballVelX ==
      if Resets(BallOf(s), WIDTH) || PaddleHit(s, keys) then -s.ballVelX else s.ballVelX
  {
    var p := MovedPaddles(s, keys);
    var b := Collide(MovedBall(s), p);
    GameState(b.x, b.y, b.velX, b.velY, p.leftY, p.rightY, p.leftVel, p.rightVel)
  }

  /** The loop body as written: plain variable updates. */
  method Tick(s: GameState, keys: Keys) returns (t: GameState)
    ensures t == Step(s, keys)
  {
    var ballX, ballY, ballVelX, ballVelY := s.ballX, s.ballY, s.ballVelX, s.ballVelY;
    var leftPaddleY, rightPaddleY := s.leftPaddleY, s.rightPaddleY;

    var leftPaddleVel := if keys.w then -5 else if keys.s then 5 else 0;
    var rightPaddleVel := if keys.up then -5 else if keys.down then 5 else 0;

    leftPaddleY := leftPaddleY + leftPaddleVel;
    rightPaddleY := rightPaddleY + rightPaddleVel;

    leftPaddleY := Max(0, Min(HEIGHT - PADDLE_HEIGHT, leftPaddleY));
    rightPaddleY := Max(0, Min(HEIGHT - PADDLE_HEIGHT, rightPaddleY));
    ghost var p := MovedPaddles(s, keys);
    assert leftPaddleY == p.leftY && rightPaddleY == p.rightY;
    assert leftPaddleVel == p.leftVel && rightPaddleVel == p.rightVel;

    ballX := ballX + ballVelX;
    ballY := ballY + ballVelY;

    if ballY - RADIUS <= 0 || ballY + RADIUS >= HEIGHT {
      ballVelY := -ballVelY;
    }

    if ballX - RADIUS <= 0 || ballX + RADIUS >= WIDTH {
      ballX, ballY := WIDTH / 2, HEIGHT / 2;
      ballVelX := -ballVelX;
      ballVelY := -ballVelY;
    }
    ghost var b := MovedBall(s);
    assert BallState(ballX, ballY, ballVelX, ballVelY, RADIUS) == b;

    if LEFT_PADDLE_X <= ballX - RADIUS <= LEFT_PADDLE_X + PADDLE_WIDTH {
      if leftPaddleY <= ballY <= leftPaddleY + PADDLE_HEIGHT {
        ballVelX := -ballVelX;
      }
    }
    if RIGHT_PADDLE_X <= ballX + RADIUS <= RIGHT_PADDLE_X + PADDLE_WIDTH {
      if rightPaddleY <= ballY <= rightPaddleY + PADDLE_HEIGHT {
        ballVelX := -ballVelX;
      }
    }

    t := GameState(ballX, ballY, ballVelX, ballVelY, leftPaddleY, rightPaddleY, leftPaddleVel, rightPaddleVel);
  }

  /** The state after one tick per element of `frames`, the last one applied
      last. */
  function Run(s: GameState, frames: seq<Keys>): (t: GameState)
    // after at least one tick, the paddles are on screen and move as the
    // last tick's keys say
    ensures frames != [] ==> 0 <= t.leftPaddleY <= 480 && 0 <= t.rightPaddleY <= 480
    ensures frames != [] ==>
      t.leftPaddleVel == KeyVelocity(frames[|frames| - 1].w, frames[|frames| - 1].s) &&
      t.rightPaddleVel == KeyVelocity(frames[|frames| - 1].up, frames[|frames| - 1].down)
    // the ball's speed on each axis never changes
    ensures Abs(t.ballVelX) == Abs(s.ballVelX) && Abs(t.ballVelY) == Abs(s.ballVelY)
    decreases |frames|
  {
    if frames == [] then s
    else Step(Run(s, frames[..|frames| - 1]), frames[|frames| - 1])
  }

  /** What holds after every tick: paddles on screen and the ball moving
      at 2 per tick on each axis. */
  predicate Invariant(s: GameState) {
    0 <= s.leftPaddleY <= HEIGHT - PADDLE_HEIGHT &&
    0 <= s.rightPaddleY <= HEIGHT - PADDLE_HEIGHT &&
    Abs(s.ballVelX) == 2 && Abs(s.ballVelY) == 2
  }

  /** Every run of ticks from a state satisfying the invariant keeps it. */
  lemma {:induction false} RunKeepsInvariant(s: GameState, frames: seq<Keys>)
    requires Invariant(s)
    ensures Invariant(Run(s, frames))
    decreases |frames|
  {
    if frames != [] {
      RunKeepsInvariant(s, frames[..|frames| - 1]);
    }
  }

  /** The game: start from the initial values and run the loop body once per
      element of `frames`. */
  method MainGame(frames: seq<Keys>) returns (s: GameState)
    ensures s == Run(InitialState(), frames)
    ensures Invariant(s)
  {
    s := GameState(WIDTH / 2, HEIGHT / 2, 2, 2,
                   HEIGHT / 2 - PADDLE_HEIGHT / 2, HEIGHT / 2 - PADDLE_HEIGHT / 2, 0, 0);
    var i := 0;
    while i < |frames|
      invariant 0 <= i <= |frames|
      invariant s == Run(InitialState(), frames[..i])
      invariant Invariant(s)
    {
      s := Tick(s, frames[i]);
      assert frames[..i + 1][..i] == frames[..i];
      i := i + 1;
    }
    assert frames[..|frames|] == frames;
  }

  /** `n` ticks with no key held. */
  function Idle(n: nat): (frames: seq<Keys>)
    ensures |frames| == n
  {
    seq(n, _ => NoKeys)
  }

  /** With no key held, the ball drifts from the centre by (2, 2) a tick for
      the first 142 ticks: no wall, edge or paddle is touched and the paddles
      stay where they started. */
  lemma {:induction false} IdleDrift(k: nat)
    requires k <= 142
    ensures Run(InitialState(), Idle(k)) == GameState(500 + 2 * k, 300 + 2 * k, 2, 2, 240, 240, 0, 0)
  {
    if k > 0 {
      IdleDrift(k - 1);
      assert Idle(k) == Idle(k - 1) + [NoKeys];
      RunSnoc(InitialState(), Idle(k - 1), NoKeys);
      IdleTick(k - 1);
    }
  }

  /** Running one more tick at the end is one more `Step`. */
  lemma RunSnoc(s: GameState, frames: seq<Keys>, keys: Keys)
    ensures Run(s, frames + [keys]) == Step(Run(s, frames), keys)
  {
    assert (frames + [keys])[..|frames|] == frames;
  }

  /** One idle tick in the drift phase. */
  lemma IdleTick(k: nat)
    requires k <= 142
    ensures Step(GameState(500 + 2 * k, 300 + 2 * k, 2, 2, 240, 240, 0, 0), NoKeys) ==
      if k < 142 then GameState(502 + 2 * k, 302 + 2 * k, 2, 2, 240, 240, 0, 0)
      else GameState(786, 586, 2, -2, 240, 240, 0, 0)
  {
  }

  /** The first vertical bounce comes on tick 143, with the ball at
      (786, 586). */
  lemma FirstBounce()
    ensures Run(InitialState(), Idle(143)) == GameState(786, 586, 2, -2, 240, 240, 0, 0)
  {
    IdleDrift(142);
    assert Idle(143) == Idle(142) + [NoKeys];
    RunSnoc(InitialState(), Idle(142), NoKeys);
    IdleTick(142);
  }
}
