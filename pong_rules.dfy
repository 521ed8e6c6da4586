/** The rules of one pong tick that both game loops share: ball translation,
    wall bounce and re-centring, paddle clamping, the key-to-velocity rule and
    the one-axis paddle collision test. Every quantity is an integer, as in
    the game; integer division by 2 is floor division, which Dafny's `/`
    computes exactly for a positive divisor. */
module PongRules {

  /** Paddle speed, in arena units per tick. */
  const PADDLE_SPEED: int := 5

  function Abs(n: int): nat { if n < 0 then -n else n }

  function Min(a: int, b: int): int { if a <= b then a else b }

  function Max(a: int, b: int): int { if a >= b then a else b }

  /** The keys held during one tick: W and S steer the left paddle,
      UP and DOWN the right one. */
  datatype Keys = Keys(w: bool, s: bool, up: bool, down: bool)

  const NoKeys: Keys := Keys(false, false, false, false)

  /** The ball: centre, velocity per tick and radius. */
  datatype BallState = BallState(x: int, y: int, velX: int, velY: int, radius: int)

  /** Both paddles, kept together as the game keeps them in one object:
      a shared size, and per side a fixed x, a top edge y and a velocity. */
  datatype Paddles = Paddles(
    width: int, height: int,
    leftX: int, leftY: int, leftVel: int,
    rightX: int, rightY: int, rightVel: int)

  // ---------------------------------------------------------------- ball

  /** The ball's centre at `y` reaches the top or the bottom wall. */
  predicate TouchesTopOrBottom(y: int, radius: int, height: int) {
    y - radius <= 0 || y + radius >= height
  }

  /** The ball's centre at `x` reaches the left or the right edge. */
  predicate TouchesLeftOrRight(x: int, radius: int, width: int) {
    x - radius <= 0 || x + radius >= width
  }

  /** The translated ball touches the top or the bottom wall. */
  predicate Bounces(b: BallState, height: int) {
    TouchesTopOrBottom(b.y + b.velY, b.radius, height)
  }

  /** The translated ball touches the left or the right edge. */
  predicate Resets(b: BallState, width: int) {
    TouchesLeftOrRight(b.x + b.velX, b.radius, width)
  }

  /** One ball update: translate by the velocity, negate the vertical
      velocity if the translated ball touches the top or bottom wall, then,
      if it touches the left or right edge, put it back at the centre and
      negate both velocity components. */
  function MoveBall(b: BallState, width: int, height: int): (r: BallState)
    ensures r.radius == b.radius
    // velocities are only ever negated
    ensures Abs(r.velX) == Abs(b.velX) && Abs(r.velY) == Abs(b.velY)
    // no reset: the ball moved by exactly its velocity
    ensures !Resets(b, width) ==>
      r.x == b.x + b.velX && r.y == b.y + b.velY && r.velX == b.velX
    // reset: back at the centre, moving the other way horizontally
    ensures Resets(b, width) ==>
      r.x == width / 2 && r.y == height / 2 && r.velX == -b.velX
    // the vertical velocity: one negation for the wall (even when both walls
    // are touched), one for the reset, so both together cancel out
    ensures Bounces(b, height) && !Resets(b, width) ==> r.velY == -b.velY
    ensures !Bounces(b, height) && Resets(b, width) ==> r.velY == -b.velY
    ensures Bounces(b, height) && Resets(b, width) ==> r.velY == b.velY
    ensures !Bounces(b, height) && !Resets(b, width) ==> r.velY == b.velY
  {
    var moved := b.(x := b.x + b.velX, y := b.y + b.velY);
    var bounced :=
      if TouchesTopOrBottom(moved.y, moved.radius, height)
      then moved.(velY := -moved.velY)
      else moved;
    if TouchesLeftOrRight(bounced.x, bounced.radius, width)
    then bounced.(x := width / 2, y := height / 2, velX := -bounced.velX, velY := -bounced.velY)
    else bounced
  }

  // ------------------------------------------------------------- paddles

  /** The paddle's top edge kept on screen: the larger of 0 and the smaller
      of `height - paddleHeight` and `y`. */
  function ClampToArena(y: int, paddleHeight: int, height: int): (r: int)
    ensures 0 <= r
    ensures paddleHeight <= height ==> r <= height - paddleHeight
    ensures 0 <= y <= height - paddleHeight ==> r == y
    ensures y < 0 ==> r == 0
    ensures 0 <= height - paddleHeight < y ==> r == height - paddleHeight
    ensures height - paddleHeight < 0 ==> r == 0
  {
    Max(0, Min(height - paddleHeight, y))
  }

  /** Both paddles on screen: top edges within [0, height - paddle height]. */
  predicate OnScreen(p: Paddles, height: int) {
    0 <= p.leftY <= height - p.height && 0 <= p.rightY <= height - p.height
  }

  /** One paddle update: each paddle moves by its velocity and is clamped. */
  function MovePaddles(p: Paddles, height: int): (r: Paddles)
    // only the two top edges change
    ensures r == p.(leftY := r.leftY, rightY := r.rightY)
    ensures p.height <= height ==> OnScreen(r, height)
    ensures 0 <= p.leftY + p.leftVel <= height - p.height ==> r.leftY == p.leftY + p.leftVel
    ensures 0 <= p.rightY + p.rightVel <= height - p.height ==> r.rightY == p.rightY + p.rightVel
    // an overshoot lands on the bound it crossed
    ensures p.leftY + p.leftVel < 0 ==> r.leftY == 0
    ensures p.rightY + p.rightVel < 0 ==> r.rightY == 0
    ensures 0 <= height - p.height < p.leftY + p.leftVel ==> r.leftY == height - p.height
    ensures 0 <= height - p.height < p.rightY + p.rightVel ==> r.rightY == height - p.height
  {
    p.(leftY := ClampToArena(p.leftY + p.leftVel, p.height, height),
       rightY := ClampToArena(p.rightY + p.rightVel, p.height, height))
  }

  /** The velocity a paddle takes from its up and down keys; up wins. */
  function KeyVelocity(upKey: bool, downKey: bool): (v: int)
    ensures v == -PADDLE_SPEED || v == 0 || v == PADDLE_SPEED
    ensures v == -PADDLE_SPEED <==> upKey
    ensures v == PADDLE_SPEED <==> !upKey && downKey
  {
    if upKey then -PADDLE_SPEED else if downKey then PADDLE_SPEED else 0
  }

  /** A velocity the key rule can produce. */
  predicate IsKeyVelocity(v: int) {
    v == -PADDLE_SPEED || v == 0 || v == PADDLE_SPEED
  }

  /** Both paddle velocities taken from the keys held now. */
  function SetIntent(p: Paddles, keys: Keys): (r: Paddles)
    // only the two velocities change
    ensures r == p.(leftVel := r.leftVel, rightVel := r.rightVel)
    ensures IsKeyVelocity(r.leftVel) && IsKeyVelocity(r.rightVel)
    ensures r.leftVel == KeyVelocity(keys.w, keys.s)
    ensures r.rightVel == KeyVelocity(keys.up, keys.down)
  {
    p.(leftVel := KeyVelocity(keys.w, keys.s), rightVel := KeyVelocity(keys.up, keys.down))
  }

  /** The paddles' size and horizontal positions agree. */
  predicate SameGeometry(p: Paddles, q: Paddles) {
    p.width == q.width && p.height == q.height && p.leftX == q.leftX && p.rightX == q.rightX
  }

  // ----------------------------------------------------------- collision

  /** The ball's leftmost point lies in the left paddle's horizontal span
      and its centre in the paddle's vertical span. */
  predicate HitsLeft(b: BallState, p: Paddles) {
    p.leftX <= b.x - b.radius <= p.leftX + p.width &&
    p.leftY <= b.y <= p.leftY + p.height
  }

  /** The ball's rightmost point lies in the right paddle's horizontal span
      and its centre in the paddle's vertical span. */
  predicate HitsRight(b: BallState, p: Paddles) {
    p.rightX <= b.x + b.radius <= p.rightX + p.width &&
    p.rightY <= b.y <= p.rightY + p.height
  }

  /** The two horizontal test bands, on the ball's centre, do not overlap:
      the left one ends before the right one begins. */
  predicate BandsApart(p: Paddles, radius: int) {
    p.leftX + p.width + 2 * radius < p.rightX
  }

  /** Paddle collision: each side whose test passes negates the horizontal
      velocity; nothing else about the ball changes. */
  function Collide(b: BallState, p: Paddles): (r: BallState)
    // only the horizontal velocity changes
    ensures r == b.(velX := r.velX)
    ensures HitsLeft(b, p) != HitsRight(b, p) ==> r.velX == -b.velX
    ensures HitsLeft(b, p) == HitsRight(b, p) ==> r.velX == b.velX
    // with bands apart, the velocity is negated at most once, exactly on contact
    ensures BandsApart(p, b.radius) ==>
      r.velX == if HitsLeft(b, p) || HitsRight(b, p) then -b.velX else b.velX
  {
    var afterLeft := if HitsLeft(b, p) then b.(velX := -b.velX) else b;
    if HitsRight(afterLeft, p) then afterLeft.(velX := -afterLeft.velX) else afterLeft
  }
}
