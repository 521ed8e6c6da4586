# Pong simulation tick, in Dafny

This project models the simulation step of a two-player pong game. Each tick
the ball moves by its velocity. It bounces off the top and bottom walls. It
goes back to the centre when it reaches the left or right edge. The paddles
take a velocity of -5, 0 or 5 from their up and down keys, with up winning
when both are held. They move by that velocity and are clamped to the arena.
A one-axis test against each paddle negates the ball's horizontal velocity
on contact.

The game exists in two runnable forms, and each is modelled in its own form:

- `pong_game_oop.py` keeps the state in objects. Module `PongOop` has the
  classes `Ball`, `Paddle` (both paddles in one object, as in the game) and
  `PaddleCollision`. Their methods update fields in place, and each method's
  frame names only the fields it assigns. The loop calls these methods in
  the order ball, paddle move, key read, collision (`PongOop.Tick`).
  `PongOop.Play` builds the objects and runs the ticks.
- `pong_game.py` keeps the state in local variables of one `while` loop, in
  the order keys, paddles, ball, collision. Module `PongLoop` writes the loop
  body as the method `Tick` over a record of those variables. `MainGame` is
  the loop itself.

Both forms are proved against one set of rules in module `PongRules`. These
are pure functions, each with a contract: `MoveBall`, `ClampToArena`,
`MovePaddles`, `KeyVelocity`, `SetIntent` and `Collide`. Each loop's tick is
specified by composing those rules in that loop's own order (`OopTick`,
`PongLoop.Step`). A multi-tick run is specified as a function over a
sequence of key snapshots (`OopRun`, `PongLoop.Run`). Module `PongOrders`
shows that the two orders differ.

All quantities are integers, as in the game. Python's `//` by 2 is floor
division, and Dafny's `/` gives the same result for a positive divisor.
Python's `*= -1` on an integer is written as negation.

Some facts about the code's order and constants that the model keeps:
- pong_game.py runs the off-screen reset before the paddle collision test
  (pong_game.py:60-71).
- The object-oriented loop moves the ball first and moves the paddles
  before it reads the keys (pong_game_oop.py:203-206). In that form a key
  therefore moves its paddle one tick later.
- Starting from the initial state with no keys held, the first vertical
  bounce is on tick 143, at y = 586.
- The right paddle is at `WIDTH - 10` in pong_game_oop.py:69 and at
  `WIDTH - 100` in pong_game.py:22. Each module uses its own file's value.

## Model

| member | source | states |
|---|---|---|
| `PongRules.MoveBall` | pong_game_oop.py:39-58 | The radius is kept, and the speed on each axis is kept. With no reset, the ball moves by exactly its velocity. A reset puts the ball at (width/2, height/2) with the horizontal velocity negated. The vertical velocity is negated once for touching the top or bottom, even when both walls are touched, and once more for a reset, so wall plus reset leave it as it was. |
| `PongRules.ClampToArena` | pong_game_oop.py:80-85 | The result is never below 0. It is at most height minus paddle height when the paddle fits the arena. It equals y when y is already in range, and it equals the nearer bound otherwise. |
| `PongRules.MovePaddles` | pong_game_oop.py:74-85 | Only the two top edges change. Both paddles end on screen, whatever their velocity, when the paddle fits the arena. Each edge is y + velocity whenever that sum is in range. A sum below 0 lands at 0, and a sum past height minus paddle height lands on that bound. |
| `PongRules.KeyVelocity` | pong_game_oop.py:90-93 | The velocity is one of -5, 0 and 5. It is -5 exactly when the up key is held. It is 5 exactly when down is held and up is not, so up wins over down. |
| `PongRules.SetIntent` | pong_game_oop.py:87-93 | Only the two paddle velocities change. Each one comes from its own pair of keys by the key rule. |
| `PongRules.Collide` | pong_game_oop.py:100-122 | Only the ball's horizontal velocity changes. It is negated when exactly one paddle test passes, and kept when neither or both pass. When the two bands are apart, it is negated exactly when some test passes, so at most once. |
| `PongOop.Ball.constructor` | pong_game_oop.py:30-37 | The ball starts at (width/2, height/2) with velocity (2, 2) and the given radius, 15 by default. |
| `PongOop.Ball.BallMovement` | pong_game_oop.py:39-58 | The method's field updates give exactly `MoveBall` of the old ball. The radius is outside its frame. |
| `PongOop.Paddle.constructor` | pong_game_oop.py:64-71 | Both paddles are 20 by 120 and at rest. They start at y = height/2 - 60, with left x = 100 and right x = width - 10. |
| `PongOop.Paddle.PaddleMovement` | pong_game_oop.py:74-85 | The result is exactly `MovePaddles` of the old paddles. Only the two y fields are in its frame, so the x positions and sizes cannot change. |
| `PongOop.Paddle.KeyPressed` | pong_game_oop.py:87-93 | The result is exactly `SetIntent` of the old paddles and the keys. Only the two velocity fields are in its frame. |
| `PongOop.PaddleCollision.BallAndPaddleCollision` | pong_game_oop.py:100-122 | The result is exactly `Collide` of the old ball and the paddles. Only the ball's horizontal velocity is in its frame, so the ball's position, its vertical velocity and the paddles are untouched. |
| `PongOop.InitialPaddles` | pong_game_oop.py:64-71 | The layout that `Paddle.constructor` is proved equal to. Both paddles start at rest and at the same y. They are vertically centred, so the margins above and below differ by at most 1. They are on screen when the arena is at least 120 tall. |
| `PongOop.InitialWorld` | pong_game_oop.py:182-189 | The new session's paddles are on screen when the arena is at least 120 tall. The two collision bands are apart when the arena is wider than 160. |
| `PongOop.OopTick` | pong_game_oop.py:203-206 | The paddles move with the velocities from the previous tick. The velocities they end with come from this tick's keys. Geometry, radius and ball speeds are kept. The tick invariant holds afterwards whenever the paddle fits the arena. |
| `PongOop.Tick` | pong_game_oop.py:203-206 | Calling the four methods in the loop's order changes the objects exactly as `OopTick` says. |
| `PongOop.OopRun` | pong_game_oop.py:191-206 | The `while run` loop as a fold of `OopTick` over a sequence of key snapshots, the one `Play` is proved equal to. Paddle sizes and x positions and the ball radius never change. After at least one tick, the paddle velocities carried forward are the last snapshot's key intent. |
| `PongOop.OopRunKeepsInvariant` | pong_game_oop.py:191-206 | Over any sequence of ticks, the paddles stay on screen and their velocities stay in {-5, 0, 5}. Paddle geometry and ball radius never change, so bands apart at the start stay apart. |
| `PongOop.SpeedKept` | pong_game_oop.py:191-206 | Over any sequence of ticks, the ball's speed on each axis stays what it was. |
| `PongOop.Play` | pong_game_oop.py:183-211 | A session's objects end in the state `OopRun` gives from the initial state. The paddles end on screen when the arena is at least 120 tall. The ball keeps speed 2 on both axes. |
| `PongLoop.InitialState` | pong_game.py:14-25 | The ball starts at (500, 300) with velocity (2, 2). Both paddles start at y = 240 and at rest. |
| `PongLoop.Step` | pong_game.py:38-71 | This tick's keys set this tick's paddle velocities, with up winning. Each velocity is applied at once: y' = max(0, min(480, y + vel)). Both paddles stay in [0, 480], and the ball's speeds are kept. A reset puts the ball at (500, 300), negates both components relative to after the bounce, and never coincides with a paddle hit. With no reset, the ball moves by exactly its velocity, and the vertical velocity is negated exactly when the ball touches the top or bottom. The horizontal velocity is negated at most once per tick. |
| `PongLoop.Tick` | pong_game.py:38-71 | The loop body, written as plain updates of the variables, yields exactly `Step`. |
| `PongLoop.Run` | pong_game.py:30-71 | The `while run` loop as a fold of `Step` over a sequence of key snapshots, the one `MainGame` is proved equal to. The ball's speed on each axis never changes. After at least one tick, both paddles are in [0, 480] and their velocities come from the last snapshot's keys. |
| `PongLoop.RunKeepsInvariant` | pong_game.py:30-71 | Any sequence of ticks keeps both paddles in [0, 480] and keeps the ball's speed at 2 on each axis. |
| `PongLoop.MainGame` | pong_game.py:14-71 | The loop, started from the initial values, ends in the state `Run` gives. Every state it reaches satisfies the invariant. |
| `PongLoop.IdleTick` | pong_game.py:52-71 | With no keys held and the ball at (500+2k, 300+2k) moving (2, 2), with k at most 141, one tick moves the ball by (2, 2) and touches nothing. At k = 142 the tick bounces the ball off the bottom, at (786, 586). |
| `PongLoop.IdleDrift` | pong_game.py:15-71 | With no keys held, after k ticks (k at most 142) the ball is at (500+2k, 300+2k) with velocity (2, 2), and the paddles are still at 240. |
| `PongLoop.FirstBounce` | pong_game.py:15-71 | With no keys held, the first vertical flip happens on tick 143. The ball is then at (786, 586) with velocity (2, -2). No reset or paddle hit happens before it. |
| `PongOrders.KeyIntentLag` | pong_game_oop.py:203-206 | Holding W from the start, the single loop moves the left paddle to 235 on tick 1. The object-oriented loop leaves it at 240 on tick 1 and moves it to 235 on tick 2. |

## Left out

- Window creation, caption, frame pacing, screen clearing, drawing and
  display updates are rendering and timing I/O. They do not affect the
  state.
- Key polling is an input. Each tick takes the four key flags as a `Keys`
  value, and a run takes a finite sequence of them.
- Quit handling is event I/O and is not part of this model. In
  `pong_game.py` a quit event only ends the loop after the rest of that tick
  has run. In `pong_game_oop.py` it exits at once. A modelled session is
  always a finite number of full ticks.
- The text menus and the top-level menu script of both files are console
  I/O, including the recursive restart. A modelled session starts from a
  fresh initial state.
- The `Settings` object holds the arena size plus colours and display
  handles. Only the arena size matters to the state, and it is passed as
  `width` and `height`.
- `pong_game_v4.py` is not part of this model. It is a non-working copy
  whose live arithmetic is the same as `pong_game.py`.
- The integer casts used only for drawing the ball do not affect the
  state.
