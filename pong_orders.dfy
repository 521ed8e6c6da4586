/** The two game loops apply the same rules in different orders. The single
    loop reads the keys before moving the paddles, so a key held on a tick
    moves its paddle on that tick; the object-oriented loop moves the paddles
    before reading the keys, so the same key moves the paddle one tick later. */
module PongOrders {
  import opened PongRules
  import PongLoop
  import PongOop

  /** Holding W from the start: the single loop moves the left paddle up 5
      on the first tick; the object-oriented loop leaves it in place on the
      first tick and moves it up 5 on the second. */
  lemma KeyIntentLag()
    ensures PongLoop.Step(PongLoop.InitialState(), Keys(true, false, false, false)).leftPaddleY == 235
    ensures PongOop.OopTick(PongOop.InitialWorld(PongOop.WIDTH, PongOop.HEIGHT),
                            Keys(true, false, false, false), PongOop.WIDTH, PongOop.HEIGHT).paddles.leftY == 240
    ensures PongOop.OopRun(PongOop.InitialWorld(PongOop.WIDTH, PongOop.HEIGHT),
                           [Keys(true, false, false, false), Keys(true, false, false, false)],
                           PongOop.WIDTH, PongOop.HEIGHT).paddles.leftY == 235
  {
  }
}
