/**
  The integer ball simulation of the Mesh Pong contract: one tick of the ball,
  the bounds every run keeps, and what decides the outcome of a leg.
 */
module PongBall {
  import opened Prelude

  const WIDTH := 640
  const HEIGHT := 360
  const PADDLE_MARGIN := 32
  const PADDLE_WIDTH := 12
  const PADDLE_HEIGHT := 82
  const PADDLE_STEP := 28
  const BALL_RADIUS := 8
  const BALL_SPEED_X := 42
  const BALL_SPEED_Y := 7
  const DEFAULT_SEED := 42

  const LEFT_PADDLE_RIGHT := PADDLE_MARGIN + PADDLE_WIDTH
  const RIGHT_PADDLE_LEFT := WIDTH - PADDLE_MARGIN - PADDLE_WIDTH

  datatype Side = Left | Right {
    function Opponent(): Side { if this == Left then Right else Left }
  }

  datatype Ball = Ball(x: int, y: int, vx: int, vy: int, radius: int, rally: int, seed: int)

  datatype BallContext = BallContext(ball: Ball, leftPaddleY: int, rightPaddleY: int, tick: int) {
    function PaddleY(side: Side): int { if side == Left then leftPaddleY else rightPaddleY }
  }

  datatype ScoredSignal = ScoredSignal(scorer: Side, rally: int, tick: int)

  datatype BallEvent =
    | BallMoved(ball: Ball)
    | Scored(point: ScoredSignal, ball: Ball)

  datatype AdvanceResult = AdvanceResult(context: BallContext, events: seq<BallEvent>)

  function ClampPaddleY(y: int): int {
    Max(0, Min(HEIGHT - PADDLE_HEIGHT, y))
  }

  /** The source's `%`, whose result takes the sign of the dividend. */
  function Remainder(a: int, b: int): int
    requires b > 0
  {
    if a >= 0 then a % b else -((-a) % b)
  }

  function InitialBall(seed: int, direction: Option<int>): Ball {
    var resolved := if direction.Some? then direction.value else if Remainder(seed, 2) == 0 then -1 else 1;
    var vertical := if Remainder(seed, 3) == 0 then -1 else 1;
    Ball(WIDTH / 2, 48 + Remainder(seed, 8) * 30,
         resolved * BALL_SPEED_X, vertical * (BALL_SPEED_Y + Remainder(seed, 4)),
         BALL_RADIUS, 0, seed)
  }

  /** Where the ball's centre is when it touches the face of a side's paddle. */
  function FaceX(side: Side, radius: int): int {
    if side == Left then LEFT_PADDLE_RIGHT + radius else RIGHT_PADDLE_LEFT - radius
  }

  predicate Toward(ball: Ball, side: Side) {
    if side == Left then ball.vx < 0 else ball.vx > 0
  }

  predicate Covers(paddleY: int, y: int) {
    paddleY <= y <= paddleY + PADDLE_HEIGHT
  }

  /** The free flight of one tick, with the bounce off the top and bottom walls. */
  function Fly(ball: Ball): Ball {
    var moved := ball.(x := ball.x + ball.vx, y := ball.y + ball.vy, rally := ball.rally + 1);
    if moved.y - moved.radius <= 0 || moved.y + moved.radius >= HEIGHT then
      moved.(y := Max(moved.radius, Min(HEIGHT - moved.radius, moved.y)), vy := -moved.vy)
    else
      moved
  }

  /** The two paddles, tried left then right against the ball as it stood before and after the flight. */
  function Return(before: Ball, flown: Ball, leftPaddleY: int, rightPaddleY: int): Ball {
    var crossedLeft :=
      before.x - before.radius >= LEFT_PADDLE_RIGHT && flown.x - flown.radius <= LEFT_PADDLE_RIGHT;
    var crossedRight :=
      before.x + before.radius <= RIGHT_PADDLE_LEFT && flown.x + flown.radius >= RIGHT_PADDLE_LEFT;
    var afterLeft :=
      if flown.vx < 0 && crossedLeft && Covers(leftPaddleY, flown.y) then
        flown.(x := LEFT_PADDLE_RIGHT + flown.radius, vx := Abs(flown.vx))
      else flown;
    if afterLeft.vx > 0 && crossedRight && Covers(rightPaddleY, flown.y) then
      afterLeft.(x := RIGHT_PADDLE_LEFT - afterLeft.radius, vx := -Abs(afterLeft.vx))
    else afterLeft
  }

  function ScorerOf(ball: Ball): Option<Side> {
    if ball.x + ball.radius < 0 then Some(Right)
    else if ball.x - ball.radius > WIDTH then Some(Left)
    else None
  }

  function ServeDirection(scorer: Side): int { if scorer == Left then -1 else 1 }

  function Advance(c: BallContext): AdvanceResult {
    var tick := c.tick + 1;
    var next := Return(c.ball, Fly(c.ball), c.leftPaddleY, c.rightPaddleY);
    match ScorerOf(next)
    case None =>
      AdvanceResult(c.(ball := next, tick := tick), [BallMoved(next)])
    case Some(scorer) =>
      var serve := InitialBall(c.ball.seed + tick, Some(ServeDirection(scorer)));
      AdvanceResult(c.(ball := serve, tick := tick),
                    [Scored(ScoredSignal(scorer, next.rally, tick), serve), BallMoved(serve)])
  }

  /** One tick in the source's own form: `nextBall` is reassigned case by case. */
  method AdvanceBall(c: BallContext) returns (r: AdvanceResult)
    ensures r == Advance(c)
  {
    var tick := c.tick + 1;
    var ball := c.ball;
    var nextBall := ball.(x := ball.x + ball.vx, y := ball.y + ball.vy, rally := ball.rally + 1);
    if nextBall.y - nextBall.radius <= 0 || nextBall.y + nextBall.radius >= HEIGHT {
      nextBall := nextBall.(y := Max(nextBall.radius, Min(HEIGHT - nextBall.radius, nextBall.y)),
                            vy := -nextBall.vy);
    }
    assert nextBall == Fly(ball);
    var crossedLeft :=
      ball.x - ball.radius >= LEFT_PADDLE_RIGHT && nextBall.x - nextBall.radius <= LEFT_PADDLE_RIGHT;
    var crossedRight :=
      ball.x + ball.radius <= RIGHT_PADDLE_LEFT && nextBall.x + nextBall.radius >= RIGHT_PADDLE_LEFT;
    var withinLeft := Covers(c.leftPaddleY, nextBall.y);
    var withinRight := Covers(c.rightPaddleY, nextBall.y);
    if nextBall.vx < 0 && crossedLeft && withinLeft {
      nextBall := nextBall.(x := LEFT_PADDLE_RIGHT + nextBall.radius, vx := Abs(nextBall.vx));
    }
    if nextBall.vx > 0 && crossedRight && withinRight {
      nextBall := nextBall.(x := RIGHT_PADDLE_LEFT - nextBall.radius, vx := -Abs(nextBall.vx));
    }
    assert nextBall == Return(ball, Fly(ball), c.leftPaddleY, c.rightPaddleY);
    var scorer := ScorerOf(nextBall);
    if scorer == None {
      return AdvanceResult(c.(ball := nextBall, tick := tick), [BallMoved(nextBall)]);
    }
    var point := ScoredSignal(scorer.value, nextBall.rally, tick);
    var resetBall := InitialBall(c.ball.seed + tick, Some(ServeDirection(scorer.value)));
    r := AdvanceResult(c.(ball := resetBall, tick := tick), [Scored(point, resetBall), BallMoved(resetBall)]);
  }

  // ---------------------------------------------------------------- kinematics

  /** What every reachable ball keeps. A ball never moves away from a face it has not yet reached. */
  predicate Kinematic(ball: Ball) {
    && ball.radius == BALL_RADIUS
    && 8 <= ball.y <= 352
    && -8 <= ball.x <= 648
    && (ball.vx == BALL_SPEED_X || ball.vx == -BALL_SPEED_X)
    && 7 <= Abs(ball.vy) <= 10
    && (ball.vx < 0 ==> ball.x <= FaceX(Right, BALL_RADIUS))
    && (ball.vx > 0 ==> ball.x >= FaceX(Left, BALL_RADIUS))
  }

  predicate Playable(c: BallContext) {
    Kinematic(c.ball) && c.ball.seed >= 0 && c.tick >= 0
  }

  /** Paddle heights, one pair per tick, are the only input of a run. */
  datatype Paddles = Paddles(left: int, right: int)

  function Place(c: BallContext, p: Paddles): BallContext {
    c.(leftPaddleY := p.left, rightPaddleY := p.right)
  }

  function Play(c: BallContext, inputs: seq<Paddles>): BallContext
    decreases |inputs|
  {
    if inputs == [] then c
    else Play(Advance(Place(c, inputs[0])).context, inputs[1..])
  }

  lemma PlayOneMore(c: BallContext, inputs: seq<Paddles>, p: Paddles)
    ensures Play(c, inputs + [p]) == Advance(Place(Play(c, inputs), p)).context
    decreases |inputs|
  {
    if inputs != [] {
      assert (inputs + [p])[1..] == inputs[1..] + [p];
      PlayOneMore(Advance(Place(c, inputs[0])).context, inputs[1..], p);
    }
  }

  lemma PlayAppend(c: BallContext, a: seq<Paddles>, b: seq<Paddles>)
    ensures Play(c, a + b) == Play(Play(c, a), b)
    decreases |a|
  {
    if a == [] {
      assert a + b == b;
    } else {
      assert (a + b)[1..] == a[1..] + b;
      PlayAppend(Advance(Place(c, a[0])).context, a[1..], b);
    }
  }

  lemma SeedRemainders(seed: int)
    ensures seed >= 0 ==> 0 <= Remainder(seed, 8) < 8 && 0 <= Remainder(seed, 4) < 4
    ensures seed < 0 ==> -8 < Remainder(seed, 8) <= 0 && -4 < Remainder(seed, 4) <= 0
    ensures seed < 0 && Remainder(seed, 4) == 0 && Remainder(seed, 8) >= -1 ==> Remainder(seed, 8) == 0
    ensures Remainder(seed, 8) == 0 ==> Remainder(seed, 4) == 0
    ensures Remainder(seed, 8) == 0 <==> seed % 8 == 0
  {
    var k := Abs(seed) / 8;
    assert Abs(seed) == 8 * k + Abs(seed) % 8;
    assert Abs(seed) % 4 == (Abs(seed) % 8) % 4;
  }

  lemma ServeShape(seed: int, direction: Option<int>)
    requires direction.Some? ==> direction.value == 1 || direction.value == -1
    ensures var ball := InitialBall(seed, direction);
            && ball.x == 320 && ball.radius == BALL_RADIUS && ball.y == 48 + 30 * Remainder(seed, 8)
            && (ball.vx == BALL_SPEED_X || ball.vx == -BALL_SPEED_X)
            && Abs(ball.vy) == Abs(7 + Remainder(seed, 4))
  {
  }

  /** A serve keeps the bounds exactly when its seed is not negative, or is a negative multiple of eight. */
  lemma ServeInBounds(seed: int, direction: Option<int>)
    requires direction.Some? ==> direction.value == 1 || direction.value == -1
    ensures Kinematic(InitialBall(seed, direction)) <==> seed >= 0 || seed % 8 == 0
  {
    SeedRemainders(seed);
    ServeShape(seed, direction);
  }

  lemma AdvanceKeepsPlayable(c: BallContext)
    requires Playable(c)
    ensures Playable(Advance(c).context)
    ensures Advance(c).context.tick == c.tick + 1
  {
    var next := Return(c.ball, Fly(c.ball), c.leftPaddleY, c.rightPaddleY);
    if ScorerOf(next).Some? {
      ServeInBounds(c.ball.seed + c.tick + 1, Some(ServeDirection(ScorerOf(next).value)));
    }
  }

  /** The bounds hold in every state of every run, whatever the paddles do. */
  lemma {:induction false} KinematicsForever(c: BallContext, inputs: seq<Paddles>)
    requires Playable(c)
    ensures Playable(Play(c, inputs)) && Play(c, inputs).tick == c.tick + |inputs|
    decreases |inputs|
  {
    if inputs != [] {
      AdvanceKeepsPlayable(Place(c, inputs[0]));
      KinematicsForever(Advance(Place(c, inputs[0])).context, inputs[1..]);
    }
  }

  // ---------------------------------------------------------------- legs

  /** A leg ends when a paddle turns the ball round or a point is scored. */
  predicate LegEnds(c: BallContext) {
    || Advance(c).events[0].Scored?
    || Toward(Advance(c).context.ball, Left) != Toward(c.ball, Left)
  }

  /** An upper bound on the ticks the current leg can still last. */
  function LegBudget(ball: Ball): int
  {
    if ball.vx < 0 then (ball.x + BALL_RADIUS) / BALL_SPEED_X + 1
    else (WIDTH + BALL_RADIUS - ball.x) / BALL_SPEED_X + 1
  }

  lemma LegBudgetShrinks(c: BallContext)
    requires Playable(c)
    ensures 1 <= LegBudget(c.ball) <= 15
    ensures LegEnds(c) || LegBudget(Advance(c).context.ball) == LegBudget(c.ball) - 1
  {
  }

  lemma PlayTail(c: BallContext, inputs: seq<Paddles>, k: nat)
    requires k + 1 < |inputs|
    ensures var next := Advance(Place(c, inputs[0])).context;
            && Place(Play(c, inputs[..k + 1]), inputs[k + 1]) == Place(Play(next, inputs[1..][..k]), inputs[1..][k])
  {
    assert inputs[1..][..k] == inputs[..k + 1][1..];
  }

  /** Whatever the paddles do, from any reachable state the current leg is over within fifteen ticks. */
  lemma {:induction false} EveryLegEnds(c: BallContext, inputs: seq<Paddles>)
    requires Playable(c) && |inputs| >= LegBudget(c.ball)
    ensures exists k :: 0 <= k < LegBudget(c.ball) <= 15 && LegEnds(Place(Play(c, inputs[..k]), inputs[k]))
    decreases LegBudget(c.ball)
  {
    var placed := Place(c, inputs[0]);
    LegBudgetShrinks(placed);
    if LegEnds(placed) {
      assert Place(Play(c, inputs[..0]), inputs[0]) == placed;
    } else {
      var next := Advance(placed).context;
      AdvanceKeepsPlayable(placed);
      LegBudgetShrinks(next);
      EveryLegEnds(next, inputs[1..]);
      var k :| 0 <= k < LegBudget(next.ball) && LegEnds(Place(Play(next, inputs[1..][..k]), inputs[1..][k]));
      PlayTail(c, inputs, k);
      assert LegEnds(Place(Play(c, inputs[..k + 1]), inputs[k + 1]));
    }
  }
}
