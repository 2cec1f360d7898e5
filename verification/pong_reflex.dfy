/**
  The reflex controller: it aims at the predicted intercept, or at the centre
  while the ball moves away, one bounded paddle step a turn. A reflex side never
  concedes a point, whatever its opponent does.
 */
module PongReflex {
  import opened Prelude
  import opened PongBall
  import opened PongIntercept

  datatype Paddle = Paddle(side: Side, y: int, height: int)

  datatype Direction = Up | Down

  datatype Intent = Intent(side: Side, direction: Direction, amount: int)

  datatype AimReason = Center | Intercept | PlannerTarget

  datatype Aim = Aim(side: Side, targetY: int, interceptY: Option<int>, reason: AimReason)

  const CENTERED_Y := HEIGHT / 2 - PADDLE_HEIGHT / 2

  function InitialPaddle(side: Side): Paddle {
    Paddle(side, CENTERED_Y, PADDLE_HEIGHT)
  }

  function MovePaddle(paddle: Paddle, direction: Direction, amount: int): Paddle {
    paddle.(y := ClampPaddleY(paddle.y + (if direction == Up then -amount else amount)))
  }

  function ReflexAim(ball: Ball, side: Side): Aim {
    var intercept := ResolveIntercept(ball, side);
    match intercept
    case None => Aim(side, ClampPaddleY(CENTERED_Y), intercept, Center)
    case Some(y) => Aim(side, y, intercept, Intercept)
  }

  function IntentForAim(paddle: Paddle, aim: Aim, maxStep: int): Option<Intent> {
    var delta := aim.targetY + paddle.height / 2 - (paddle.y + paddle.height / 2);
    if Abs(delta) < 1 then None
    else Some(Intent(paddle.side, if delta < 0 then Up else Down, Max(1, Min(maxStep, Abs(delta)))))
  }

  function ReflexIntent(ball: Ball, paddle: Paddle): Option<Intent> {
    IntentForAim(paddle, ReflexAim(ball, paddle.side), PADDLE_STEP)
  }

  /** The paddle after the reflex intent, if there is one, has been applied. */
  function ReflexMove(ball: Ball, paddle: Paddle): Paddle {
    match ReflexIntent(ball, paddle)
    case None => paddle
    case Some(i) => MovePaddle(paddle, i.direction, i.amount)
  }

  predicate OnTrack(y: int) { 0 <= y <= HEIGHT - PADDLE_HEIGHT }

  /** One reflex step closes the gap to the target by a full paddle step, or closes it. */
  lemma ReflexCloses(ball: Ball, paddle: Paddle)
    requires OnTrack(paddle.y)
    ensures var target := ReflexAim(ball, paddle.side).targetY; var moved := ReflexMove(ball, paddle);
            && OnTrack(target) && OnTrack(moved.y)
            && moved.side == paddle.side && moved.height == paddle.height
            && Abs(moved.y - target) == Max(0, Abs(paddle.y - target) - PADDLE_STEP)
  {
  }

  /**
    What a reflex side keeps. While the ball comes, the gap to the intercept can be closed
    before the crossing tick; while the ball goes, the gap to the centre can be brought within
    57 before the leg can end in a serve, and a paddle within 57 of the centre reaches
    every intercept in the seven ticks of a serve.
   */
  predicate Guarded(ball: Ball, side: Side, y: int) {
    && Kinematic(ball) && OnTrack(y)
    && (if Toward(ball, side) then
          ShortOfFace(ball, side)
          && Abs(y - ResolveIntercept(ball, side).value) <= PADDLE_STEP * PredictedSteps(ball, side)
        else Abs(y - CENTERED_Y) <= 57 + PADDLE_STEP * LegBudget(ball))
  }

  lemma ServeIsGuarded(seed: int, direction: Option<int>, side: Side, y: int)
    requires seed >= 0 && OnTrack(y) && Abs(y - CENTERED_Y) <= 57
    requires direction.Some? ==> direction.value == 1 || direction.value == -1
    ensures Guarded(InitialBall(seed, direction), side, y)
  {
    ServeInBounds(seed, direction);
    var ball := InitialBall(seed, direction);
    if Toward(ball, side) {
      assert PredictedSteps(ball, side) == 7;
      assert OnTrack(ResolveIntercept(ball, side).value);
    }
  }

  lemma PointNeedsLastTick(c: BallContext)
    requires Playable(c) && Advance(c).events[0].Scored?
    ensures LegBudget(c.ball) == 1
    ensures Toward(c.ball, Advance(c).events[0].point.scorer.Opponent())
  {
  }

  /** One turn: the reflex side moves, the opponent's paddle stands anywhere, the ball advances. */
  predicate ReflexPlaced(c: BallContext, side: Side, before: int) {
    && (c.PaddleY(side) == ReflexMove(c.ball, Paddle(side, before, PADDLE_HEIGHT)).y)
  }

  lemma ReflexTurnComing(c: BallContext, side: Side, before: int)
    requires Playable(c) && Guarded(c.ball, side, before) && ReflexPlaced(c, side, before)
    requires Toward(c.ball, side)
    ensures Guarded(Advance(c).context.ball, side, c.PaddleY(side))
    ensures !Advance(c).events[0].Scored?
  {
    ReflexCloses(c.ball, Paddle(side, before, PADDLE_HEIGHT));
    StepsAhead(c.ball, side);
    AdvanceKeepsPlayable(c);
    if PredictedSteps(c.ball, side) > 1 {
      QuietTick(c, side);
      PredictionStable(c.ball, side);
    } else {
      CrossesOnTime(c.ball, side);
      InterceptCovers(Fly(c.ball).y);
      CrossingTick(c, side);
      assert LegBudget(Advance(c).context.ball) >= 14;
    }
  }

  lemma ReturnedByOpponent(c: BallContext, side: Side)
    requires Playable(c) && !Toward(c.ball, side) && Toward(Advance(c).context.ball, side)
    requires !Advance(c).events[0].Scored?
    ensures ShortOfFace(Advance(c).context.ball, side) && PredictedSteps(Advance(c).context.ball, side) == 13
  {
    var next := Advance(c).context.ball;
    assert next.x == FaceX(side.Opponent(), 8);
    assert Distance(next, side) == 536;
  }

  lemma ReflexTurnGoing(c: BallContext, side: Side, before: int)
    requires Playable(c) && Guarded(c.ball, side, before) && ReflexPlaced(c, side, before)
    requires !Toward(c.ball, side)
    ensures Guarded(Advance(c).context.ball, side, c.PaddleY(side))
    ensures Advance(c).events[0].Scored? ==> Advance(c).events[0].point.scorer == side
  {
    ReflexCloses(c.ball, Paddle(side, before, PADDLE_HEIGHT));
    AdvanceKeepsPlayable(c);
    LegBudgetShrinks(c);
    var next := Advance(c).context.ball;
    if Advance(c).events[0].Scored? {
      PointNeedsLastTick(c);
      ServeIsGuarded(c.ball.seed + c.tick + 1, Some(ServeDirection(side)), side, c.PaddleY(side));
    } else if Toward(next, side) {
      ReturnedByOpponent(c, side);
      assert OnTrack(ResolveIntercept(next, side).value);
    }
  }

  /** A reflex side never concedes: one turn keeps the guard and never scores against it. */
  lemma ReflexTurn(c: BallContext, side: Side, before: int)
    requires Playable(c) && Guarded(c.ball, side, before) && ReflexPlaced(c, side, before)
    ensures Playable(Advance(c).context)
    ensures Guarded(Advance(c).context.ball, side, c.PaddleY(side))
    ensures Advance(c).events[0].Scored? ==> Advance(c).events[0].point.scorer == side
  {
    AdvanceKeepsPlayable(c);
    if Toward(c.ball, side) {
      ReflexTurnComing(c, side, before);
    } else {
      ReflexTurnGoing(c, side, before);
    }
  }
}
